/** The event handlers as they run (monitor/handlers.go): each reads the logs table and the home
    node and makes its upserts one by one, any of which may fail. */
module EventHandlers {
  import opened Entities
  import opened Sequences
  import opened Chains
  import opened Decoders
  import opened LogsTable
  import opened Tables
  import opened Handlers
  import opened Validators

  datatype Outcome = Done | Failed | Panicked

  /** The first n upserts of the effects were made, all of them if the handler is done. */
  predicate Made(before: Tables, after: Tables, effects: Result<seq<Upsert>>, outcome: Outcome, n: nat) {
    match outcome
    case Done => effects.Ok? && n == |effects.value| && after == ApplyAll(before, effects.value)
    case Failed => (after == before && n == 0)
                   || (effects.Ok? && 0 < n <= |effects.value| && after == ApplyAll(before, effects.value[..n]))
    case Panicked => effects.Panic? && after == before && n == 0
  }

  class BridgeEventHandler {
    const side: Side
    const cfg: BridgeConfig
    const env: Env
    const logs: LogsRepo
    const validators: ValidatorsRepo
    var tables: Tables

    /** The world whose events are handled. */
    ghost predicate Serves(w: World)
      reads logs
    {
      logs.Valid() && w.side == side && w.bridge.cfg == cfg && w.bridge.env == env
    }

    ghost function EffectsNow(w: World, l: Log): Result<seq<Upsert>>
      requires Serves(w)
      reads logs
    {
      logs.Unique();
      Effects(w, logs.Logs(), l)
    }

    constructor (w: World, logs: LogsRepo, validators: ValidatorsRepo)
      requires logs.Valid()
      ensures Serves(w) && this.logs == logs && this.validators == validators && tables == NO_ROWS
    {
      side, cfg, env := w.side, w.bridge.cfg, w.bridge.env;
      this.logs, this.validators := logs, validators;
      tables := NO_ROWS;
    }

    /** One statement: it may fail before or after it takes effect. */
    method Ensure(u: Upsert) returns (ok: bool, ghost made: bool)
      modifies this
      ensures tables == if made then Apply(old(tables), u) else old(tables)
      ensures ok ==> made
    {
      var reached: bool := *;
      var answered: bool := *;
      if reached { tables := Apply(tables, u); }
      ok, made := reached && answered, reached;
    }

    method EnsureOne(u: Upsert) returns (outcome: Outcome, ghost n: nat)
      modifies this
      ensures !outcome.Panicked? && Made(old(tables), tables, Ok([u]), outcome, n)
    {
      var ok, made := Ensure(u);
      OneUpsert(old(tables), u);
      assert [u][..1] == [u];
      outcome, n := if ok then Done else Failed, if made then 1 else 0;
    }

    method EnsureBoth(u: Upsert, v: Upsert) returns (outcome: Outcome, ghost n: nat)
      modifies this
      ensures !outcome.Panicked? && Made(old(tables), tables, Ok([u, v]), outcome, n)
    {
      var us := [u, v];
      assert us[..1] == [u] && us[..2] == us;
      TwoUpserts(old(tables), u, v);
      outcome, n := EnsureOne(u);
      OneUpsert(old(tables), u);
      if outcome.Done? {
        var ok, made := Ensure(v);
        outcome, n := if ok then Done else Failed, if made then 2 else 1;
      }
    }

    method HandleMessageRequest(ghost w: World, l: Log) returns (outcome: Outcome, ghost n: nat)
      requires Serves(w) && l.event.MessageRequest? && cfg.mode.ArbitraryMessage?
      modifies this
      ensures Made(old(tables), tables, EffectsNow(w, l), outcome, n)
    {
      var m := UnmarshalMessage(env.keccak, RequestDirection(side), l.event.encoded);
      if !m.Ok? { return Panicked, 0; }
      outcome, n := EnsureBoth(PutMessage(m.value), PutRow(RefOf(l), Sent(m.value.msgHash)));
    }

    method HandleLegacyMessageRequest(ghost w: World, l: Log) returns (outcome: Outcome, ghost n: nat)
      requires Serves(w) && l.event.LegacyMessageRequest? && cfg.mode.ArbitraryMessage?
      modifies this
      ensures Made(old(tables), tables, EffectsNow(w, l), outcome, n)
    {
      var m := UnmarshalLegacyMessage(env.keccak, RequestDirection(side), l.txHash + l.event.encoded);
      if !m.Ok? { return Panicked, 0; }
      outcome, n := EnsureBoth(PutMessage(m.value), PutRow(RefOf(l), Sent(m.value.msgHash)));
    }

    method IsBlacklisted(address: Address, sender: Address) returns (found: bool)
      ensures found == Blacklisted(cfg.foreign.tokens, address, sender)
    {
      var tokens := cfg.foreign.tokens;
      for i := 0 to |tokens|
        invariant Blacklisted(tokens, address, sender) == Blacklisted(tokens[i..], address, sender)
      {
        if tokens[i].address == address {
          for j := 0 to |tokens[i].blacklist|
            invariant sender !in tokens[i].blacklist[..j]
          {
            if sender == tokens[i].blacklist[j] { return true; }
          }
          assert tokens[i].blacklist[..|tokens[i].blacklist|] == tokens[i].blacklist;
          return false;
        }
      }
      found := false;
    }

    method HandleErcToNativeTransfer(ghost w: World, l: Log) returns (outcome: Outcome, ghost n: nat)
      requires Serves(w) && l.event.Transfer? && cfg.mode.ErcToNative? && side.Foreign?
      modifies this
      ensures Made(old(tables), tables, EffectsNow(w, l), outcome, n)
    {
      var from, value := l.event.sender, l.event.value;
      var blacklisted := IsBlacklisted(l.address, from);
      if blacklisted { return Done, 0; }
      var available: bool := *;
      if !available { return Failed, 0; }
      var requests := logs.FindLogs(RequestsInTx(cfg.foreign, l));
      if |requests| > 0 { return Done, 0; }
      var msg := from + BE(value, 32);
      msg := msg + l.txHash;
      var hash := env.keccak(msg);
      outcome, n := EnsureBoth(PutErc(ErcMessage(ForeignToHome, hash, from, from, value, msg)),
                               PutRow(RefOf(l), Sent(hash)));
    }

    method HandleErcToNativeUserRequestForAffirmation(ghost w: World, l: Log) returns (outcome: Outcome, ghost n: nat)
      requires Serves(w) && l.event.ErcRequest? && cfg.mode.ErcToNative? && side.Foreign?
      modifies this
      ensures Made(old(tables), tables, EffectsNow(w, l), outcome, n)
    {
      var recipient, value := l.event.recipient, l.event.value;
      var msg := recipient + BE(value, 32);
      msg := msg + l.txHash;
      var hash := env.keccak(msg);
      var available: bool := *;
      if !available { return Failed, 0; }
      var transfers := logs.FindLogs(TransfersInTx(cfg.foreign, l));
      var sender := recipient;
      for i := 0 to |transfers|
        invariant sender == LastSender(transfers[..i], value, recipient)
      {
        assert transfers[..i + 1][..i] == transfers[..i];
        if transfers[i].event.Transfer? && value == transfers[i].event.value {
          sender := transfers[i].event.sender;
        }
      }
      assert transfers[..|transfers|] == transfers;
      outcome, n := EnsureBoth(PutErc(ErcMessage(ForeignToHome, hash, sender, recipient, value, msg)),
                               PutRow(RefOf(l), Sent(hash)));
    }

    method HandleErcToNativeUserRequestForSignature(ghost w: World, l: Log) returns (outcome: Outcome, ghost n: nat)
      requires Serves(w) && l.event.ErcRequest? && cfg.mode.ErcToNative? && side.Home?
      modifies this
      ensures Made(old(tables), tables, EffectsNow(w, l), outcome, n)
    {
      var recipient, value := l.event.recipient, l.event.value;
      var msg := recipient + BE(value, 32);
      msg := msg + l.txHash;
      msg := msg + cfg.foreign.address;
      var hash := env.keccak(msg);
      var sender := recipient;
      var available: bool := *;
      if !available { return Failed, 0; }
      var tx := env.tx(l.txHash);
      if tx.value == value { sender := tx.sender; }
      outcome, n := EnsureBoth(PutErc(ErcMessage(HomeToForeign, hash, sender, recipient, value, msg)),
                               PutRow(RefOf(l), Sent(hash)));
    }

    method HandleErcToNativeSignedForAffirmation(ghost w: World, l: Log) returns (outcome: Outcome, ghost n: nat)
      requires Serves(w) && l.event.ErcAffirmationSigned? && cfg.mode.ErcToNative? && side.Home?
      modifies this
      ensures Made(old(tables), tables, EffectsNow(w, l), outcome, n)
    {
      var available: bool := *;
      if !available { return Failed, 0; }
      var data := env.tx(l.txHash).data;
      if |data| < 16 { return Panicked, 0; }
      outcome, n := EnsureOne(PutRow(RefOf(l), Signed(env.keccak(data[16..]), l.event.signer)));
    }

    /** HandleErcToNativeRelayedMessage on the foreign side, HandleErcToNativeAffirmationCompleted at home. */
    method HandleErcToNativeExecuted(ghost w: World, l: Log) returns (outcome: Outcome, ghost n: nat)
      requires Serves(w) && l.event.ErcExecuted? && cfg.mode.ErcToNative?
      modifies this
      ensures Made(old(tables), tables, EffectsNow(w, l), outcome, n)
    {
      var msg := l.event.recipient + BE(l.event.value, 32);
      msg := msg + l.event.txHash;
      if side.Foreign? { msg := msg + l.address; }
      outcome, n := EnsureOne(PutRow(RefOf(l), Executed(env.keccak(msg), true)));
    }

    method HandleUserRequestForInformation(ghost w: World, l: Log) returns (outcome: Outcome, ghost n: nat)
      requires Serves(w) && l.event.InformationRequested? && cfg.mode.ArbitraryMessage? && side.Home?
      modifies this
      ensures Made(old(tables), tables, EffectsNow(w, l), outcome, n)
    {
      var e := l.event;
      outcome, n := EnsureBoth(PutInformation(Information(e.messageId, e.selector, e.sender, e.data)),
                               PutRow(RefOf(l), SentInformation(e.messageId)));
    }

    /** HandleSignedForInformation and HandleInformationRetrieved. */
    method HandleInformationResult(ghost w: World, l: Log) returns (outcome: Outcome, ghost n: nat)
      requires Serves(w) && cfg.mode.ArbitraryMessage? && side.Home?
      requires l.event.InformationSigned? || l.event.InformationRetrieved?
      modifies this
      ensures Made(old(tables), tables, EffectsNow(w, l), outcome, n)
    {
      var available: bool := *;
      if !available { return Failed, 0; }
      var data := UnmarshalConfirmInformationResult(env.tx(l.txHash).data);
      if !data.Ok? { return Panicked, 0; }
      var row := match l.event
        case InformationSigned(id, signer) => SignedInformation(id, signer, data.value)
        case InformationRetrieved(id, status, callback) => ExecutedInformation(id, status, callback, data.value);
      outcome, n := EnsureOne(PutRow(RefOf(l), row));
    }

    /** The events whose fields are stored as they are. */
    method HandlePlain(ghost w: World, l: Log) returns (outcome: Outcome, ghost n: nat)
      requires Serves(w) && Registered(cfg.mode, side, l.event)
      requires l.event.MessageSigned? || l.event.SignaturesCollected? || l.event.MessageExecuted?
      modifies this
      ensures Made(old(tables), tables, EffectsNow(w, l), outcome, n)
    {
      var row := match l.event
        case MessageSigned(hash, signer) => Signed(hash, signer)
        case SignaturesCollected(hash, relayer, count) => Collected(hash, relayer, Low64(count))
        case MessageExecuted(id, status) => Executed(id, status);
      outcome, n := EnsureOne(PutRow(RefOf(l), row));
    }

    method HandleValidatorAdded(l: Log) returns (outcome: Outcome, ghost stepped: bool)
      requires Adds(l)
      modifies validators
      ensures if stepped then Step(old(validators.rows), l, validators.rows)
              else validators.rows == old(validators.rows)
      ensures !outcome.Panicked? && (outcome.Done? ==> stepped)
    {
      var ok;
      ok, stepped := validators.Ensure(RefOf(l), ValidatorRow(l.chainId, l.event.validator, None));
      outcome := if ok then Done else Failed;
    }

    method HandleValidatorRemoved(l: Log) returns (outcome: Outcome, ghost stepped: bool)
      requires Removes(l)
      modifies validators
      ensures if stepped then Step(old(validators.rows), l, validators.rows)
              else validators.rows == old(validators.rows)
      ensures !outcome.Panicked? && (outcome.Done? ==> stepped)
    {
      var available: bool := *;
      if !available { return Failed, false; }
      var k := validators.GetActiveValidator(l);
      if k.None? { return Done, true; }
      assert ActiveFor(validators.rows, k.value, l);
      var ok;
      ok, stepped := validators.Ensure(k.value, validators.rows[k.value].(removedBy := Some(RefOf(l))));
      outcome := if ok then Done else Failed;
    }

    /** Parsing the log, the lookup of the handler of its event, and its call. A log that cannot be
        parsed is an error, an event without a handler is skipped. The tables end up as the effects of
        the log say, as far as the handler got, and the validators table takes the step of the log, if
        the handler got to it. */
    method Handle(ghost w: World, l: Log) returns (outcome: Outcome, ghost n: nat, ghost stepped: bool)
      requires Serves(w)
      modifies this, validators
      ensures Made(old(tables), tables, EffectsNow(w, l), outcome, n)
      ensures if stepped then Step(old(validators.rows), l, validators.rows)
              else validators.rows == old(validators.rows)
      ensures outcome.Done? ==> stepped
      ensures stepped ==> EffectsNow(w, l).Ok?
      ensures l.event.Malformed? ==> outcome.Failed?
    {
      if l.event.Malformed? { return Failed, 0, false; }
      if !Registered(cfg.mode, side, l.event) { return Done, 0, true; }
      n := 0;
      if Adds(l) {
        outcome, stepped := HandleValidatorAdded(l);
      } else if Removes(l) {
        outcome, stepped := HandleValidatorRemoved(l);
      } else {
        outcome, n := HandleMessageEvent(w, l);
        stepped := outcome.Done?;
      }
    }

    method HandleMessageEvent(ghost w: World, l: Log) returns (outcome: Outcome, ghost n: nat)
      requires Serves(w) && Registered(cfg.mode, side, l.event) && !Adds(l) && !Removes(l)
      modifies this
      ensures Made(old(tables), tables, EffectsNow(w, l), outcome, n)
    {
      match l.event {
        case MessageRequest(_) => outcome, n := HandleMessageRequest(w, l);
        case LegacyMessageRequest(_) => outcome, n := HandleLegacyMessageRequest(w, l);
        case Transfer(_, _) => outcome, n := HandleErcToNativeTransfer(w, l);
        case ErcRequest(_, _) =>
          if side.Foreign? { outcome, n := HandleErcToNativeUserRequestForAffirmation(w, l); }
          else { outcome, n := HandleErcToNativeUserRequestForSignature(w, l); }
        case ErcAffirmationSigned(_) => outcome, n := HandleErcToNativeSignedForAffirmation(w, l);
        case ErcExecuted(_, _, _) => outcome, n := HandleErcToNativeExecuted(w, l);
        case InformationRequested(_, _, _, _) => outcome, n := HandleUserRequestForInformation(w, l);
        case InformationSigned(_, _) => outcome, n := HandleInformationResult(w, l);
        case InformationRetrieved(_, _, _) => outcome, n := HandleInformationResult(w, l);
        case MessageSigned(_, _) => outcome, n := HandlePlain(w, l);
        case SignaturesCollected(_, _, _) => outcome, n := HandlePlain(w, l);
        case MessageExecuted(_, _) => outcome, n := HandlePlain(w, l);
      }
    }
  }

  lemma OneUpsert(t: Tables, u: Upsert)
    ensures ApplyAll(t, [u]) == Apply(t, u)
  {
    assert [u][..0] == [];
    assert ApplyAll(t, []) == t;
  }

  lemma TwoUpserts(t: Tables, u: Upsert, v: Upsert)
    ensures ApplyAll(t, [u, v]) == Apply(Apply(t, u), v)
  {
    OneUpsert(t, u);
    var us := [u, v];
    assert us[..|us| - 1] == [u];
  }
}
