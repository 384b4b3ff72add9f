/** What the event handlers write for one log (monitor/handlers.go), given the logs saved so far.
    Validator events are handled in module Validators. */
module Handlers {
  import opened Entities
  import opened Sequences
  import opened LogOrder
  import opened Chains
  import opened Decoders
  import opened LogsTable
  import opened Tables

  /** Which events have a handler on which side in which mode. */
  predicate Registered(mode: BridgeMode, side: Side, e: Event) {
    match e
    case MessageRequest(_) => mode.ArbitraryMessage?
    case LegacyMessageRequest(_) => mode.ArbitraryMessage?
    case ErcRequest(_, _) => mode.ErcToNative?
    case Transfer(_, _) => mode.ErcToNative? && side.Foreign?
    case MessageSigned(_, _) => side.Home?
    case ErcAffirmationSigned(_) => mode.ErcToNative? && side.Home?
    case SignaturesCollected(_, _, _) => side.Home?
    case MessageExecuted(_, _) => mode.ArbitraryMessage?
    case ErcExecuted(_, _, _) => mode.ErcToNative?
    case InformationRequested(_, _, _, _) => mode.ArbitraryMessage? && side.Home?
    case InformationSigned(_, _) => mode.ArbitraryMessage? && side.Home?
    case InformationRetrieved(_, _, _) => mode.ArbitraryMessage? && side.Home?
    case ValidatorAdded(_) => true
    case ValidatorRemoved(_) => true
    case Unknown => false
    case Malformed => false
  }

  /** Direction of the requests made on a side. */
  function RequestDirection(side: Side): Direction {
    if side.Home? then HomeToForeign else ForeignToHome
  }

  /** The bytes an erc-to-native request is hashed over, foreign to home. */
  function PreImage(recipient: Address, value: Value, txHash: Hash): Bytes {
    recipient + BE(value, 32) + txHash
  }

  /** The same, home to foreign. */
  function PreImageTo(recipient: Address, value: Value, txHash: Hash, foreign: Address): Bytes {
    recipient + BE(value, 32) + txHash + foreign
  }

  /** Whether the first configured token with this address blacklists the sender. */
  predicate Blacklisted(tokens: seq<Token>, address: Address, sender: Address) {
    tokens != [] &&
    if tokens[0].address == address then sender in tokens[0].blacklist
    else Blacklisted(tokens[1..], address, sender)
  }

  function LiveTokens(tokens: seq<Token>, first: nat, last: nat): seq<Address> {
    if tokens == [] then []
    else
      var rest := LiveTokens(tokens[..|tokens| - 1], first, last);
      var t := tokens[|tokens| - 1];
      if last < t.startBlock || first > t.endBlock then rest else rest + [t.address]
  }

  /** Addresses whose logs may be wanted somewhere in [first, last]. */
  function ContractAddresses(cfg: SideConfig, first: nat, last: nat): seq<Address> {
    LiveTokens(cfg.tokens, first, last) + [cfg.address, cfg.validators]
  }

  /** Explicit requests of the transaction of a token transfer. */
  function RequestsInTx(cfg: SideConfig, l: Log): Filter {
    Filter(l.chainId, [cfg.address], l.block, l.block, Some(l.txHash), Some(ErcRequestTopic), None)
  }

  /** Token transfers to the bridge in the transaction of an explicit request. */
  function TransfersInTx(cfg: SideConfig, l: Log): Filter {
    Filter(l.chainId, LiveTokens(cfg.tokens, l.block, l.block), l.block, l.block, Some(l.txHash),
           Some(TransferTopic), Some(Padded(cfg.address)))
  }

  /** The sender of the last transfer of exactly this value, or the default. */
  function LastSender(logs: seq<Log>, value: Value, default: Address): Address {
    if logs == [] then default
    else
      var last := logs[|logs| - 1];
      if last.event.Transfer? && last.event.value == value then last.event.sender
      else LastSender(logs[..|logs| - 1], value, default)
  }

  function SenderOfTx(env: Env, txHash: Hash, value: Value, default: Address): Address {
    if env.tx(txHash).value == value then env.tx(txHash).sender else default
  }

  /** The low 64 bits of an integer of any width. */
  function Low64(n: nat): nat { n % 0x1_0000_0000_0000_0000 }

  function RequestUpserts(m: Result<Message>, ref: LogRef): Result<seq<Upsert>> {
    if !m.Ok? then Panic else Ok([PutMessage(m.value), PutRow(ref, Sent(m.value.msgHash))])
  }

  function ErcUpserts(w: World, raw: Bytes, sender: Address, receiver: Address, value: Value, ref: LogRef)
    : Result<seq<Upsert>>
  {
    var hash := w.bridge.env.keccak(raw);
    Ok([PutErc(ErcMessage(RequestDirection(w.side), hash, sender, receiver, value, raw)), PutRow(ref, Sent(hash))])
  }

  /** The upserts a handler makes for a log, in order, or a panic, or an error if there is nothing
      to hand it. */
  ghost function Effects(w: World, table: set<Log>, l: Log): Result<seq<Upsert>>
    requires UniqueRefs(table)
  {
    var env := w.bridge.env;
    var foreign := w.bridge.cfg.foreign;
    var dir := RequestDirection(w.side);
    var ref := RefOf(l);
    if l.event.Malformed? then Error
    else if !Registered(w.Mode(), w.side, l.event) then Ok([])
    else
      match l.event
      case MessageRequest(e) => RequestUpserts(UnmarshalMessage(env.keccak, dir, e), ref)
      case LegacyMessageRequest(e) => RequestUpserts(UnmarshalLegacyMessage(env.keccak, dir, l.txHash + e), ref)
      case Transfer(sender, value) =>
        if Blacklisted(foreign.tokens, l.address, sender) || Find(table, RequestsInTx(foreign, l)) != [] then Ok([])
        else ErcUpserts(w, PreImage(sender, value, l.txHash), sender, sender, value, ref)
      case ErcRequest(recipient, value) =>
        if w.side.Foreign? then
          var sender := LastSender(Find(table, TransfersInTx(foreign, l)), value, recipient);
          ErcUpserts(w, PreImage(recipient, value, l.txHash), sender, recipient, value, ref)
        else
          var sender := SenderOfTx(env, l.txHash, value, recipient);
          ErcUpserts(w, PreImageTo(recipient, value, l.txHash, foreign.address), sender, recipient, value, ref)
      case MessageSigned(hash, signer) => Ok([PutRow(ref, Signed(hash, signer))])
      case ErcAffirmationSigned(signer) =>
        var data := env.tx(l.txHash).data;
        if |data| < 16 then Panic else Ok([PutRow(ref, Signed(env.keccak(data[16..]), signer))])
      case SignaturesCollected(hash, relayer, count) => Ok([PutRow(ref, Collected(hash, relayer, Low64(count)))])
      case MessageExecuted(id, status) => Ok([PutRow(ref, Executed(id, status))])
      case ErcExecuted(recipient, value, txHash) =>
        var raw := if w.side.Foreign? then PreImageTo(recipient, value, txHash, l.address)
                   else PreImage(recipient, value, txHash);
        Ok([PutRow(ref, Executed(env.keccak(raw), true))])
      case InformationRequested(id, selector, sender, data) =>
        Ok([PutInformation(Information(id, selector, sender, data)), PutRow(ref, SentInformation(id))])
      case InformationSigned(id, signer) =>
        var data := UnmarshalConfirmInformationResult(env.tx(l.txHash).data);
        if !data.Ok? then Panic else Ok([PutRow(ref, SignedInformation(id, signer, data.value))])
      case InformationRetrieved(id, status, callback) =>
        var data := UnmarshalConfirmInformationResult(env.tx(l.txHash).data);
        if !data.Ok? then Panic else Ok([PutRow(ref, ExecutedInformation(id, status, callback, data.value))])
      case ValidatorAdded(_) => Ok([])
      case ValidatorRemoved(_) => Ok([])
      case Unknown => Ok([])
      case Malformed => Error
  }

  ghost predicate TokenLive(cfg: SideConfig, b: nat) {
    exists t :: t in cfg.tokens && t.startBlock <= b <= t.endBlock
  }

  lemma {:induction false} LiveTokensAre(tokens: seq<Token>, first: nat, last: nat)
    ensures forall a :: a in LiveTokens(tokens, first, last) <==>
      exists t :: t in tokens && t.address == a && !(last < t.startBlock || first > t.endBlock)
  {
    if tokens != [] {
      var rest, last' := tokens[..|tokens| - 1], tokens[|tokens| - 1];
      LiveTokensAre(rest, first, last);
      assert forall t :: t in tokens <==> t in rest || t == last';
    }
  }

  /** With no live token the address list of the filter is empty, and an empty list is no
      condition at all: a transfer logged by any contract of the chain passes it. */
  lemma NoLiveTokenNoAddressFilter(cfg: SideConfig, l: Log, other: Log)
    requires !TokenLive(cfg, l.block)
    requires other.chainId == l.chainId && other.block == l.block && other.txHash == l.txHash
    requires other.event.Transfer? && other.topic2 == Some(Padded(cfg.address))
    ensures Matches(TransfersInTx(cfg, l), other)
  {
    LiveTokensAre(cfg.tokens, l.block, l.block);
    SomeMember(LiveTokens(cfg.tokens, l.block, l.block));
  }

  /** Relevant logs of one block, as a table. */
  ghost function BlockTable(w: World, b: nat): set<Log> {
    set l | l in At(w, b)
  }

  /** Of the contracts of this side, the table holds nothing but chain logs, and the block of l
      is complete. */
  ghost predicate SeesBlock(w: World, table: set<Log>, b: nat) {
    && (forall x :: x in table && x.chainId == w.Cfg().chainId && Ours(w, x.address) ==> OnChain(w, x))
    && (forall x :: OnChain(w, x) && x.block == b ==> x in table)
  }

  lemma BlockTableUnique(w: World, b: nat)
    requires ValidChain(w)
    ensures UniqueRefs(BlockTable(w, b))
  {
    AtOrdered(w, b);
    forall x, y | x in At(w, b) && y in At(w, b) && RefOf(x) == RefOf(y) ensures x == y {
      var i :| 0 <= i < |At(w, b)| && At(w, b)[i] == x;
      var j :| 0 <= j < |At(w, b)| && At(w, b)[j] == y;
      OrderedRefs(At(w, b), i, j);
    }
  }

  lemma FindInBlock(w: World, table: set<Log>, f: Filter, b: nat)
    requires ValidChain(w) && UniqueRefs(table) && UniqueRefs(BlockTable(w, b)) && SeesBlock(w, table, b)
    requires f.chainId == w.Cfg().chainId && f.first == f.last == b
    requires f.addresses != [] && forall a :: a in f.addresses ==> Ours(w, a)
    ensures Find(table, f) == Find(BlockTable(w, b), f)
  {
    forall x ensures x in Select(table, f) <==> x in Select(BlockTable(w, b), f) {
      AtMember(w, b, x);
      if x in table && Matches(f, x) { assert OnChain(w, x); }
    }
    assert Select(table, f) == Select(BlockTable(w, b), f);
  }

  /** Whole-block visibility: once the block of a log is completely saved, what its handler writes
      is a function of the chain alone, whatever else is in the table. */
  lemma EffectsOfChain(w: World, table: set<Log>, l: Log)
    requires ValidWorld(w) && UniqueRefs(table) && OnChain(w, l) && SeesBlock(w, table, l.block)
    requires UniqueRefs(BlockTable(w, l.block))
    requires w.side.Foreign? && l.event.ErcRequest? ==> TokenLive(w.Cfg(), l.block)
    ensures Effects(w, table, l) == Effects(w, BlockTable(w, l.block), l)
  {
    OnOneChain(w, l);
    if w.side.Foreign? {
      var cfg := w.Cfg();
      if l.event.Transfer? {
        FindInBlock(w, table, RequestsInTx(cfg, l), l.block);
      } else if l.event.ErcRequest? {
        LiveTokensAre(cfg.tokens, l.block, l.block);
        var t :| t in cfg.tokens && t.startBlock <= l.block <= t.endBlock;
        assert t.address in LiveTokens(cfg.tokens, l.block, l.block);
        FindInBlock(w, table, TransfersInTx(cfg, l), l.block);
      }
    }
  }

  /** What the handler of a chain log writes. */
  ghost function ChainEffects(w: World, l: Log): Result<seq<Upsert>>
    requires ValidChain(w)
  {
    BlockTableUnique(w, l.block);
    Effects(w, BlockTable(w, l.block), l)
  }

  /** A transfer to the bridge that another contract logs in the transaction of request l, after all
      logs of the bridge in that block, of the same value but from another sender than the one the
      chain's own transfers name. */
  ghost predicate Stray(w: World, l: Log, other: Log)
    requires ValidChain(w) && l.event.ErcRequest?
  {
    BlockTableUnique(w, l.block);
    && RefOf(other) == LogRef(l.chainId, l.block, other.index) && other.txHash == l.txHash
    && other.event.Transfer? && other.event.value == l.event.value && other.topic2 == Some(Padded(w.Cfg().address))
    && !Ours(w, other.address)
    && (forall x :: x in At(w, l.block) ==> x.index < other.index)
    && var found := Find(BlockTable(w, l.block), TransfersInTx(w.Cfg(), l));
      other.event.sender != LastSender(found, l.event.value, l.event.recipient)
  }

  lemma BlockSeen(w: World, b: nat)
    requires ValidChain(w)
    ensures forall x :: x in BlockTable(w, b) <==> OnChain(w, x) && x.block == b
    ensures forall x :: x in BlockTable(w, b) ==> x in At(w, b) && x.chainId == w.Cfg().chainId
  {
    forall x ensures x in At(w, b) <==> OnChain(w, x) && x.block == b
             ensures x in At(w, b) ==> x.chainId == w.Cfg().chainId { AtMember(w, b, x); }
  }

  lemma LastOf(found: seq<Log>, l: Log)
    requires Ordered(found) && l in found && forall x :: x in found ==> x == l || Before(x, l)
    ensures found[|found| - 1] == l
  {
    var i :| 0 <= i < |found| && found[i] == l;
    var last := found[|found| - 1];
    assert last in found;
    if i < |found| - 1 { assert Before(l, last); }
  }

  lemma StrayIsLast(w: World, l: Log, other: Log, table: set<Log>)
    requires ValidWorld(w) && OnChain(w, l) && l.event.ErcRequest? && Stray(w, l, other)
    requires !TokenLive(w.Cfg(), l.block)
    requires table == BlockTable(w, l.block) + {other} && UniqueRefs(table)
    ensures LastSender(Find(table, TransfersInTx(w.Cfg(), l)), l.event.value, l.event.recipient) == other.event.sender
  {
    var f := TransfersInTx(w.Cfg(), l);
    NoLiveTokenNoAddressFilter(w.Cfg(), l, other);
    BlockSeen(w, l.block);
    OnOneChain(w, l);
    SortedIs(Select(table, f));
    LastOf(Find(table, f), other);
  }

  lemma StrayTable(w: World, l: Log, other: Log)
    requires ValidWorld(w) && OnChain(w, l) && l.event.ErcRequest? && Stray(w, l, other)
    ensures var table := BlockTable(w, l.block) + {other};
      UniqueRefs(table) && SeesBlock(w, table, l.block)
  {
    BlockTableUnique(w, l.block);
    BlockSeen(w, l.block);
  }

  lemma StrayChangesEffects(w: World, l: Log, other: Log)
    requires ValidWorld(w) && w.Mode().ErcToNative? && w.side.Foreign?
    requires OnChain(w, l) && l.event.ErcRequest? && Stray(w, l, other) && !TokenLive(w.Cfg(), l.block)
    ensures var table := BlockTable(w, l.block) + {other};
      UniqueRefs(table) && SeesBlock(w, table, l.block) && Effects(w, table, l) != ChainEffects(w, l)
  {
    StrayTable(w, l, other);
    StrayIsLast(w, l, other, BlockTable(w, l.block) + {other});
  }

  /** Whatever the table holds besides the block of the log, its handler writes the same. */
  ghost predicate WritesAsChainSays(w: World, l: Log)
    requires ValidChain(w)
  {
    forall table :: UniqueRefs(table) && SeesBlock(w, table, l.block) ==> Effects(w, table, l) == ChainEffects(w, l)
  }

  /** Where another contract logs such a transfer, the handler of the request writes what the chain
      dictates, whatever else is saved, exactly when some token is live at its block. */
  lemma ChainDictatesExactly(w: World, l: Log, other: Log)
    requires ValidWorld(w) && w.Mode().ErcToNative? && w.side.Foreign?
    requires OnChain(w, l) && l.event.ErcRequest? && Stray(w, l, other)
    ensures WritesAsChainSays(w, l) <==> TokenLive(w.Cfg(), l.block)
  {
    BlockTableUnique(w, l.block);
    if TokenLive(w.Cfg(), l.block) {
      forall table | UniqueRefs(table) && SeesBlock(w, table, l.block)
        ensures Effects(w, table, l) == ChainEffects(w, l)
      {
        EffectsOfChain(w, table, l);
      }
    } else {
      StrayChangesEffects(w, l, other);
    }
  }
}
