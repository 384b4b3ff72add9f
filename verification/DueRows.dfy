/** Which rows each log of a chain is due, said of the events on the chain alone: the other definition
    of what the event handlers write, and why the two agree. */
module DueRows {
  import opened Entities
  import opened Sequences
  import opened LogOrder
  import opened Chains
  import opened Decoders
  import opened LogsTable
  import opened Tables
  import opened Handlers
  import opened PipelineInvariant
  import opened Correlation

  // ---------- Requests ----------

  /** The log is an AMB request that decodes to the message. */
  predicate RequestsMessage(w: World, l: Log, m: Message) {
    && w.bridge.cfg.mode == ArbitraryMessage
    && var direction := if w.side == Home then HomeToForeign else ForeignToHome;
       || (l.event.MessageRequest? && UnmarshalMessage(w.bridge.env.keccak, direction, l.event.encoded) == Ok(m))
       || (l.event.LegacyMessageRequest?
           && UnmarshalLegacyMessage(w.bridge.env.keccak, direction, l.txHash + l.event.encoded) == Ok(m))
  }

  /** The transfer, of the transaction of the request, moves exactly its value to the bridge, in a token
      that is live. */
  ghost predicate PaysFor(w: World, request: Log, x: Log)
    requires request.event.ErcRequest?
  {
    && OnChain(w, x) && x.block == request.block && x.txHash == request.txHash
    && x.event.Transfer? && x.event.value == request.event.value
    && x.topic2 == Some(Zeros(12) + w.bridge.cfg.foreign.address)
    && exists t :: t in w.bridge.cfg.foreign.tokens && t.address == x.address && t.startBlock <= x.block <= t.endBlock
  }

  /** The sender of the last such transfer, or the recipient where there is none. */
  ghost predicate NamedSender(w: World, request: Log, sender: Address)
    requires request.event.ErcRequest?
  {
    && (forall x :: PaysFor(w, request, x) && (forall y :: PaysFor(w, request, y) ==> y.index <= x.index)
          ==> sender == x.event.sender)
    && ((forall x :: !PaysFor(w, request, x)) ==> sender == request.event.recipient)
  }

  /** An explicit request at home: its sender is that of the transaction, if it carries the value. */
  predicate HomeErcRequest(w: World, l: Log, m: ErcMessage) {
    && l.event.ErcRequest? && w.side == Home && m.direction == HomeToForeign
    && m.receiver == l.event.recipient && m.value == l.event.value
    && m.raw == l.event.recipient + BE(l.event.value, 32) + l.txHash + w.bridge.cfg.foreign.address
    && m.sender == if w.bridge.env.tx(l.txHash).value == l.event.value then w.bridge.env.tx(l.txHash).sender
                   else l.event.recipient
  }

  /** An explicit request on the foreign side. */
  ghost predicate ForeignErcRequest(w: World, l: Log, m: ErcMessage) {
    && l.event.ErcRequest? && w.side == Foreign && m.direction == ForeignToHome
    && m.receiver == l.event.recipient && m.value == l.event.value
    && m.raw == l.event.recipient + BE(l.event.value, 32) + l.txHash
    && NamedSender(w, l, m.sender)
  }

  /** The transaction of a transfer has an explicit request at the bridge contract. */
  ghost predicate HasExplicitRequest(w: World, transfer: Log) {
    exists x :: OnChain(w, x) && x.event.ErcRequest? && x.address == w.Cfg().address
                && x.block == transfer.block && x.txHash == transfer.txHash
  }

  /** The token of the transfer blacklists its sender. */
  predicate BlacklistedSender(w: World, transfer: Log)
    requires transfer.event.Transfer?
  {
    exists t ::
      t in w.bridge.cfg.foreign.tokens && t.address == transfer.address && transfer.event.sender in t.blacklist
  }

  /** A token transfer that is a request of its own: one of its sender, for itself. */
  ghost predicate TransferRequest(w: World, l: Log, m: ErcMessage) {
    && l.event.Transfer? && w.side == Foreign && m.direction == ForeignToHome
    && !BlacklistedSender(w, l) && !HasExplicitRequest(w, l)
    && m.sender == m.receiver == l.event.sender && m.value == l.event.value
    && m.raw == l.event.sender + BE(l.event.value, 32) + l.txHash
  }

  ghost predicate RequestsErc(w: World, l: Log, m: ErcMessage) {
    && w.bridge.cfg.mode == ErcToNative && m.msgHash == w.bridge.env.keccak(m.raw)
    && (HomeErcRequest(w, l, m) || ForeignErcRequest(w, l, m) || TransferRequest(w, l, m))
  }

  predicate RequestsInformation(w: World, l: Log, r: Information) {
    && w.bridge.cfg.mode == ArbitraryMessage && w.side == Home && l.event.InformationRequested?
    && r == Information(l.event.messageId, l.event.selector, l.event.sender, l.event.data)
  }

  // ---------- Signatures and executions ----------

  /** The log is a validator's signature under the hash. */
  predicate Signs(w: World, l: Log, hash: Hash, signer: Address) {
    && w.side == Home
    && (|| (l.event.MessageSigned? && hash == l.event.msgHash && signer == l.event.signer)
        || (l.event.ErcAffirmationSigned? && w.bridge.cfg.mode == ErcToNative && signer == l.event.signer
            && var data := w.bridge.env.tx(l.txHash).data;
               |data| >= 16 && hash == w.bridge.env.keccak(data[16..])))
  }

  /** An erc-to-native execution: its id is the hash of what its request was hashed over. */
  predicate ExecutesErc(w: World, l: Log, id: Hash) {
    && l.event.ErcExecuted?
    && var raw := l.event.recipient + BE(l.event.value, 32) + l.event.txHash;
       id == w.bridge.env.keccak(if w.side == Home then raw else raw + l.address)
  }

  /** The log is an execution under the id. */
  predicate Executes(w: World, l: Log, id: Hash, status: bool) {
    || (w.bridge.cfg.mode == ArbitraryMessage && l.event.MessageExecuted?
        && id == l.event.messageId && status == l.event.status)
    || (w.bridge.cfg.mode == ErcToNative && ExecutesErc(w, l, id) && status)
  }

  predicate AnswersInformation(w: World, l: Log, row: EventRow) {
    && w.bridge.cfg.mode == ArbitraryMessage && w.side == Home
    && (|| (l.event.InformationSigned? && row.SignedInformation?
            && row.messageId == l.event.messageId && row.signer == l.event.signer
            && UnmarshalConfirmInformationResult(w.bridge.env.tx(l.txHash).data) == Ok(row.data))
        || (l.event.InformationRetrieved? && row.ExecutedInformation?
            && row.messageId == l.event.messageId && row.status == l.event.status
            && row.callbackStatus == l.event.callbackStatus
            && UnmarshalConfirmInformationResult(w.bridge.env.tx(l.txHash).data) == Ok(row.data)))
  }

  /** The row that a log has in the table of its kind. */
  ghost predicate RowDue(w: World, l: Log, row: EventRow) {
    match row
    case Sent(hash) =>
      || (exists m :: RequestsMessage(w, l, m) && m.msgHash == hash)
      || (exists m :: RequestsErc(w, l, m) && m.msgHash == hash)
    case Signed(hash, signer) => Signs(w, l, hash, signer)
    case Collected(hash, responsible, signatures) =>
      && w.side == Home && l.event.SignaturesCollected? && hash == l.event.msgHash
      && responsible == l.event.relayer && signatures == l.event.count % 0x1_0000_0000_0000_0000
    case Executed(id, status) => Executes(w, l, id, status)
    case SentInformation(id) => exists r :: RequestsInformation(w, l, r) && r.messageId == id
    case SignedInformation(_, _, _) => AnswersInformation(w, l, row)
    case ExecutedInformation(_, _, _, _) => AnswersInformation(w, l, row)
  }

  ghost predicate Due(w: World, l: Log, u: Upsert) {
    match u
    case PutMessage(m) => RequestsMessage(w, l, m)
    case PutErc(m) => RequestsErc(w, l, m)
    case PutInformation(r) => RequestsInformation(w, l, r)
    case PutRow(ref, row) => ref == RefOf(l) && RowDue(w, l, row)
  }

  // ---------- The searches of the handlers ----------

  lemma {:induction false} BlacklistedIs(tokens: seq<Token>, address: Address, sender: Address)
    requires forall i, j :: 0 <= i < j < |tokens| ==> tokens[i].address != tokens[j].address
    ensures Blacklisted(tokens, address, sender) <==>
      exists t :: t in tokens && t.address == address && sender in t.blacklist
  {
    if tokens != [] {
      BlacklistedIs(tokens[1..], address, sender);
      assert forall t :: t in tokens <==> t == tokens[0] || t in tokens[1..];
    }
  }

  lemma LiveIs(cfg: SideConfig, b: nat, a: Address)
    ensures a in LiveTokens(cfg.tokens, b, b) <==>
      exists t :: t in cfg.tokens && t.address == a && t.startBlock <= b <= t.endBlock
    ensures TokenLive(cfg, b) ==> LiveTokens(cfg.tokens, b, b) != []
  {
    LiveTokensAre(cfg.tokens, b, b);
    if t :| t in cfg.tokens && t.startBlock <= b <= t.endBlock {
      assert t.address in LiveTokens(cfg.tokens, b, b);
    }
  }

  /** What the search for the transfers of a request finds on the chain. */
  lemma TransferMatches(w: World, l: Log, x: Log)
    requires ValidWorld(w) && w.side.Foreign? && OnChain(w, l) && l.event.ErcRequest? && TokenLive(w.Cfg(), l.block)
    ensures OnChain(w, x) && x.block == l.block && Matches(TransfersInTx(w.Cfg(), l), x)
            && x.event.Transfer? && x.event.value == l.event.value
      <==> PaysFor(w, l, x)
  {
    OnOneChain(w, l);
    LiveIs(w.Cfg(), l.block, x.address);
    if OnChain(w, x) { OnOneChain(w, x); }
  }

  lemma TransfersFound(w: World, l: Log)
    requires ValidWorld(w) && w.side.Foreign? && OnChain(w, l) && l.event.ErcRequest?
    requires UniqueRefs(BlockTable(w, l.block)) && TokenLive(w.Cfg(), l.block)
    ensures var found := Find(BlockTable(w, l.block), TransfersInTx(w.Cfg(), l));
      && (forall i, j :: 0 <= i < j < |found| ==> found[i].index < found[j].index)
      && forall x :: x in found && x.event.Transfer? && x.event.value == l.event.value <==> PaysFor(w, l, x)
  {
    var f := TransfersInTx(w.Cfg(), l);
    var found := Find(BlockTable(w, l.block), f);
    SortedIs(Select(BlockTable(w, l.block), f));
    BlockSeen(w, l.block);
    assert forall i :: 0 <= i < |found| ==> found[i] in found;
    forall x ensures x in found && x.event.Transfer? && x.event.value == l.event.value <==> PaysFor(w, l, x) {
      TransferMatches(w, l, x);
    }
  }

  /** In logs of one block, in order, the sender of the last transfer of the value. */
  lemma {:induction false} LastSenderIs(found: seq<Log>, value: Value, default: Address)
    requires forall i, j :: 0 <= i < j < |found| ==> found[i].index < found[j].index
    ensures || ((forall x :: x in found ==> !(x.event.Transfer? && x.event.value == value))
                && LastSender(found, value, default) == default)
            || exists x :: x in found && x.event.Transfer? && x.event.value == value
                 && LastSender(found, value, default) == x.event.sender
                 && forall y :: y in found && y.event.Transfer? && y.event.value == value ==> y.index <= x.index
  {
    if found != [] {
      var rest, last := found[..|found| - 1], found[|found| - 1];
      LastSenderIs(rest, value, default);
      assert forall y :: y in found <==> y in rest || y == last;
      assert last in found;
    }
  }

  lemma NamedIsLast(w: World, l: Log, sender: Address)
    requires ValidWorld(w) && w.side.Foreign? && OnChain(w, l) && l.event.ErcRequest?
    requires UniqueRefs(BlockTable(w, l.block)) && TokenLive(w.Cfg(), l.block)
    ensures var found := Find(BlockTable(w, l.block), TransfersInTx(w.Cfg(), l));
      NamedSender(w, l, sender) <==> sender == LastSender(found, l.event.value, l.event.recipient)
  {
    TransfersFound(w, l);
    LastSenderIs(Find(BlockTable(w, l.block), TransfersInTx(w.Cfg(), l)), l.event.value, l.event.recipient);
  }

  lemma RequestMatches(w: World, transfer: Log, x: Log)
    requires ValidWorld(w) && w.side.Foreign? && OnChain(w, transfer)
    ensures OnChain(w, x) && x.block == transfer.block && Matches(RequestsInTx(w.Cfg(), transfer), x)
      <==> OnChain(w, x) && x.event.ErcRequest? && x.address == w.Cfg().address
           && x.block == transfer.block && x.txHash == transfer.txHash
  {
    OnOneChain(w, transfer);
    if OnChain(w, x) { OnOneChain(w, x); }
  }

  lemma RequestsFound(w: World, transfer: Log)
    requires ValidWorld(w) && w.side.Foreign? && OnChain(w, transfer) && UniqueRefs(BlockTable(w, transfer.block))
    ensures Find(BlockTable(w, transfer.block), RequestsInTx(w.Cfg(), transfer)) != []
      <==> HasExplicitRequest(w, transfer)
  {
    var f := RequestsInTx(w.Cfg(), transfer);
    var table := BlockTable(w, transfer.block);
    BlockSeen(w, transfer.block);
    SortedIs(Select(table, f));
    SomeMember(Find(table, f));
    forall x ensures x in Find(table, f) <==>
      OnChain(w, x) && x.event.ErcRequest? && x.address == w.Cfg().address
      && x.block == transfer.block && x.txHash == transfer.txHash
    {
      RequestMatches(w, transfer, x);
    }
  }

  // ---------- The handlers write what is due ----------

  predicate Requesting(l: Log) {
    l.event.MessageRequest? || l.event.LegacyMessageRequest? || l.event.ErcRequest? || l.event.Transfer?
  }

  lemma PlainDue(w: World, l: Log, u: Upsert)
    requires ValidWorld(w) && OnChain(w, l) && !Requesting(l)
    ensures MadeBy(w, u, l) <==> Due(w, l, u)
  {
    BlockTableUnique(w, l.block);
  }

  lemma AmbDue(w: World, l: Log, u: Upsert)
    requires ValidWorld(w) && OnChain(w, l) && (l.event.MessageRequest? || l.event.LegacyMessageRequest?)
    ensures MadeBy(w, u, l) <==> Due(w, l, u)
  {
    BlockTableUnique(w, l.block);
  }

  lemma HomeErcDue(w: World, l: Log, u: Upsert)
    requires ValidWorld(w) && OnChain(w, l) && l.event.ErcRequest? && w.side.Home?
    ensures MadeBy(w, u, l) <==> Due(w, l, u)
  {
    BlockTableUnique(w, l.block);
  }

  /** The message of an explicit request on the foreign side. */
  ghost function ForeignMessage(w: World, l: Log): ErcMessage
    requires l.event.ErcRequest? && UniqueRefs(BlockTable(w, l.block))
  {
    var found := Find(BlockTable(w, l.block), TransfersInTx(w.bridge.cfg.foreign, l));
    var raw := PreImage(l.event.recipient, l.event.value, l.txHash);
    ErcMessage(ForeignToHome, w.bridge.env.keccak(raw), LastSender(found, l.event.value, l.event.recipient),
               l.event.recipient, l.event.value, raw)
  }

  lemma ForeignMessageIs(w: World, l: Log, m: ErcMessage)
    requires ValidWorld(w) && OnChain(w, l) && l.event.ErcRequest? && w.side.Foreign? && TokenLive(w.Cfg(), l.block)
    requires UniqueRefs(BlockTable(w, l.block)) && w.Mode().ErcToNative?
    ensures RequestsErc(w, l, m) <==> m == ForeignMessage(w, l)
  {
    NamedIsLast(w, l, m.sender);
  }

  lemma ForeignEffects(w: World, l: Log)
    requires ValidWorld(w) && l.event.ErcRequest? && w.side.Foreign? && UniqueRefs(BlockTable(w, l.block))
    ensures ChainEffects(w, l)
         == if !w.Mode().ErcToNative? then Ok([])
            else var m := ForeignMessage(w, l); Ok([PutErc(m), PutRow(RefOf(l), Sent(m.msgHash))])
  {}

  /** An erc-to-native request that yields one message. */
  lemma OneMessageDue(w: World, l: Log, m: ErcMessage, u: Upsert)
    requires IsErcRequest(l) && forall x :: RequestsErc(w, l, x) <==> x == m
    ensures Due(w, l, u) <==> u == PutErc(m) || u == PutRow(RefOf(l), Sent(m.msgHash))
  {
    assert RequestsErc(w, l, m);
  }

  lemma ForeignErcDue(w: World, l: Log, u: Upsert)
    requires ValidWorld(w) && OnChain(w, l) && l.event.ErcRequest? && w.side.Foreign? && TokenLive(w.Cfg(), l.block)
    ensures MadeBy(w, u, l) <==> Due(w, l, u)
  {
    BlockTableUnique(w, l.block);
    ForeignEffects(w, l);
    if w.Mode().ErcToNative? {
      forall x ensures RequestsErc(w, l, x) <==> x == ForeignMessage(w, l) { ForeignMessageIs(w, l, x); }
      OneMessageDue(w, l, ForeignMessage(w, l), u);
    }
  }

  lemma TransferDue(w: World, l: Log, u: Upsert)
    requires ValidWorld(w) && OnChain(w, l) && l.event.Transfer?
    ensures MadeBy(w, u, l) <==> Due(w, l, u)
  {
    BlockTableUnique(w, l.block);
    if w.side.Foreign? {
      RequestsFound(w, l);
      BlacklistedIs(w.Cfg().tokens, l.address, l.event.sender);
    }
  }

  /** The upserts that the handler of a chain log makes are those it is due. */
  lemma MadeIsDue(w: World, l: Log, u: Upsert)
    requires ValidWorld(w) && OnChain(w, l)
    requires w.side.Foreign? && l.event.ErcRequest? ==> TokenLive(w.Cfg(), l.block)
    ensures MadeBy(w, u, l) <==> Due(w, l, u)
  {
    if l.event.Transfer? {
      TransferDue(w, l, u);
    } else if l.event.ErcRequest? {
      if w.side.Home? { HomeErcDue(w, l, u); } else { ForeignErcDue(w, l, u); }
    } else if Requesting(l) {
      AmbDue(w, l, u);
    } else {
      PlainDue(w, l, u);
    }
  }

  /** The sender an explicit request on the foreign side is stored with: that of the last transfer of its
      own transaction that moves its value to the bridge in a live token, or else its recipient. */
  lemma ExplicitRequestSender(w: World, l: Log, m: ErcMessage)
    requires ValidWorld(w) && OnChain(w, l) && w.side.Foreign? && l.event.ErcRequest? && TokenLive(w.Cfg(), l.block)
    requires MadeBy(w, PutErc(m), l)
    ensures forall x ::
      PaysFor(w, l, x) && (forall y :: PaysFor(w, l, y) ==> y.index <= x.index) ==> m.sender == x.event.sender
    ensures (forall x :: !PaysFor(w, l, x)) ==> m.sender == l.event.recipient
  {
    MadeIsDue(w, l, PutErc(m));
  }
}
