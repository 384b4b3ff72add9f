/** Which bytes the handlers hash for requests, executions and signatures, and why the hashes link
    an execution or a signature to its request and to no other (monitor/handlers.go). */
module Correlation {
  import opened Entities
  import opened Chains
  import opened Decoders
  import opened LogsTable
  import opened Tables
  import opened Handlers
  import opened PipelineInvariant

  predicate IsAmbRequest(l: Log) { l.event.MessageRequest? || l.event.LegacyMessageRequest? }

  predicate IsErcRequest(l: Log) { l.event.ErcRequest? || l.event.Transfer? }

  /** The encoded message of an AMB request. */
  function Encoded(l: Log): Bytes
    requires IsAmbRequest(l)
  {
    if l.event.MessageRequest? then l.event.encoded else l.txHash + l.event.encoded
  }

  function Recipient(l: Log): Address
    requires IsErcRequest(l)
  {
    if l.event.ErcRequest? then l.event.recipient else l.event.sender
  }

  function ErcRaw(w: World, l: Log): Bytes
    requires IsErcRequest(l)
  {
    if w.side.Home? then PreImageTo(Recipient(l), l.event.value, l.txHash, w.bridge.cfg.foreign.address)
    else PreImage(Recipient(l), l.event.value, l.txHash)
  }

  /** The log makes its handler hash these bytes. */
  ghost predicate HashedFor(w: World, l: Log, raw: Bytes) {
    OnChain(w, l) &&
    match l.event
    case MessageRequest(e) => raw == e
    case LegacyMessageRequest(e) => raw == l.txHash + e
    case ErcRequest(_, _) => raw == ErcRaw(w, l)
    case Transfer(_, _) => raw == ErcRaw(w, l)
    case ErcExecuted(recipient, value, txHash) =>
      raw == if w.side.Foreign? then PreImageTo(recipient, value, txHash, l.address)
             else PreImage(recipient, value, txHash)
    case ErcAffirmationSigned(_) =>
      var data := w.bridge.env.tx(l.txHash).data;
      |data| >= 16 && raw == data[16..]
    case _ => false
  }

  /** The hash tells apart all that is hashed for logs of the two worlds. */
  ghost predicate NoCollisions(v: World, w: World) {
    forall x, y, a, b :: HashedFor(v, x, a) && HashedFor(w, y, b) && v.bridge.env.keccak(a) == w.bridge.env.keccak(b)
      ==> a == b
  }

  lemma PreImageFields(r: Address, v: Value, t: Hash, s: Address, u: Value, q: Hash)
    requires PreImage(r, v, t) == PreImage(s, u, q)
    ensures r == s && v == u && t == q
  {
    var a, b := PreImage(r, v, t), PreImage(s, u, q);
    assert a[..20] == r && b[..20] == s;
    assert a[20..52] == BE(v, 32) && b[20..52] == BE(u, 32);
    assert a[52..] == t && b[52..] == q;
    ValueOfBE(v);
    ValueOfBE(u);
  }

  lemma PreImageToFields(r: Address, v: Value, t: Hash, f: Address, s: Address, u: Value, q: Hash, g: Address)
    requires PreImageTo(r, v, t, f) == PreImageTo(s, u, q, g)
    ensures r == s && v == u && t == q && f == g
  {
    var a, b := PreImageTo(r, v, t, f), PreImageTo(s, u, q, g);
    assert a[..84] == PreImage(r, v, t) && b[..84] == PreImage(s, u, q);
    assert a[84..] == f && b[84..] == g;
    PreImageFields(r, v, t, s, u, q);
  }

  lemma {:induction false} Pow256Add(j: nat, k: nat)
    ensures Pow256(j + k) == Pow256(j) * Pow256(k)
  {
    if j > 0 { Pow256Add(j - 1, k); }
  }

  lemma Pow256Of32()
    ensures Pow256(32) == TWO_TO_256
  {
    Pow256Of4();
    Pow256Add(4, 4);
    Pow256Add(8, 8);
    Pow256Add(16, 16);
  }

  lemma ValueOfBE(v: Value)
    ensures FromBE(BE(v, 32)) == v
  {
    FromBEofBE(v, 32);
    Pow256Of32();
    SmallMod(v, Pow256(32));
  }

  lemma SmallMod(n: nat, m: nat)
    requires n < m
    ensures n % m == n
  {}

  // ---------- Links ----------

  /** An execution is stored under the hash of a request exactly when recipient, value and
      transaction hash agree and, from home to foreign, it is the configured foreign contract that
      executed. */
  lemma ExecutionLinks(v: World, request: Log, m: ErcMessage, w: World, execution: Log, id: Hash)
    requires ValidWorld(v) && ValidWorld(w) && v.bridge == w.bridge && v.side != w.side && NoCollisions(v, w)
    requires OnChain(v, request) && MadeBy(v, PutErc(m), request)
    requires OnChain(w, execution) && execution.event.ErcExecuted?
    requires MadeBy(w, PutRow(RefOf(execution), Executed(id, true)), execution)
    ensures id == m.msgHash <==>
      && execution.event.recipient == m.receiver && execution.event.value == m.value
      && execution.event.txHash == request.txHash
      && (v.side.Home? ==> execution.address == w.Cfg().address)
  {
    BlockTableUnique(v, request.block);
    BlockTableUnique(w, execution.block);
    var e := execution.event;
    assert HashedFor(v, request, m.raw);
    if v.side.Home? {
      var raw := PreImageTo(e.recipient, e.value, e.txHash, execution.address);
      assert HashedFor(w, execution, raw);
      if id == m.msgHash {
        PreImageToFields(e.recipient, e.value, e.txHash, execution.address,
                         m.receiver, m.value, request.txHash, w.Cfg().address);
      }
    } else {
      var raw := PreImage(e.recipient, e.value, e.txHash);
      assert HashedFor(w, execution, raw);
      if id == m.msgHash { PreImageFields(e.recipient, e.value, e.txHash, m.receiver, m.value, request.txHash); }
    }
  }

  /** An execution is never taken for one of a request of its own side: the two pre-images have
      different lengths. */
  lemma NeverOwnRequest(w: World, request: Log, m: ErcMessage, execution: Log, id: Hash)
    requires ValidWorld(w) && NoCollisions(w, w)
    requires OnChain(w, request) && MadeBy(w, PutErc(m), request)
    requires OnChain(w, execution) && execution.event.ErcExecuted?
    requires MadeBy(w, PutRow(RefOf(execution), Executed(id, true)), execution)
    ensures id != m.msgHash
  {
    BlockTableUnique(w, request.block);
    BlockTableUnique(w, execution.block);
    var e := execution.event;
    var raw := if w.side.Foreign? then PreImageTo(e.recipient, e.value, e.txHash, execution.address)
               else PreImage(e.recipient, e.value, e.txHash);
    assert HashedFor(w, request, m.raw) && HashedFor(w, execution, raw);
    assert |raw| != |m.raw|;
  }

  /** Calldata of executeAffirmation(address, uint256, bytes32). */
  function EncodeAffirmation(selector: Bytes, recipient: Address, value: Value, txHash: Hash): Bytes
    requires |selector| == 4
  {
    selector + Padded(recipient) + BE(value, 32) + txHash
  }

  lemma CalldataIsPreImage(selector: Bytes, recipient: Address, value: Value, txHash: Hash)
    requires |selector| == 4
    ensures var data := EncodeAffirmation(selector, recipient, value, txHash);
      |data| >= 16 && data[16..] == PreImage(recipient, value, txHash)
  {
    var data := EncodeAffirmation(selector, recipient, value, txHash);
    assert data == (selector + Zeros(12)) + PreImage(recipient, value, txHash);
  }

  /** A validator's signature links to a foreign request exactly when the signing transaction names
      its recipient, value and transaction hash. */
  lemma SignatureLinks(v: World, request: Log, m: ErcMessage, w: World, signature: Log, hash: Hash,
                       selector: Bytes, recipient: Address, value: Value, txHash: Hash)
    requires ValidWorld(v) && ValidWorld(w) && v.bridge == w.bridge && v.side.Foreign? && w.side.Home?
    requires NoCollisions(v, w)
    requires OnChain(v, request) && MadeBy(v, PutErc(m), request)
    requires OnChain(w, signature) && signature.event.ErcAffirmationSigned?
    requires MadeBy(w, PutRow(RefOf(signature), Signed(hash, signature.event.signer)), signature)
    requires |selector| == 4
    requires w.bridge.env.tx(signature.txHash).data == EncodeAffirmation(selector, recipient, value, txHash)
    ensures hash == m.msgHash <==> recipient == m.receiver && value == m.value && txHash == request.txHash
  {
    BlockTableUnique(v, request.block);
    BlockTableUnique(w, signature.block);
    CalldataIsPreImage(selector, recipient, value, txHash);
    var raw := PreImage(recipient, value, txHash);
    assert HashedFor(v, request, m.raw) && HashedFor(w, signature, raw);
    if hash == m.msgHash { PreImageFields(recipient, value, txHash, m.receiver, m.value, request.txHash); }
  }
}
