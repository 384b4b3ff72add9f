/** The message tables of one bridge and their three upserts: first write wins (messages,
    information requests and every table keyed by log id), and last write wins on the sender
    (erc_to_native_messages). */
module Tables {
  import opened Entities
  import opened Decoders

  datatype ErcMessage = ErcMessage(direction: Direction, msgHash: Hash, sender: Address, receiver: Address,
                                   value: Value, raw: Bytes)

  datatype Information = Information(messageId: Hash, selector: Hash, sender: Address, data: Bytes)

  /** A row of one of the tables keyed by log id. */
  datatype EventRow =
    | Sent(msgHash: Hash)
    | Signed(msgHash: Hash, signer: Address)
    | Collected(msgHash: Hash, responsible: Address, signatures: nat)
    | Executed(messageId: Hash, status: bool)
    | SentInformation(messageId: Hash)
    | SignedInformation(messageId: Hash, signer: Address, data: Bytes)
    | ExecutedInformation(messageId: Hash, status: bool, callbackStatus: bool, data: Bytes)

  datatype Upsert =
    | PutMessage(message: Message)
    | PutErc(erc: ErcMessage)
    | PutInformation(information: Information)
    | PutRow(ref: LogRef, row: EventRow)

  datatype Tables = Tables(messages: map<Hash, Message>, erc: map<Hash, ErcMessage>,
                           informations: map<Hash, Information>, rows: map<LogRef, EventRow>)

  const NO_ROWS := Tables(map[], map[], map[], map[])

  function InsertIfAbsent<K, V>(m: map<K, V>, k: K, v: V): map<K, V> {
    if k in m then m else m[k := v]
  }

  /** One Ensure call on one of the tables. */
  function Apply(t: Tables, u: Upsert): Tables {
    match u
    case PutMessage(m) => t.(messages := InsertIfAbsent(t.messages, m.msgHash, m))
    case PutErc(m) =>
      t.(erc := t.erc[m.msgHash := if m.msgHash in t.erc then t.erc[m.msgHash].(sender := m.sender) else m])
    case PutInformation(r) => t.(informations := InsertIfAbsent(t.informations, r.messageId, r))
    case PutRow(ref, row) => t.(rows := InsertIfAbsent(t.rows, ref, row))
  }

  function ApplyAll(t: Tables, us: seq<Upsert>): Tables {
    if us == [] then t else Apply(ApplyAll(t, us[..|us| - 1]), us[|us| - 1])
  }

  /** The row an upsert wants to see in its table. */
  predicate Holds(t: Tables, u: Upsert) {
    match u
    case PutMessage(m) => m.msgHash in t.messages && t.messages[m.msgHash] == m
    case PutErc(m) => m.msgHash in t.erc && t.erc[m.msgHash] == m
    case PutInformation(r) => r.messageId in t.informations && t.informations[r.messageId] == r
    case PutRow(ref, row) => ref in t.rows && t.rows[ref] == row
  }

  /** The two upserts are of one table and have one key. */
  predicate SameKey(u: Upsert, v: Upsert) {
    match (u, v)
    case (PutMessage(m), PutMessage(n)) => m.msgHash == n.msgHash
    case (PutErc(m), PutErc(n)) => m.msgHash == n.msgHash
    case (PutInformation(r), PutInformation(s)) => r.messageId == s.messageId
    case (PutRow(j, _), PutRow(k, _)) => j == k
    case _ => false
  }

  /** Two upserts of the same key that want different rows. */
  predicate Clash(u: Upsert, v: Upsert) { u != v && SameKey(u, v) }

  predicate Agreeing(us: seq<Upsert>) {
    forall u, v :: u in us && v in us ==> !Clash(u, v)
  }

  /** Every row of the tables was asked for by one of the upserts. */
  ghost predicate OnlyFrom(t: Tables, us: seq<Upsert>) {
    && (forall k :: k in t.messages ==> t.messages[k].msgHash == k && PutMessage(t.messages[k]) in us)
    && (forall k :: k in t.erc ==> t.erc[k].msgHash == k && PutErc(t.erc[k]) in us)
    && (forall k :: k in t.informations ==> t.informations[k].messageId == k && PutInformation(t.informations[k]) in us)
    && (forall k :: k in t.rows ==> PutRow(k, t.rows[k]) in us)
  }

  /** Every row is under its own key. */
  predicate Keyed(t: Tables) {
    && (forall k :: k in t.messages ==> t.messages[k].msgHash == k)
    && (forall k :: k in t.erc ==> t.erc[k].msgHash == k)
    && (forall k :: k in t.informations ==> t.informations[k].messageId == k)
  }

  predicate SameUpserts(us: seq<Upsert>, vs: seq<Upsert>) {
    (forall u :: u in us ==> u in vs) && (forall v :: v in vs ==> v in us)
  }

  lemma {:induction false} AgreeingResult(us: seq<Upsert>)
    requires Agreeing(us)
    ensures var t := ApplyAll(NO_ROWS, us);
      OnlyFrom(t, us) && forall u :: u in us ==> Holds(t, u)
  {
    if us != [] {
      var rest, last := us[..|us| - 1], us[|us| - 1];
      assert us == rest + [last];
      assert last in us;
      forall u, v | u in rest && v in rest ensures !Clash(u, v) {
        assert u in us && v in us;
      }
      AgreeingResult(rest);
      OneMoreUpsert(ApplyAll(NO_ROWS, rest), rest, last);
    }
  }

  lemma OneMoreUpsert(t: Tables, us: seq<Upsert>, u: Upsert)
    requires OnlyFrom(t, us) && (forall v :: v in us ==> Holds(t, v) && !Clash(v, u))
    ensures OnlyFrom(Apply(t, u), us + [u])
    ensures forall v :: v in us + [u] ==> Holds(Apply(t, u), v)
  {
    forall v | v in us + [u] ensures Holds(Apply(t, u), v) {
      if v in us {
        assert Holds(t, v) && !Clash(v, u);
      } else {
        assert v == u;
        match u {
          case PutMessage(m) => if m.msgHash in t.messages { assert !Clash(PutMessage(t.messages[m.msgHash]), u); }
          case PutErc(m) => if m.msgHash in t.erc { assert !Clash(PutErc(t.erc[m.msgHash]), u); }
          case PutInformation(r) =>
            if r.messageId in t.informations { assert !Clash(PutInformation(t.informations[r.messageId]), u); }
          case PutRow(ref, row) => if ref in t.rows { assert !Clash(PutRow(ref, t.rows[ref]), u); }
        }
      }
    }
  }

  lemma SameTables(s: Tables, us: seq<Upsert>, t: Tables, vs: seq<Upsert>)
    requires SameUpserts(us, vs)
    requires OnlyFrom(s, us) && (forall u :: u in us ==> Holds(s, u))
    requires OnlyFrom(t, vs) && (forall v :: v in vs ==> Holds(t, v))
    ensures s == t
  {
    forall k ensures k in s.messages <==> k in t.messages
             ensures k in s.messages ==> s.messages[k] == t.messages[k] {
      if k in s.messages { assert Holds(t, PutMessage(s.messages[k])); }
      if k in t.messages { assert Holds(s, PutMessage(t.messages[k])); }
    }
    assert s.messages == t.messages;
    forall k ensures k in s.erc <==> k in t.erc
             ensures k in s.erc ==> s.erc[k] == t.erc[k] {
      if k in s.erc { assert Holds(t, PutErc(s.erc[k])); }
      if k in t.erc { assert Holds(s, PutErc(t.erc[k])); }
    }
    assert s.erc == t.erc;
    forall k ensures k in s.informations <==> k in t.informations
             ensures k in s.informations ==> s.informations[k] == t.informations[k] {
      if k in s.informations { assert Holds(t, PutInformation(s.informations[k])); }
      if k in t.informations { assert Holds(s, PutInformation(t.informations[k])); }
    }
    assert s.informations == t.informations;
    forall k ensures k in s.rows <==> k in t.rows
             ensures k in s.rows ==> s.rows[k] == t.rows[k] {
      if k in s.rows { assert Holds(t, PutRow(k, s.rows[k])); }
      if k in t.rows { assert Holds(s, PutRow(k, t.rows[k])); }
    }
    assert s.rows == t.rows;
  }

  /** As long as no two upserts clash, the tables depend only on which upserts were made: neither
      their order nor how often each was repeated matters. */
  lemma OrderIsIrrelevant(us: seq<Upsert>, vs: seq<Upsert>)
    requires Agreeing(us) && SameUpserts(us, vs)
    ensures ApplyAll(NO_ROWS, us) == ApplyAll(NO_ROWS, vs)
  {
    assert Agreeing(vs);
    AgreeingResult(us);
    AgreeingResult(vs);
    SameTables(ApplyAll(NO_ROWS, us), us, ApplyAll(NO_ROWS, vs), vs);
  }

  /** The row a table has for the key of an upsert, as the upsert that asks for it. */
  function Found(t: Tables, u: Upsert): Option<Upsert> {
    match u
    case PutMessage(m) => if m.msgHash in t.messages then Some(PutMessage(t.messages[m.msgHash])) else None
    case PutErc(m) => if m.msgHash in t.erc then Some(PutErc(t.erc[m.msgHash])) else None
    case PutInformation(r) =>
      if r.messageId in t.informations then Some(PutInformation(t.informations[r.messageId])) else None
    case PutRow(ref, row) => if ref in t.rows then Some(PutRow(ref, t.rows[ref])) else None
  }

  /** The part of a row that later writes never change. */
  function Fixed(u: Upsert): Upsert {
    if u.PutErc? then PutErc(u.erc.(sender := u.erc.receiver)) else u
  }

  lemma {:induction false} FirstWriteStays(first: Upsert, us: seq<Upsert>)
    ensures var found := Found(ApplyAll(NO_ROWS, [first] + us), first);
      found.Some? && Fixed(found.value) == Fixed(first)
  {
    var all := [first] + us;
    if us == [] {
      assert all[..0] == [];
    } else {
      assert all[..|all| - 1] == [first] + us[..|us| - 1];
      FirstWriteStays(first, us[..|us| - 1]);
    }
  }

  lemma ApplyFound(t: Tables, u: Upsert, v: Upsert)
    ensures !SameKey(u, v) ==> Found(Apply(t, v), u) == Found(t, u)
    ensures SameKey(u, v) && Found(t, u).None? ==> Found(Apply(t, v), u) == Some(v)
    ensures SameKey(u, v) && Found(t, u).Some? && !u.PutErc? ==> Found(Apply(t, v), u) == Found(t, u)
    ensures SameKey(u, v) && u.PutErc? && Found(t, u).Some? && Found(t, u).value.PutErc? ==>
      Found(Apply(t, v), u) == Some(PutErc(Found(t, u).value.erc.(sender := v.erc.sender)))
  {}

  /** Under a key no upsert has, there is no row. */
  lemma {:induction false} NeverWritten(us: seq<Upsert>, u: Upsert)
    requires forall k :: 0 <= k < |us| ==> !SameKey(u, us[k])
    ensures Found(ApplyAll(NO_ROWS, us), u).None?
  {
    if us != [] {
      NeverWritten(us[..|us| - 1], u);
      ApplyFound(ApplyAll(NO_ROWS, us[..|us| - 1]), u, us[|us| - 1]);
    }
  }

  /** Whatever the upserts, the row under a key is the first one written there, except that an
      erc-to-native message has the sender of the last one. */
  lemma {:induction false} RowIsFirstWithLastSender(us: seq<Upsert>, i: nat, j: nat)
    requires i <= j < |us| && SameKey(us[i], us[j])
    requires forall k :: 0 <= k < i ==> !SameKey(us[i], us[k])
    requires forall k :: j < k < |us| ==> !SameKey(us[i], us[k])
    ensures Found(ApplyAll(NO_ROWS, us), us[i])
         == Some(if us[i].PutErc? then PutErc(us[i].erc.(sender := us[j].erc.sender)) else us[i])
  {
    var rest, last := us[..|us| - 1], us[|us| - 1];
    if j < |us| - 1 {
      RowIsFirstWithLastSender(rest, i, j);
    } else if i == j {
      NeverWritten(rest, us[i]);
    } else {
      var k := LastBefore(us, i, j);
      RowIsFirstWithLastSender(rest, i, k);
    }
    ApplyFound(ApplyAll(NO_ROWS, rest), us[i], last);
  }

  /** The last upsert before j under the key of upsert i. */
  lemma {:induction false} LastBefore(us: seq<Upsert>, i: nat, j: nat) returns (k: nat)
    requires i < j <= |us|
    ensures i <= k < j && SameKey(us[i], us[k]) && forall x :: k < x < j ==> !SameKey(us[i], us[x])
    decreases j
  {
    if SameKey(us[i], us[j - 1]) { k := j - 1; } else { k := LastBefore(us, i, j - 1); }
  }

  /** The last write decides the sender of an erc-to-native message, whatever was written before. */
  lemma LastSenderWins(us: seq<Upsert>, m: ErcMessage)
    ensures var t := ApplyAll(NO_ROWS, us + [PutErc(m)]);
      m.msgHash in t.erc && t.erc[m.msgHash].sender == m.sender
  {
    assert (us + [PutErc(m)])[..|us|] == us;
  }

  /** Order is irrelevant for exactly the upserts among which no two clash: with a clash, two
      arrangements of the same upserts leave different tables. */
  lemma OrderIsIrrelevantExactly(us: seq<Upsert>)
    ensures Agreeing(us) <==>
      forall vs, ws :: SameUpserts(us, vs) && SameUpserts(us, ws) ==> ApplyAll(NO_ROWS, vs) == ApplyAll(NO_ROWS, ws)
  {
    if Agreeing(us) {
      forall vs, ws | SameUpserts(us, vs) && SameUpserts(us, ws)
        ensures ApplyAll(NO_ROWS, vs) == ApplyAll(NO_ROWS, ws)
      {
        OrderIsIrrelevant(us, vs);
        OrderIsIrrelevant(us, ws);
      }
    } else {
      var u, v :| u in us && v in us && Clash(u, v);
      if Fixed(u) != Fixed(v) { FirstDecides(us, u, v); } else { LastDecides(us, u, v); }
    }
  }

  lemma FirstDecides(us: seq<Upsert>, u: Upsert, v: Upsert)
    requires u in us && v in us && Clash(u, v) && Fixed(u) != Fixed(v)
    ensures exists vs, ws ::
      SameUpserts(us, vs) && SameUpserts(us, ws) && ApplyAll(NO_ROWS, vs) != ApplyAll(NO_ROWS, ws)
  {
    FirstWriteStays(u, us);
    FirstWriteStays(v, us);
    assert SameUpserts(us, [u] + us) && SameUpserts(us, [v] + us);
    assert Found(ApplyAll(NO_ROWS, [u] + us), u) != Found(ApplyAll(NO_ROWS, [v] + us), v);
  }

  lemma LastDecides(us: seq<Upsert>, u: Upsert, v: Upsert)
    requires u in us && v in us && Clash(u, v) && Fixed(u) == Fixed(v)
    ensures exists vs, ws ::
      SameUpserts(us, vs) && SameUpserts(us, ws) && ApplyAll(NO_ROWS, vs) != ApplyAll(NO_ROWS, ws)
  {
    assert SameUpserts(us, us + [u]) && SameUpserts(us, us + [v]);
    LastSenderWins(us, u.erc);
    LastSenderWins(us, v.erc);
    assert ApplyAll(NO_ROWS, us + [u]) != ApplyAll(NO_ROWS, us + [v]);
  }

  /** FindPendingMessages: messages that no executed row refers to. */
  ghost function PendingMessages(t: Tables): set<Message> {
    set k | k in t.messages &&
      (forall r :: r in t.rows && t.rows[r].Executed? ==> t.rows[r].messageId != t.messages[k].messageId)
      :: t.messages[k]
  }

  ghost function PendingErcMessages(t: Tables): set<ErcMessage> {
    set k | k in t.erc && (forall r :: r in t.rows && t.rows[r].Executed? ==> t.rows[r].messageId != t.erc[k].msgHash)
      :: t.erc[k]
  }

  ghost predicate ExecutedIn(us: seq<Upsert>, id: Hash) {
    exists ref, status :: PutRow(ref, Executed(id, status)) in us
  }

  /** The pending messages are those asked for whose execution was not. */
  lemma PendingAre(us: seq<Upsert>, m: Message)
    requires Agreeing(us)
    ensures m in PendingMessages(ApplyAll(NO_ROWS, us)) <==> PutMessage(m) in us && !ExecutedIn(us, m.messageId)
  {
    AgreeingResult(us);
    ExecutedRows(us, m.messageId);
    assert PutMessage(m) in us ==> Holds(ApplyAll(NO_ROWS, us), PutMessage(m));
  }

  lemma PendingErcAre(us: seq<Upsert>, m: ErcMessage)
    requires Agreeing(us)
    ensures m in PendingErcMessages(ApplyAll(NO_ROWS, us)) <==> PutErc(m) in us && !ExecutedIn(us, m.msgHash)
  {
    AgreeingResult(us);
    ExecutedRows(us, m.msgHash);
    assert PutErc(m) in us ==> Holds(ApplyAll(NO_ROWS, us), PutErc(m));
  }

  lemma ExecutedRows(us: seq<Upsert>, id: Hash)
    requires Agreeing(us)
    ensures var rows := ApplyAll(NO_ROWS, us).rows;
      ExecutedIn(us, id) <==> exists r :: r in rows && rows[r].Executed? && rows[r].messageId == id
  {
    AgreeingResult(us);
    var t := ApplyAll(NO_ROWS, us);
    if ref, status :| PutRow(ref, Executed(id, status)) in us {
      assert Holds(t, PutRow(ref, Executed(id, status)));
    }
    if r :| r in t.rows && t.rows[r].Executed? && t.rows[r].messageId == id {
      assert PutRow(r, Executed(id, t.rows[r].status)) in us;
    }
  }
}
