/** Which pending messages still lack signatures (presenter/presenter.go). */
module Presenters {
  import opened Entities
  import opened Sequences

  datatype Signature = Signature(msgHash: Hash, signer: Address)

  /** A message with too few signatures: the active validators that signed it and those that did not. */
  datatype Unsigned = Unsigned(msgHash: Hash, signers: seq<Address>, missing: seq<Address>)

  /** The signer signed the message, in a signature on chain or in one handed in by hand. */
  predicate HasSigned(signatures: seq<Signature>, manual: map<Hash, seq<Address>>, hash: Hash, signer: Address) {
    Signature(hash, signer) in signatures || ByHand(manual, hash, signer)
  }

  predicate ByHand(manual: map<Hash, seq<Address>>, hash: Hash, signer: Address) {
    hash in manual && signer in manual[hash]
  }

  function SetOf<T>(s: seq<T>): set<T> { set x | x in s }

  /** Signatures of messages that were not asked for would be written to a missing entry; the query
      returns none. */
  method MakeSignersMap(hashes: seq<Hash>, signatures: seq<Signature>, manual: map<Hash, seq<Address>>)
      returns (signersMap: map<Hash, set<Address>>)
    requires forall s :: s in signatures ==> s.msgHash in hashes
    ensures signersMap.Keys == SetOf(hashes)
    ensures forall h, a :: h in hashes ==> (a in signersMap[h] <==> HasSigned(signatures, manual, h, a))
  {
    signersMap := map[];
    for i := 0 to |hashes|
      invariant signersMap == map h | h in hashes[..i] :: {}
    {
      assert hashes[..i + 1] == hashes[..i] + [hashes[i]];
      signersMap := signersMap[hashes[i] := {}];
    }
    assert hashes[..|hashes|] == hashes;
    for i := 0 to |signatures|
      invariant signersMap.Keys == SetOf(hashes)
      invariant forall h, a :: h in hashes ==> (a in signersMap[h] <==> Signature(h, a) in signatures[..i])
    {
      assert signatures[..i + 1] == signatures[..i] + [signatures[i]];
      var s := signatures[i];
      signersMap := signersMap[s.msgHash := signersMap[s.msgHash] + {s.signer}];
    }
    assert signatures[..|signatures|] == signatures;
    var todo := manual.Keys;
    while todo != {}
      invariant todo <= manual.Keys && signersMap.Keys == SetOf(hashes)
      invariant forall h, a :: h in hashes ==>
        (a in signersMap[h] <==> Signature(h, a) in signatures || (h !in todo && ByHand(manual, h, a)))
      decreases |todo|
    {
      var h :| h in todo;
      todo := todo - {h};
      if h in signersMap {
        var signers := AddSigners(signersMap[h], manual[h]);
        signersMap := signersMap[h := signers];
      }
    }
  }

  method AddSigners(before: set<Address>, more: seq<Address>) returns (signers: set<Address>)
    ensures forall a :: a in signers <==> a in before || a in more
  {
    signers := before;
    for j := 0 to |more|
      invariant forall a :: a in signers <==> a in before || a in more[..j]
    {
      signers := signers + {more[j]};
    }
  }

  /** The validators that are, or are not, in the set, in their order. */
  function Those(validators: seq<Address>, signed: set<Address>, wanted: bool): seq<Address> {
    if validators == [] then []
    else
      var last := validators[|validators| - 1];
      Those(validators[..|validators| - 1], signed, wanted) + if (last in signed) == wanted then [last] else []
  }

  lemma {:induction false} ThoseAre(validators: seq<Address>, signed: set<Address>, wanted: bool)
    ensures forall a :: a in Those(validators, signed, wanted) <==> a in validators && (a in signed) == wanted
  {
    if validators != [] {
      var rest, last := validators[..|validators| - 1], validators[|validators| - 1];
      ThoseAre(rest, signed, wanted);
      assert validators == rest + [last];
    }
  }

  /** Every validator is listed once, as a signer if it signed and as missing if it did not. */
  lemma {:induction false} EveryValidatorListed(validators: seq<Address>, signed: set<Address>)
    ensures multiset(Those(validators, signed, true)) + multiset(Those(validators, signed, false))
        == multiset(validators)
    ensures forall a :: a in Those(validators, signed, true) <==> a in validators && a in signed
    ensures forall a :: a in Those(validators, signed, false) <==> a in validators && a !in signed
  {
    ThoseAre(validators, signed, true);
    ThoseAre(validators, signed, false);
    ThoseCount(validators, signed);
  }

  lemma {:induction false} ThoseCount(validators: seq<Address>, signed: set<Address>)
    ensures multiset(Those(validators, signed, true)) + multiset(Those(validators, signed, false))
        == multiset(validators)
  {
    if validators != [] {
      var rest, last := validators[..|validators| - 1], validators[|validators| - 1];
      ThoseCount(rest, signed);
      assert validators == rest + [last];
    }
  }

  /** The places in the list of those validators that signed. */
  function Signed(validators: seq<Address>, signed: set<Address>): set<nat> {
    set i | 0 <= i < |validators| && validators[i] in signed
  }

  /** As many are listed as signed. */
  lemma {:induction false} SignersCount(validators: seq<Address>, signed: set<Address>)
    ensures |Those(validators, signed, true)| == |Signed(validators, signed)|
  {
    if validators != [] {
      var rest, last := validators[..|validators| - 1], validators[|validators| - 1];
      SignersCount(rest, signed);
      assert Signed(validators, signed) == Signed(rest, signed) + if last in signed then {|rest|} else {};
    }
  }

  /** GetMessagesWithMissingSignatures on the home-to-foreign messages: one entry for exactly the
      messages with fewer than the required signatures of active validators. */
  method FindUnsigned(messages: set<Hash>, validators: seq<Address>, signersMap: map<Hash, set<Address>>, required: nat)
      returns (res: seq<Unsigned>)
    requires messages <= signersMap.Keys
    ensures forall u :: u in res <==>
      && u.msgHash in messages && |Signed(validators, signersMap[u.msgHash])| < required
      && u.signers == Those(validators, signersMap[u.msgHash], true)
      && u.missing == Those(validators, signersMap[u.msgHash], false)
    ensures forall i, j :: 0 <= i < j < |res| ==> res[i].msgHash != res[j].msgHash
  {
    res := [];
    var todo := messages;
    while todo != {}
      invariant todo <= messages
      invariant forall u :: u in res <==>
        && u.msgHash in messages - todo && |Signed(validators, signersMap[u.msgHash])| < required
        && u.signers == Those(validators, signersMap[u.msgHash], true)
        && u.missing == Those(validators, signersMap[u.msgHash], false)
      invariant forall i, j :: 0 <= i < j < |res| ==> res[i].msgHash != res[j].msgHash
      decreases |todo|
    {
      var hash :| hash in todo;
      var signers, missing := Sort(validators, signersMap[hash]);
      SignersCount(validators, signersMap[hash]);
      assert forall u :: u in res ==> u.msgHash != hash;
      assert forall i :: 0 <= i < |res| ==> res[i] in res;
      if |signers| < required {
        res := res + [Unsigned(hash, signers, missing)];
      }
      todo := todo - {hash};
    }
  }

  method Sort(validators: seq<Address>, signed: set<Address>) returns (signers: seq<Address>, missing: seq<Address>)
    ensures signers == Those(validators, signed, true) && missing == Those(validators, signed, false)
  {
    signers, missing := [], [];
    for i := 0 to |validators|
      invariant signers == Those(validators[..i], signed, true) && missing == Those(validators[..i], signed, false)
    {
      assert validators[..i + 1][..i] == validators[..i];
      if validators[i] in signed {
        signers := signers + [validators[i]];
      } else {
        missing := missing + [validators[i]];
      }
    }
    assert validators[..|validators|] == validators;
  }
}
