/** Binary decoders of bridge messages and of confirmInformation calldata (monitor/decoders.go).
    An out-of-range slice or an unsupported message panics. */
module Decoders {
  import opened Entities
  import opened Sequences

  datatype Direction = ForeignToHome | HomeToForeign

  datatype Message = Message(direction: Direction, msgHash: Hash, messageId: Hash, sender: Address,
                             executor: Address, gasLimit: nat, dataType: nat, data: Bytes, raw: Bytes)

  const TWO_TO_32: nat := 0x1_0000_0000

  /** Big-endian value of some bytes. */
  function FromBE(b: Bytes): nat {
    if b == [] then 0 else FromBE(b[..|b| - 1]) * 0x100 + b[|b| - 1] as nat
  }

  /** The k low bytes of n, big-endian. */
  function BE(n: nat, k: nat): (b: Bytes)
    ensures |b| == k
  {
    if k == 0 then [] else BE(n / 0x100, k - 1) + [(n % 0x100) as byte]
  }

  function Pow256(k: nat): (p: nat)
    ensures p > 0
  {
    if k == 0 then 1 else 0x100 * Pow256(k - 1)
  }

  lemma {:induction false} FromBEofBE(n: nat, k: nat)
    ensures FromBE(BE(n, k)) == n % Pow256(k)
  {
    if k > 0 {
      FromBEofBE(n / 0x100, k - 1);
      assert BE(n, k)[..k - 1] == BE(n / 0x100, k - 1);
      ModStep(n, Pow256(k - 1));
    }
  }

  lemma ModStep(n: nat, p: nat)
    requires p > 0
    ensures (n / 0x100 % p) * 0x100 + n % 0x100 == n % (0x100 * p)
  {
    var q, r := n / 0x100 / p, n / 0x100 % p;
    assert n / 0x100 == q * p + r;
    assert n == q * (0x100 * p) + (r * 0x100 + n % 0x100);
    ModUnique(n, 0x100 * p, q, r * 0x100 + n % 0x100);
  }

  lemma Multiples(d: int, m: nat)
    ensures d > 0 ==> d * m >= m
    ensures d < 0 ==> d * m + m <= 0
  {}

  lemma ModUnique(n: nat, m: nat, q: nat, r: nat)
    requires m > 0 && n == q * m + r && r < m
    ensures n % m == r
  {
    var d := n / m - q;
    assert d * m == r - n % m;
    Multiples(d, m);
  }

  /** The last j of the k low bytes are the j low bytes. */
  lemma {:induction false} LowBytes(n: nat, k: nat, j: nat)
    requires j <= k
    ensures BE(n, k)[k - j..] == BE(n, j)
  {
    if j > 0 {
      LowBytes(n / 0x100, k - 1, j - 1);
      var high := BE(n / 0x100, k - 1);
      assert BE(n, k)[k - j..] == high[k - j..] + [(n % 0x100) as byte];
    }
  }

  lemma Pow256Of4()
    ensures Pow256(4) == TWO_TO_32
  {
    assert Pow256(2) == 0x100 * Pow256(1) == 0x100 * (0x100 * Pow256(0));
    assert Pow256(4) == 0x100 * (0x100 * Pow256(2));
  }

  function Uint32(b: Bytes): (n: nat)
    requires |b| == 4
  {
    FromBE(b)
  }

  lemma Uint32Of(n: nat)
    ensures Uint32(BE(n, 4)) == n % TWO_TO_32
  {
    FromBEofBE(n, 4);
    Pow256Of4();
  }

  lemma LowWord(n: nat)
    ensures Uint32(BE(n, 32)[28..]) == n % TWO_TO_32
  {
    LowBytes(n, 32, 4);
    Uint32Of(n);
  }

  const V4_PREFIX: Bytes := [0, 4, 0, 0]
  const V5_PREFIX: Bytes := [0, 5, 0, 0]

  /** Addition of bytes wraps at 8 bits. */
  function Add8(a: nat, b: byte): nat { (a + b as nat) % 0x100 }

  function UnmarshalMessage(keccak: Bytes -> Hash, direction: Direction, e: Bytes): Result<Message> {
    if |e| < 32 then Panic
    else if e[..4] == V4_PREFIX then
      if |e| < 109 then Panic
      else Ok(Message(direction, keccak(e), e[..32], e[64..84], e[84..104], Uint32(e[104..108]),
                      e[108] as nat, e[108..], e))
    else if e[..4] == V5_PREFIX then
      if |e| < 79 then Panic
      else
        var offset := Add8(Add8(79, e[76]), e[77]);
        if offset > |e| then Panic
        else Ok(Message(direction, keccak(e), e[..32], e[32..52], e[52..72], Uint32(e[72..76]),
                        e[78] as nat, e[offset..], e))
    else Panic
  }

  function UnmarshalLegacyMessage(keccak: Bytes -> Hash, direction: Direction, e: Bytes): Result<Message> {
    if |e| < 105 || e[104] > 0 then Panic
    else Ok(Message(direction, keccak(e), e[..32], e[32..52], e[52..72], Uint32(e[100..104]), 0, e[105..], e))
  }

  function EncodeV4(id: Hash, pad: Hash, sender: Address, executor: Address, gas: nat, kind: byte, data: Bytes): Bytes {
    id + pad + sender + executor + BE(gas, 4) + [kind] + data
  }

  function EncodeV5(id: Hash, sender: Address, executor: Address, gas: nat, kind: byte,
                    source: Bytes, destination: Bytes, data: Bytes): Bytes
    requires |source| < 0x100 && |destination| < 0x100
  {
    id + sender + executor + BE(gas, 4) + [|source| as byte, |destination| as byte, kind]
    + source + destination + data
  }

  function EncodeLegacy(txHash: Hash, sender: Address, executor: Address, gas: nat, kind: byte, data: Bytes): Bytes {
    txHash + sender + executor + BE(gas, 32) + [kind] + data
  }

  lemma V4UndoesEncoder(keccak: Bytes -> Hash, direction: Direction, id: Hash, pad: Hash, sender: Address,
                        executor: Address, gas: nat, kind: byte, data: Bytes)
    requires id[..4] == V4_PREFIX && gas < TWO_TO_32
    ensures var e := EncodeV4(id, pad, sender, executor, gas, kind, data);
      UnmarshalMessage(keccak, direction, e)
      == Ok(Message(direction, keccak(e), id, sender, executor, gas, kind as nat, [kind] + data, e))
  {
    var e := EncodeV4(id, pad, sender, executor, gas, kind, data);
    assert e[..32] == id && e[..4] == id[..4];
    assert e[64..84] == sender;
    assert e[84..104] == executor;
    assert e[104..108] == BE(gas, 4);
    assert e[108] == kind && e[108..] == [kind] + data;
    Uint32Of(gas);
  }

  lemma V5Layout(id: Bytes, sender: Bytes, executor: Bytes, gas: Bytes, lens: Bytes, source: Bytes,
                 destination: Bytes, data: Bytes)
    requires |id| == 32 && |sender| == |executor| == 20 && |gas| == 4 && |lens| == 3
    ensures var e := id + sender + executor + gas + lens + source + destination + data;
      && e[..32] == id && e[..4] == id[..4] && e[32..52] == sender && e[52..72] == executor && e[72..76] == gas
      && e[76] == lens[0] && e[77] == lens[1] && e[78] == lens[2]
      && e[79 + |source| + |destination|..] == data
  {}

  /** The offset of the v5 data is computed on 8 bits: it is the intended one, and so the message
      is decoded as encoded, exactly when the two chain ids have at most 176 bytes together. */
  lemma V5UndoesEncoder(keccak: Bytes -> Hash, direction: Direction, id: Hash, sender: Address, executor: Address,
                        gas: nat, kind: byte, source: Bytes, destination: Bytes, data: Bytes)
    requires id[..4] == V5_PREFIX && gas < TWO_TO_32
    requires |source| < 0x100 && |destination| < 0x100
    ensures var e := EncodeV5(id, sender, executor, gas, kind, source, destination, data);
      var res := UnmarshalMessage(keccak, direction, e);
      && res.Ok?
      && res.value.(data := data)
         == Message(direction, keccak(e), id, sender, executor, gas, kind as nat, data, e)
      && (res.value.data == data <==> |source| + |destination| <= 176)
  {
    var lens := [|source| as byte, |destination| as byte, kind];
    V5Layout(id, sender, executor, BE(gas, 4), lens, source, destination, data);
    Uint32Of(gas);
    var e := EncodeV5(id, sender, executor, gas, kind, source, destination, data);
    V5Decoded(keccak, direction, e, |source| + |destination|, data);
  }

  lemma V5Decoded(keccak: Bytes -> Hash, direction: Direction, e: Bytes, n: nat, data: Bytes)
    requires |e| == 79 + n + |data| && e[..4] == V5_PREFIX && e[76] as nat + e[77] as nat == n
    requires e[79 + n..] == data
    ensures var res := UnmarshalMessage(keccak, direction, e);
      && res.Ok?
      && res.value.(data := data)
         == Message(direction, keccak(e), e[..32], e[32..52], e[52..72], Uint32(e[72..76]), e[78] as nat, data, e)
      && (res.value.data == data <==> n <= 176)
  {
    assert V5_PREFIX != V4_PREFIX;
    var offset := Add8(Add8(79, e[76]), e[77]);
    OffsetWraps(e[76], e[77]);
    assert |e[offset..]| == |e| - offset;
  }

  lemma OffsetWraps(x: byte, y: byte)
    ensures var offset, sum := Add8(Add8(79, x), y), 79 + x as nat + y as nat;
      offset <= sum && (offset == sum <==> sum < 0x100)
  {
    LessOnce(79 + x as nat);
    LessOnce(Add8(79, x) + y as nat);
  }

  lemma LessOnce(n: nat)
    requires n < 0x200
    ensures n % 0x100 == if n < 0x100 then n else n - 0x100
  {}

  /** The legacy decoder undoes the encoder up to the width of the gas limit, which keeps its low
      32 bits; any data type other than 0 panics. */
  lemma LegacyUndoesEncoder(keccak: Bytes -> Hash, direction: Direction, txHash: Hash, sender: Address,
                            executor: Address, gas: nat, kind: byte, data: Bytes)
    ensures var e := EncodeLegacy(txHash, sender, executor, gas, kind, data);
      UnmarshalLegacyMessage(keccak, direction, e)
      == if kind == 0
         then Ok(Message(direction, keccak(e), txHash, sender, executor, gas % TWO_TO_32, 0, data, e))
         else Panic
  {
    var e := EncodeLegacy(txHash, sender, executor, gas, kind, data);
    var word := BE(gas, 32);
    assert e[..32] == txHash;
    assert e[32..52] == sender;
    assert e[52..72] == executor;
    assert e[72..104] == word;
    assert e[100..104] == word[28..];
    assert e[104] == kind && e[105..] == data;
    LowWord(gas);
  }

  function Wrap32(n: nat): (m: nat)
    ensures n < TWO_TO_32 ==> m == n
  {
    n % TWO_TO_32
  }

  function UnmarshalConfirmInformationResult(calldata: Bytes): Result<Bytes> {
    if |calldata| < 100 then Panic
    else
      var ptr := Wrap32(4 + Uint32(calldata[96..100]));
      var lo, hi := Wrap32(ptr + 28), Wrap32(ptr + 32);
      if hi != lo + 4 || hi > |calldata| then Panic
      else
        var end := Wrap32(hi + Uint32(calldata[lo..hi]));
        if end < hi || end > |calldata| then Panic else Ok(calldata[hi..end])
  }

  /** Calldata of confirmInformation(bytes32, bool, bytes): three head words, the last of them the
      offset of the result, then, after any gap, its length and content, then any padding. */
  function EncodeConfirmInformation(selector: Bytes, id: Hash, status: bool, gap: Bytes, result: Bytes,
                                    padding: Bytes): Bytes
    requires |selector| == 4
  {
    selector + id + BE(if status then 1 else 0, 32) + BE(96 + |gap|, 32)
    + gap + BE(|result|, 32) + result + padding
  }

  lemma ConfirmLayout(head: Bytes, offset: Bytes, gap: Bytes, length: Bytes, result: Bytes, padding: Bytes)
    requires |head| == 68 && |offset| == 32 && |length| == 32
    ensures var c := head + offset + gap + length + result + padding;
      var lo := 128 + |gap|;
      && |c| >= lo + 4 + |result|
      && c[96..100] == offset[28..] && c[lo..lo + 4] == length[28..] && c[lo + 4..lo + 4 + |result|] == result
  {}

  /** Whatever the id, the status, the result and the place it is put at, as long as all offsets
      fit in 32 bits, the decoder returns the encoded result. */
  lemma CalldataUndoesEncoder(selector: Bytes, id: Hash, status: bool, gap: Bytes, result: Bytes, padding: Bytes)
    requires |selector| == 4
    requires 132 + |gap| + |result| < TWO_TO_32
    ensures UnmarshalConfirmInformationResult(EncodeConfirmInformation(selector, id, status, gap, result, padding))
         == Ok(result)
  {
    SmallWord(96 + |gap|);
    SmallWord(|result|);
    DecodeLayout(selector + id + BE(if status then 1 else 0, 32), BE(96 + |gap|, 32), gap, BE(|result|, 32),
                 result, padding);
  }

  lemma SmallWord(n: nat)
    requires n < TWO_TO_32
    ensures Uint32(BE(n, 32)[28..]) == n
  {
    LowWord(n);
    NoWrap(n);
  }

  lemma NoWrap(n: nat)
    requires n < TWO_TO_32
    ensures n % TWO_TO_32 == n
  {}

  lemma DecodeLayout(head: Bytes, offset: Bytes, gap: Bytes, length: Bytes, result: Bytes, padding: Bytes)
    requires |head| == 68 && |offset| == 32 && |length| == 32 && 132 + |gap| + |result| < TWO_TO_32
    requires Uint32(offset[28..]) == 96 + |gap| && Uint32(length[28..]) == |result|
    ensures UnmarshalConfirmInformationResult(head + offset + gap + length + result + padding) == Ok(result)
  {
    ConfirmLayout(head, offset, gap, length, result, padding);
    DecodeAt(head + offset + gap + length + result + padding, |gap|, result);
  }

  lemma DecodeAt(c: Bytes, gap: nat, result: Bytes)
    requires |c| >= 132 + gap + |result| && 132 + gap + |result| < TWO_TO_32
    requires Uint32(c[96..100]) == 96 + gap
    requires Uint32(c[128 + gap..132 + gap]) == |result|
    requires c[132 + gap..132 + gap + |result|] == result
    ensures UnmarshalConfirmInformationResult(c) == Ok(result)
  {
    var ptr := 100 + gap;
    assert Wrap32(4 + Uint32(c[96..100])) == ptr;
    assert Wrap32(ptr + 28) == 128 + gap && Wrap32(ptr + 32) == 132 + gap;
    assert Wrap32(132 + gap + Uint32(c[128 + gap..132 + gap])) == 132 + gap + |result|;
  }
}
