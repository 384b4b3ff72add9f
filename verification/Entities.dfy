/** Values shared by every part of the bridge monitor: bytes, chain logs with their decoded
    events, and the configuration of a bridge and of its two sides. */
module Entities {
  newtype byte = b: int | 0 <= b < 0x100

  type Bytes = seq<byte>
  function Zeros(n: nat): (z: Bytes)
    ensures |z| == n
  {
    if n == 0 then [] else [0] + Zeros(n - 1)
  }

  function Max(a: nat, b: nat): nat { if a < b then b else a }

  type Address = a: Bytes | |a| == 20 witness Zeros(20)
  type Hash = h: Bytes | |h| == 32 witness Zeros(32)

  const TWO_TO_256: nat :=
    0x1_0000_0000_0000_0000_0000_0000_0000_0000_0000_0000_0000_0000_0000_0000_0000_0000

  type Value = v: nat | v < TWO_TO_256

  /** The block number of the fake log that closes batch splitting. */
  const MAX_UINT32: nat := 0xFFFF_FFFF

  datatype Option<+T> = None | Some(value: T)

  /** An `Error` is returned to the caller, a `Panic` ends the process. */
  datatype Result<+T> = Ok(value: T) | Error | Panic

  datatype Side = Home | Foreign

  datatype BridgeMode = ArbitraryMessage | ErcToNative

  /** A contract event as the ABI decoder hands it to the handlers. A log whose signature the
      ABI does not know is `Unknown`; one it knows but cannot parse is `Malformed`. */
  datatype Event =
    | MessageRequest(encoded: Bytes)
    | LegacyMessageRequest(encoded: Bytes)
    | ErcRequest(recipient: Address, value: Value)
    | Transfer(sender: Address, value: Value)
    | MessageSigned(msgHash: Hash, signer: Address)
    | ErcAffirmationSigned(signer: Address)
    | SignaturesCollected(msgHash: Hash, relayer: Address, count: nat)
    | MessageExecuted(messageId: Hash, status: bool)
    | ErcExecuted(recipient: Address, value: Value, txHash: Hash)
    | InformationRequested(messageId: Hash, selector: Hash, sender: Address, data: Bytes)
    | InformationSigned(messageId: Hash, signer: Address)
    | InformationRetrieved(messageId: Hash, status: bool, callbackStatus: bool)
    | ValidatorAdded(validator: Address)
    | ValidatorRemoved(validator: Address)
    | Unknown
    | Malformed

  /** A log on a chain. (chainId, block, index) is the unique key of the logs table. */
  datatype Log = Log(chainId: nat, address: Address, block: nat, index: nat,
                     txHash: Hash, topic2: Option<Hash>, event: Event)

  datatype LogRef = LogRef(chainId: nat, block: nat, index: nat)

  function RefOf(l: Log): LogRef {
    LogRef(l.chainId, l.block, l.index)
  }

  /** ORDER BY chain_id, block_number, log_index. */
  predicate Before(a: Log, b: Log) {
    a.chainId < b.chainId
    || (a.chainId == b.chainId && (a.block < b.block || (a.block == b.block && a.index < b.index)))
  }

  predicate DistinctRefs(logs: seq<Log>) {
    forall i, j :: 0 <= i < j < |logs| ==> RefOf(logs[i]) != RefOf(logs[j])
  }

  predicate Ordered(logs: seq<Log>) {
    forall i, j :: 0 <= i < j < |logs| ==> Before(logs[i], logs[j])
  }

  /** An address left-padded to a 32-byte topic. */
  function Padded(a: Address): Hash {
    Zeros(12) + a
  }

  datatype Token = Token(address: Address, startBlock: nat, endBlock: nat, blacklist: seq<Address>)

  datatype SideConfig = SideConfig(chainId: nat, address: Address, validators: Address,
                                   startBlock: nat, confirmations: nat, maxRange: nat,
                                   tokens: seq<Token>)

  datatype BridgeConfig = BridgeConfig(mode: BridgeMode, home: SideConfig, foreign: SideConfig)

  function SideOf(cfg: BridgeConfig, side: Side): SideConfig {
    if side.Home? then cfg.home else cfg.foreign
  }

  /** Two ordered lists with the same elements are the same list. */
  lemma {:induction false} OrderedUnique(a: seq<Log>, b: seq<Log>)
    requires Ordered(a) && Ordered(b)
    requires forall l :: l in a <==> l in b
    ensures a == b
  {
    assert a != [] ==> a[0] in a;
    assert b != [] ==> b[0] in b;
    if a != [] && b != [] {
      assert a[0] == b[0];
      forall l ensures l in a[1..] <==> l in b[1..] {
        TailMember(a, l);
        TailMember(b, l);
      }
      OrderedUnique(a[1..], b[1..]);
    }
  }

  lemma TailMember(a: seq<Log>, l: Log)
    requires Ordered(a) && a != []
    ensures l in a[1..] <==> l in a && l != a[0]
  {
    assert a == [a[0]] + a[1..];
    assert forall i :: 0 < i < |a| ==> Before(a[0], a[i]);
  }
}
