/** The chain seen from one side of a bridge: which logs a monitor is interested in, and their
    canonical order. */
module Chains {
  import opened Entities
  import opened Sequences
  import opened LogOrder

  /** What the home node answers for a transaction hash. */
  datatype Tx = Tx(value: nat, sender: Address, data: Bytes)

  datatype Env = Env(keccak: Bytes -> Hash, tx: Hash -> Tx)

  /** All logs of each block, in order, with no block ever changing. */
  type Chain = nat -> seq<Log>

  datatype Bridge = Bridge(cfg: BridgeConfig, home: Chain, foreign: Chain, env: Env)

  /** One side of a bridge: what one contract monitor works on. */
  datatype World = World(bridge: Bridge, side: Side) {
    function Cfg(): SideConfig { SideOf(bridge.cfg, side) }
    function Mode(): BridgeMode { bridge.cfg.mode }
    function ChainLogs(b: nat): seq<Log> { if side.Home? then bridge.home(b) else bridge.foreign(b) }
    function Start(): nat { Cfg().startBlock }
  }

  /** The token is in its lifetime and the log has the bridge as its third topic. */
  predicate SeenThrough(cfg: SideConfig, t: Token, l: Log) {
    t.address == l.address && t.startBlock <= l.block <= t.endBlock
    && l.topic2 == Some(Padded(cfg.address))
  }

  predicate Relevant(w: World, l: Log) {
    l.address == w.Cfg().address
    || l.address == w.Cfg().validators
    || (w.Mode().ErcToNative? && exists t :: t in w.Cfg().tokens && SeenThrough(w.Cfg(), t, l))
  }

  /** The log belongs to one of the contracts of this side, whatever its block. */
  predicate Ours(w: World, a: Address) {
    a == w.Cfg().address || a == w.Cfg().validators || exists t :: t in w.Cfg().tokens && t.address == a
  }

  function KeepRelevant(w: World, logs: seq<Log>): seq<Log> {
    if logs == [] then []
    else (if Relevant(w, logs[0]) then [logs[0]] else []) + KeepRelevant(w, logs[1..])
  }

  /** The relevant logs of a block. */
  function At(w: World, b: nat): seq<Log> { KeepRelevant(w, w.ChainLogs(b)) }

  /** The relevant logs of blocks [lo, hi), in order: the one unchunked query. */
  function Between(w: World, lo: nat, hi: nat): seq<Log> {
    if lo >= hi then [] else Between(w, lo, hi - 1) + At(w, hi - 1)
  }

  ghost predicate OnChain(w: World, l: Log) { l in At(w, l.block) }

  /** The logs of a block carry its number and the chain's, and increasing indices. */
  ghost predicate ValidBlock(w: World, b: nat) {
    forall i :: 0 <= i < |w.ChainLogs(b)| ==>
      && w.ChainLogs(b)[i].block == b && w.ChainLogs(b)[i].chainId == w.Cfg().chainId
      && forall j :: 0 <= j < i ==> w.ChainLogs(b)[j].index < w.ChainLogs(b)[i].index
  }

  ghost predicate ValidChain(w: World) { forall b: nat :: ValidBlock(w, b) }

  /** What the configuration guarantees or is assumed to satisfy. */
  predicate ValidConfig(mode: BridgeMode, cfg: SideConfig) {
    && cfg.startBlock >= 1 && cfg.maxRange >= 1
    && (mode.ArbitraryMessage? ==> cfg.tokens == [])
    && cfg.address != cfg.validators
    && (forall t :: t in cfg.tokens ==>
         t.startBlock <= t.endBlock && t.address != cfg.address && t.address != cfg.validators)
    && (forall i, j :: 0 <= i < j < |cfg.tokens| ==> cfg.tokens[i].address != cfg.tokens[j].address)
  }

  ghost predicate ValidWorld(w: World) {
    ValidChain(w) && ValidConfig(w.Mode(), w.Cfg())
  }

  lemma {:induction false} KeepRelevantMember(w: World, logs: seq<Log>, l: Log)
    ensures l in KeepRelevant(w, logs) <==> l in logs && Relevant(w, l)
  {
    if logs != [] {
      KeepRelevantMember(w, logs[1..], l);
      assert l in logs <==> l == logs[0] || l in logs[1..];
    }
  }

  lemma {:induction false} KeepRelevantOrdered(w: World, logs: seq<Log>)
    requires Ordered(logs)
    ensures Ordered(KeepRelevant(w, logs))
  {
    if logs != [] {
      KeepRelevantOrdered(w, logs[1..]);
      forall l | l in KeepRelevant(w, logs[1..]) ensures Before(logs[0], l) {
        KeepRelevantMember(w, logs[1..], l);
      }
    }
  }

  lemma AtMember(w: World, b: nat, l: Log)
    requires ValidChain(w)
    ensures l in At(w, b) <==> OnChain(w, l) && l.block == b
    ensures l in At(w, b) ==> l in w.ChainLogs(b) && Relevant(w, l) && l.chainId == w.Cfg().chainId
  {
    assert ValidBlock(w, b);
    KeepRelevantMember(w, w.ChainLogs(b), l);
    KeepRelevantMember(w, w.ChainLogs(l.block), l);
  }

  lemma AtOrdered(w: World, b: nat)
    requires ValidChain(w)
    ensures Ordered(At(w, b))
  {
    assert ValidBlock(w, b);
    assert Ordered(w.ChainLogs(b));
    KeepRelevantOrdered(w, w.ChainLogs(b));
  }

  lemma {:induction false} BetweenMember(w: World, lo: nat, hi: nat, l: Log)
    requires ValidChain(w)
    ensures l in Between(w, lo, hi) <==> OnChain(w, l) && lo <= l.block < hi
    decreases hi
  {
    if lo < hi {
      var b := hi - 1;
      BetweenMember(w, lo, b, l);
      AtMember(w, b, l);
      InAppend(Between(w, lo, b), At(w, b), l);
    }
  }

  lemma BetweenNext(w: World, lo: nat, b: nat)
    requires lo <= b
    ensures Between(w, lo, b + 1) == Between(w, lo, b) + At(w, b)
    ensures Between(w, lo, lo) == []
  {}

  lemma BetweenMembers(w: World, lo: nat, hi: nat)
    requires ValidChain(w)
    ensures forall l :: l in Between(w, lo, hi) <==> OnChain(w, l) && lo <= l.block < hi
  {
    forall l ensures l in Between(w, lo, hi) <==> OnChain(w, l) && lo <= l.block < hi {
      BetweenMember(w, lo, hi, l);
    }
  }

  lemma OnOneChain(w: World, l: Log)
    requires ValidChain(w) && OnChain(w, l)
    ensures l.chainId == w.Cfg().chainId && Relevant(w, l) && l in w.ChainLogs(l.block)
  {
    AtMember(w, l.block, l);
  }

  lemma EarlierBlocks(w: World, lo: nat, b: nat)
    requires ValidChain(w)
    ensures forall x, y :: x in Between(w, lo, b) && y in At(w, b) ==> Before(x, y)
  {
    BetweenMembers(w, lo, b);
    forall x, y | x in Between(w, lo, b) && y in At(w, b) ensures Before(x, y) {
      AtMember(w, b, y);
      OnOneChain(w, x);
    }
  }

  lemma {:induction false} BetweenOrdered(w: World, lo: nat, hi: nat)
    requires ValidChain(w)
    ensures Ordered(Between(w, lo, hi))
    decreases hi
  {
    if lo < hi {
      var b := hi - 1;
      BetweenOrdered(w, lo, b);
      AtOrdered(w, b);
      EarlierBlocks(w, lo, b);
      OrderedAppend(Between(w, lo, b), At(w, b));
    }
  }

  lemma {:induction false} BetweenSplit(w: World, lo: nat, mid: nat, hi: nat)
    requires lo <= mid <= hi
    ensures Between(w, lo, hi) == Between(w, lo, mid) + Between(w, mid, hi)
    decreases hi
  {
    if mid == hi {
      Empty(Between(w, lo, mid));
    } else {
      BetweenSplit(w, lo, mid, hi - 1);
      Assoc(Between(w, lo, mid), Between(w, mid, hi - 1), At(w, hi - 1));
    }
  }

  /** A list with the right elements in the right order is the canonical one. */
  lemma BetweenUnique(w: World, lo: nat, hi: nat, logs: seq<Log>)
    requires ValidChain(w) && Ordered(logs)
    requires forall l :: l in logs <==> OnChain(w, l) && lo <= l.block < hi
    ensures logs == Between(w, lo, hi)
  {
    BetweenMembers(w, lo, hi);
    BetweenOrdered(w, lo, hi);
    OrderedUnique(logs, Between(w, lo, hi));
  }
}
