/** Reading the configuration (config/config.go): the init methods fill in defaults in place and
    refuse what does not fit, which is where the preconditions of the pipeline come from. */
module Configs {
  import opened Entities
  import opened Chains
  import opened Handlers

  datatype Error = InvalidConfig | NonEmptyTokenList | EmptyTokenList

  const DEFAULT_MAX_RANGE: nat := 1000
  const ERC_TO_NATIVE: string := "ERC_TO_NATIVE"
  const AMB: string := "AMB"

  /** The token t is the given one with its block numbers filled in, where 0 was given: it starts with
      its side, and ends with no block before the last one there is. Nothing given is changed. */
  predicate FilledIn(given: Token, t: Token, startBlock: nat) {
    && t.address == given.address && t.blacklist == given.blacklist
    && (if given.startBlock == 0 then t.startBlock == startBlock else t.startBlock == given.startBlock)
    && (if given.endBlock == 0 then t.endBlock == MAX_UINT32 else t.endBlock == given.endBlock)
  }

  predicate AliveAt(t: Token, b: nat) { t.startBlock <= b <= t.endBlock }

  class BridgeSideConfig {
    const chainName: string
    const address: Address
    const validators: Address
    const startBlock: nat
    const confirmations: nat
    var maxBlockRangeSize: nat
    var chainId: nat
    var tokens: seq<Token>

    constructor (chainName: string, address: Address, validators: Address, startBlock: nat, confirmations: nat,
                 maxBlockRangeSize: nat, tokens: seq<Token>)
      ensures this.startBlock == startBlock && this.maxBlockRangeSize == maxBlockRangeSize && this.tokens == tokens
    {
      this.chainName, this.address, this.validators := chainName, address, validators;
      this.startBlock, this.confirmations := startBlock, confirmations;
      this.maxBlockRangeSize, this.tokens := maxBlockRangeSize, tokens;
      chainId := 0;
    }

    function Value(): SideConfig
      reads this
    {
      SideConfig(chainId, address, validators, startBlock, confirmations, maxBlockRangeSize, tokens)
    }

    method Init(chains: map<string, nat>) returns (error: Option<Error>)
      modifies this
      ensures maxBlockRangeSize == if old(maxBlockRangeSize) == 0 then DEFAULT_MAX_RANGE else old(maxBlockRangeSize)
      ensures error == if chainName in chains then None else Some(InvalidConfig)
      ensures error.None? ==> chainId == chains[chainName]
      ensures |tokens| == |old(tokens)|
      ensures error.None? ==>
        forall i :: 0 <= i < |tokens| ==> FilledIn(old(tokens)[i], tokens[i], startBlock)
      ensures error.None? ==>
        forall i, b: nat :: 0 <= i < |tokens| && old(tokens)[i].endBlock == 0 && b <= MAX_UINT32
          ==> (AliveAt(tokens[i], b) <==>
               (if old(tokens)[i].startBlock == 0 then startBlock else old(tokens)[i].startBlock) <= b)
      ensures error.Some? ==> tokens == old(tokens)
    {
      if maxBlockRangeSize <= 0 {
        maxBlockRangeSize := DEFAULT_MAX_RANGE;
      }
      if chainName !in chains {
        return Some(InvalidConfig);
      }
      chainId := chains[chainName];
      for i := 0 to |tokens|
        invariant maxBlockRangeSize
          == if old(maxBlockRangeSize) == 0 then DEFAULT_MAX_RANGE else old(maxBlockRangeSize)
        invariant chainId == chains[chainName] && |tokens| == |old(tokens)|
        invariant forall j :: 0 <= j < i ==> FilledIn(old(tokens)[j], tokens[j], startBlock)
        invariant forall j :: i <= j < |tokens| ==> tokens[j] == old(tokens)[j]
      {
        if tokens[i].startBlock == 0 {
          tokens := tokens[i := tokens[i].(startBlock := startBlock)];
        }
        if tokens[i].endBlock == 0 {
          tokens := tokens[i := tokens[i].(endBlock := MAX_UINT32)];
        }
      }
      error := None;
    }

    method ErcToNativeTokenAddresses(first: nat, last: nat) returns (addresses: seq<Address>)
      ensures addresses == LiveTokens(tokens, first, last)
    {
      addresses := [];
      for i := 0 to |tokens|
        invariant addresses == LiveTokens(tokens[..i], first, last)
      {
        assert tokens[..i + 1][..i] == tokens[..i];
        if last < tokens[i].startBlock || first > tokens[i].endBlock {
          continue;
        }
        addresses := addresses + [tokens[i].address];
      }
      assert tokens[..|tokens|] == tokens;
    }
  }

  /** The start blocks of an alert. */
  datatype AlertStarts = AlertStarts(home: nat, foreign: nat)

  class BridgeConfiguration {
    const home: BridgeSideConfig
    const foreign: BridgeSideConfig
    var mode: string
    var alerts: map<string, Option<AlertStarts>>

    constructor (home: BridgeSideConfig, foreign: BridgeSideConfig, mode: string,
                 alerts: map<string, Option<AlertStarts>>)
      ensures this.home == home && this.foreign == foreign && this.mode == mode && this.alerts == alerts
    {
      this.home, this.foreign, this.mode, this.alerts := home, foreign, mode, alerts;
    }

    function Mode(): BridgeMode
      reads this
    {
      if mode == ERC_TO_NATIVE then BridgeMode.ErcToNative else BridgeMode.ArbitraryMessage
    }

    method Init(chains: map<string, nat>) returns (error: Option<Error>)
      requires home != foreign
      modifies this, home, foreign
      ensures error
        == InitError(chains, home.chainName, foreign.chainName, |old(home.tokens)|, |old(foreign.tokens)|, old(mode))
      ensures error.None? ==>
        && Established(Mode(), home.Value(), foreign.Value())
        && mode == (if old(mode) == ERC_TO_NATIVE then ERC_TO_NATIVE else AMB)
        && |foreign.tokens| == |old(foreign.tokens)|
        && (forall i :: 0 <= i < |foreign.tokens| ==>
             FilledIn(old(foreign.tokens)[i], foreign.tokens[i], foreign.startBlock))
        && alerts.Keys == old(alerts).Keys
        && forall name :: name in alerts ==>
             RaisedTo(old(alerts)[name], alerts[name], home.startBlock, foreign.startBlock)
    {
      error := home.Init(chains);
      if error.Some? { return; }
      error := foreign.Init(chains);
      if error.Some? { return; }
      if |home.tokens| > 0 { return Some(NonEmptyTokenList); }
      if mode == ERC_TO_NATIVE {
        if |foreign.tokens| == 0 { return Some(EmptyTokenList); }
      } else {
        if |foreign.tokens| > 0 { return Some(NonEmptyTokenList); }
        mode := AMB;
      }
      InitAlerts();
      error := None;
    }

    method InitAlerts()
      modifies this`alerts
      ensures alerts.Keys == old(alerts).Keys
      ensures forall name :: name in alerts ==>
        RaisedTo(old(alerts)[name], alerts[name], home.startBlock, foreign.startBlock)
    {
      var todo := alerts.Keys;
      while todo != {}
        invariant todo <= alerts.Keys == old(alerts).Keys
        invariant forall name :: name in alerts ==>
          if name in todo then alerts[name] == old(alerts)[name]
          else RaisedTo(old(alerts)[name], alerts[name], home.startBlock, foreign.startBlock)
        decreases |todo|
      {
        var name :| name in todo;
        var a := if alerts[name].None? then AlertStarts(0, 0) else alerts[name].value;
        if a.home < home.startBlock { a := a.(home := home.startBlock); }
        if a.foreign < foreign.startBlock { a := a.(foreign := foreign.startBlock); }
        alerts := alerts[name := Some(a)];
        todo := todo - {name};
      }
    }
  }

  /** The start blocks of an alert are the least ones that are neither below those given nor below those
      of the sides. */
  predicate RaisedTo(given: Option<AlertStarts>, a: Option<AlertStarts>, home: nat, foreign: nat) {
    && a.Some? && home <= a.value.home && foreign <= a.value.foreign
    && (given.Some? ==> given.value.home <= a.value.home && given.value.foreign <= a.value.foreign)
    && (a.value.home == home || (given.Some? && a.value.home == given.value.home))
    && (a.value.foreign == foreign || (given.Some? && a.value.foreign == given.value.foreign))
  }

  /** Which of the errors init reports, in its order. */
  function InitError(chains: map<string, nat>, home: string, foreign: string, homeTokens: nat, foreignTokens: nat,
                     mode: string): (error: Option<Error>)
    ensures error == Some(InvalidConfig) <==> !(home in chains && foreign in chains)
    ensures error == Some(EmptyTokenList) ==> mode == ERC_TO_NATIVE && foreignTokens == 0
    ensures error == Some(NonEmptyTokenList) ==> homeTokens > 0 || (mode != ERC_TO_NATIVE && foreignTokens > 0)
    ensures error.None? <==>
      && home in chains && foreign in chains && homeTokens == 0
      && (mode == ERC_TO_NATIVE <==> foreignTokens > 0)
  {
    if home !in chains || foreign !in chains then Some(InvalidConfig)
    else if homeTokens > 0 then Some(NonEmptyTokenList)
    else if mode == ERC_TO_NATIVE && foreignTokens == 0 then Some(EmptyTokenList)
    else if mode != ERC_TO_NATIVE && foreignTokens > 0 then Some(NonEmptyTokenList)
    else None
  }

  /** What an accepted configuration guarantees. */
  predicate Established(mode: BridgeMode, home: SideConfig, foreign: SideConfig) {
    && home.maxRange >= 1 && foreign.maxRange >= 1
    && home.tokens == []
    && (mode.ErcToNative? <==> foreign.tokens != [])
  }

  /** The block numbers of a configured token are in order once the ones left out are filled in:
      nothing in init checks this. */
  predicate InOrder(t: Token, startBlock: nat) {
    t.endBlock == 0 || (startBlock <= t.endBlock && t.startBlock == 0) || (0 < t.startBlock <= t.endBlock)
  }

  /** Addresses that are pairwise distinct; not checked either. */
  predicate DistinctAddresses(cfg: SideConfig) {
    && cfg.address != cfg.validators
    && (forall t :: t in cfg.tokens ==> t.address != cfg.address && t.address != cfg.validators)
    && (forall i, j :: 0 <= i < j < |cfg.tokens| ==> cfg.tokens[i].address != cfg.tokens[j].address)
  }

  lemma FilledInOrder(given: Token, t: Token, startBlock: nat)
    requires startBlock <= MAX_UINT32 && given.startBlock <= MAX_UINT32 && FilledIn(given, t, startBlock)
    ensures t.startBlock <= t.endBlock <==> InOrder(given, startBlock)
  {}

  /** Of the logs of a token that have the bridge as third topic, exactly those are relevant that are in
      its lifetime as given: from the start block of its side on if none was given, and without end if no
      end block was given. */
  lemma TokenLogsSeen(w: World, given: Token, t: Token, l: Log)
    requires ValidWorld(w) && w.Mode().ErcToNative? && t in w.Cfg().tokens && FilledIn(given, t, w.Start())
    requires l in w.ChainLogs(l.block) && l.address == given.address && l.topic2 == Some(Padded(w.Cfg().address))
    requires l.block <= MAX_UINT32
    ensures OnChain(w, l) <==>
      && (if given.startBlock == 0 then w.Start() else given.startBlock) <= l.block
      && (given.endBlock != 0 ==> l.block <= given.endBlock)
  {
    KeepRelevantMember(w, w.ChainLogs(l.block), l);
    forall x | x in w.Cfg().tokens && x.address == l.address ensures x == t {
      var i :| 0 <= i < |w.Cfg().tokens| && w.Cfg().tokens[i] == x;
      var j :| 0 <= j < |w.Cfg().tokens| && w.Cfg().tokens[j] == t;
    }
    if t.startBlock <= l.block <= t.endBlock { assert SeenThrough(w.Cfg(), t, l); }
  }

  /** An accepted configuration, with the defaults that Init fills in for the tokens as configured, is
      one the pipeline works on exactly when, besides a positive start block, the addresses are
      distinct and the block numbers given are in order. */
  lemma EstablishedIsValid(mode: BridgeMode, home: SideConfig, foreign: SideConfig, given: seq<Token>)
    requires Established(mode, home, foreign)
    requires |foreign.tokens| == |given|
    requires forall i :: 0 <= i < |given| ==> FilledIn(given[i], foreign.tokens[i], foreign.startBlock)
    requires foreign.startBlock <= MAX_UINT32 && forall t :: t in given ==> t.startBlock <= MAX_UINT32
    ensures ValidConfig(mode, home) && ValidConfig(mode, foreign) <==>
      && home.startBlock >= 1 && foreign.startBlock >= 1
      && DistinctAddresses(home) && DistinctAddresses(foreign)
      && forall t :: t in given ==> InOrder(t, foreign.startBlock)
  {
    forall i | 0 <= i < |given|
      ensures foreign.tokens[i].startBlock <= foreign.tokens[i].endBlock <==> InOrder(given[i], foreign.startBlock)
    {
      assert given[i] in given;
      FilledInOrder(given[i], foreign.tokens[i], foreign.startBlock);
    }
    assert forall i :: 0 <= i < |given| ==> foreign.tokens[i] in foreign.tokens && given[i] in given;
  }
}
