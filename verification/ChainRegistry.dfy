/** The chain registry: configurations by lower-cased key, and a numeric index into the keys. */
module ChainRegistry {
  import opened Js
  import opened PlanModel

  datatype ChainConfig = ChainConfig(id: string, chainId: Option<int>, environment: Option<ChainEnvironment>)

  datatype Registration = Registration(key: string, config: ChainConfig)

  /** Registrations that enter the numeric index. */
  predicate Indexed(c: ChainConfig) {
    c.chainId.Some? && c.chainId.value > 0 && (c.environment == Some(EvmChain) || c.environment == None)
  }

  predicate IndexedAs(c: ChainConfig, n: int) {
    Indexed(c) && c.chainId.value == n
  }

  // ----- The registration history, scanned -----

  /** The last registration under a lower-cased key. */
  function LastUnder(host: Host, h: seq<Registration>, key: string): (r: Option<nat>)
    ensures r.Some? ==> r.value < |h| && host.lower(h[r.value].key) == key
    ensures forall i :: (if r.Some? then r.value + 1 else 0) <= i < |h| ==> host.lower(h[i].key) != key
  {
    if h == [] then None
    else if host.lower(h[|h|-1].key) == key then Some(|h|-1)
    else LastUnder(host, h[..|h|-1], key)
  }

  /** The last registration with numeric chain id n that is EVM or of no stated environment. */
  function LastIndexed(h: seq<Registration>, n: int): (r: Option<nat>)
    ensures r.Some? ==> r.value < |h| && IndexedAs(h[r.value].config, n)
    ensures forall i :: (if r.Some? then r.value + 1 else 0) <= i < |h| ==> !IndexedAs(h[i].config, n)
  {
    if h == [] then None
    else if IndexedAs(h[|h|-1].config, n) then Some(|h|-1)
    else LastIndexed(h[..|h|-1], n)
  }

  lemma OneMore(host: Host, h: seq<Registration>, r: Registration)
    ensures forall key :: LastUnder(host, h + [r], key) == if host.lower(r.key) == key then Some(|h|) else LastUnder(host, h, key)
    ensures forall n :: LastIndexed(h + [r], n) == if IndexedAs(r.config, n) then Some(|h|) else LastIndexed(h, n)
  {
    assert (h + [r])[..|h + [r]|-1] == h;
  }

  /** The linear scan the index stands for. */
  function Scan(h: seq<Registration>, n: int): Option<ChainConfig> {
    match LastIndexed(h, n)
    case None => None
    case Some(i) => Some(h[i].config)
  }

  /** What the index finds: the current configuration of the key that last claimed n. */
  function Found(host: Host, h: seq<Registration>, n: int): Option<ChainConfig> {
    match LastIndexed(h, n)
    case None => None
    case Some(i) =>
      var key := host.lower(h[i].key);
      if key == "" then None else Some(h[LastUnder(host, h, key).value].config)
  }

  /** The current configuration of a key. */
  function Current(host: Host, h: seq<Registration>, key: string): Option<ChainConfig> {
    match LastUnder(host, h, key)
    case None => None
    case Some(i) => Some(h[i].config)
  }

  /** What a text finds: the key it is; else the chain id it reads as; else the key that another
      registry resolves it to. */
  function FoundByText(host: Host, h: seq<Registration>, text: string, number: Option<int>, resolved: Option<string>): Option<ChainConfig> {
    var direct := Current(host, h, host.lower(text));
    var numeric := if number.Some? then Found(host, h, number.value) else None;
    if direct.Some? then direct else if numeric.Some? then numeric
    else if Truthy(resolved) then Current(host, h, resolved.value) else None
  }

  /** No lookup answers with a configuration that has been replaced: whatever is found, by number or by
      text, is the current configuration of some key; and every registered key finds its own. */
  lemma OnlyCurrentFound(host: Host, h: seq<Registration>, n: int, text: string, number: Option<int>, resolved: Option<string>)
    ensures Found(host, h, n).Some? ==> exists key :: Current(host, h, key) == Found(host, h, n)
    ensures var r := FoundByText(host, h, text, number, resolved); r.Some? ==> exists key :: Current(host, h, key) == r
    ensures forall i :: 0 <= i < |h| && host.lower(h[i].key) == host.lower(text) ==>
              FoundByText(host, h, text, number, resolved) == Current(host, h, host.lower(text)) != None
  {
    IndexedIsCurrent(host, h, n);
    if number.Some? { IndexedIsCurrent(host, h, number.value); }
  }

  lemma IndexedIsCurrent(host: Host, h: seq<Registration>, n: int)
    ensures Found(host, h, n).Some? ==> exists key :: Current(host, h, key) == Found(host, h, n)
  {
    var i := LastIndexed(h, n);
    if Found(host, h, n).Some? { assert Current(host, h, host.lower(h[i.value].key)) == Found(host, h, n); }
  }

  /** The key map holds the last configuration of each key. */
  ghost predicate KeysOk(host: Host, chains: map<string, ChainConfig>, h: seq<Registration>) {
    && (forall key :: key in chains <==> LastUnder(host, h, key).Some?)
    && (forall key :: key in chains ==> chains[key] == h[LastUnder(host, h, key).value].config)
  }

  /** The index holds the key that last claimed each chain id. */
  ghost predicate IndexOk(host: Host, index: map<int, string>, h: seq<Registration>) {
    && (forall n :: n in index <==> LastIndexed(h, n).Some?)
    && (forall n :: n in index ==> index[n] == host.lower(h[LastIndexed(h, n).value].key))
  }

  lemma KeysAfter(host: Host, chains: map<string, ChainConfig>, h: seq<Registration>, r: Registration)
    requires KeysOk(host, chains, h)
    ensures KeysOk(host, chains[host.lower(r.key) := r.config], h + [r])
  {
    OneMore(host, h, r);
  }

  lemma IndexAfter(host: Host, index: map<int, string>, h: seq<Registration>, r: Registration)
    requires IndexOk(host, index, h)
    ensures IndexOk(host, if Indexed(r.config) then index[r.config.chainId.value := host.lower(r.key)] else index, h + [r])
  {
    OneMore(host, h, r);
  }

  /** The index agrees with the scan exactly when the key that last claimed n is not empty and still
      has the configuration it claimed n with. */
  lemma IndexAgreesExactly(host: Host, h: seq<Registration>, n: int)
    ensures Found(host, h, n) == Scan(h, n) <==>
      (LastIndexed(h, n).Some? ==>
        var claim := h[LastIndexed(h, n).value];
        var key := host.lower(claim.key);
        key != "" && h[LastUnder(host, h, key).value].config == claim.config)
  {
  }

  /** With pairwise different non-empty lower-cased keys the index is the scan. */
  lemma DistinctKeysAgree(host: Host, h: seq<Registration>, n: int)
    requires forall i, j :: 0 <= i < j < |h| ==> host.lower(h[i].key) != host.lower(h[j].key)
    requires forall i :: 0 <= i < |h| ==> host.lower(h[i].key) != ""
    ensures Found(host, h, n) == Scan(h, n)
  {
    IndexAgreesExactly(host, h, n);
  }

  /** Where it disagrees: a key registered again under another chain id is still found under the old one. */
  lemma StaleIndexEntry(host: Host, h: seq<Registration>, a: Registration, b: Registration, n: int)
    requires IndexedAs(a.config, n) && !IndexedAs(b.config, n)
    requires host.lower(a.key) == host.lower(b.key) != ""
    ensures Found(host, h + [a] + [b], n) == Some(b.config)
    ensures Scan(h + [a] + [b], n) == Some(a.config)
  {
    var g := h + [a] + [b];
    assert g[|h|] == a && g[|h|+1] == b;
  }

  class ChainRegistry {
    const host: Host
    var chains: map<string, ChainConfig>
    var chainIdToKey: map<int, string>
    ghost var history: seq<Registration>

    /** Both maps are what the history says. */
    ghost predicate Valid()
      reads this
    {
      KeysOk(host, chains, history) && IndexOk(host, chainIdToKey, history)
    }

    constructor (host: Host, initial: seq<Registration>)
      ensures Valid() && history == initial && this.host == host
    {
      this.host := host;
      chains, chainIdToKey, history := map[], map[], [];
      new;
      for i := 0 to |initial|
        invariant Valid() && history == initial[..i]
      {
        RegisterChain(initial[i].key, initial[i].config);
      }
    }

    method RegisterChain(key: string, config: ChainConfig)
      requires Valid()
      modifies this
      ensures Valid() && history == old(history) + [Registration(key, config)]
    {
      ghost var r := Registration(key, config);
      KeysAfter(host, chains, history, r);
      IndexAfter(host, chainIdToKey, history, r);
      chains := chains[host.lower(key) := config];
      if config.chainId.Some? && config.chainId.value > 0 && (config.environment == Some(EvmChain) || config.environment == None) {
        chainIdToKey := chainIdToKey[config.chainId.value := host.lower(key)];
      }
      history := history + [r];
    }

    /** getChain for a number. */
    method GetChain(n: int) returns (r: Option<ChainConfig>)
      requires Valid()
      ensures r == Found(host, history, n)
    {
      if n !in chainIdToKey { return None; }
      var key := chainIdToKey[n];
      r := if key != "" && key in chains then Some(chains[key]) else None;
    }

    /** getChain for a text: number is what it reads as, resolved the other registry's answer. */
    method GetChainByText(text: string, number: Option<int>, resolved: Option<string>) returns (r: Option<ChainConfig>)
      requires Valid()
      ensures r == FoundByText(host, history, text, number, resolved)
    {
      var key := host.lower(text);
      if key in chains { return Some(chains[key]); }
      if number.Some? && number.value in chainIdToKey {
        var claimed := chainIdToKey[number.value];
        assert host.lower(history[LastIndexed(history, number.value).value].key) == claimed;
        if claimed != "" { return Some(chains[claimed]); }
      }
      r := if Truthy(resolved) && resolved.value in chains then Some(chains[resolved.value]) else None;
    }
  }
}
