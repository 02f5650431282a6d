/**
 * Bootstrapping the Railgun engine: one module-level flag, and a fixed
 * sequence of engine calls (start the engine, then load one provider per
 * chain) after which the flag is set. The engine itself is an oracle that
 * accepts or rejects each call.
 */
module Engine {
  import opened Wrappers

  /** RailgunConfig; an optional field left out is None. */
  datatype RailgunConfig = RailgunConfig(
    polygonRpcUrl: string,
    arbitrumRpcUrl: string,
    ethereumRpcUrl: Option<string>,
    pollingIntervalMs: Option<int>,
    poiNodeUrls: Option<seq<string>>,
    shouldDebug: Option<bool>)

  const WalletSource: string := "veilwallet"
  const DatabaseName: string := "veil-engine-db"
  const DefaultPollingIntervalMs: int := 300000
  const DefaultPoiNodeUrl: string := "https://poi-aggregator.railgun.org"
  const PolygonChainId: nat := 137
  const ArbitrumChainId: nat := 42161
  const EthereumChainId: nat := 1

  /** An engine call with the arguments initEngine passes. */
  datatype EngineCall =
    | StartRailgunEngine(walletSource: string, dbPath: string, shouldDebug: bool, useNativeArtifacts: bool,
                         skipMerkletreeScans: bool, poiNodeUrls: seq<string>, customPoiLists: seq<string>,
                         verboseScanLogging: bool)
    | LoadProvider(chainId: nat, providerUrl: string, priority: nat, weight: nat, networkName: string, pollingInterval: int)

  /** config.ethereumRpcUrl is truthy. */
  predicate HasEthereum(config: RailgunConfig) {
    config.ethereumRpcUrl.Some? && config.ethereumRpcUrl.value != ""
  }

  /** config.pollingIntervalMs ?? 300_000 */
  function PollingInterval(config: RailgunConfig): int {
    config.pollingIntervalMs.GetOr(DefaultPollingIntervalMs)
  }

  function StartCall(config: RailgunConfig): EngineCall {
    StartRailgunEngine(WalletSource, DatabaseName, config.shouldDebug.GetOr(false), false, false,
                       config.poiNodeUrls.GetOr([DefaultPoiNodeUrl]), [], false)
  }

  function ProviderCall(chainId: nat, url: string, networkName: string, config: RailgunConfig): EngineCall {
    LoadProvider(chainId, url, 1, 1, networkName, PollingInterval(config))
  }

  /** Every call initEngine makes when nothing rejects, in order. */
  function InitPlan(config: RailgunConfig): seq<EngineCall> {
    [StartCall(config),
     ProviderCall(PolygonChainId, config.polygonRpcUrl, "Polygon", config),
     ProviderCall(ArbitrumChainId, config.arbitrumRpcUrl, "Arbitrum", config)]
    + (if HasEthereum(config) then [ProviderCall(EthereumChainId, config.ethereumRpcUrl.value, "Ethereum", config)] else [])
  }

  /** The engine is started first, then Polygon and Arbitrum, then Ethereum exactly when its URL is given; every provider gets the same polling interval. */
  lemma InitPlanShape(config: RailgunConfig)
    ensures var plan := InitPlan(config);
      && |plan| == (if HasEthereum(config) then 4 else 3)
      && plan[0].StartRailgunEngine?
      && plan[0].shouldDebug == (config.shouldDebug == Some(true))
      && plan[0].poiNodeUrls == (if config.poiNodeUrls.Some? then config.poiNodeUrls.value else [DefaultPoiNodeUrl])
      && plan[1].LoadProvider? && plan[1].chainId == 137 && plan[1].providerUrl == config.polygonRpcUrl
      && plan[2].LoadProvider? && plan[2].chainId == 42161 && plan[2].providerUrl == config.arbitrumRpcUrl
      && (HasEthereum(config) ==> plan[3].LoadProvider? && plan[3].chainId == 1 && Some(plan[3].providerUrl) == config.ethereumRpcUrl)
      && (forall i :: 1 <= i < |plan| ==> plan[i].LoadProvider? && plan[i].pollingInterval == PollingInterval(config))
      && (config.pollingIntervalMs.None? ==> forall i :: 1 <= i < |plan| ==> plan[i].pollingInterval == 300000)
  {
  }

  /** How many planned calls go through before the first rejection. */
  function Accepted(plan: seq<EngineCall>, sdk: EngineCall -> Option<string>): (n: nat)
    ensures n <= |plan|
    ensures forall i :: 0 <= i < n ==> sdk(plan[i]).None?
    ensures n < |plan| ==> sdk(plan[n]).Some?
  {
    if plan == [] || sdk(plan[0]).Some? then 0 else 1 + Accepted(plan[1..], sdk)
  }

  /** Accepted counts up to the first rejection, wherever that is. */
  lemma {:induction false} AcceptedIs(plan: seq<EngineCall>, sdk: EngineCall -> Option<string>, k: nat)
    requires k <= |plan|
    requires forall i :: 0 <= i < k ==> sdk(plan[i]).None?
    requires k < |plan| ==> sdk(plan[k]).Some?
    ensures Accepted(plan, sdk) == k
  {
    if k > 0 {
      AcceptedIs(plan[1..], sdk, k - 1);
    }
  }

  /** One more call made: the log grows by the next planned call. */
  lemma Made(start: seq<EngineCall>, plan: seq<EngineCall>, k: nat)
    requires k < |plan|
    ensures start + plan[..k] + [plan[k]] == start + plan[..k + 1]
  {
    assert plan[..k] + [plan[k]] == plan[..k + 1];
  }

  /** The calls one initEngine makes: none when already initialized, else the plan up to and including any rejected call. */
  function InitCalls(initialized: bool, config: RailgunConfig, sdk: EngineCall -> Option<string>): seq<EngineCall> {
    if initialized then []
    else
      var plan := InitPlan(config);
      var n := Accepted(plan, sdk);
      if n < |plan| then plan[..n + 1] else plan
  }

  /** The message initEngine rejects with, if it rejects. */
  function InitError(initialized: bool, config: RailgunConfig, sdk: EngineCall -> Option<string>): Option<string> {
    if initialized then None
    else
      var plan := InitPlan(config);
      var n := Accepted(plan, sdk);
      if n < |plan| then sdk(plan[n]) else None
  }

  /** The flag after one initEngine: set exactly when it was set already or every call went through. */
  predicate InitDone(initialized: bool, config: RailgunConfig, sdk: EngineCall -> Option<string>) {
    initialized || Accepted(InitPlan(config), sdk) == |InitPlan(config)|
  }

  /** A failed initEngine reports an error; a successful one made every planned call, each accepted. */
  lemma InitOutcome(initialized: bool, config: RailgunConfig, sdk: EngineCall -> Option<string>)
    ensures InitDone(initialized, config, sdk) <==> InitError(initialized, config, sdk).None?
    ensures !initialized && InitDone(initialized, config, sdk) ==>
      && InitCalls(initialized, config, sdk) == InitPlan(config)
      && forall i :: 0 <= i < |InitPlan(config)| ==> sdk(InitPlan(config)[i]).None?
    ensures !InitDone(initialized, config, sdk) ==>
      var calls := InitCalls(initialized, config, sdk);
      && calls != [] && calls <= InitPlan(config)
      && sdk(calls[|calls| - 1]) == InitError(initialized, config, sdk)
  {
  }

  /** The engine as the wallet sees it: the initialized flag and the calls made so far. */
  class RailgunEngine {
    var initialized: bool
    var calls: seq<EngineCall>
    const sdk: EngineCall -> Option<string>

    constructor(sdk: EngineCall -> Option<string>)
      ensures !initialized && calls == [] && this.sdk == sdk
    {
      initialized := false;
      calls := [];
      this.sdk := sdk;
    }

    /** One awaited engine call; Some(message) where it rejects. */
    method Call(c: EngineCall) returns (err: Option<string>)
      modifies this
      ensures calls == old(calls) + [c] && initialized == old(initialized)
      ensures err == sdk(c)
    {
      calls := calls + [c];
      err := sdk(c);
    }

    /** initEngine */
    method InitEngine(config: RailgunConfig) returns (err: Option<string>)
      modifies this
      ensures calls == old(calls) + InitCalls(old(initialized), config, sdk)
      ensures initialized == InitDone(old(initialized), config, sdk)
      ensures err == InitError(old(initialized), config, sdk)
    {
      if initialized {
        return None;
      }
      ghost var plan := InitPlan(config);
      ghost var start := calls;
      assert plan[..0] == [];
      err := Call(StartCall(config));
      Made(start, plan, 0);
      if err.Some? {
        AcceptedIs(plan, sdk, 0);
        return;
      }
      err := Call(ProviderCall(PolygonChainId, config.polygonRpcUrl, "Polygon", config));
      Made(start, plan, 1);
      if err.Some? {
        AcceptedIs(plan, sdk, 1);
        return;
      }
      err := Call(ProviderCall(ArbitrumChainId, config.arbitrumRpcUrl, "Arbitrum", config));
      Made(start, plan, 2);
      if err.Some? {
        AcceptedIs(plan, sdk, 2);
        return;
      }
      if config.ethereumRpcUrl.Some? && config.ethereumRpcUrl.value != "" {
        err := Call(ProviderCall(EthereumChainId, config.ethereumRpcUrl.value, "Ethereum", config));
        Made(start, plan, 3);
        if err.Some? {
          AcceptedIs(plan, sdk, 3);
          return;
        }
      }
      AcceptedIs(plan, sdk, |plan|);
      assert plan[..|plan|] == plan;
      initialized := true;
    }

    /** isEngineInitialized */
    method IsEngineInitialized() returns (r: bool)
      ensures r == initialized
    {
      r := initialized;
    }
  }
}
