/**
 * useRailgunEngine: the effect that starts the engine once, moving the
 * store's engine status from idle to initializing and then to ready or
 * error. The asynchronous continuation (.then / .catch) is its own step,
 * Settle, run after Effect has launched initEngine.
 */
module EngineHook {
  import opened Wrappers
  import opened Engine
  import opened AppStore

  /** The NEXT_PUBLIC_* variables and NODE_ENV the effect reads; an unset variable is None. */
  datatype Environment = Environment(
    polygonRpcUrl: Option<string>,
    arbitrumRpcUrl: Option<string>,
    ethereumRpcUrl: Option<string>,
    development: bool)

  const MissingRpcUrls: string := "Missing RPC URLs. Set NEXT_PUBLIC_POLYGON_RPC_URL and NEXT_PUBLIC_ARBITRUM_RPC_URL."

  predicate Truthy(v: Option<string>) {
    v.Some? && v.value != ""
  }

  /** The configuration the effect passes to initEngine. */
  function ConfigFor(env: Environment): RailgunConfig
    requires Truthy(env.polygonRpcUrl) && Truthy(env.arbitrumRpcUrl)
  {
    RailgunConfig(env.polygonRpcUrl.value, env.arbitrumRpcUrl.value, env.ethereumRpcUrl, None, None, Some(env.development))
  }

  /** The configuration leaves polling and POI nodes to initEngine's defaults and debugs only in development. */
  lemma ConfigDefaults(env: Environment)
    requires Truthy(env.polygonRpcUrl) && Truthy(env.arbitrumRpcUrl)
    ensures var plan := InitPlan(ConfigFor(env));
      && plan[0].StartRailgunEngine? && plan[0].shouldDebug == env.development
      && plan[0].poiNodeUrls == [DefaultPoiNodeUrl]
      && (forall i :: 1 <= i < |plan| ==> plan[i].LoadProvider? && plan[i].pollingInterval == DefaultPollingIntervalMs)
      && (|plan| == 4 <==> Truthy(env.ethereumRpcUrl))
  {
    InitPlanShape(ConfigFor(env));
  }

  /** The error status is never set without its message: each step of the hook keeps ErrorRecorded. */
  class EngineHookState {
    var initAttempted: bool

    constructor()
      ensures !initAttempted
    {
      initAttempted := false;
    }

    /**
     * The effect body. It does nothing once an attempt was made or while the
     * status is not idle; otherwise it marks the attempt, and either records
     * the missing-URL error without calling the engine or sets initializing
     * and returns the configuration initEngine is called with.
     */
    method Effect(store: WalletStore, env: Environment) returns (launched: Option<RailgunConfig>)
      modifies this, store
      ensures old(initAttempted) || old(store.state.engineStatus) != Idle ==>
        launched == None && initAttempted == old(initAttempted) && store.state == old(store.state)
      ensures !old(initAttempted) && old(store.state.engineStatus) == Idle ==> initAttempted
      ensures !old(initAttempted) && old(store.state.engineStatus) == Idle && !(Truthy(env.polygonRpcUrl) && Truthy(env.arbitrumRpcUrl)) ==>
        launched == None && store.state == old(store.state).(engineStatus := Error, engineError := Some(MissingRpcUrls))
      ensures !old(initAttempted) && old(store.state.engineStatus) == Idle && Truthy(env.polygonRpcUrl) && Truthy(env.arbitrumRpcUrl) ==>
        launched == Some(ConfigFor(env)) && store.state == old(store.state).(engineStatus := Initializing)
      ensures ErrorRecorded(old(store.state)) ==> ErrorRecorded(store.state)
    {
      if initAttempted || store.state.engineStatus != Idle {
        return None;
      }
      initAttempted := true;
      var polygonRpc := env.polygonRpcUrl;
      var arbitrumRpc := env.arbitrumRpcUrl;
      if !Truthy(polygonRpc) || !Truthy(arbitrumRpc) {
        store.SetEngineError(MissingRpcUrls);
        return None;
      }
      store.SetEngineStatus(Initializing);
      launched := Some(ConfigFor(env));
    }

    /** The continuation: initEngine, then ready on success or the rejection's message as the engine error. */
    method Settle(store: WalletStore, engine: RailgunEngine, config: RailgunConfig)
      modifies store, engine
      ensures engine.calls == old(engine.calls) + InitCalls(old(engine.initialized), config, engine.sdk)
      ensures engine.initialized == InitDone(old(engine.initialized), config, engine.sdk)
      ensures var err := InitError(old(engine.initialized), config, engine.sdk);
        && (err.None? ==> store.state == old(store.state).(engineStatus := Ready))
        && (err.Some? ==> store.state == old(store.state).(engineStatus := Error, engineError := err))
      ensures ErrorRecorded(old(store.state)) ==> ErrorRecorded(store.state)
    {
      var err := engine.InitEngine(config);
      if err.None? {
        store.SetEngineStatus(Ready);
      } else {
        store.SetEngineError(err.value);
      }
    }
  }

  /** The status machine as a transition function: idle to initializing or error, initializing to ready or error. */
  function StatusAfter(s: EngineStatus, urlsPresent: bool, initSucceeds: bool): EngineStatus {
    if s != Idle then s
    else if !urlsPresent then Error
    else if initSucceeds then Ready
    else Error
  }

  /**
   * One run of the effect followed by its continuation: from idle the
   * status ends ready or error and never idle again, and an engine is
   * asked to start only when both URLs are present.
   */
  method Boot(hook: EngineHookState, store: WalletStore, engine: RailgunEngine, env: Environment)
    requires !hook.initAttempted && store.state.engineStatus == Idle
    modifies hook, store, engine
    ensures hook.initAttempted
    ensures !(Truthy(env.polygonRpcUrl) && Truthy(env.arbitrumRpcUrl)) ==> engine.calls == old(engine.calls)
    ensures store.state.engineStatus ==
      StatusAfter(Idle, Truthy(env.polygonRpcUrl) && Truthy(env.arbitrumRpcUrl),
                  Truthy(env.polygonRpcUrl) && Truthy(env.arbitrumRpcUrl) && InitError(old(engine.initialized), ConfigFor(env), engine.sdk).None?)
    ensures store.state.engineStatus != Idle
    ensures store.state.engineStatus == Error ==> store.state.engineError.Some?
  {
    var launched := hook.Effect(store, env);
    if launched.Some? {
      hook.Settle(store, engine, launched.value);
    }
  }
}
