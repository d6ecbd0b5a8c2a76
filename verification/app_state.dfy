/**
 * The named-connection registry `AppState` (src-tauri/src/api/application/state.rs).
 *
 * The source keeps the config map and the selected name behind two mutexes;
 * here each method is one atomic transition over an immutable `AppState`, and
 * a method that both changes the registry and answers returns a `Step`.
 * Calls into the Kubernetes client library are parameters:
 *  - `fromConfig` is `KubeConfig::from(Config)`;
 *  - `parsed` is the result of `Config::from_custom_kubeconfig`;
 *  - `inferred` is the result of `Config::infer`;
 *  - `tryFrom` is `Client::try_from` applied to `Into<Config>` of the profile.
 */
module AppStateModel {
  import opened Results
  import opened KubeCompat

  /** The registry: configs by name and the optional selected name. */
  datatype AppState = AppState(configs: map<string, KubeConfig>, current: Option<string>)

  /** The state after a call and the value the call returns. */
  datatype Step<+R> = Step(state: AppState, out: R)

  /** The selection invariant: nothing is selected, or the selected name is stored. */
  predicate Valid(s: AppState) {
    s.current.Some? ==> s.current.value in s.configs
  }

  /** Error text of `set_current_config` for a name that is not stored. */
  const UnknownConfigName: string := "Unknown config name"
  /** Error text of `put_kubeconfig` when the kubeconfig does not convert. */
  const KubeconfigParsingFailed: string := "Kubeconfig parsing failed"
  /** The name `register_default` stores the inferred config under. */
  const DefaultName: string := "default"

  /** `new`: an empty registry with nothing selected. */
  function New(): (s: AppState)
    ensures Valid(s)
    ensures GetCurrentConfig(s) == None
    ensures forall key :: SelectConfig(s, key) == None
  {
    AppState(map[], None)
  }

  /**
   * `set_current_config`: `None` clears the selection; `Some(name)` selects a
   * stored name and returns its config, or fails and changes nothing.
   */
  function SetCurrentConfig(s: AppState, value: Option<string>): (r: Step<Result<Option<KubeConfig>, string>>)
    ensures r.state.configs == s.configs
    ensures value.None? ==> r.out == Ok(None) && r.state.current == None
    ensures value.Some? && value.value in s.configs ==>
      r.state.current == value && r.out == Ok(Some(s.configs[value.value]))
    ensures value.Some? && value.value !in s.configs ==>
      r.state == s && r.out == Err(UnknownConfigName)
    ensures r.out.Ok? ==> Valid(r.state)
    ensures Valid(s) ==> Valid(r.state)
  {
    match value
    case None => Step(s.(current := None), Ok(None))
    case Some(name) =>
      if name in s.configs then Step(s.(current := Some(name)), Ok(Some(s.configs[name])))
      else Step(s, Err(UnknownConfigName))
  }

  /**
   * `get_current_config`: the selected name with its config; a selection that
   * names no stored config reads as no selection.
   */
  function GetCurrentConfig(s: AppState): (r: Option<(string, KubeConfig)>)
    ensures r.Some? <==> s.current.Some? && s.current.value in s.configs
    ensures r.Some? ==> r.value.0 == s.current.value && r.value.1 == s.configs[r.value.0]
    ensures Valid(s) ==> (r.Some? <==> s.current.Some?)
  {
    match s.current
    case None => None
    case Some(current) =>
      if current in s.configs then Some((current, s.configs[current])) else None
  }

  /** `get_configs`: a copy of the whole map, agreeing with `select_config` on every name. */
  function GetConfigs(s: AppState): (r: map<string, KubeConfig>)
    ensures forall key :: SelectConfig(s, key) == (if key in r then Some(r[key]) else None)
  {
    s.configs
  }

  /** `select_config`: the config stored under `key`, if any. */
  function SelectConfig(s: AppState, key: string): (r: Option<KubeConfig>)
    ensures r.Some? <==> key in s.configs
    ensures r.Some? ==> r.value == s.configs[key]
  {
    if key in s.configs then Some(s.configs[key]) else None
  }

  /**
   * `put_compat_config`: stores `config` under `key`, overwriting any old
   * entry, and returns the stored value.
   */
  function PutCompatConfig(s: AppState, key: string, config: KubeConfig): (r: Step<KubeConfig>)
    ensures r.out == config
    ensures key in r.state.configs && r.state.configs[key] == r.out
    ensures r.state.configs.Keys == s.configs.Keys + {key}
    ensures forall k :: k in s.configs && k != key ==> r.state.configs[k] == s.configs[k]
    ensures r.state.current == s.current
    ensures Valid(s) ==> Valid(r.state)
  {
    Step(s.(configs := s.configs[key := config]), config)
  }

  /** `put_config`: converts a client-library `Config` and stores it like `put_compat_config`. */
  function PutConfig<C>(s: AppState, key: string, config: C, fromConfig: C -> KubeConfig): (r: Step<KubeConfig>)
    ensures r == PutCompatConfig(s, key, fromConfig(config))
    ensures SelectConfig(r.state, key) == Some(r.out)
  {
    var converted := fromConfig(config);
    Step(s.(configs := s.configs[key := converted]), converted)
  }

  /**
   * `put_kubeconfig`: when the kubeconfig converts, behaves as `put_config`;
   * otherwise fails and changes nothing.
   */
  function PutKubeconfig<C, E>(s: AppState, key: string, parsed: Result<C, E>, fromConfig: C -> KubeConfig)
    : (r: Step<Result<KubeConfig, string>>)
    ensures parsed.Err? ==> r.state == s && r.out == Err(KubeconfigParsingFailed)
    ensures parsed.Ok? ==>
      var put := PutConfig(s, key, parsed.value, fromConfig);
      r.state == put.state && r.out == Ok(put.out)
    ensures r.out.Ok? ==> SelectConfig(r.state, key) == Some(r.out.value)
    ensures Valid(s) ==> Valid(r.state)
  {
    match parsed
    case Ok(conf) =>
      var put := PutConfig(s, key, conf, fromConfig);
      Step(put.state, Ok(put.out))
    case Err(_) => Step(s, Err(KubeconfigParsingFailed))
  }

  /**
   * `remove_config`: drops `key` (nothing happens if it is absent) and, when
   * `key` is the selection, clears the selection too.
   */
  function RemoveConfig(s: AppState, key: string): (r: AppState)
    ensures r.configs.Keys == s.configs.Keys - {key}
    ensures forall k :: k in r.configs ==> r.configs[k] == s.configs[k]
    ensures r.current == (if s.current == Some(key) then None else s.current)
    ensures Valid(s) ==> Valid(r)
  {
    var cleared := if s.current == Some(key) then SetCurrentConfig(s, None).state else s;
    cleared.(configs := cleared.configs - {key})
  }

  /**
   * `register_default`: when ambient inference succeeds, stores the converted
   * config under "default" and returns it; otherwise returns `None` and
   * changes nothing.
   */
  function RegisterDefault<C, E>(s: AppState, inferred: Result<C, E>, fromConfig: C -> KubeConfig)
    : (r: Step<Option<KubeConfig>>)
    ensures inferred.Err? ==> r.state == s && r.out == None
    ensures inferred.Ok? ==> r.state == PutConfig(s, DefaultName, inferred.value, fromConfig).state
    ensures r.out.Some? <==> inferred.Ok?
    ensures r.out.Some? ==> SelectConfig(r.state, DefaultName) == r.out
    ensures Valid(s) ==> Valid(r.state)
  {
    match inferred
    case Ok(conf) =>
      var put := PutConfig(s, DefaultName, conf, fromConfig);
      Step(put.state, Some(fromConfig(conf)))
    case Err(_) => Step(s, None)
  }

  /**
   * `client_for`: builds a client from a copy of the config stored under `key`
   * with the connect timeout forced to 10 s; a missing name or a failed build
   * gives `None`.
   */
  function ClientFor<Cl, E>(s: AppState, key: string, tryFrom: KubeConfig -> Result<Cl, E>): (r: Option<Cl>)
    ensures key !in s.configs ==> r == None
    ensures key in s.configs ==>
      var used := ClientConfig(s.configs[key]);
      r == tryFrom(used).ToOption()
  {
    if key in s.configs then
      var select := s.configs[key].(connectTimeout := Some(ClientConnectTimeoutSecs));
      match tryFrom(select)
      case Ok(cl) => Some(cl)
      case Err(_) => None
    else None
  }

  /**
   * `client`: as `client_for` on the selected name; no selection, or one that
   * names no stored config, gives `None`.
   */
  function Client<Cl, E>(s: AppState, tryFrom: KubeConfig -> Result<Cl, E>): (r: Option<Cl>)
    ensures GetCurrentConfig(s) == None ==> r == None
    ensures s.current.Some? && s.current.value in s.configs ==>
      r == ClientFor(s, s.current.value, tryFrom)
  {
    match GetCurrentConfig(s)
    case Some(cur) =>
      var current := (cur.0, cur.1.(connectTimeout := Some(ClientConnectTimeoutSecs)));
      (match tryFrom(current.1)
       case Ok(cl) => Some(cl)
       case Err(_) => None)
    case None => None
  }
}
