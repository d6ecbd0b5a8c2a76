/**
 * Properties that relate several registry operations: reads after writes,
 * removal as the inverse of insertion, idempotent removal, and the fixed
 * client timeout.
 */
module RegistryProperties {
  import opened Results
  import opened KubeCompat
  import opened AppStateModel

  /** Clearing the selection always succeeds, and afterwards nothing reads as selected. */
  lemma ClearThenGetIsNone(s: AppState)
    ensures SetCurrentConfig(s, None).out == Ok(None)
    ensures GetCurrentConfig(SetCurrentConfig(s, None).state) == None
    ensures GetConfigs(SetCurrentConfig(s, None).state) == GetConfigs(s)
  {
  }

  /** Selecting a stored name makes `get_current_config` report exactly that name and its config. */
  lemma SelectThenGet(s: AppState, name: string)
    requires name in s.configs
    ensures var r := SetCurrentConfig(s, Some(name));
      && GetCurrentConfig(r.state) == Some((name, s.configs[name]))
      && r.out == Ok(SelectConfig(s, name))
  {
  }

  /** A failed selection leaves what `get_current_config` reports unchanged. */
  lemma FailedSelectKeepsCurrent(s: AppState, name: string)
    requires name !in s.configs
    ensures GetCurrentConfig(SetCurrentConfig(s, Some(name)).state) == GetCurrentConfig(s)
    ensures SetCurrentConfig(s, Some(name)).out.Err?
  {
  }

  /** Whatever `get_current_config` reports can also be looked up by name. */
  lemma CurrentIsSelectable(s: AppState)
    ensures GetCurrentConfig(s).Some? ==>
      SelectConfig(s, GetCurrentConfig(s).value.0) == Some(GetCurrentConfig(s).value.1)
  {
  }

  /**
   * After removal the name is gone; if it was selected nothing reads as
   * selected, and otherwise what reads as selected is unchanged.
   */
  lemma RemoveThenGet(s: AppState, key: string)
    ensures SelectConfig(RemoveConfig(s, key), key) == None
    ensures s.current == Some(key) ==> GetCurrentConfig(RemoveConfig(s, key)) == None
    ensures s.current != Some(key) ==> GetCurrentConfig(RemoveConfig(s, key)) == GetCurrentConfig(s)
  {
  }

  /** Removing a name twice is removing it once. */
  lemma RemoveIdempotent(s: AppState, key: string)
    ensures RemoveConfig(RemoveConfig(s, key), key) == RemoveConfig(s, key)
  {
  }

  /** Removing a freshly inserted, unselected name restores the registry exactly. */
  lemma PutThenRemove(s: AppState, key: string, config: KubeConfig)
    requires key !in s.configs
    requires s.current != Some(key)
    ensures RemoveConfig(PutCompatConfig(s, key, config).state, key) == s
  {
  }

  /** Inserting after removing stores the same map as inserting directly. */
  lemma RemoveThenPut(s: AppState, key: string, config: KubeConfig)
    ensures PutCompatConfig(RemoveConfig(s, key), key, config).state.configs
         == PutCompatConfig(s, key, config).state.configs
  {
  }

  /** A later insert under the same name wins. */
  lemma PutPutSameKey(s: AppState, key: string, a: KubeConfig, b: KubeConfig)
    ensures PutCompatConfig(PutCompatConfig(s, key, a).state, key, b) == PutCompatConfig(s, key, b)
  {
  }

  /** Inserts under different names commute. */
  lemma PutPutDistinctKeys(s: AppState, k1: string, a: KubeConfig, k2: string, b: KubeConfig)
    requires k1 != k2
    ensures PutCompatConfig(PutCompatConfig(s, k1, a).state, k2, b).state
         == PutCompatConfig(PutCompatConfig(s, k2, b).state, k1, a).state
  {
  }

  /** The stored timeout has no influence on the client: only the other fields matter. */
  lemma ClientForIgnoresStoredTimeout<Cl, E>(s: AppState, t: AppState, key: string,
                                            tryFrom: KubeConfig -> Result<Cl, E>)
    requires key in s.configs && key in t.configs
    requires SameExceptTimeout(s.configs[key], t.configs[key])
    ensures ClientFor(s, key, tryFrom) == ClientFor(t, key, tryFrom)
  {
  }

  /** After a successful selection of `name`, `client` builds what `client_for(name)` builds. */
  lemma ClientAfterSelect<Cl, E>(s: AppState, name: string, tryFrom: KubeConfig -> Result<Cl, E>)
    requires name in s.configs
    ensures Client(SetCurrentConfig(s, Some(name)).state, tryFrom) == ClientFor(s, name, tryFrom)
  {
  }

  /** Without a valid selection `client` gives nothing, whatever the builder does. */
  lemma ClientWithoutSelection<Cl, E>(s: AppState, key: string, tryFrom: KubeConfig -> Result<Cl, E>)
    requires s.current == Some(key)
    ensures Client(RemoveConfig(s, key), tryFrom) == None
    ensures ClientFor(RemoveConfig(s, key), key, tryFrom) == None
  {
  }

  /**
   * Walk-through: store "a" and "b", select "a", remove "a"; the selection is
   * cleared and only "b" remains.
   */
  lemma SelectThenRemoveScenario(p1: KubeConfig, p2: KubeConfig)
    ensures var s1 := PutCompatConfig(New(), "a", p1).state;
      var s2 := PutCompatConfig(s1, "b", p2).state;
      var sel := SetCurrentConfig(s2, Some("a"));
      var s3 := RemoveConfig(sel.state, "a");
      && sel.out == Ok(Some(p1))
      && GetCurrentConfig(s3) == None
      && GetConfigs(s3) == map["b" := p2]
  {
  }

  /** Walk-through: selecting an unknown name in an empty registry fails and selects nothing. */
  lemma SelectMissingScenario()
    ensures SetCurrentConfig(New(), Some("missing")).out == Err(UnknownConfigName)
    ensures GetCurrentConfig(SetCurrentConfig(New(), Some("missing")).state) == None
  {
  }
}
