/**
 * `remove_config` as written, with the two registry mutexes made explicit.
 *
 * `std::sync::Mutex` is not re-entrant: when a thread locks a mutex it
 * already holds, the lock call never returns (it deadlocks or panics).
 * `remove_config` takes the `configs` guard and then the `current_config`
 * guard, and while still holding both calls
 * `set_current_config(None)`, which locks `current_config` again. The call
 * therefore never returns whenever the removed name is the selected one.
 * `AppStateModel.RemoveConfig` is the intended behaviour.
 */
module RemoveLocking {
  import opened Results
  import opened KubeCompat
  import opened AppStateModel

  /** The registry's two mutexes. */
  datatype Lock = ConfigsLock | CurrentLock

  /**
   * How a call ends: with a new state, or `Blocked` on a mutex its own thread
   * already holds, where the lock call never returns (it deadlocks or panics).
   */
  datatype Outcome = Completed(state: AppState) | Blocked(on: Lock)

  /** Locking `l` while holding `held`: the new set of held locks, or `None` if `l` is already held. */
  function Acquire(held: set<Lock>, l: Lock): (r: Option<set<Lock>>)
    ensures r.None? <==> l in held
    ensures r.Some? ==> r.value == held + {l}
  {
    if l in held then None else Some(held + {l})
  }

  /**
   * `set_current_config` entered while `held` is already locked: it locks
   * `current_config` first, and `configs` only when a name is given.
   */
  function SetCurrentConfigHolding(held: set<Lock>, s: AppState, value: Option<string>): (r: Outcome)
    ensures CurrentLock in held ==> r == Blocked(CurrentLock)
    ensures CurrentLock !in held && value.Some? && ConfigsLock in held ==> r == Blocked(ConfigsLock)
    ensures r.Completed? ==> r.state == SetCurrentConfig(s, value).state
  {
    match Acquire(held, CurrentLock)
    case None => Blocked(CurrentLock)
    case Some(withCurrent) =>
      if value.Some? then
        match Acquire(withCurrent, ConfigsLock)
        case None => Blocked(ConfigsLock)
        case Some(_) => Completed(SetCurrentConfig(s, value).state)
      else Completed(SetCurrentConfig(s, value).state)
  }

  /** `remove_config` as written: both guards are held across the nested `set_current_config(None)`. */
  function RemoveConfigAsWritten(s: AppState, key: string): (r: Outcome)
    ensures s.current != Some(key) ==> r == Completed(RemoveConfig(s, key))
  {
    var held := {ConfigsLock, CurrentLock};
    if s.current == Some(key) then
      match SetCurrentConfigHolding(held, s, None)
      case Blocked(l) => Blocked(l)
      case Completed(cleared) => Completed(cleared.(configs := cleared.configs - {key}))
    else Completed(s.(configs := s.configs - {key}))
  }

  /** Called from a thread holding no registry lock, `set_current_config` always completes. */
  lemma SetCurrentConfigFromNoLocksCompletes(s: AppState, value: Option<string>)
    ensures SetCurrentConfigHolding({}, s, value) == Completed(SetCurrentConfig(s, value).state)
  {
  }

  /** Removing the selected name never returns: the nested call cannot lock `current_config`. */
  lemma RemoveSelectedBlocks(s: AppState, key: string)
    requires s.current == Some(key)
    ensures RemoveConfigAsWritten(s, key) == Blocked(CurrentLock)
    ensures RemoveConfig(s, key).current == None
  {
  }

  /** A concrete instance: remove "a" from a registry where "a" is stored and selected. */
  lemma RemoveSelectedCounterexample(c: KubeConfig)
    ensures var s := AppState(map["a" := c], Some("a"));
      && Valid(s)
      && RemoveConfigAsWritten(s, "a").Blocked?
      && RemoveConfig(s, "a") == AppState(map[], None)
  {
  }
}
