/**
 * Sequences of registry calls. Every state the registry can reach from `new`
 * by its mutating methods satisfies the selection invariant, and a run of
 * inserts leaves exactly one entry per name, holding the value put last.
 */
module Sessions {
  import opened Results
  import opened KubeCompat
  import opened AppStateModel

  /** One call of a mutating `AppState` method, with the foreign results it receives. */
  datatype Op<C, E> =
    | SetCurrent(value: Option<string>)
    | Put(key: string, config: C)
    | PutCompat(key: string, profile: KubeConfig)
    | PutKube(key: string, parsed: Result<C, E>)
    | Remove(key: string)
    | RegisterDefaultOp(inferred: Result<C, E>)

  /** The state after one call; the call's return value is dropped. */
  function Apply<C, E>(s: AppState, op: Op<C, E>, fromConfig: C -> KubeConfig): (r: AppState)
    ensures Valid(s) ==> Valid(r)
    ensures op.SetCurrent? || op.Remove? ==> r.configs.Keys <= s.configs.Keys
    ensures r.configs.Keys - s.configs.Keys <= OpKeys(op)
  {
    match op
    case SetCurrent(value) => SetCurrentConfig(s, value).state
    case Put(key, config) => PutConfig(s, key, config, fromConfig).state
    case PutCompat(key, profile) => PutCompatConfig(s, key, profile).state
    case PutKube(key, parsed) => PutKubeconfig(s, key, parsed, fromConfig).state
    case Remove(key) => RemoveConfig(s, key)
    case RegisterDefaultOp(inferred) => RegisterDefault(s, inferred, fromConfig).state
  }

  /** The names a call may add to the map. */
  function OpKeys<C, E>(op: Op<C, E>): set<string> {
    match op
    case Put(key, _) => {key}
    case PutCompat(key, _) => {key}
    case PutKube(key, _) => {key}
    case RegisterDefaultOp(_) => {DefaultName}
    case _ => {}
  }

  /** The state after the calls `ops`, in order. */
  function Run<C, E>(s: AppState, ops: seq<Op<C, E>>, fromConfig: C -> KubeConfig): (r: AppState)
    ensures Valid(s) ==> Valid(r)
    decreases |ops|
  {
    if |ops| == 0 then s else Run(Apply(s, ops[0], fromConfig), ops[1..], fromConfig)
  }

  /** Running `ops` and then `op` is applying `op` to the result of running `ops`. */
  lemma {:induction false} RunSnoc<C, E>(s: AppState, ops: seq<Op<C, E>>, op: Op<C, E>, fromConfig: C -> KubeConfig)
    ensures Run(s, ops + [op], fromConfig) == Apply(Run(s, ops, fromConfig), op, fromConfig)
    decreases |ops|
  {
    if |ops| == 0 {
      assert ops + [op] == [op];
    } else {
      assert (ops + [op])[1..] == ops[1..] + [op];
      RunSnoc(Apply(s, ops[0], fromConfig), ops[1..], op, fromConfig);
    }
  }

  /** Every state reachable from `new` keeps the selection invariant. */
  lemma ReachableIsValid<C, E>(ops: seq<Op<C, E>>, fromConfig: C -> KubeConfig)
    ensures Valid(Run(New(), ops, fromConfig))
    ensures GetCurrentConfig(Run(New(), ops, fromConfig)).Some? <==> Run(New(), ops, fromConfig).current.Some?
  {
  }

  /** True iff every call in `ops` is `put_config` or `put_compat_config`. */
  predicate AllPuts<C, E>(ops: seq<Op<C, E>>) {
    forall i :: 0 <= i < |ops| ==> ops[i].Put? || ops[i].PutCompat?
  }

  /** The config an insert stores: the converted `Config` for `put_config`, the given one otherwise. */
  function PutValue<C, E>(op: Op<C, E>, fromConfig: C -> KubeConfig): KubeConfig
    requires op.Put? || op.PutCompat?
  {
    if op.Put? then fromConfig(op.config) else op.profile
  }

  /** True iff `ops[i]` is an insert under `key` and no later call in `ops` inserts under `key`. */
  predicate IsLastPutAt<C, E>(ops: seq<Op<C, E>>, key: string, i: nat)
    requires AllPuts(ops)
  {
    && i < |ops|
    && ops[i].key == key
    && forall j :: i < j < |ops| ==> ops[j].key != key
  }

  /** The config stored by the last insert under `key` in `ops`, if any. */
  function LastPut<C, E>(ops: seq<Op<C, E>>, fromConfig: C -> KubeConfig, key: string): (r: Option<KubeConfig>)
    requires AllPuts(ops)
    ensures r.None? <==> forall i :: 0 <= i < |ops| ==> ops[i].key != key
    ensures r.Some? ==>
      exists i: nat :: IsLastPutAt(ops, key, i) && PutValue(ops[i], fromConfig) == r.value
    decreases |ops|
  {
    if |ops| == 0 then None
    else
      var n := |ops| - 1;
      if ops[n].key == key then
        assert IsLastPutAt(ops, key, n);
        Some(PutValue(ops[n], fromConfig))
      else
        var init := ops[..n];
        PrefixAllPuts(ops, n);
        var r := LastPut(init, fromConfig, key);
        if r.Some? then
          LastPutSurvivesOtherKey(init, ops, fromConfig, key, r.value);
          r
        else
          assert forall i :: 0 <= i < n ==> init[i] == ops[i];
          r
  }

  /** A prefix of a run of inserts is a run of inserts. */
  lemma PrefixAllPuts<C, E>(ops: seq<Op<C, E>>, n: nat)
    requires AllPuts(ops) && n <= |ops|
    ensures AllPuts(ops[..n])
  {
  }

  /** An insert that is last in a run stays last when a call under another name is appended. */
  lemma LastPutSurvivesOtherKey<C, E>(init: seq<Op<C, E>>, ops: seq<Op<C, E>>, fromConfig: C -> KubeConfig,
                                      key: string, v: KubeConfig)
    requires AllPuts(ops) && |ops| > 0 && ops[|ops| - 1].key != key
    requires init == ops[..|ops| - 1] && AllPuts(init)
    requires exists i: nat :: IsLastPutAt(init, key, i) && PutValue(init[i], fromConfig) == v
    ensures exists i: nat :: IsLastPutAt(ops, key, i) && PutValue(ops[i], fromConfig) == v
  {
  }

  /**
   * After a run of inserts, each name put holds the value put last under it,
   * and every other name holds what it held before.
   */
  lemma {:induction false} PutsLastWins<C, E>(s: AppState, ops: seq<Op<C, E>>, fromConfig: C -> KubeConfig, key: string)
    requires AllPuts(ops)
    ensures var r := Run(s, ops, fromConfig);
      var last := LastPut(ops, fromConfig, key);
      SelectConfig(r, key) == (if last.Some? then last else SelectConfig(s, key))
    ensures Run(s, ops, fromConfig).current == s.current
    decreases |ops|
  {
    if |ops| > 0 {
      var init := ops[..|ops| - 1];
      var last := ops[|ops| - 1];
      assert ops == init + [last];
      assert AllPuts(init);
      PutsLastWins(s, init, fromConfig, key);
      RunSnoc(s, init, last, fromConfig);
    }
  }
}
