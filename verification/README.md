# kubious connection registry, modelled in Dafny

This project models `AppState`, the registry of named cluster connections in
kubious (`kubious/src-tauri/src/api/application/state.rs`). The registry keeps a
map from config name to `KubeConfig` and an optional selected name. Its methods
select or clear the selection, read it defensively, list and look up configs,
insert or overwrite them (directly, from a client-library `Config`, from a parsed
kubeconfig, or from ambient inference under the name `"default"`), remove them,
and derive a client config with the connect timeout forced to 10 seconds.

The source guards the map and the selection with two mutexes. The model drops
the mutexes and treats each method as one atomic transition over the immutable
value `AppState(configs, current)`. A method that changes the registry and also
answers returns `Step(state, out)`. The central invariant is `Valid`: the
selection is `None` or names a stored config. Every mutating method preserves it
(`Sessions.ReachableIsValid`). No method requires it, because a snapshot restored
from JSON may hold a dangling selection, and `get_current_config` tolerates one.

Files:
- `results.dfy`: Rust's `Option` and `Result`.
- `kube_compat.dfy`: the stored profile `KubeConfig` and the 10 s timeout override.
- `app_state.dfy`: the registry and its methods.
- `registry_properties.dfy`: lemmas that relate several methods.
- `sessions.dfy`: sequences of calls, the reachable-state invariant, and last-put-wins.
- `remove_locking.dfy`: `remove_config` as written, with its mutexes (see Findings).

Foreign calls are parameters of the model:
- `fromConfig: C -> KubeConfig` stands for `KubeConfig::from(Config)`. `C` is the client library's `Config`.
- `parsed: Result<C, E>` is the result of `Config::from_custom_kubeconfig`.
- `inferred: Result<C, E>` is the result of `Config::infer`.
- `tryFrom: KubeConfig -> Result<Cl, E>` is `Client::try_from` applied to `Into<Config>` of the profile.

`KubeConfig` is defined in `crate::compat::kube_compat`, which is not part of this
model. The only field the registry touches is `connect_timeout` (state.rs:137,
150). The model keeps that field as `connectTimeout`, in whole seconds. It stands
for all the other fields, whatever they are, with one opaque component,
`otherFields`, which the registry only copies.

Facts about the code that the model follows:
- Errors are plain strings: "Unknown config name" and "Kubeconfig parsing failed".
- `register_default` converts the inferred `Config` twice: once to store it, once to return it. Because the conversion is a pure function, the returned value equals the stored one (`AppStateModel.RegisterDefault`).
- `from_json` does not check the selection, so a restored registry can name a config that is not stored. `get_current_config` treats such a dangling selection as no selection, and so does the model.

## Model

| member | source | states |
|---|---|---|
| AppStateModel.New | kubious/src-tauri/src/api/application/state.rs:127-132 | a new registry satisfies the selection invariant; it has no current config and no name resolves |
| AppStateModel.SetCurrentConfig | kubious/src-tauri/src/api/application/state.rs:40-57 | `None` clears the selection and returns `Ok(None)`; a stored name becomes the selection and its config is returned; an unknown name fails with "Unknown config name" and changes nothing; the map never changes; success always leaves a valid selection, and a valid state stays valid |
| AppStateModel.GetCurrentConfig | kubious/src-tauri/src/api/application/state.rs:59-66 | returns `Some((n, c))` exactly when the selection is `n`, `n` is stored, and `c` is its config; a dangling selection reads as `None`; in a valid state the result is present iff something is selected |
| AppStateModel.GetConfigs | kubious/src-tauri/src/api/application/state.rs:68-70 | the returned map agrees with `select_config` on every name |
| AppStateModel.SelectConfig | kubious/src-tauri/src/api/application/state.rs:72-74 | present exactly for stored names, holding the stored config |
| AppStateModel.PutCompatConfig | kubious/src-tauri/src/api/application/state.rs:83-87 | the key maps to the given config, which is also returned; the key set gains only that key; every other entry and the selection are unchanged; validity is preserved |
| AppStateModel.PutConfig | kubious/src-tauri/src/api/application/state.rs:76-81 | equals `put_compat_config` of the converted config; the returned value is what a lookup of the key now gives |
| AppStateModel.PutKubeconfig | kubious/src-tauri/src/api/application/state.rs:89-97 | a failed conversion returns "Kubeconfig parsing failed" and leaves the state untouched; a successful one behaves exactly as `put_config`; validity is preserved |
| AppStateModel.RemoveConfig | kubious/src-tauri/src/api/application/state.rs:99-108 | the key set loses exactly the key; every remaining entry is unchanged; the selection is cleared iff it was the key; validity is preserved |
| AppStateModel.RegisterDefault | kubious/src-tauri/src/api/application/state.rs:110-117 | failed inference returns `None` and leaves the state untouched; success stores as `put_config` under "default" and returns exactly the stored config |
| AppStateModel.ClientFor | kubious/src-tauri/src/api/application/state.rs:147-158 | a missing name gives `None`; otherwise the client is built from the stored config with the timeout forced to 10 s, and a build error collapses to `None` |
| AppStateModel.Client | kubious/src-tauri/src/api/application/state.rs:134-145 | no valid selection gives `None`; otherwise the result equals `client_for` on the selected name |
| KubeCompat.WithConnectTimeout | kubious/src-tauri/src/api/application/state.rs:149-150 | the copy has the given timeout and agrees with the original on every other field |
| KubeCompat.ClientConfig | kubious/src-tauri/src/api/application/state.rs:136-137 | the config used for a client has a 10 s connect timeout and otherwise equals the stored one; it equals the stored one iff that already had 10 s |
| KubeCompat.ClientConfigIdempotent | kubious/src-tauri/src/api/application/state.rs:136-137 | forcing the timeout twice is forcing it once |
| KubeCompat.ClientConfigForgetsTimeout | kubious/src-tauri/src/api/application/state.rs:149-150 | two configs yield the same client config iff they differ at most in their timeout |
| RegistryProperties.ClearThenGetIsNone | kubious/src-tauri/src/api/application/state.rs:52-66 | clearing always returns `Ok(None)`; afterwards `get_current_config` returns `None` and the map is unchanged |
| RegistryProperties.SelectThenGet | kubious/src-tauri/src/api/application/state.rs:45-62 | after selecting a stored name, `get_current_config` returns that name with its config, and the call returned the same config `select_config` gives |
| RegistryProperties.FailedSelectKeepsCurrent | kubious/src-tauri/src/api/application/state.rs:44-66 | a failed selection leaves what `get_current_config` reports unchanged |
| RegistryProperties.CurrentIsSelectable | kubious/src-tauri/src/api/application/state.rs:59-74 | whatever `get_current_config` reports can also be looked up by name with the same config |
| RegistryProperties.RemoveThenGet | kubious/src-tauri/src/api/application/state.rs:99-108 | after removal the name does not resolve; if it was selected nothing reads as selected; otherwise the current config is unchanged |
| RegistryProperties.RemoveIdempotent | kubious/src-tauri/src/api/application/state.rs:99-108 | removing a name twice equals removing it once |
| RegistryProperties.PutThenRemove | kubious/src-tauri/src/api/application/state.rs:83-108 | removing a freshly inserted, unselected name restores the registry exactly |
| RegistryProperties.RemoveThenPut | kubious/src-tauri/src/api/application/state.rs:83-108 | inserting after removing stores the same map as inserting directly |
| RegistryProperties.PutPutSameKey | kubious/src-tauri/src/api/application/state.rs:83-87 | a later insert under the same name overwrites an earlier one |
| RegistryProperties.PutPutDistinctKeys | kubious/src-tauri/src/api/application/state.rs:83-87 | inserts under different names commute |
| RegistryProperties.ClientForIgnoresStoredTimeout | kubious/src-tauri/src/api/application/state.rs:147-158 | the timeout stored in a profile has no influence on the client built for it |
| RegistryProperties.ClientAfterSelect | kubious/src-tauri/src/api/application/state.rs:134-158 | after selecting a stored name, `client` builds what `client_for` builds for that name |
| RegistryProperties.ClientWithoutSelection | kubious/src-tauri/src/api/application/state.rs:99-158 | after removing the selected name, both `client` and `client_for` of that name give `None` |
| RegistryProperties.SelectThenRemoveScenario | kubious/src-tauri/src/api/application/state.rs:40-108 | store "a" and "b", select "a" (returns its config), remove "a": nothing is selected and only "b" remains |
| RegistryProperties.SelectMissingScenario | kubious/src-tauri/src/api/application/state.rs:40-66 | selecting an unknown name in a new registry fails with "Unknown config name" and nothing becomes selected |
| Sessions.Apply | kubious/src-tauri/src/api/application/state.rs:40-117 | every mutating method preserves the selection invariant; selecting and removing never add names; a call adds at most the name it stores under |
| Sessions.Run | kubious/src-tauri/src/api/application/state.rs:40-117 | any sequence of mutating calls from a valid state ends in a valid state |
| Sessions.RunSnoc | kubious/src-tauri/src/api/application/state.rs:40-117 | running calls and then one more equals applying that call to the result of the run |
| Sessions.ReachableIsValid | kubious/src-tauri/src/api/application/state.rs:127-132 | every state reachable from `new` is valid, so `get_current_config` is present exactly when something is selected |
| Sessions.LastPut | kubious/src-tauri/src/api/application/state.rs:76-87 | absent iff no insert in the run used the name; otherwise it is the config stored by an insert under that name that no later insert under that name follows |
| Sessions.PutsLastWins | kubious/src-tauri/src/api/application/state.rs:76-87 | after a run of `put_config` and `put_compat_config` calls, each name holds the config stored by the last insert under it, other names keep their old value, and the selection is unchanged |
| RemoveLocking.Acquire | kubious/src-tauri/src/api/application/state.rs:24-38 | locking a mutex already held by the thread does not succeed; otherwise it joins the held set |
| RemoveLocking.SetCurrentConfigHolding | kubious/src-tauri/src/api/application/state.rs:40-57 | `set_current_config` entered while holding `current_config` blocks on it; if it completes, its effect is the atomic model's |
| RemoveLocking.RemoveConfigAsWritten | kubious/src-tauri/src/api/application/state.rs:99-108 | as written, removing an unselected name completes with the intended effect |
| RemoveLocking.SetCurrentConfigFromNoLocksCompletes | kubious/src-tauri/src/api/application/state.rs:44-46 | called without holding a registry lock, `set_current_config` always completes |
| RemoveLocking.RemoveSelectedBlocks | kubious/src-tauri/src/api/application/state.rs:100-104 | as written, removing the selected name blocks on `current_config`, while the intended removal clears the selection |
| RemoveLocking.RemoveSelectedCounterexample | kubious/src-tauri/src/api/application/state.rs:99-108 | with "a" stored and selected, the as-written removal blocks; the intended one yields an empty registry |

## Left out

- Mutex acquisition, lock poisoning and the resulting panics (state.rs:24-38) are left out. The model is sequential. Only `remove_locking.dfy` models which locks are held, to state the finding below.
- Interleavings of concurrent calls are left out. Each method is one atomic step. This is sound for the state: `set_current_config` and `remove_config` each keep their guards until they finish. The one hazard left out is deadlock between two threads, because the two methods lock in opposite orders (state.rs:44 then 46, against 100 then 101).
- `KubeConfig`'s real field set is left out. Its definition is not part of this model. Every field except the connect timeout is one opaque component.
- `to_json` and `from_json` (state.rs:119-125) are left out. They are thin wrappers over serde, which is not part of this model.
- `save_state` (state.rs:160-169) is left out. It is Tauri path resolution and file I/O.
- `Client::try_from`, `Config::infer`, `Config::from_custom_kubeconfig` and `KubeConfig::from` are left out as code. They are parameters, as listed above.
- `Duration` is modelled as whole seconds. The core only ever writes `Duration::from_secs(10)`.
- `artifacts/mod.rs` is left out. Its `ArtifactsCommand` enum is empty and its trait impl is blank, so it has no behaviour.

## Findings

| source | as written | input that shows it | evidently intended | confidence | as-written member | corrected member |
|---|---|---|---|---|---|---|
| kubious/src-tauri/src/api/application/state.rs:99-108 | `remove_config` holds the `current_config` guard (line 101) and calls `set_current_config(None)` (line 104), which locks the same non-re-entrant `std::sync::Mutex` again (line 44), so the call never returns | a registry with "a" stored and selected, then `remove_config("a")` | clear the selection and remove the key in one step | high, not executed | RemoveLocking.RemoveSelectedBlocks | AppStateModel.RemoveConfig |
