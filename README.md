# vuex-api request module, modelled in Dafny

`src/plugin/module.js` is a Vuex module that wraps axios. A component
dispatches the `request` action with a `keyPath`, a `url`, `params`, an
optional `method` and an optional `onSuccess` bundle. The module records the
request's lifecycle under `keyPath` in its `state` object. When a request
repeats the most recent one (same url, shallow-equal params) while the
descriptor reads `started`, the module calls that request's cancel handle.
Any success, even of another call, sets the descriptor to `finished`; a
failure leaves it `started`.

The model has two stateful parts and a trace semantics over them.

- **Keyed request-state table** (`request_state.dfy`, module `RequestState`).
  The `state` object maps a keyPath to a record with optional `status`,
  `resp`, `err` and `firstCallDone` fields. The four mutations are `request`,
  `success`, `error` and `clear`. Each one rewrites the entry at its keyPath.
  `Apply` is the pure merge `{ ...state[keyPath], <new fields> }` over a
  `map`. The class `StateTable` holds that map as a field, and its methods
  `Begin`, `Succeed`, `Fail` and `Clear` reassign it in place, as
  `vue.set` does.
- **Request coordinator** (`coordinator.dfy`, module `Coordinator`). The class
  `Plugin` holds the fields of the module-level `previousStateRequest`
  descriptor (`url`, `params`, `state`, `cancel`) and the table it commits to.
  The `request` action runs in two parts:
  - `Plugin.Request` is the synchronous part. It commits `loading`, applies
    the cancellation rule, overwrites the descriptor field by field and
    dispatches the transport call.
  - `Plugin.Complete` is the promise handler. It runs when that call settles.

  Other actions can run between the two parts, so they are separate steps.
  `Plugin.ClearAction` is the `clear` action. Each method is proved against a
  pure function over a `World` value: `Issue`, `Settle` or `ClearKey`. A
  ghost log of effects records the order of commits, cancel-handle calls,
  transport dispatches and post-success callbacks.
- **Traces** (`traces.dfy`, module `Traces`). Here `Run` folds `Next` over
  any interleaving of request, settle and clear steps. The lemmas in this
  module relate each run back to the table and the descriptor.

Modelling choices:
- `shallowEqual` comes from `./utils`, and `./utils` is not part of this model.
  It is modelled as `Values.ShallowEqual`: both objects have the same keys,
  and each key holds the same primitive or the same object reference. Object
  values are opaque references (`Value.Ref`). Over these values shallow
  equality is map equality (`Values.ShallowEqualIsEquality`).
- `./actions` is not part of this model either. The mutation names are the
  `Mutation` constructors `Begin`, `Succeed`, `Fail` and `Clear`. They stand
  for `pluginActions.request`, `.success`, `.error` and `.clear`.
- The transport's outcome is a parameter of `Plugin.Complete`: `Resolved(resp, fault)`
  or `Rejected(Failure(cancelled, response))`. Cancelling a call does not
  force its outcome. A run says when each call settles, and how.
- Whether a post-success callback throws is decided by code outside the
  module, so it is part of a success outcome: `fault` names the callback
  that throws (`dispatchAction`, `commitAction` or `executeFunction`) and
  the value it throws. The `.catch` at line 49 is chained after the `.then`
  at line 33, so that value reaches the `.catch` handler: the later callbacks
  do not run, `error` is committed after `success`, the descriptor stays
  finished, and the promise rejects with the thrown value.
- The value the `.catch` handler receives is a `Failure`: whether
  `axios.isCancel` holds of it, and its `response` property. The notice the
  handler prints for a cancelled call is logged as the `ReportCancelled` effect.
- A call is identified by its cancel handle; its handlers capture `keyPath`
  and `onSuccess`. In
  the model these are a `Call` value: a fresh id, the key and the callbacks.
- JavaScript truthiness is kept. An empty `method` string falls back to `'GET'`.
  An empty `dispatchAction` or `commitAction` name does not fire.
- `delete resp.config` changes the response object that the caller also holds.
  So `StateTable.Succeed` returns the stripped response, and `executeFunction`
  and the resolved promise both receive that stripped response.

Three behaviours of the code are easy to miss; the model states each.
- A record keeps a stale `resp` after a later error, and a stale `err` after
  a later success, because every mutation but `clear` spreads the old record
  into the new one (`Apply`, `CancelledDuplicateStillFails`).
- A cancelled duplicate's rejection still commits `error` to the key while
  the second call is in flight (`CancelledDuplicateStillFails`).
- The descriptor has two phases, `started` and `finished`, and starts
  `finished` with `url: null`. Any success, even of a stale call, marks it
  finished; a failure never does (`DescriptorTracksLastIssue`).

## Model

| member | source | states |
|---|---|---|
| RequestState.StripConfig | src/plugin/module.js:72 | the stored response has no `config` property; every other property is kept unchanged |
| RequestState.Begun | src/plugin/module.js:68 | reference definition of the record the `request` mutation builds: the old record with status loading |
| RequestState.Succeeded | src/plugin/module.js:72-73 | reference definition of the record the `success` mutation builds: the old record with status success, `firstCallDone` and the response without `config` |
| RequestState.Failed | src/plugin/module.js:77 | reference definition of the record the `error` mutation builds: the old record with status error and the payload |
| RequestState.Apply | src/plugin/module.js:66-84 | only the entry at the mutation's key changes, and it is created if missing. Begin sets status loading and keeps the other fields. Succeed sets status success and `firstCallDone`, stores the response without `config`, and keeps `err`. Fail sets status error and the payload, and keeps `resp` and `firstCallDone`. Clear leaves no field. A set `firstCallDone` survives every mutation except clear |
| RequestState.ApplyAll | src/plugin/module.js:66-84 | after any sequence of commits, the table's keys are the old keys plus every key that was committed to |
| RequestState.ApplyAllAppend | src/plugin/module.js:66-84 | committing one sequence of mutations and then another is the same as committing the two in one sequence |
| RequestState.Untouched | src/plugin/module.js:66-84 | a key that no commit names keeps its entry, or stays absent |
| RequestState.LastMutationDecides | src/plugin/module.js:66-84 | the record at a key is decided by the last commit to that key: loading; success with the stripped response and `firstCallDone`; error with the payload; or `{}` after clear |
| RequestState.FirstCallDoneSticky | src/plugin/module.js:71-83 | `firstCallDone` is set if and only if some success on the key has not been followed by a clear of it, or the flag was already set and the key was never cleared |
| RequestState.StateTable.constructor | src/plugin/module.js:8 | the table starts empty |
| RequestState.StateTable.Begin | src/plugin/module.js:67-70 | the new table is `Apply` of the request mutation, and the entry's status is loading |
| RequestState.StateTable.Succeed | src/plugin/module.js:71-75 | the new table is `Apply` of the success mutation; the caller's response object afterwards is the stored response, without `config` |
| RequestState.StateTable.Fail | src/plugin/module.js:76-79 | the new table is `Apply` of the error mutation; the entry has status error and the given `err` |
| RequestState.StateTable.Clear | src/plugin/module.js:80-83 | the new table is `Apply` of the clear mutation; the entry is the empty record |
| Values.ShallowEqualIsEquality | src/plugin/module.js:19 | the modelled shallow equality holds exactly when the two parameter maps are equal |
| Coordinator.DefaultMethod | src/plugin/module.js:28 | the method sent is never empty: it is the given method when that is truthy, otherwise `'GET'` |
| Coordinator.ShouldCancel | src/plugin/module.js:19 | reference definition of the cancellation rule: same url, descriptor started, shallow-equal params |
| Coordinator.IssueEffects | src/plugin/module.js:18-32 | reference definition of the effects of the synchronous part of `request`, in order: loading commit, cancel if the rule fires, dispatch |
| Coordinator.Issue | src/plugin/module.js:14-32 | reference definition of the synchronous part of `request`: loading committed, descriptor set to the new url, params, `started` and the new call's handle, one call id used |
| Coordinator.IssueOrder | src/plugin/module.js:18-32 | the loading commit comes first and the transport dispatch comes last. The previous call's cancel handle is called between them, and only when url, started state and shallow-equal params all match |
| Coordinator.CallbackEffects | src/plugin/module.js:36-47 | reference definition of the post-success callbacks' effects: dispatch, commit, function, each if present, none after one that throws |
| Coordinator.CallbacksFireIfPresent | src/plugin/module.js:36-47 | each post-success callback fires if and only if it is present (action names also non-empty) and no callback before it has thrown; the function receives the response |
| Coordinator.CallbacksOnlyCall | src/plugin/module.js:36-47 | the callbacks run at most three effects, each a dispatch, a named commit or the function call: nothing is committed to the table, cancelled or sent |
| Coordinator.ThrowEndsCallbacks | src/plugin/module.js:36-49 | when a callback throws, it is the last callback to run |
| Coordinator.CatchEffects | src/plugin/module.js:49-55 | the `.catch` handler prints its notice exactly when the error is a cancellation, and ends with the error commit of `err.response` |
| Coordinator.SettleEffects | src/plugin/module.js:33-55 | reference definition of the settlement handlers' effects: success commit and callbacks, then the `.catch` effects after a throw; or the `.catch` effects alone on failure |
| Coordinator.SettleMutations | src/plugin/module.js:33-55 | a settlement commits one or two mutations: success (or error, for a transport failure) first, and a second one, error with the thrown value's `response`, exactly when a post-success callback throws |
| Coordinator.SettleTable | src/plugin/module.js:33-55 | reference definition of the table after the settlement handlers: success applied, then error when a callback throws; or error alone on failure |
| Coordinator.SettleTableCommits | src/plugin/module.js:33-55 | the table after the settlement handlers is the table with their mutations committed in order |
| Coordinator.Settle | src/plugin/module.js:33-55 | reference definition of a settlement: `SettleTable`, the descriptor finished on success and unchanged on failure, the log grown by `SettleEffects` |
| Coordinator.SettleOrder | src/plugin/module.js:33-55 | success marks the descriptor finished, commits the response first and then runs the callbacks; if one throws, the `.catch` handler's effects follow, otherwise nothing does. Failure runs only the `.catch` handler and leaves the descriptor as it was |
| Coordinator.ThrowingCallbackLeavesError | src/plugin/module.js:33-55 | a success whose callback throws leaves status error with the thrown value's `response`, yet keeps the stripped response and `firstCallDone`, and the descriptor reads finished |
| Coordinator.SettlementOf | src/plugin/module.js:33-55 | the promise resolves, with the response stripped of `config`, exactly when the transport succeeded and no callback threw; otherwise it rejects with the transport error or with the thrown value |
| Coordinator.ClearKey | src/plugin/module.js:58-63 | reference definition of the `clear` action: the clear mutation committed and logged, the descriptor untouched |
| Coordinator.Next | src/plugin/module.js:11-63 | every step keeps the invariant, so a started descriptor always has a cancel handle of an issued call; the log only grows, and only a request uses a new call id |
| Coordinator.StepTable | src/plugin/module.js:11-84 | each step changes the table exactly by committing its mutations, in order |
| Coordinator.Run | src/plugin/module.js:11-63 | any run keeps the invariant, only appends to the effect log, and issues one fresh call id per request |
| Coordinator.Plugin.constructor | src/plugin/module.js:11 | the descriptor starts as `{ cancel: null, url: null, params: {}, state: 'finished' }` |
| Coordinator.Plugin.Request | src/plugin/module.js:14-32 | the new world is `Issue` of the old one: loading is committed, the cancel rule is applied, and the descriptor holds the new url, params, `started` and the new call's handle. The pending call is returned |
| Coordinator.Plugin.Complete | src/plugin/module.js:33-55 | the new world is `Settle` of the old one, and the returned settlement is `SettlementOf` the outcome |
| Coordinator.Plugin.OnResolved | src/plugin/module.js:33-55 | on success the new world is `Settle` of the old one: the `.then` handler, followed by the `.catch` handler when a callback throws; the settlement is `SettlementOf` the outcome |
| Coordinator.Plugin.Then | src/plugin/module.js:33-48 | the descriptor reads finished, the table is `Apply` of the success, the log grows by the success commit and the callbacks, and the exception that escapes the callbacks, if any, is returned |
| Coordinator.Plugin.RunCallbacks | src/plugin/module.js:36-47 | the log grows by exactly the callback effects of the bundle: dispatch, then commit, then the function on the response, each only if present and stopping after one that throws; the thrown value is returned |
| Coordinator.Plugin.Catch | src/plugin/module.js:49-55 | the table is `Apply` of the error mutation with `err.response`, and the log grows by the `.catch` handler's effects |
| Coordinator.Plugin.ClearAction | src/plugin/module.js:58-63 | the `clear` mutation is committed and the descriptor is untouched |
| Traces.SettleCommits | src/plugin/module.js:33-55 | the commits a settlement logs are exactly its mutations, in order |
| Traces.TableReplaysCommits | src/plugin/module.js:14-63 | after any run, the table is exactly the replay of the logged commits, in order |
| Traces.DescriptorTracksLastIssue | src/plugin/module.js:19-34 | the descriptor holds the url, params and cancel handle of the most recent request. It reads finished if and only if some call, even a stale one, has succeeded since then; failures leave it started |
| Traces.DistinctRequestsNeverCancel | src/plugin/module.js:19-21 | requests that never repeat the request just before them, the first of which does not repeat a started descriptor, never cancel anything |
| Traces.RepeatCancelsPrevious | src/plugin/module.js:18-32 | a request that repeats the one just issued logs its loading commit, then exactly one cancel of the first call, then its own dispatch, and becomes the started descriptor |
| Traces.CancelledDuplicateStillFails | src/plugin/module.js:14-84 | a request repeated on the same key cancels the first call. The cancelled call's rejection still commits error to the key while the second call is in flight, and the descriptor stays started. The second call's success then leaves the stripped response and `firstCallDone`, with status success and the stale `err`, or, if one of its callbacks throws, status error and the thrown value's `response` |

## Left out

- The axios call itself, response parsing, `CancelToken` construction and `axios.isCancel`: foreign library code. A call's outcome is an input, and `Failure.cancelled` stands for what `axios.isCancel` says of the error.
- The default method is kept only as the `method` field of the `Send` effect. Merging `requestConfig` and the other config fields into the axios config is left out, because it only shapes the foreign call.
- `vue.set` change notification: the write into the table is a plain map update.
- Promise construction and resolve/reject plumbing: the settlement is a returned value.
- `console.log(otherConfig)`: I/O. The `console.error` notice for a cancelled call is kept only as the `ReportCancelled` effect.
- What `dispatch(dispatchAction)` and `commit(commitAction)` go on to do: these are opaque named effects, and whether they throw is an input. A `commitAction` that names one of this module's own mutations is not applied to the table.
- A callback that throws `null` or `undefined`: reading `err.response` in the `.catch` handler would then throw again and leave the promise pending. The model always gives the thrown value a `response`.
- `params` that are `undefined` are not modelled, and neither are nested parameter objects compared by anything but identity. Numbers are integers, not floating point.
- The response object's aliasing is modelled by returning the stripped value. No heap object is shared.
- DescriptorTracksLastIssue: the descriptor's `params` is the value the request passed. The code stores a reference to the caller's object (line 24), so a caller that changes that object afterwards changes what the descriptor holds; the model does not capture that reference semantics.
- DistinctRequestsNeverCancel: params are compared as the values passed at each request. In the code a caller that reuses one params object and changes it between two requests gets `shallowEqual(P, P)` at line 19, and the earlier call is cancelled; the model does not capture this aliasing.
- RepeatCancelsPrevious: the repeat is judged on the values passed. In the code, changing the first request's params object before the repeat changes the comparison at line 19, which the model does not capture.
- CancelledDuplicateStillFails: it relies on the same comparison of params as passed, not on the caller's object at the time of the repeat.
- Settle: a success whose callback throws is one step, the `.then` handler followed at once by the `.catch` handler (also in `Plugin.OnResolved`, `SettleOrder` and `ThrowingCallbackLeavesError`). In the code the `.catch` handler runs in a later microtask, so a continuation queued by a dispatched action may issue a request in between; the end state of that interleaving (status error with the descriptor started) is not reachable in the model. The same holds synchronously: a `dispatchAction` that itself dispatches `request` runs that request inside the `.then` handler, after the success commit and before `commitAction` and `executeFunction`; if a later callback then throws, the end state is again status error with the descriptor started, which the model does not reach because a step never issues a nested request.
- Run: a run may settle a call id that was never issued, or settle one call twice; the lemmas hold for every run, so in particular for the runs that can happen, but "some call has succeeded" in `DescriptorTracksLastIssue` ranges over such steps too.
