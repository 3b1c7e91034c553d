/**
 * The request coordinator: the module-level descriptor of the last request
 * (`previousStateRequest`), the `request` action that consults it to cancel a
 * duplicate in-flight call, and the `clear` action.
 *
 * The `request` action runs in two parts: its synchronous part, which ends
 * when the transport call is dispatched, and the settlement handler that the
 * transport's promise runs later. Other actions may run in between, so the
 * two parts are two steps. The foreign side-effects (commits, the cancel
 * handle, the transport dispatch, the post-success callbacks) are recorded,
 * in order, as a log of effects.
 */
module Coordinator {
  import opened Options
  import opened Values
  import opened RequestState

  /** Identifies one transport call, and with it the cancel handle bound to it. */
  type CallId = nat

  /** The descriptor's `state` strings 'started' and 'finished'. */
  datatype Phase = Started | Finished

  /** `previousStateRequest`: `url`, `params`, `state` and the `cancel` handle. */
  datatype Descriptor = Descriptor(url: Option<string>, params: Params, phase: Phase, cancel: Option<CallId>)

  /** `{ cancel: null, url: null, params: {}, state: 'finished' }` */
  const InitialDescriptor := Descriptor(None, map[], Finished, None)

  /**
   * The optional `onSuccess` bundle: an action name to dispatch, a mutation
   * name to commit, and whether a function to run on the response is given.
   */
  datatype Callbacks = Callbacks(dispatchAction: Option<string>, commitAction: Option<string>, executeFunction: bool)

  /** The payload of the `request` action. */
  datatype RequestArgs = RequestArgs(
    key: Key,
    url: string,
    httpMethod: Option<string>,
    params: Params,
    onSuccess: Option<Callbacks>)

  /** What the settlement handlers of one call capture: its id, keyPath and onSuccess. */
  datatype Call = Call(id: CallId, key: Key, onSuccess: Option<Callbacks>)

  /**
   * A value the `.catch` handler receives: whether `axios.isCancel` holds of
   * it, and its `response` property.
   */
  datatype Failure = Failure(cancelled: bool, response: ErrBody)

  /** The three post-success callbacks, in the order the success handler runs them. */
  datatype Slot = AtDispatch | AtCommit | AtExecute

  /**
   * The callback in slot `at` throws `error` when it is invoked. A dispatched
   * action or committed mutation may throw synchronously, and so does an
   * `executeFunction` that is truthy but not a function.
   */
  datatype Fault = Fault(at: Slot, error: Failure)

  /**
   * How the transport call settles. A success also says which post-success
   * callback, if any, throws; that is decided by code outside the module.
   */
  datatype Outcome = Resolved(resp: Response, fault: Option<Fault>) | Rejected(failure: Failure)

  /** How the promise returned by the `request` action settles. */
  datatype Settlement = Fulfilled(value: Response) | RejectedWith(reason: Failure)

  /** The effects of the coordinator on the world around it, in the order they happen. */
  datatype Effect =
    | Commit(m: Mutation)
    | CancelCall(id: CallId)
    | Send(id: CallId, url: string, httpMethod: string, params: Params)
    | DispatchAction(action: string)
    | CommitAction(action: string)
    | ExecuteFunction(arg: Response)
    | ReportCancelled

  /** The keyed table, the descriptor, the next call id and the effects so far. */
  datatype World = World(table: Table, desc: Descriptor, nextId: CallId, effects: seq<Effect>)

  const InitialWorld := World(map[], InitialDescriptor, 0, [])

  /** JavaScript truthiness of an optional string: absent and "" are false. */
  predicate Truthy(s: Option<string>) {
    s.Some? && s.value != ""
  }

  /** `method || 'GET'`. */
  function DefaultMethod(httpMethod: Option<string>): (m: string)
    ensures m != ""
    ensures Truthy(httpMethod) <==> Some(m) == httpMethod
    ensures !Truthy(httpMethod) ==> m == "GET"
  {
    if Truthy(httpMethod) then httpMethod.value else "GET"
  }

  /** The cancellation rule: same url, the last call still started, shallow-equal params. */
  predicate ShouldCancel(d: Descriptor, url: string, params: Params) {
    d.url == Some(url) && d.phase == Started && ShallowEqual(params, d.params)
  }

  /**
   * The coordinator's invariant: a started descriptor always holds a cancel
   * handle, so `previousStateRequest.cancel()` is never called on null, and
   * that handle belongs to a call already issued.
   */
  ghost predicate WellFormed(w: World) {
    (w.desc.phase == Started ==> w.desc.cancel.Some?)
    && (w.desc.cancel.Some? ==> w.desc.cancel.value < w.nextId)
  }

  /** The effects of the synchronous part of `request`, in order. */
  function IssueEffects(d: Descriptor, a: RequestArgs, id: CallId): seq<Effect>
    requires d.phase == Started ==> d.cancel.Some?
  {
    [Commit(Begin(a.key))]
    + (if ShouldCancel(d, a.url, a.params) then [CancelCall(d.cancel.value)] else [])
    + [Send(id, a.url, DefaultMethod(a.httpMethod), a.params)]
  }

  /**
   * The synchronous part of `request` commits loading first and dispatches
   * the transport call last; between them it calls the previous call's
   * cancel handle, and only when the cancellation rule fires.
   */
  lemma IssueOrder(d: Descriptor, a: RequestArgs, id: CallId)
    requires d.phase == Started ==> d.cancel.Some?
    ensures var es := IssueEffects(d, a, id);
      2 <= |es| <= 3
      && es[0] == Commit(Begin(a.key)) && es[|es| - 1] == Send(id, a.url, DefaultMethod(a.httpMethod), a.params)
      && (forall c: CallId :: CancelCall(c) in es <==> ShouldCancel(d, a.url, a.params) && d.cancel == Some(c))
      && (forall e :: e in es[1..|es| - 1] ==> e.CancelCall?)
  {
    var es := IssueEffects(d, a, id);
    if ShouldCancel(d, a.url, a.params) {
      assert es == [Commit(Begin(a.key)), CancelCall(d.cancel.value), Send(id, a.url, DefaultMethod(a.httpMethod), a.params)];
    } else {
      assert es == [Commit(Begin(a.key)), Send(id, a.url, DefaultMethod(a.httpMethod), a.params)];
    }
  }

  /** The synchronous part of `request`. */
  function Issue(w: World, a: RequestArgs): World
    requires WellFormed(w)
  {
    World(
      Apply(w.table, Begin(a.key)),
      Descriptor(Some(a.url), a.params, Started, Some(w.nextId)),
      w.nextId + 1,
      w.effects + IssueEffects(w.desc, a, w.nextId))
  }

  /** The handlers the synchronous part of `request` leaves pending. */
  function CallOf(w: World, a: RequestArgs): Call {
    Call(w.nextId, a.key, a.onSuccess)
  }

  /** Whether the success handler invokes the callback in slot `s` of `c`. */
  predicate Invoked(c: Callbacks, s: Slot) {
    match s
    case AtDispatch => Truthy(c.dispatchAction)
    case AtCommit => Truthy(c.commitAction)
    case AtExecute => c.executeFunction
  }

  /** The effect of invoking the callback in slot `s`. */
  function SlotEffect(c: Callbacks, s: Slot, resp: Response): Effect
    requires Invoked(c, s)
  {
    match s
    case AtDispatch => DispatchAction(c.dispatchAction.value)
    case AtCommit => CommitAction(c.commitAction.value)
    case AtExecute => ExecuteFunction(resp)
  }

  /** The callback in slot `s` is invoked and throws. */
  predicate ThrowsAt(cbs: Option<Callbacks>, fault: Option<Fault>, s: Slot) {
    cbs.Some? && fault.Some? && fault.value.at == s && Invoked(cbs.value, s)
  }

  /** The exception that escapes the post-success callbacks into the `.catch` handler, if any. */
  function Escapes(cbs: Option<Callbacks>, fault: Option<Fault>): Option<Failure> {
    if fault.Some? && ThrowsAt(cbs, fault, fault.value.at) then Some(fault.value.error) else None
  }

  /**
   * The post-success callbacks, in the order the handler runs them; a
   * callback that throws is logged as invoked, and the ones after it do not run.
   */
  function CallbackEffects(cbs: Option<Callbacks>, resp: Response, fault: Option<Fault>): seq<Effect> {
    match cbs
    case None => []
    case Some(c) =>
      (if Invoked(c, AtDispatch) then [DispatchAction(c.dispatchAction.value)] else [])
      + (if Invoked(c, AtCommit) && !ThrowsAt(cbs, fault, AtDispatch)
         then [CommitAction(c.commitAction.value)] else [])
      + (if Invoked(c, AtExecute) && !ThrowsAt(cbs, fault, AtDispatch) && !ThrowsAt(cbs, fault, AtCommit)
         then [ExecuteFunction(resp)] else [])
  }

  /**
   * Each post-success callback fires exactly when it is present (and,
   * for an action name, non-empty) and no callback before it has thrown; the
   * function receives the response.
   */
  lemma CallbacksFireIfPresent(cbs: Option<Callbacks>, resp: Response, fault: Option<Fault>)
    ensures var es := CallbackEffects(cbs, resp, fault);
      (forall n :: DispatchAction(n) in es <==>
         cbs.Some? && Truthy(cbs.value.dispatchAction) && cbs.value.dispatchAction.value == n)
      && (forall n :: CommitAction(n) in es <==>
            cbs.Some? && Truthy(cbs.value.commitAction) && cbs.value.commitAction.value == n
            && !(fault.Some? && fault.value.at == AtDispatch && Truthy(cbs.value.dispatchAction)))
      && (forall v :: ExecuteFunction(v) in es <==>
            cbs.Some? && cbs.value.executeFunction && v == resp
            && !(fault.Some? && fault.value.at == AtDispatch && Truthy(cbs.value.dispatchAction))
            && !(fault.Some? && fault.value.at == AtCommit && Truthy(cbs.value.commitAction)))
  {
    if cbs.Some? {
      var d, m, x := CallbackParts(cbs.value, cbs, resp, fault);
      var es := CallbackEffects(cbs, resp, fault);
      assert forall e :: e in es <==> e in d || e in m || e in x;
    }
  }

  /**
   * The callbacks only dispatch, commit a named action or call the function,
   * at most one of each: none of them commits to the table, cancels or
   * sends a request.
   */
  lemma CallbacksOnlyCall(cbs: Option<Callbacks>, resp: Response, fault: Option<Fault>)
    ensures var es := CallbackEffects(cbs, resp, fault);
      |es| <= 3 && forall e :: e in es ==> e.DispatchAction? || e.CommitAction? || e.ExecuteFunction?
  {
    if cbs.Some? {
      var d, m, x := CallbackParts(cbs.value, cbs, resp, fault);
      var es := CallbackEffects(cbs, resp, fault);
      assert forall e :: e in es <==> e in d || e in m || e in x;
    }
  }

  /** A callback that throws is the last one to run. */
  lemma ThrowEndsCallbacks(cbs: Option<Callbacks>, resp: Response, fault: Option<Fault>)
    requires Escapes(cbs, fault).Some?
    ensures var es := CallbackEffects(cbs, resp, fault);
      es != [] && es[|es| - 1] == SlotEffect(cbs.value, fault.value.at, resp)
  {
    var d, m, x := CallbackParts(cbs.value, cbs, resp, fault);
  }

  /** The callback effects, one part per slot. */
  lemma CallbackParts(c: Callbacks, cbs: Option<Callbacks>, resp: Response, fault: Option<Fault>)
      returns (d: seq<Effect>, m: seq<Effect>, x: seq<Effect>)
    requires cbs == Some(c)
    ensures d == if Invoked(c, AtDispatch) then [DispatchAction(c.dispatchAction.value)] else []
    ensures m == if Invoked(c, AtCommit) && !ThrowsAt(cbs, fault, AtDispatch)
      then [CommitAction(c.commitAction.value)] else []
    ensures x == if Invoked(c, AtExecute) && !ThrowsAt(cbs, fault, AtDispatch) && !ThrowsAt(cbs, fault, AtCommit)
      then [ExecuteFunction(resp)] else []
    ensures CallbackEffects(cbs, resp, fault) == d + m + x
  {
    d := if Invoked(c, AtDispatch) then [DispatchAction(c.dispatchAction.value)] else [];
    m := if Invoked(c, AtCommit) && !ThrowsAt(cbs, fault, AtDispatch)
      then [CommitAction(c.commitAction.value)] else [];
    x := if Invoked(c, AtExecute) && !ThrowsAt(cbs, fault, AtDispatch) && !ThrowsAt(cbs, fault, AtCommit)
      then [ExecuteFunction(resp)] else [];
  }

  /**
   * The `.catch` handler's effects: a notice when the error is a
   * cancellation, then the error commit of `err.response`.
   */
  function CatchEffects(key: Key, err: Failure): (es: seq<Effect>)
    ensures es != [] && es[|es| - 1] == Commit(Fail(key, err.response))
    ensures forall i :: 0 <= i < |es| - 1 ==> es[i] == ReportCancelled
    ensures ReportCancelled in es <==> err.cancelled
  {
    (if err.cancelled then [ReportCancelled] else []) + [Commit(Fail(key, err.response))]
  }

  /**
   * The effects of the settlement handlers. A success commits the response,
   * then runs the callbacks on the response stripped of `config`; if one of
   * them throws, the `.catch` handler runs after it. A failure runs only the
   * `.catch` handler.
   */
  function SettleEffects(call: Call, o: Outcome): seq<Effect> {
    match o
    case Resolved(resp, fault) =>
      [Commit(Succeed(call.key, resp))] + CallbackEffects(call.onSuccess, StripConfig(resp), fault)
      + (match Escapes(call.onSuccess, fault)
         case Some(e) => CatchEffects(call.key, e)
         case None => [])
    case Rejected(f) => CatchEffects(call.key, f)
  }

  /** The mutations the settlement handlers commit, in order. */
  function SettleMutations(call: Call, o: Outcome): (ms: seq<Mutation>)
    ensures 1 <= |ms| <= 2
    ensures ms[0] == if o.Resolved? then Succeed(call.key, o.resp) else Fail(call.key, o.failure.response)
    ensures |ms| == 2 <==> o.Resolved? && Escapes(call.onSuccess, o.fault).Some?
    ensures |ms| == 2 ==> ms[1] == Fail(call.key, Escapes(call.onSuccess, o.fault).value.response)
  {
    match o
    case Resolved(resp, fault) =>
      [Succeed(call.key, resp)]
      + (match Escapes(call.onSuccess, fault)
         case Some(e) => [Fail(call.key, e.response)]
         case None => [])
    case Rejected(f) => [Fail(call.key, f.response)]
  }

  /** The table after the settlement handlers' commits. */
  function SettleTable(t: Table, call: Call, o: Outcome): Table {
    match o
    case Resolved(resp, fault) =>
      var succeeded := Apply(t, Succeed(call.key, resp));
      (match Escapes(call.onSuccess, fault)
       case Some(e) => Apply(succeeded, Fail(call.key, e.response))
       case None => succeeded)
    case Rejected(f) => Apply(t, Fail(call.key, f.response))
  }

  /** The settlement handlers commit exactly their mutations, in order. */
  lemma SettleTableCommits(t: Table, call: Call, o: Outcome)
    ensures SettleTable(t, call, o) == ApplyAll(t, SettleMutations(call, o))
  {
    match o
    case Resolved(resp, fault) =>
      var first := [Succeed(call.key, resp)];
      ApplyAllOne(t, first[0]);
      match Escapes(call.onSuccess, fault) {
        case Some(e) =>
          assert SettleMutations(call, o) == first + [Fail(call.key, e.response)];
          ApplyAllAppend(t, first, [Fail(call.key, e.response)]);
          ApplyAllOne(Apply(t, first[0]), Fail(call.key, e.response));
        case None =>
          assert SettleMutations(call, o) == first;
      }
    case Rejected(f) =>
      ApplyAllOne(t, Fail(call.key, f.response));
  }

  /** The settlement handlers of `call`. */
  function Settle(w: World, call: Call, o: Outcome): World {
    World(
      SettleTable(w.table, call, o),
      if o.Resolved? then w.desc.(phase := Finished) else w.desc,
      w.nextId,
      w.effects + SettleEffects(call, o))
  }

  /** The settlement of a success, spelt out by whether a callback throws. */
  lemma SettleResolved(w: World, call: Call, resp: Response, fault: Option<Fault>)
    ensures var e := Escapes(call.onSuccess, fault);
      var done := [Commit(Succeed(call.key, resp))] + CallbackEffects(call.onSuccess, StripConfig(resp), fault);
      Settle(w, call, Resolved(resp, fault)) ==
        if e.Some? then
          World(Apply(Apply(w.table, Succeed(call.key, resp)), Fail(call.key, e.value.response)),
            w.desc.(phase := Finished), w.nextId, w.effects + done + CatchEffects(call.key, e.value))
        else
          World(Apply(w.table, Succeed(call.key, resp)), w.desc.(phase := Finished), w.nextId, w.effects + done)
  {
    var done := [Commit(Succeed(call.key, resp))] + CallbackEffects(call.onSuccess, StripConfig(resp), fault);
    match Escapes(call.onSuccess, fault)
    case Some(e) =>
      assert w.effects + SettleEffects(call, Resolved(resp, fault)) == w.effects + done + CatchEffects(call.key, e);
    case None =>
      assert SettleEffects(call, Resolved(resp, fault)) == done + [];
  }

  /**
   * A success marks the descriptor finished, commits the response first and
   * then runs the callbacks on the response stripped of `config`; when one
   * of them throws, the `.catch` handler's effects follow, and otherwise
   * nothing does. A failure runs only the `.catch` handler and leaves the
   * descriptor as it was.
   */
  lemma SettleOrder(w: World, call: Call, o: Outcome)
    ensures var r := Settle(w, call, o);
      |w.effects| < |r.effects| && r.effects[..|w.effects|] == w.effects && r.nextId == w.nextId
      && (o.Resolved? ==>
        var cbs, start := CallbackEffects(call.onSuccess, StripConfig(o.resp), o.fault), |w.effects| + 1;
        r.desc == w.desc.(phase := Finished)
        && r.effects[|w.effects|] == Commit(Succeed(call.key, o.resp))
        && start + |cbs| <= |r.effects|
        && r.effects[start..start + |cbs|] == cbs
        && (Escapes(call.onSuccess, o.fault).None? ==> |r.effects| == start + |cbs|)
        && (Escapes(call.onSuccess, o.fault).Some? ==>
              r.effects[start + |cbs|..] == CatchEffects(call.key, Escapes(call.onSuccess, o.fault).value)))
      && (o.Rejected? ==>
        r.desc == w.desc && r.effects == w.effects + CatchEffects(call.key, o.failure))
  {
    var r := Settle(w, call, o);
    var es := SettleEffects(call, o);
    assert r.effects[|w.effects|..] == es;
    if o.Resolved? {
      var cbs := CallbackEffects(call.onSuccess, StripConfig(o.resp), o.fault);
      assert es[1..1 + |cbs|] == cbs;
    }
  }

  /**
   * A success whose callback throws ends in an error record that still
   * carries the stripped response and `firstCallDone`, while the descriptor
   * reads finished.
   */
  lemma ThrowingCallbackLeavesError(w: World, call: Call, resp: Response, fault: Fault)
    requires Escapes(call.onSuccess, Some(fault)).Some?
    ensures var r := Settle(w, call, Resolved(resp, Some(fault)));
      var now := r.table[call.key];
      now.status == Some(Error) && now.err == Some(fault.error.response)
      && now.resp == Some(StripConfig(resp)) && now.firstCallDone == Some(true)
      && r.desc.phase == Finished
  {
  }

  /** What the promise of the `request` action settles with. */
  function SettlementOf(cbs: Option<Callbacks>, o: Outcome): (s: Settlement)
    ensures s.Fulfilled? <==> o.Resolved? && Escapes(cbs, o.fault).None?
    ensures s.Fulfilled? ==> "config" !in s.value && s.value == StripConfig(o.resp)
    ensures o.Rejected? ==> s == RejectedWith(o.failure)
    ensures o.Resolved? && o.fault.Some? && ThrowsAt(cbs, o.fault, o.fault.value.at) ==>
      s == RejectedWith(o.fault.value.error)
  {
    match o
    case Resolved(resp, fault) =>
      (match Escapes(cbs, fault)
       case Some(e) => RejectedWith(e)
       case None => Fulfilled(StripConfig(resp)))
    case Rejected(f) => RejectedWith(f)
  }

  /** The `clear` action. */
  function ClearKey(w: World, k: Key): World {
    World(Apply(w.table, Clear(k)), w.desc, w.nextId, w.effects + [Commit(Clear(k))])
  }

  /** One thing that can happen next on the event queue. */
  datatype Step =
    | IssueStep(args: RequestArgs)
    | SettleStep(call: Call, outcome: Outcome)
    | ClearStep(key: Key)

  /** The mutations each step commits to the keyed table. */
  function StepMutations(s: Step): seq<Mutation> {
    match s
    case IssueStep(a) => [Begin(a.key)]
    case SettleStep(c, o) => SettleMutations(c, o)
    case ClearStep(k) => [Clear(k)]
  }

  /** The world after one step; every step keeps the coordinator's invariant. */
  function Next(w: World, s: Step): (r: World)
    requires WellFormed(w)
    ensures WellFormed(r)
    ensures w.effects <= r.effects
    ensures r.nextId == w.nextId + (if s.IssueStep? then 1 else 0)
  {
    match s
    case IssueStep(a) => Issue(w, a)
    case SettleStep(c, o) => Settle(w, c, o)
    case ClearStep(k) => ClearKey(w, k)
  }

  /** Each step changes the keyed table exactly by committing its mutations. */
  lemma StepTable(w: World, s: Step)
    requires WellFormed(w)
    ensures Next(w, s).table == ApplyAll(w.table, StepMutations(s))
  {
    match s
    case IssueStep(a) => ApplyAllOne(w.table, Begin(a.key));
    case SettleStep(c, o) => SettleTableCommits(w.table, c, o);
    case ClearStep(k) => ApplyAllOne(w.table, Clear(k));
  }

  /** The number of `request` actions among `steps`. */
  function IssueCount(steps: seq<Step>): nat {
    if steps == [] then 0
    else IssueCount(steps[..|steps| - 1]) + (if steps[|steps| - 1].IssueStep? then 1 else 0)
  }

  /** The world after the steps of `steps` in order. */
  function Run(w: World, steps: seq<Step>): (r: World)
    requires WellFormed(w)
    ensures WellFormed(r)
    ensures w.effects <= r.effects
    ensures r.nextId == w.nextId + IssueCount(steps)
    decreases |steps|
  {
    if steps == [] then w
    else Next(Run(w, steps[..|steps| - 1]), steps[|steps| - 1])
  }

  /**
   * The store and the coordinator as objects: the descriptor's fields are
   * updated one by one, the keyed table is written through its mutations.
   */
  class Plugin {
    const table: StateTable
    var url: Option<string>
    var params: Params
    var phase: Phase
    var cancel: Option<CallId>
    var nextId: CallId
    ghost var log: seq<Effect>

    ghost function Snapshot(): World
      reads this, table
    {
      World(table.entries, Descriptor(url, params, phase, cancel), nextId, log)
    }

    ghost predicate Valid()
      reads this, table
    {
      WellFormed(Snapshot())
    }

    constructor (table: StateTable)
      ensures Valid() && this.table == table
      ensures Snapshot() == InitialWorld.(table := table.entries)
    {
      this.table := table;
      url, params, phase, cancel := None, map[], Finished, None;
      nextId := 0;
      log := [];
    }

    /**
     * The synchronous part of the `request` action. It returns the pending
     * call whose settlement handlers `Complete` runs.
     */
    method Request(a: RequestArgs) returns (call: Call)
      requires Valid()
      modifies this, table
      ensures Valid()
      ensures Snapshot() == Issue(old(Snapshot()), a)
      ensures call == CallOf(old(Snapshot()), a)
    {
      ghost var before := Snapshot();
      table.Begin(a.key);
      log := log + [Commit(Begin(a.key))];
      var fires := url == Some(a.url) && phase == Started && ShallowEqual(a.params, params);
      assert fires == ShouldCancel(before.desc, a.url, a.params);
      if fires {
        log := log + [CancelCall(cancel.value)];
      }
      url := Some(a.url);
      phase := Started;
      params := a.params;
      // The cancel token's executor runs while the transport's config is built.
      cancel := Some(nextId);
      call := Call(nextId, a.key, a.onSuccess);
      nextId := nextId + 1;
      log := log + [Send(call.id, a.url, DefaultMethod(a.httpMethod), a.params)];
      assert log == before.effects + IssueEffects(before.desc, a, before.nextId);
    }

    /** The settlement handlers of `call`, run when its transport call settles with `o`. */
    method Complete(call: Call, o: Outcome) returns (s: Settlement)
      requires Valid()
      modifies this, table
      ensures Valid()
      ensures Snapshot() == Settle(old(Snapshot()), call, o)
      ensures s == SettlementOf(call.onSuccess, o)
    {
      match o
      case Resolved(resp, fault) =>
        s := OnResolved(call, resp, fault);
      case Rejected(f) =>
        Catch(call.key, f);
        s := RejectedWith(f);
    }

    /**
     * The success path: the `.then` handler, and the `.catch` handler after
     * it when a callback throws.
     */
    method OnResolved(call: Call, resp: Response, fault: Option<Fault>) returns (s: Settlement)
      requires Valid()
      modifies this, table
      ensures Valid()
      ensures Snapshot() == Settle(old(Snapshot()), call, Resolved(resp, fault))
      ensures s == SettlementOf(call.onSuccess, Resolved(resp, fault))
    {
      ghost var before := Snapshot();
      var delivered, thrown := Then(call, resp, fault);
      SettleResolved(before, call, resp, fault);
      if thrown.Some? {
        var e := thrown.value;
        Catch(call.key, e);
        s := RejectedWith(e);
      } else {
        s := Fulfilled(delivered);
      }
    }

    /**
     * The `.then` handler: finish the descriptor, commit the response, run
     * the callbacks. It returns the response as its caller now holds it, and
     * the exception a callback threw, if any.
     */
    method Then(call: Call, resp: Response, fault: Option<Fault>) returns (delivered: Response, thrown: Option<Failure>)
      modifies this, table
      ensures table.entries == Apply(old(table.entries), Succeed(call.key, resp))
      ensures url == old(url) && params == old(params) && cancel == old(cancel) && nextId == old(nextId)
      ensures phase == Finished
      ensures log == old(log) + [Commit(Succeed(call.key, resp))]
        + CallbackEffects(call.onSuccess, StripConfig(resp), fault)
      ensures delivered == StripConfig(resp) && thrown == Escapes(call.onSuccess, fault)
    {
      phase := Finished;
      delivered := table.Succeed(call.key, resp);
      log := log + [Commit(Succeed(call.key, resp))];
      thrown := None;
      if call.onSuccess.Some? {
        thrown := RunCallbacks(call.onSuccess.value, delivered, fault);
      }
    }

    /**
     * The `onSuccess` bundle: dispatch, then commit, then the function, each
     * if present. A callback that throws ends the run, and its exception is
     * returned for the `.catch` handler.
     */
    method RunCallbacks(cbs: Callbacks, resp: Response, fault: Option<Fault>) returns (thrown: Option<Failure>)
      modifies this`log
      ensures log == old(log) + CallbackEffects(Some(cbs), resp, fault)
      ensures thrown == Escapes(Some(cbs), fault)
    {
      if Truthy(cbs.dispatchAction) {
        log := log + [DispatchAction(cbs.dispatchAction.value)];
        if fault.Some? && fault.value.at == AtDispatch {
          return Some(fault.value.error);
        }
      }
      if Truthy(cbs.commitAction) {
        log := log + [CommitAction(cbs.commitAction.value)];
        if fault.Some? && fault.value.at == AtCommit {
          return Some(fault.value.error);
        }
      }
      if cbs.executeFunction {
        log := log + [ExecuteFunction(resp)];
        if fault.Some? && fault.value.at == AtExecute {
          return Some(fault.value.error);
        }
      }
      return None;
    }

    /** The `.catch` handler: a notice for a cancellation, then the error commit of `err.response`. */
    method Catch(key: Key, err: Failure)
      modifies this`log, table
      ensures table.entries == Apply(old(table.entries), Fail(key, err.response))
      ensures log == old(log) + CatchEffects(key, err)
    {
      if err.cancelled {
        log := log + [ReportCancelled];
      }
      table.Fail(key, err.response);
      log := log + [Commit(Fail(key, err.response))];
    }

    /** The `clear` action. */
    method ClearAction(key: Key)
      requires Valid()
      modifies this, table
      ensures Valid()
      ensures Snapshot() == ClearKey(old(Snapshot()), key)
    {
      table.Clear(key);
      log := log + [Commit(Clear(key))];
    }
  }
}
