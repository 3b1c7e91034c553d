/**
 * Properties of runs of the coordinator: sequences of `request` actions,
 * settlements of pending calls and `clear` actions, in any interleaving.
 */
module Traces {
  import opened Options
  import opened Values
  import opened RequestState
  import opened Coordinator

  /** The mutations committed by a log of effects, in order. */
  function Commits(es: seq<Effect>): seq<Mutation>
    decreases |es|
  {
    if es == [] then []
    else
      var last := es[|es| - 1];
      Commits(es[..|es| - 1]) + (if last.Commit? then [last.m] else [])
  }

  lemma {:induction false} CommitsAppend(a: seq<Effect>, b: seq<Effect>)
    ensures Commits(a + b) == Commits(a) + Commits(b)
    decreases |b|
  {
    if b != [] {
      var n := |b| - 1;
      var last := if b[n].Commit? then [b[n].m] else [];
      assert (a + b)[..|a + b| - 1] == a + b[..n];
      assert (a + b)[|a + b| - 1] == b[n];
      CommitsAppend(a, b[..n]);
      calc {
        Commits(a + b);
        Commits(a + b[..n]) + last;
        Commits(a) + Commits(b[..n]) + last;
        Commits(a) + (Commits(b[..n]) + last);
        Commits(a) + Commits(b);
      }
    } else {
      assert a + b == a;
    }
  }

  /** Each step commits exactly its mutations to the table. */
  lemma StepCommits(w: World, s: Step)
    requires WellFormed(w)
    ensures Commits(Next(w, s).effects[|w.effects|..]) == StepMutations(s)
  {
    var r := Next(w, s);
    var newer := r.effects[|w.effects|..];
    assert r.effects == w.effects + newer;
    match s
    case IssueStep(a) =>
      assert newer == IssueEffects(w.desc, a, w.nextId);
      IssueCommitsOne(w.desc, a, w.nextId);
    case SettleStep(c, o) =>
      assert newer == SettleEffects(c, o);
      SettleCommits(c, o);
    case ClearStep(k) =>
      assert newer == [Commit(Clear(k))];
      assert newer[..0] == [];
  }

  /** The settlement handlers log exactly the commits of their mutations. */
  lemma SettleCommits(c: Call, o: Outcome)
    ensures Commits(SettleEffects(c, o)) == SettleMutations(c, o)
  {
    match o
    case Resolved(resp, fault) =>
      var done := [Commit(Succeed(c.key, resp))] + CallbackEffects(c.onSuccess, StripConfig(resp), fault);
      ThenCommits(c, resp, fault);
      match Escapes(c.onSuccess, fault) {
        case Some(e) =>
          assert SettleEffects(c, o) == done + CatchEffects(c.key, e);
          CommitsAppend(done, CatchEffects(c.key, e));
          CatchCommits(c.key, e);
          assert SettleMutations(c, o) == [Succeed(c.key, resp)] + [Fail(c.key, e.response)];
        case None =>
          assert SettleEffects(c, o) == done;
          assert SettleMutations(c, o) == [Succeed(c.key, resp)];
      }
    case Rejected(f) =>
      CatchCommits(c.key, f);
  }

  /** The `.then` handler commits only its success mutation: the callbacks commit nothing. */
  lemma ThenCommits(c: Call, resp: Response, fault: Option<Fault>)
    ensures Commits([Commit(Succeed(c.key, resp))] + CallbackEffects(c.onSuccess, StripConfig(resp), fault))
      == [Succeed(c.key, resp)]
  {
    var first := [Commit(Succeed(c.key, resp))];
    var cbs := CallbackEffects(c.onSuccess, StripConfig(resp), fault);
    assert first[..0] == [];
    CallbacksOnlyCall(c.onSuccess, StripConfig(resp), fault);
    NoCommits(cbs);
    CommitsAppend(first, cbs);
  }

  /** The `.catch` handler commits only its error mutation. */
  lemma CatchCommits(k: Key, e: Failure)
    ensures Commits(CatchEffects(k, e)) == [Fail(k, e.response)]
  {
    var es := CatchEffects(k, e);
    var init := es[..|es| - 1];
    assert forall x :: x in init ==> x == ReportCancelled;
    NoCommits(init);
  }

  /** The synchronous part of `request` commits only its loading mutation. */
  lemma IssueCommitsOne(d: Descriptor, a: RequestArgs, id: CallId)
    requires d.phase == Started ==> d.cancel.Some?
    ensures Commits(IssueEffects(d, a, id)) == [Begin(a.key)]
  {
    var es := IssueEffects(d, a, id);
    IssueOrder(d, a, id);
    assert es[..1][..0] == [];
    assert Commits(es[..1]) == [Begin(a.key)];
    if |es| == 3 {
      assert es[1].CancelCall? by { assert es[1] in es[1..|es| - 1]; }
      assert es[..2][..1] == es[..1];
      assert Commits(es[..2]) == [Begin(a.key)];
      assert es[..|es| - 1] == es[..2];
    } else {
      assert es[..|es| - 1] == es[..1];
    }
  }

  lemma {:induction false} NoCommits(es: seq<Effect>)
    requires forall e :: e in es ==> !e.Commit?
    ensures Commits(es) == []
    decreases |es|
  {
    if es != [] {
      NoCommits(es[..|es| - 1]);
    }
  }

  /**
   * The keyed table is always exactly what the logged commits produce when
   * replayed in order: the coordinator changes the store only by committing.
   */
  lemma {:induction false} TableReplaysCommits(w: World, steps: seq<Step>)
    requires WellFormed(w)
    ensures var r := Run(w, steps);
      r.table == ApplyAll(w.table, Commits(r.effects[|w.effects|..]))
    decreases |steps|
  {
    var r := Run(w, steps);
    if steps == [] {
      assert r.effects[|w.effects|..] == [];
    } else {
      var init, s := steps[..|steps| - 1], steps[|steps| - 1];
      var mid := Run(w, init);
      TableReplaysCommits(w, init);
      assert r == Next(mid, s);
      StepCommits(mid, s);
      StepTable(mid, s);
      var older, newer := mid.effects[|w.effects|..], r.effects[|mid.effects|..];
      SplitAfter(w.effects, mid.effects, r.effects);
      CommitsAppend(older, newer);
      ApplyAllAppend(w.table, Commits(older), StepMutations(s));
    }
  }

  /** What a log gained since `a` is what it gained up to `b` followed by what it gained since. */
  lemma SplitAfter(a: seq<Effect>, b: seq<Effect>, c: seq<Effect>)
    requires a <= b <= c
    ensures c[|a|..] == b[|a|..] + c[|b|..]
  {
  }

  /** The index of the last `request` action in `steps`, if any. */
  function LastIssue(steps: seq<Step>): (r: Option<nat>)
    ensures r.Some? ==>
      r.value < |steps| && steps[r.value].IssueStep?
      && forall j :: r.value < j < |steps| ==> !steps[j].IssueStep?
    ensures r.None? ==> forall j :: 0 <= j < |steps| ==> !steps[j].IssueStep?
    decreases |steps|
  {
    if steps == [] then None
    else if steps[|steps| - 1].IssueStep? then Some(|steps| - 1)
    else LastIssue(steps[..|steps| - 1])
  }

  /** Some call settles successfully at index `from` or later. */
  ghost predicate ResolvedFrom(steps: seq<Step>, from: nat) {
    exists j :: from <= j < |steps| && steps[j].SettleStep? && steps[j].outcome.Resolved?
  }

  /**
   * `d` describes the most recently issued request of `steps`: its url, its
   * params and its cancel handle, and it reads 'finished' exactly when some
   * call has settled successfully since then. Without a request in `steps`,
   * `d` is the descriptor of `w`, finished if some call has succeeded.
   */
  ghost predicate DescribesLastIssue(w: World, steps: seq<Step>, d: Descriptor) {
    match LastIssue(steps)
    case Some(i) =>
      d.url == Some(steps[i].args.url) && d.params == steps[i].args.params
      && d.cancel == Some(w.nextId + IssueCount(steps[..i]))
      && (d.phase == Finished <==> ResolvedFrom(steps, i + 1))
    case None =>
      d.url == w.desc.url && d.params == w.desc.params && d.cancel == w.desc.cancel
      && (d.phase == Finished <==> w.desc.phase == Finished || ResolvedFrom(steps, 0))
  }

  /**
   * The descriptor always describes the most recently issued request; a
   * success of any call, even a stale one, marks it finished, and a failure
   * leaves it started.
   */
  lemma {:induction false} DescriptorTracksLastIssue(w: World, steps: seq<Step>)
    requires WellFormed(w)
    ensures DescribesLastIssue(w, steps, Run(w, steps).desc)
    decreases |steps|
  {
    if steps != [] {
      var n := |steps| - 1;
      var init, s := steps[..n], steps[n];
      if s.IssueStep? {
        TrackIssueStep(w, steps);
      } else {
        DescriptorTracksLastIssue(w, init);
        NextDescriptor(Run(w, init), s);
        TrackPastOtherStep(w, steps, Run(w, init).desc);
      }
    }
  }

  /** A request step makes the descriptor describe that request. */
  lemma TrackIssueStep(w: World, steps: seq<Step>)
    requires WellFormed(w) && steps != [] && steps[|steps| - 1].IssueStep?
    ensures DescribesLastIssue(w, steps, Run(w, steps).desc)
  {
    var n := |steps| - 1;
    var init, s := steps[..n], steps[n];
    NextDescriptor(Run(w, init), s);
    assert LastIssue(steps) == Some(n);
    assert !ResolvedFrom(steps, n + 1);
  }

  /** A step that is not a request carries the description over, updating only the phase. */
  lemma TrackPastOtherStep(w: World, steps: seq<Step>, before: Descriptor)
    requires steps != [] && !steps[|steps| - 1].IssueStep?
    requires DescribesLastIssue(w, steps[..|steps| - 1], before)
    ensures var s := steps[|steps| - 1];
      DescribesLastIssue(w, steps, if s.SettleStep? && s.outcome.Resolved? then before.(phase := Finished) else before)
  {
    var n := |steps| - 1;
    var init := steps[..n];
    assert LastIssue(steps) == LastIssue(init);
    if LastIssue(steps).Some? {
      var i := LastIssue(steps).value;
      assert steps[..i] == init[..i];
      assert steps[i] == init[i];
      ResolvedFromSnoc(steps, i + 1);
    } else {
      ResolvedFromSnoc(steps, 0);
    }
  }

  /** How one step changes the descriptor. */
  lemma NextDescriptor(w: World, s: Step)
    requires WellFormed(w)
    ensures var d := Next(w, s).desc;
      (s.IssueStep? ==> d == Descriptor(Some(s.args.url), s.args.params, Started, Some(w.nextId)))
      && (s.SettleStep? && s.outcome.Resolved? ==> d == w.desc.(phase := Finished))
      && (!s.IssueStep? && !(s.SettleStep? && s.outcome.Resolved?) ==> d == w.desc)
  {
  }

  lemma ResolvedFromSnoc(steps: seq<Step>, from: nat)
    requires steps != [] && from <= |steps| - 1
    ensures var s := steps[|steps| - 1];
      ResolvedFrom(steps, from) <==>
      ResolvedFrom(steps[..|steps| - 1], from) || (s.SettleStep? && s.outcome.Resolved?)
  {
    var init := steps[..|steps| - 1];
    if ResolvedFrom(steps, from) {
      var j :| from <= j < |steps| && steps[j].SettleStep? && steps[j].outcome.Resolved?;
      if j < |init| { assert init[j] == steps[j]; }
    }
    if ResolvedFrom(init, from) {
      var j :| from <= j < |init| && init[j].SettleStep? && init[j].outcome.Resolved?;
      assert steps[j] == init[j];
    }
  }

  /** `next` repeats `prev`: same url and shallow-equal params. */
  predicate SameRequest(prev: RequestArgs, next: RequestArgs) {
    next.url == prev.url && ShallowEqual(next.params, prev.params)
  }

  /** No effect logged after the first `from` is a cancel. */
  ghost predicate NoCancelAfter(es: seq<Effect>, from: nat) {
    from <= |es| && forall e :: e in es[from..] ==> !e.CancelCall?
  }

  /** No request is issued strictly between indices `i` and `j`. */
  ghost predicate NoIssueBetween(steps: seq<Step>, i: int, j: int) {
    forall k :: i < k < j && 0 <= k < |steps| ==> !steps[k].IssueStep?
  }

  /**
   * Requests that never repeat the request just before them, where the
   * first does not repeat a request the descriptor still holds as started,
   * never cancel anything.
   */
  lemma {:induction false} DistinctRequestsNeverCancel(w: World, steps: seq<Step>)
    requires WellFormed(w)
    requires forall i, j ::
      (0 <= i < j < |steps| && steps[i].IssueStep? && steps[j].IssueStep? && NoIssueBetween(steps, i, j))
      ==> !SameRequest(steps[i].args, steps[j].args)
    requires forall j :: 0 <= j < |steps| && steps[j].IssueStep? && NoIssueBetween(steps, -1, j) ==>
      !ShouldCancel(w.desc, steps[j].args.url, steps[j].args.params)
    ensures NoCancelAfter(Run(w, steps).effects, |w.effects|)
    decreases |steps|
  {
    if steps != [] {
      var n := |steps| - 1;
      var init, s := steps[..n], steps[n];
      assert forall j :: 0 <= j < n ==> init[j] == steps[j];
      forall i, j | -1 <= i < j < n && NoIssueBetween(init, i, j)
        ensures NoIssueBetween(steps, i, j)
      {
      }
      DistinctRequestsNeverCancel(w, init);
      var mid := Run(w, init);
      assert Run(w, steps) == Next(mid, s);
      if s.IssueStep? {
        DescriptorTracksLastIssue(w, init);
        if LastIssue(init).Some? {
          var i := LastIssue(init).value;
          assert steps[i] == init[i];
          assert NoIssueBetween(steps, i, n);
          assert !SameRequest(steps[i].args, steps[n].args);
        } else {
          assert NoIssueBetween(steps, -1, n);
        }
      }
      StepWithoutCancel(mid, s);
      SplitAfter(w.effects, mid.effects, Next(mid, s).effects);
    }
  }

  /** A step cancels nothing unless it is a request that the cancellation rule fires on. */
  lemma StepWithoutCancel(w: World, s: Step)
    requires WellFormed(w)
    requires s.IssueStep? ==> !ShouldCancel(w.desc, s.args.url, s.args.params)
    ensures NoCancelAfter(Next(w, s).effects, |w.effects|)
  {
    var r := Next(w, s);
    var newer := r.effects[|w.effects|..];
    assert r.effects == w.effects + newer;
    match s
    case IssueStep(a) =>
      assert newer == IssueEffects(w.desc, a, w.nextId);
      IssueOrder(w.desc, a, w.nextId);
    case SettleStep(c, o) =>
      assert newer == SettleEffects(c, o);
      SettleCancelsNothing(c, o);
    case ClearStep(k) =>
  }

  /** The settlement handlers never call a cancel handle. */
  lemma SettleCancelsNothing(c: Call, o: Outcome)
    ensures forall e :: e in SettleEffects(c, o) ==> !e.CancelCall?
  {
    match o
    case Resolved(resp, fault) =>
      CallbacksOnlyCall(c.onSuccess, StripConfig(resp), fault);
    case Rejected(f) =>
  }

  /**
   * A request that repeats the one just issued, before that one settles,
   * logs its loading commit, then exactly one cancel, of the first call,
   * then its own dispatch.
   */
  lemma RepeatCancelsPrevious(w: World, a: RequestArgs, b: RequestArgs)
    requires WellFormed(w) && SameRequest(a, b)
    ensures var r := Run(w, [IssueStep(a), IssueStep(b)]);
      r.effects == w.effects + IssueEffects(w.desc, a, w.nextId)
        + [Commit(Begin(b.key)), CancelCall(w.nextId), Send(w.nextId + 1, b.url, DefaultMethod(b.httpMethod), b.params)]
      && r.desc == Descriptor(Some(b.url), b.params, Started, Some(w.nextId + 1))
  {
    var w1 := Issue(w, a);
    RunPair(w, IssueStep(a), IssueStep(b));
    assert ShouldCancel(w1.desc, b.url, b.params);
    assert IssueEffects(w1.desc, b, w1.nextId)
      == [Commit(Begin(b.key)), CancelCall(w.nextId), Send(w.nextId + 1, b.url, DefaultMethod(b.httpMethod), b.params)];
  }

  lemma RunPair(w: World, s: Step, t: Step)
    requires WellFormed(w)
    ensures Run(w, [s, t]) == Next(Next(w, s), t)
  {
    var one := [s];
    assert one[..0] == [];
    assert Run(w, one) == Next(Run(w, []), s);
    var two := [s, t];
    assert two[..1] == one;
    assert Run(w, two) == Next(Run(w, one), t);
  }

  /**
   * A request repeated on the same key before the first settles: the first
   * call is cancelled, yet its rejection handler still commits an error to
   * the key while the second call is in flight (the descriptor stays
   * started). The second call's success then leaves the stripped response
   * and `firstCallDone`, and either a success record that keeps that stale
   * `err` or, when one of its callbacks throws, an error record carrying
   * the thrown value's `response`.
   */
  lemma CancelledDuplicateStillFails(w: World, a: RequestArgs, b: RequestArgs, f: Failure,
                                     resp: Response, fault: Option<Fault>)
    requires WellFormed(w) && SameRequest(a, b) && a.key == b.key
    ensures
      var w2 := Issue(Issue(w, a), b);
      var w3 := Settle(w2, Call(w.nextId, a.key, a.onSuccess), Rejected(f));
      var w4 := Settle(w3, Call(w.nextId + 1, b.key, b.onSuccess), Resolved(resp, fault));
      var thrown := Escapes(b.onSuccess, fault);
      CancelCall(w.nextId) in w2.effects && w2.table[a.key].status == Some(Loading)
      && w3.table[a.key].status == Some(Error) && w3.table[a.key].err == Some(f.response)
      && w3.desc == w2.desc && w3.desc.phase == Started
      && w4.table[a.key].resp == Some(StripConfig(resp)) && w4.table[a.key].firstCallDone == Some(true)
      && w4.desc.phase == Finished
      && (thrown.None? ==> w4.table[a.key].status == Some(Success) && w4.table[a.key].err == Some(f.response))
      && (thrown.Some? ==> w4.table[a.key].status == Some(Error) && w4.table[a.key].err == Some(thrown.value.response))
  {
    var w1 := Issue(w, a);
    var w2 := Issue(w1, b);
    assert ShouldCancel(w1.desc, b.url, b.params);
    IssueOrder(w1.desc, b, w1.nextId);
    var es := IssueEffects(w1.desc, b, w1.nextId);
    assert CancelCall(w.nextId) in es;
    assert w2.effects == w1.effects + es;
  }
}
