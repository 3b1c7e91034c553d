/**
 * The keyed request-state table: the module's `state` object, which maps a
 * caller-chosen keyPath to the record of the last request made under it,
 * and the four mutations that rewrite one entry of it.
 */
module RequestState {
  import opened Options
  import opened Values

  /** A keyPath: the property name under which a request's state is stored. */
  type Key = string

  /** The `status` strings 'loading', 'success' and 'error'. */
  datatype Status = Loading | Success | Error

  /**
   * The `err` payload that is stored: the failed call's `err.response`,
   * which is undefined when no response arrived (network error, cancellation).
   */
  datatype ErrBody = NoResponse | Body(resp: Response)

  /** A stored record; each field may be absent from the object. */
  datatype Record = Record(
    status: Option<Status>,
    resp: Option<Response>,
    err: Option<ErrBody>,
    firstCallDone: Option<bool>)

  /** The object literal `{}`, also what spreading an undefined entry yields. */
  const Empty := Record(None, None, None, None)

  /** A commit of one of the four mutations, with its payload. */
  datatype Mutation =
    | Begin(key: Key)
    | Succeed(key: Key, resp: Response)
    | Fail(key: Key, err: ErrBody)
    | Clear(key: Key)

  type Table = map<Key, Record>

  /** `state[keyPath]` as spread into a new object: a missing entry spreads as `{}`. */
  function Prior(t: Table, k: Key): Record {
    if k in t then t[k] else Empty
  }

  /** The response with its `config` property deleted. */
  function StripConfig(resp: Response): (r: Response)
    ensures "config" !in r
    ensures r.Keys == resp.Keys - {"config"}
    ensures forall f :: f in r ==> r[f] == resp[f]
  {
    resp - {"config"}
  }

  // The records the three merging mutations build: `{ ...state[keyPath], <new fields> }`.

  function Begun(r: Record): Record {
    r.(status := Some(Loading))
  }

  function Succeeded(r: Record, resp: Response): Record {
    r.(status := Some(Success), firstCallDone := Some(true), resp := Some(StripConfig(resp)))
  }

  function Failed(r: Record, e: ErrBody): Record {
    r.(status := Some(Error), err := Some(e))
  }

  /**
   * The table after committing one mutation. Only the entry at the mutation's
   * key changes (it is created if missing); begin, succeed and fail layer their
   * fields over the previous record, clear replaces it with `{}`.
   */
  function Apply(t: Table, m: Mutation): (r: Table)
    ensures r.Keys == t.Keys + {m.key}
    ensures forall k :: k in t && k != m.key ==> r[k] == t[k]
    ensures m.Begin? ==>
      var was, now := Prior(t, m.key), r[m.key];
      now.status == Some(Loading) && now.resp == was.resp && now.err == was.err
      && now.firstCallDone == was.firstCallDone
    ensures m.Succeed? ==>
      var was, now := Prior(t, m.key), r[m.key];
      now.status == Some(Success) && now.firstCallDone == Some(true)
      && now.resp.Some? && "config" !in now.resp.value
      && now.resp.value == StripConfig(m.resp) && now.err == was.err
    ensures m.Fail? ==>
      var was, now := Prior(t, m.key), r[m.key];
      now.status == Some(Error) && now.err == Some(m.err) && now.resp == was.resp
      && now.firstCallDone == was.firstCallDone
    ensures m.Clear? ==>
      var now := r[m.key];
      now.status.None? && now.resp.None? && now.err.None? && now.firstCallDone.None?
    ensures !m.Clear? && Prior(t, m.key).firstCallDone == Some(true) ==>
      r[m.key].firstCallDone == Some(true)
  {
    match m
    case Begin(k) => t[k := Begun(Prior(t, k))]
    case Succeed(k, resp) => t[k := Succeeded(Prior(t, k), resp)]
    case Fail(k, e) => t[k := Failed(Prior(t, k), e)]
    case Clear(k) => t[k := Empty]
  }

  /** The table after committing the mutations of `ms` in order. */
  function ApplyAll(t: Table, ms: seq<Mutation>): (r: Table)
    ensures r.Keys == t.Keys + (set m | m in ms :: m.key)
    decreases |ms|
  {
    if ms == [] then t
    else
      var init, last := ms[..|ms| - 1], ms[|ms| - 1];
      assert ms == init + [last];
      Apply(ApplyAll(t, init), last)
  }

  /** Committing `a` and then `b` is committing `a + b`. */
  lemma {:induction false} ApplyAllAppend(t: Table, a: seq<Mutation>, b: seq<Mutation>)
    ensures ApplyAll(t, a + b) == ApplyAll(ApplyAll(t, a), b)
    decreases |b|
  {
    if b == [] {
      assert a + b == a;
    } else {
      var n := |b| - 1;
      assert (a + b)[..|a + b| - 1] == a + b[..n];
      assert (a + b)[|a + b| - 1] == b[n];
      ApplyAllAppend(t, a, b[..n]);
    }
  }

  /** Committing a single mutation. */
  lemma ApplyAllOne(t: Table, m: Mutation)
    ensures ApplyAll(t, [m]) == Apply(t, m)
  {
    assert [m][..0] == [];
  }

  /** A key that no mutation of `ms` names keeps its entry (or its absence). */
  lemma {:induction false} Untouched(t: Table, ms: seq<Mutation>, k: Key)
    requires forall i :: 0 <= i < |ms| ==> ms[i].key != k
    ensures k in ApplyAll(t, ms) <==> k in t
    ensures k in t ==> ApplyAll(t, ms)[k] == t[k]
    decreases |ms|
  {
    if ms != [] {
      Untouched(t, ms[..|ms| - 1], k);
    }
  }

  /**
   * The record at a key is decided by the last mutation committed to that
   * key: loading after begin; success with the stripped response and
   * firstCallDone after succeed; error with the payload after fail; `{}`
   * after clear.
   */
  lemma {:induction false} LastMutationDecides(t: Table, ms: seq<Mutation>, i: nat)
    requires i < |ms|
    requires forall j :: i < j < |ms| ==> ms[j].key != ms[i].key
    ensures ms[i].key in ApplyAll(t, ms)
    ensures var now := ApplyAll(t, ms)[ms[i].key];
      match ms[i]
      case Begin(_) => now.status == Some(Loading)
      case Succeed(_, resp) =>
        now.status == Some(Success) && now.resp == Some(StripConfig(resp))
        && now.firstCallDone == Some(true)
      case Fail(_, e) => now.status == Some(Error) && now.err == Some(e)
      case Clear(_) => now == Empty
    decreases |ms|
  {
    var init := ms[..|ms| - 1];
    if i < |ms| - 1 {
      assert init[i] == ms[i];
      LastMutationDecides(t, init, i);
    }
  }

  /** No clear of `k` is committed at index `from` or later. */
  ghost predicate NoClearFrom(ms: seq<Mutation>, k: Key, from: nat) {
    forall j :: from <= j < |ms| ==> !(ms[j].Clear? && ms[j].key == k)
  }

  /**
   * Reference definition of the sticky flag: some success on `k` has not been
   * followed by a clear of `k`, or the flag was already set and `k` was never
   * cleared.
   */
  ghost predicate SucceededSinceClear(t: Table, ms: seq<Mutation>, k: Key) {
    (exists i :: 0 <= i < |ms| && ms[i].Succeed? && ms[i].key == k && NoClearFrom(ms, k, i + 1))
    || (Prior(t, k).firstCallDone == Some(true) && NoClearFrom(ms, k, 0))
  }

  /**
   * firstCallDone is sticky: it is set by a success and survives every later
   * begin and fail, and only a clear of the same key drops it.
   */
  lemma {:induction false} FirstCallDoneSticky(t: Table, ms: seq<Mutation>, k: Key)
    ensures Prior(ApplyAll(t, ms), k).firstCallDone == Some(true) <==> SucceededSinceClear(t, ms, k)
    decreases |ms|
  {
    if ms != [] {
      var n := |ms| - 1;
      var init, m := ms[..n], ms[n];
      FirstCallDoneSticky(t, init, k);
      assert ApplyAll(t, ms) == Apply(ApplyAll(t, init), m);
      if m.key == k && m.Clear? {
        ClearedSince(t, ms, k);
      } else if m.key == k && m.Succeed? {
        assert NoClearFrom(ms, k, n + 1);
      } else {
        FlagKept(ApplyAll(t, init), m, k);
        SameSinceClear(t, ms, k);
      }
    }
  }

  /** A mutation other than a success or a clear of `k` leaves the flag at `k` as it was. */
  lemma FlagKept(t: Table, m: Mutation, k: Key)
    requires !((m.Succeed? || m.Clear?) && m.key == k)
    ensures Prior(Apply(t, m), k).firstCallDone == Prior(t, k).firstCallDone
  {
  }

  /** After a clear of `k` as the last mutation, the reference definition does not hold. */
  lemma ClearedSince(t: Table, ms: seq<Mutation>, k: Key)
    requires ms != [] && ms[|ms| - 1] == Clear(k)
    ensures !SucceededSinceClear(t, ms, k)
  {
    var n := |ms| - 1;
    assert !NoClearFrom(ms, k, 0);
    forall i | 0 <= i < |ms| && ms[i].Succeed? && ms[i].key == k
      ensures !NoClearFrom(ms, k, i + 1)
    {
      assert i + 1 <= n;
    }
  }

  /** A last mutation that is neither a success nor a clear on `k` does not affect the reference definition. */
  lemma SameSinceClear(t: Table, ms: seq<Mutation>, k: Key)
    requires ms != []
    requires var m := ms[|ms| - 1]; !((m.Succeed? || m.Clear?) && m.key == k)
    ensures SucceededSinceClear(t, ms, k) <==> SucceededSinceClear(t, ms[..|ms| - 1], k)
  {
    var n := |ms| - 1;
    var init := ms[..n];
    assert forall j :: 0 <= j < n ==> init[j] == ms[j];
    forall from: nat ensures NoClearFrom(ms, k, from) <==> NoClearFrom(init, k, from) {
      if NoClearFrom(init, k, from) {
        forall j | from <= j < |ms| ensures !(ms[j].Clear? && ms[j].key == k) {
          if j < n { assert ms[j] == init[j]; }
        }
      }
    }
    if exists i :: 0 <= i < |ms| && ms[i].Succeed? && ms[i].key == k && NoClearFrom(ms, k, i + 1) {
      var i :| 0 <= i < |ms| && ms[i].Succeed? && ms[i].key == k && NoClearFrom(ms, k, i + 1);
      assert i < n && init[i].Succeed? && init[i].key == k && NoClearFrom(init, k, i + 1);
    }
    if exists i :: 0 <= i < |init| && init[i].Succeed? && init[i].key == k && NoClearFrom(init, k, i + 1) {
      var i :| 0 <= i < |init| && init[i].Succeed? && init[i].key == k && NoClearFrom(init, k, i + 1);
      assert ms[i].Succeed? && ms[i].key == k && NoClearFrom(ms, k, i + 1);
    }
  }

  /**
   * The keyed table as a mutable object: the store's `state`, written in
   * place by the four mutations.
   */
  class StateTable {
    var entries: Table

    constructor ()
      ensures entries == map[]
    {
      entries := map[];
    }

    /** The `request` mutation: the entry at `key` gets status loading. */
    method Begin(key: Key)
      modifies this
      ensures entries == Apply(old(entries), Mutation.Begin(key))
      ensures entries[key].status == Some(Loading)
    {
      entries := entries[key := Begun(Prior(entries, key))];
    }

    /**
     * The `success` mutation. It deletes `config` from the response object
     * itself, so the object its caller holds afterwards is `delivered`.
     */
    method Succeed(key: Key, resp: Response) returns (delivered: Response)
      modifies this
      ensures entries == Apply(old(entries), Mutation.Succeed(key, resp))
      ensures delivered == StripConfig(resp) && entries[key].resp == Some(delivered)
    {
      delivered := StripConfig(resp);
      entries := entries[key := Succeeded(Prior(entries, key), resp)];
    }

    /** The `error` mutation: the entry at `key` gets status error and `err`. */
    method Fail(key: Key, err: ErrBody)
      modifies this
      ensures entries == Apply(old(entries), Mutation.Fail(key, err))
      ensures entries[key].status == Some(Error) && entries[key].err == Some(err)
    {
      entries := entries[key := Failed(Prior(entries, key), err)];
    }

    /** The `clear` mutation: the entry at `key` becomes `{}`. */
    method Clear(key: Key)
      modifies this
      ensures entries == Apply(old(entries), Mutation.Clear(key))
      ensures entries[key] == Empty
    {
      entries := entries[key := Empty];
    }
  }
}
