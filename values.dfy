/**
 * The JavaScript values the request module handles: response objects and
 * request parameters, both flat objects keyed by property name.
 */
module Values {

  /**
   * A top-level property value. Primitives compare by value; anything that
   * is itself an object compares by identity, so it is represented by an
   * opaque reference number.
   */
  datatype Value = Null | Bool(b: bool) | Num(n: int) | Str(s: string) | Ref(id: nat)

  /** A response object as the transport returns it (data, status, headers, config, ...). */
  type Response = map<string, Value>

  /** The `params` object of a request. */
  type Params = map<string, Value>

  /**
   * Shallow equality of two parameter objects: the same own keys, and at
   * each key the same primitive or the same object reference.
   */
  predicate ShallowEqual(a: Params, b: Params) {
    a.Keys == b.Keys && forall k :: k in a ==> a[k] == b[k]
  }

  /** Over these values shallow equality is exactly equality of the two maps. */
  lemma ShallowEqualIsEquality(a: Params, b: Params)
    ensures ShallowEqual(a, b) <==> a == b
  {
    if ShallowEqual(a, b) {
      assert forall k :: k in a <==> k in b;
    }
  }
}
