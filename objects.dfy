/** Plain JavaScript objects, whose properties are visited in insertion order, and the
    query of a urijs URL, which keeps every value added under a key. */
module Objects {
  import opened Results

  /** Properties in insertion order, each key with its value. */
  type Props<V> = seq<(string, V)>

  /** A plain object whose values are (already stringified) scalars. */
  type Object = Props<string>

  /** A urijs query: each key once, in the order it was first added, with all its values. */
  type Query = Props<seq<string>>

  function Keys<V>(o: Props<V>): seq<string> {
    if o == [] then [] else [o[0].0] + Keys(o[1..])
  }

  /** What every JavaScript object satisfies: no key occurs twice. */
  predicate UniqueKeys<V>(o: Props<V>) {
    o == [] || (o[0].0 !in Keys(o[1..]) && UniqueKeys(o[1..]))
  }

  /** `o[k]`, with `None` for a missing property. */
  function Get<V>(o: Props<V>, k: string): (r: Option<V>)
    ensures r.Some? <==> k in Keys(o)
  {
    if o == [] then None else if o[0].0 == k then Some(o[0].1) else Get(o[1..], k)
  }

  /** `o[k] = v`: an existing key keeps its position, a new key goes last. */
  function Put<V>(o: Props<V>, k: string, v: V): (r: Props<V>)
    ensures Keys(r) == if k in Keys(o) then Keys(o) else Keys(o) + [k]
    ensures forall k' :: Get(r, k') == if k' == k then Some(v) else Get(o, k')
  {
    if o == [] then [(k, v)]
    else if o[0].0 == k then [(k, v)] + o[1..]
    else [o[0]] + Put(o[1..], k, v)
  }

  lemma {:induction false} KeysAppend<V>(a: Props<V>, b: Props<V>)
    ensures Keys(a + b) == Keys(a) + Keys(b)
  {
    if a == [] {
      assert a + b == b;
    } else {
      assert (a + b)[0] == a[0] && (a + b)[1..] == a[1..] + b;
      KeysAppend(a[1..], b);
      calc {
        Keys(a + b);
        [a[0].0] + Keys(a[1..] + b);
        [a[0].0] + (Keys(a[1..]) + Keys(b));
        ([a[0].0] + Keys(a[1..])) + Keys(b);
      }
    }
  }

  lemma {:induction false} PutUnique<V>(o: Props<V>, k: string, v: V)
    requires UniqueKeys(o)
    ensures UniqueKeys(Put(o, k, v))
  {
    if o != [] && o[0].0 != k {
      PutUnique(o[1..], k, v);
      assert Put(o, k, v)[1..] == Put(o[1..], k, v);
    }
  }

  /** Appending a property under a new key is the same as `Put`. */
  lemma {:induction false} PutFresh<V>(o: Props<V>, k: string, v: V)
    requires k !in Keys(o)
    ensures Put(o, k, v) == o + [(k, v)]
  {
    if o != [] {
      PutFresh(o[1..], k, v);
    }
  }

  /** lodash `assign(target, source)`: the properties of `source` set one by one, in order. */
  function Assign(target: Object, source: Object): Object
    decreases |source|
  {
    if source == [] then target else Assign(Put(target, source[0].0, source[0].1), source[1..])
  }

  /** After `assign`, a key of `source` has its value from `source`; every other key keeps
      its value (or its absence) from `target`. */
  lemma {:induction false} AssignGet(target: Object, source: Object, k: string)
    requires UniqueKeys(source)
    ensures Get(Assign(target, source), k) == if k in Keys(source) then Get(source, k) else Get(target, k)
    decreases |source|
  {
    if source != [] {
      AssignGet(Put(target, source[0].0, source[0].1), source[1..], k);
    }
  }

  /** `assign` keeps the keys of `target` in place and adds only keys of `source`. */
  lemma {:induction false} AssignKeys(target: Object, source: Object)
    ensures |Keys(target)| <= |Keys(Assign(target, source))|
    ensures Keys(Assign(target, source))[..|Keys(target)|] == Keys(target)
    ensures forall k :: k in Keys(Assign(target, source)) <==> k in Keys(target) || k in Keys(source)
    decreases |source|
  {
    if source != [] {
      var t := Put(target, source[0].0, source[0].1);
      AssignKeys(t, source[1..]);
      assert Keys(t)[..|Keys(target)|] == Keys(target);
    }
  }

  lemma {:induction false} AssignUnique(target: Object, source: Object)
    requires UniqueKeys(target)
    ensures UniqueKeys(Assign(target, source))
    decreases |source|
  {
    if source != [] {
      PutUnique(target, source[0].0, source[0].1);
      AssignUnique(Put(target, source[0].0, source[0].1), source[1..]);
    }
  }

  /** When the keys are all distinct, `assign` concatenates. */
  lemma {:induction false} AssignDisjoint(target: Object, source: Object)
    requires UniqueKeys(source)
    requires forall k :: k in Keys(source) ==> k !in Keys(target)
    ensures Assign(target, source) == target + source
    decreases |source|
  {
    if source != [] {
      var (k, v) := source[0];
      var t := target + [(k, v)];
      assert Put(target, k, v) == t by {
        PutFresh(target, k, v);
      }
      assert forall k' :: k' in Keys(source[1..]) ==> k' !in Keys(t) by {
        KeysAppend(target, [(k, v)]);
        assert Keys(source) == [k] + Keys(source[1..]);
      }
      AssignDisjoint(t, source[1..]);
      assert Assign(target, source) == Assign(t, source[1..]);
      assert source == [(k, v)] + source[1..];
      AppendAssoc(target, [(k, v)], source[1..]);
    }
  }

  /** `assign({}, o)` is a faithful copy of `o`. */
  lemma AssignCopies(o: Object)
    requires UniqueKeys(o)
    ensures Assign([], o) == o
  {
    AssignDisjoint([], o);
  }

  /** urijs `addQuery(key, value)`: a key already present gets the value appended to its
      list of values, in place; a new key goes last. */
  function AddQuery(q: Query, key: string, value: string): Query {
    match Get(q, key)
    case None => Put(q, key, [value])
    case Some(vs) => Put(q, key, vs + [value])
  }

  /** `forEach(o, (val, key) => urlObject.addQuery(key, val))`. */
  function AddQueries(q: Query, o: Object): Query
    decreases |o|
  {
    if o == [] then q else AddQueries(AddQuery(q, o[0].0, o[0].1), o[1..])
  }

  /** The query in which each property of `o` is its own parameter, in the same order. */
  function Singletons(o: Object): (q: Query)
    ensures Keys(q) == Keys(o)
  {
    if o == [] then [] else [(o[0].0, [o[0].1])] + Singletons(o[1..])
  }

  lemma AppendAssoc<T>(a: seq<T>, b: seq<T>, c: seq<T>)
    ensures (a + b) + c == a + (b + c)
  {
  }

  /** Options whose keys are not yet in the query become parameters in iteration order. */
  lemma {:induction false} AddQueriesFresh(q: Query, o: Object)
    requires UniqueKeys(o)
    requires forall k :: k in Keys(o) ==> k !in Keys(q)
    ensures AddQueries(q, o) == q + Singletons(o)
    decreases |o|
  {
    if o != [] {
      var (k, v) := o[0];
      var q' := q + [(k, [v])];
      assert AddQuery(q, k, v) == q' by {
        PutFresh(q, k, [v]);
      }
      assert forall k' :: k' in Keys(o[1..]) ==> k' !in Keys(q') by {
        KeysAppend(q, [(k, [v])]);
        assert Keys(o) == [k] + Keys(o[1..]);
      }
      AddQueriesFresh(q', o[1..]);
      assert AddQueries(q, o) == AddQueries(q', o[1..]);
      assert Singletons(o) == [(k, [v])] + Singletons(o[1..]);
      AppendAssoc(q, [(k, [v])], Singletons(o[1..]));
    }
  }
}
