/**
 * Python dictionary semantics the profile builder depends on: a dict
 * comprehension evaluates its items in order, a later key overwrites an
 * earlier one, and the first exception raised escapes; a dict remembers the
 * order in which its keys were first inserted.
 */
module PyDict {
  import opened Wrappers

  /** `{key(x): f(x) for x in xs}`, where evaluating `f(x)` may raise. */
  function Comprehend<X, V, E>(xs: seq<X>, key: X -> string, f: X -> Result<V, E>): Result<map<string, V>, E>
    decreases |xs|
  {
    if xs == [] then Ok(map[])
    else
      var m :- Comprehend(xs[..|xs| - 1], key, f);
      var v :- f(xs[|xs| - 1]);
      Ok(m[key(xs[|xs| - 1]) := v])
  }

  /** The comprehension succeeds exactly when every item's value can be computed. */
  lemma {:induction false} ComprehendSucceeds<X, V, E>(xs: seq<X>, key: X -> string, f: X -> Result<V, E>)
    ensures Comprehend(xs, key, f).Ok? <==> forall i | 0 <= i < |xs| :: f(xs[i]).Ok?
    decreases |xs|
  {
    if xs != [] {
      var init := xs[..|xs| - 1];
      ComprehendSucceeds(init, key, f);
      assert forall i | 0 <= i < |init| :: init[i] == xs[i];
    }
  }

  /** When it fails, it raises the exception of the first item that fails. */
  lemma {:induction false} ComprehendRaisesFirst<X, V, E>(xs: seq<X>, key: X -> string, f: X -> Result<V, E>)
    requires Comprehend(xs, key, f).Err?
    ensures exists i | 0 <= i < |xs| ::
              && f(xs[i]) == Err(Comprehend(xs, key, f).error)
              && forall j | 0 <= j < i :: f(xs[j]).Ok?
    decreases |xs|
  {
    var init := xs[..|xs| - 1];
    assert forall i | 0 <= i < |init| :: init[i] == xs[i];
    if Comprehend(init, key, f).Err? {
      ComprehendRaisesFirst(init, key, f);
    } else {
      ComprehendSucceeds(init, key, f);
      var i := |xs| - 1;
      assert f(xs[i]) == Err(Comprehend(xs, key, f).error);
    }
  }

  /** The keys of the result are exactly the keys of the items. */
  lemma {:induction false} ComprehendKeys<X, V, E>(xs: seq<X>, key: X -> string, f: X -> Result<V, E>)
    requires Comprehend(xs, key, f).Ok?
    ensures Comprehend(xs, key, f).value.Keys == set i | 0 <= i < |xs| :: key(xs[i])
    decreases |xs|
  {
    if xs != [] {
      var init := xs[..|xs| - 1];
      ComprehendKeys(init, key, f);
      assert forall i | 0 <= i < |init| :: init[i] == xs[i];
      assert (set i | 0 <= i < |xs| :: key(xs[i]))
          == (set i | 0 <= i < |init| :: key(init[i])) + {key(xs[|xs| - 1])};
    }
  }

  /** A key's value is the one computed for the last item carrying that key. */
  lemma {:induction false} ComprehendLastWins<X, V, E>(xs: seq<X>, key: X -> string, f: X -> Result<V, E>, i: nat)
    requires Comprehend(xs, key, f).Ok?
    requires i < |xs|
    requires forall j | i < j < |xs| :: key(xs[j]) != key(xs[i])
    ensures f(xs[i]).Ok?
    ensures key(xs[i]) in Comprehend(xs, key, f).value
    ensures Comprehend(xs, key, f).value[key(xs[i])] == f(xs[i]).value
    decreases |xs|
  {
    var init := xs[..|xs| - 1];
    if i < |xs| - 1 {
      assert init[i] == xs[i];
      assert forall j | i < j < |init| :: init[j] == xs[j];
      ComprehendLastWins(init, key, f, i);
    }
  }

  /**
   * A dict as Python keeps it: its keys in first-insertion order, and
   * the entries.
   */
  datatype Dict<V> = Dict(keys: seq<string>, entries: map<string, V>) {

    ghost predicate Valid() {
      && (forall i, j | 0 <= i < j < |keys| :: keys[i] != keys[j])
      && (forall k :: k in entries <==> k in keys)
    }

    /** `d[k] = v`: an existing key keeps its place, a new one goes last. */
    function Put(k: string, v: V): (d: Dict<V>)
      requires Valid()
      ensures d.Valid()
      ensures d.entries == entries[k := v]
      ensures k in entries ==> d.keys == keys
      ensures k !in entries ==> d.keys == keys + [k]
    {
      if k in entries then Dict(keys, entries[k := v]) else Dict(keys + [k], entries[k := v])
    }

    /** `d.values()`, in key order. */
    function Values(): (vs: seq<V>)
      requires Valid()
      ensures |vs| == |keys|
      ensures forall i | 0 <= i < |keys| :: vs[i] == entries[keys[i]]
    {
      seq(|keys|, i requires 0 <= i < |keys| => entries[keys[i]])
    }
  }

  function EmptyDict<V>(): (d: Dict<V>)
    ensures d.Valid()
  {
    Dict([], map[])
  }
}
