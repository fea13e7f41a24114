/**
 * Flat JavaScript objects whose property values are strings or `undefined`:
 * a sequence of properties in enumeration order, property lookup, and
 * `Object.assign`, which overwrites a property in place or appends a new one.
 */
module JsObjects {
  import opened JsText

  datatype Option<T> = None | Some(value: T)

  /** A property value: a string, or `undefined` (a credential left out, or `JSON.stringify(undefined)`). */
  datatype Value = Str(s: JsString) | Undefined

  /** The string the `+` operator makes of a value. */
  function ToStr(v: Value): JsString
  {
    match v
    case Str(s) => s
    case Undefined => Lit("undefined")
  }

  datatype Entry = Entry(key: JsString, value: Value)

  /** An object's own enumerable properties, in the order `for...in` visits them. */
  type Object = seq<Entry>

  function Keys(o: Object): set<JsString>
  {
    set e | e in o :: e.key
  }

  /** No property name occurs twice: what every JavaScript object satisfies. */
  predicate WellFormed(o: Object)
  {
    forall i, j | 0 <= i < j < |o| :: o[i].key != o[j].key
  }

  /** `o[k]`, with `None` for a missing property. */
  function Lookup(o: Object, k: JsString): Option<Value>
  {
    if o == [] then None
    else if o[0].key == k then Some(o[0].value)
    else Lookup(o[1..], k)
  }

  /** `o[k] = v`: an existing property keeps its place, a new one goes last. */
  function Put(o: Object, k: JsString, v: Value): Object
  {
    if o == [] then [Entry(k, v)]
    else if o[0].key == k then [Entry(k, v)] + o[1..]
    else [o[0]] + Put(o[1..], k, v)
  }

  /** `Object.assign(target, source)`: the properties of `source` are put into `target` in order. */
  function Assign(target: Object, source: Object): Object
    decreases |source|
  {
    if source == [] then target
    else Assign(Put(target, source[0].key, source[0].value), source[1..])
  }

  /** The object without property `k` (what a verifier of the signature looks at). */
  function RemoveKey(o: Object, k: JsString): Object
  {
    if o == [] then []
    else if o[0].key == k then RemoveKey(o[1..], k)
    else [o[0]] + RemoveKey(o[1..], k)
  }

  // ---------------------------------------------------------------------------
  // Property names
  // ---------------------------------------------------------------------------

  lemma KeysAppend(a: Object, b: Object)
    ensures Keys(a + b) == Keys(a) + Keys(b)
  {
    forall k | k in Keys(a + b) ensures k in Keys(a) + Keys(b) {
      var e :| e in a + b && e.key == k;
    }
    forall k | k in Keys(a) + Keys(b) ensures k in Keys(a + b) {
      if k in Keys(a) {
        var e :| e in a && e.key == k;
        assert e in a + b;
      } else {
        var e :| e in b && e.key == k;
        assert e in a + b;
      }
    }
  }

  lemma KeysCons(o: Object)
    requires o != []
    ensures Keys(o) == {o[0].key} + Keys(o[1..])
  {
    assert o == [o[0]] + o[1..];
    KeysAppend([o[0]], o[1..]);
  }

  /** In a well-formed object the first property's name does not occur again. */
  lemma HeadKeyFresh(o: Object)
    requires WellFormed(o) && o != []
    ensures o[0].key !in Keys(o[1..]) && WellFormed(o[1..])
  {
    forall e | e in o[1..] ensures e.key != o[0].key {
      var j :| 0 <= j < |o[1..]| && o[1..][j] == e;
      assert o[j + 1] == e;
    }
  }

  /** Joining two well-formed objects with no name in common gives a well-formed object. */
  lemma AppendWellFormed(a: Object, b: Object)
    requires WellFormed(a) && WellFormed(b) && Keys(a) !! Keys(b)
    ensures WellFormed(a + b)
  {
    var ab := a + b;
    forall i, j | 0 <= i < j < |ab| ensures ab[i].key != ab[j].key {
      if i < |a| && |a| <= j {
        assert ab[i] == a[i] && ab[j] == b[j - |a|];
        assert a[i].key in Keys(a) && b[j - |a|].key in Keys(b);
      } else if |a| <= i {
        assert ab[i] == b[i - |a|] && ab[j] == b[j - |a|];
      }
    }
  }

  // ---------------------------------------------------------------------------
  // Lookup
  // ---------------------------------------------------------------------------

  lemma {:induction false} LookupFound(o: Object, k: JsString)
    ensures Lookup(o, k).Some? <==> k in Keys(o)
    ensures Lookup(o, k).Some? ==> Entry(k, Lookup(o, k).value) in o
  {
    if o != [] {
      LookupFound(o[1..], k);
      KeysCons(o);
      assert o == [o[0]] + o[1..];
    }
  }

  /** In a well-formed object every property is what a lookup of its name returns. */
  lemma {:induction false} LookupOfMember(o: Object, e: Entry)
    requires WellFormed(o) && e in o
    ensures Lookup(o, e.key) == Some(e.value)
  {
    if o[0] != e {
      var j :| 0 <= j < |o| && o[j] == e;
      assert o[1..][j - 1] == e;
      LookupOfMember(o[1..], e);
    }
  }

  lemma {:induction false} LookupAppend(a: Object, b: Object, k: JsString)
    ensures Lookup(a + b, k) == if k in Keys(a) then Lookup(a, k) else Lookup(b, k)
  {
    if a != [] {
      KeysCons(a);
      var ab := a + b;
      assert ab[0] == a[0] && ab[1..] == a[1..] + b;
      if a[0].key == k {
        assert Lookup(ab, k) == Some(a[0].value);
      } else {
        assert Lookup(ab, k) == Lookup(a[1..] + b, k);
        LookupAppend(a[1..], b, k);
      }
    } else {
      assert a + b == b;
    }
  }

  // ---------------------------------------------------------------------------
  // Put and Object.assign
  // ---------------------------------------------------------------------------

  /** After `o[k] = v`, property `k` reads `v` and every other property reads as before. */
  lemma {:induction false} PutLookup(o: Object, k: JsString, v: Value, j: JsString)
    ensures Lookup(Put(o, k, v), j) == if j == k then Some(v) else Lookup(o, j)
  {
    if o != [] && o[0].key != k {
      PutLookup(o[1..], k, v, j);
    }
  }

  lemma {:induction false} PutKeys(o: Object, k: JsString, v: Value)
    ensures Keys(Put(o, k, v)) == Keys(o) + {k}
  {
    if o != [] {
      KeysCons(o);
      var r := Put(o, k, v);
      KeysCons(r);
      if o[0].key == k {
        assert r[1..] == o[1..];
      } else {
        assert r[1..] == Put(o[1..], k, v);
        PutKeys(o[1..], k, v);
      }
    }
  }

  lemma {:induction false} PutWellFormed(o: Object, k: JsString, v: Value)
    requires WellFormed(o)
    ensures WellFormed(Put(o, k, v))
  {
    if o != [] {
      HeadKeyFresh(o);
      if o[0].key == k {
        assert Keys([Entry(k, v)]) == {k};
        AppendWellFormed([Entry(k, v)], o[1..]);
      } else {
        var t := Put(o[1..], k, v);
        PutWellFormed(o[1..], k, v);
        PutKeys(o[1..], k, v);
        assert Keys([o[0]]) == {o[0].key};
        AppendWellFormed([o[0]], t);
      }
    }
  }

  /** A property the object does not have yet goes last. */
  lemma {:induction false} PutNew(o: Object, k: JsString, v: Value)
    requires k !in Keys(o)
    ensures Put(o, k, v) == o + [Entry(k, v)]
  {
    if o != [] {
      KeysCons(o);
      PutNew(o[1..], k, v);
      assert o == [o[0]] + o[1..];
    }
  }

  /**
   * `Object.assign` copies every property of a well-formed source: the
   * source's value wins and the target's other properties are kept.
   */
  lemma {:induction false} AssignLookup(target: Object, source: Object, j: JsString)
    requires WellFormed(source)
    ensures Lookup(Assign(target, source), j) == if j in Keys(source) then Lookup(source, j) else Lookup(target, j)
    decreases |source|
  {
    if source != [] {
      var s0 := source[0];
      var rest := source[1..];
      HeadKeyFresh(source);
      KeysCons(source);
      AssignLookup(Put(target, s0.key, s0.value), rest, j);
      PutLookup(target, s0.key, s0.value, j);
    }
  }

  /** `Object.assign` leaves the target with the union of both objects' property names. */
  lemma {:induction false} AssignKeys(target: Object, source: Object)
    ensures Keys(Assign(target, source)) == Keys(target) + Keys(source)
    decreases |source|
  {
    if source != [] {
      KeysCons(source);
      PutKeys(target, source[0].key, source[0].value);
      AssignKeys(Put(target, source[0].key, source[0].value), source[1..]);
    }
  }

  lemma AppendHead<T>(t: seq<T>, s: seq<T>)
    requires s != []
    ensures (t + [s[0]]) + s[1..] == t + s
  {
    assert s == [s[0]] + s[1..];
  }

  /** Assigning properties the target does not have appends them in the source's order. */
  lemma {:induction false} AssignDisjoint(target: Object, source: Object)
    requires WellFormed(source) && Keys(target) !! Keys(source)
    ensures Assign(target, source) == target + source
    decreases |source|
  {
    if source == [] {
      assert target + source == target;
    } else {
      var s0, rest := source[0], source[1..];
      HeadKeyFresh(source);
      KeysCons(source);
      PutNew(target, s0.key, s0.value);
      KeysAppend(target, [s0]);
      assert Keys([s0]) == {s0.key};
      AssignDisjoint(target + [s0], rest);
      AppendHead(target, source);
    }
  }

  /** Assigning one property the object lacks appends it and keeps the object well formed. */
  lemma AssignFresh(o: Object, e: Entry)
    requires WellFormed(o) && e.key !in Keys(o)
    ensures Assign(o, [e]) == o + [e]
    ensures Keys(o + [e]) == Keys(o) + {e.key}
    ensures WellFormed(o + [e])
  {
    assert Keys([e]) == {e.key};
    AssignDisjoint(o, [e]);
    KeysAppend(o, [e]);
    AppendWellFormed(o, [e]);
  }

  // ---------------------------------------------------------------------------
  // Removing a property
  // ---------------------------------------------------------------------------

  lemma {:induction false} RemoveKeyAppend(a: Object, b: Object, k: JsString)
    ensures RemoveKey(a + b, k) == RemoveKey(a, k) + RemoveKey(b, k)
  {
    if a != [] {
      var ab := a + b;
      assert ab[0] == a[0] && ab[1..] == a[1..] + b;
      RemoveKeyAppend(a[1..], b, k);
      if a[0].key == k {
        assert RemoveKey(ab, k) == RemoveKey(a[1..] + b, k);
      } else {
        assert RemoveKey(ab, k) == [a[0]] + RemoveKey(a[1..] + b, k);
      }
    } else {
      assert a + b == b;
    }
  }

  lemma {:induction false} RemoveKeyAbsent(o: Object, k: JsString)
    requires k !in Keys(o)
    ensures RemoveKey(o, k) == o
  {
    if o != [] {
      KeysCons(o);
      RemoveKeyAbsent(o[1..], k);
      assert o == [o[0]] + o[1..];
    }
  }

  /** A property appended last reads its value, and removing it gives the object back. */
  lemma RemoveAppended(o: Object, e: Entry)
    requires e.key !in Keys(o)
    ensures Lookup(o + [e], e.key) == Some(e.value)
    ensures RemoveKey(o + [e], e.key) == o
  {
    RemoveKeyAppend(o, [e], e.key);
    RemoveKeyAbsent(o, e.key);
    assert RemoveKey([e], e.key) == [];
    assert o + [] == o;
    LookupAppend(o, [e], e.key);
  }

  // ---------------------------------------------------------------------------
  // Insertion order
  // ---------------------------------------------------------------------------

  lemma {:induction false} DistinctMultiplicity(o: Object, e: Entry)
    requires WellFormed(o)
    ensures multiset(o)[e] == if e in o then 1 else 0
  {
    if o != [] {
      assert o == [o[0]] + o[1..];
      HeadKeyFresh(o);
      DistinctMultiplicity(o[1..], e);
      assert e in o[1..] ==> e.key in Keys(o[1..]);
    }
  }

  /**
   * Two objects that read the same for every property name hold the same
   * properties, whatever order they were inserted in.
   */
  lemma SamePropertiesSameEntries(a: Object, b: Object)
    requires WellFormed(a) && WellFormed(b)
    requires forall k :: Lookup(a, k) == Lookup(b, k)
    ensures multiset(a) == multiset(b)
  {
    forall e ensures multiset(a)[e] == multiset(b)[e] {
      DistinctMultiplicity(a, e);
      DistinctMultiplicity(b, e);
      if e in a {
        LookupOfMember(a, e);
        LookupFound(b, e.key);
      }
      if e in b {
        LookupOfMember(b, e);
        LookupFound(a, e.key);
      }
    }
  }
}
