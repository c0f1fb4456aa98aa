/** Decoded JSON values as the three scripts see them once `json.load` has run,
    with Python's truthiness and `dict.get`. Numbers are integers only. */
module JsonValues {

  datatype Option<+T> = None | Some(value: T)

  /** A JSON document: objects are maps from key to value (key order is not modelled). */
  datatype Json =
    | JNull
    | JBool(b: bool)
    | JInt(i: int)
    | JStr(s: string)
    | JArr(items: seq<Json>)
    | JObj(fields: map<string, Json>)

  /** Python's `bool(v)` on a decoded JSON value: None, False, 0 and empty containers are falsy. */
  predicate Truthy(j: Json) {
    match j
    case JNull => false
    case JBool(b) => b
    case JInt(i) => i != 0
    case JStr(s) => |s| > 0
    case JArr(items) => |items| > 0
    case JObj(fields) => |fields| > 0
  }

  /** The entries of a dict; none for any other value. */
  function FieldsOf(j: Json): map<string, Json> {
    if j.JObj? then j.fields else map[]
  }

  /** `d.get(key, default)` */
  function GetOr(d: map<string, Json>, key: string, default: Json): Json {
    if key in d then d[key] else default
  }

  /** `d.get(key)`: a missing key reads as None. */
  function Get(d: map<string, Json>, key: string): Json {
    GetOr(d, key, JNull)
  }

  /** A value Python can use as a dict key without raising and without colliding
      with a different JSON value (`True == 1` in Python). */
  predicate IsKey(j: Json) {
    j.JStr? || j.JInt?
  }

  predicate Distinct<T(==)>(s: seq<T>) {
    forall i, j :: 0 <= i < j < |s| ==> s[i] != s[j]
  }

  function Elements<T>(s: seq<T>): set<T> {
    set x | x in s
  }

  /** A sequence has at least as many entries as distinct elements. */
  lemma {:induction false} ElementsBound<T>(s: seq<T>)
    ensures |Elements(s)| <= |s|
  {
    if s != [] {
      var init := s[..|s| - 1];
      ElementsBound(init);
      assert Elements(s) == Elements(init) + {s[|s| - 1]} by {
        assert s == init + [s[|s| - 1]];
      }
    }
  }

  /** A sequence without repetitions holds each of its elements exactly once. */
  lemma {:induction false} DistinctMultiplicity<T>(s: seq<T>, x: T)
    requires Distinct(s)
    ensures multiset(s)[x] == if x in s then 1 else 0
  {
    if s != [] {
      var init := s[..|s| - 1];
      assert s == init + [s[|s| - 1]];
      assert Distinct(init);
      DistinctMultiplicity(init, x);
      assert s[|s| - 1] !in init;
    }
  }

  /** Two repetition-free sequences with the same elements are permutations of each other. */
  lemma DistinctSameElements<T>(a: seq<T>, b: seq<T>)
    requires Distinct(a) && Distinct(b)
    requires Elements(a) == Elements(b)
    ensures multiset(a) == multiset(b)
  {
    forall x
      ensures multiset(a)[x] == multiset(b)[x]
    {
      DistinctMultiplicity(a, x);
      DistinctMultiplicity(b, x);
      assert x in a <==> x in Elements(a);
      assert x in b <==> x in Elements(b);
    }
  }

  /** A sequence without repetitions has as many distinct elements as entries. */
  lemma {:induction false} DistinctCardinality<T>(s: seq<T>)
    requires Distinct(s)
    ensures |Elements(s)| == |s|
  {
    if s != [] {
      var init := s[..|s| - 1];
      assert Distinct(init);
      DistinctCardinality(init);
      assert s == init + [s[|s| - 1]];
      assert Elements(s) == Elements(init) + {s[|s| - 1]};
      assert s[|s| - 1] !in Elements(init);
    }
  }

  /** The concatenation of `f` applied to each element, in order (a loop that extends a list). */
  function Concat<T, U>(f: T -> seq<U>, s: seq<T>): seq<U> {
    if s == [] then [] else Concat(f, s[..|s| - 1]) + f(s[|s| - 1])
  }

  lemma {:induction false} ConcatAppend<T, U>(f: T -> seq<U>, a: seq<T>, b: seq<T>)
    ensures Concat(f, a + b) == Concat(f, a) + Concat(f, b)
  {
    if b == [] {
      assert a + b == a;
    } else {
      var init := b[..|b| - 1];
      assert (a + b)[..|a + b| - 1] == a + init;
      assert (a + b)[|a + b| - 1] == b[|b| - 1];
      ConcatAppend(f, a, init);
    }
  }

  /** An element's output sits between the outputs of the elements before and after it. */
  lemma ConcatAt<T, U>(f: T -> seq<U>, before: seq<T>, x: T, after: seq<T>)
    ensures Concat(f, before + [x] + after) == Concat(f, before) + f(x) + Concat(f, after)
  {
    ConcatAppend(f, before + [x], after);
    ConcatAppend(f, before, [x]);
    assert [x][..0] == [];
  }
}
