/** JSON values as the Python handlers see them (the result of json.loads or
    request.json), and the three Python operations the handlers apply to them:
    `needle in container`, `container[key]` and `for x in container`. */
module PyValues {

  datatype Option<+T> = None | Some(value: T)

  /** A decoded JSON value. Numbers are integers: floating point is not modelled. */
  datatype Json =
    | Null
    | Bool(b: bool)
    | Num(n: int)
    | Str(s: string)
    | Arr(items: seq<Json>)
    | Obj(fields: map<string, Json>)

  /** A Python dict decoded from a JSON object (a token header, a claims payload, a JWK). */
  type JsonObject = map<string, Json>

  /** Python's substring test `needle in s`, scanning `s` from the left. */
  predicate Occurs(needle: string, s: string)
    decreases |s|
  {
    needle <= s || (s != [] && Occurs(needle, s[1..]))
  }

  /** `needle` sits in `s` starting at position `i`. */
  predicate OccursAt(needle: string, s: string, i: int) {
    0 <= i && i + |needle| <= |s| && s[i..i + |needle|] == needle
  }

  /** The left-to-right scan finds the needle exactly when it sits at some position. */
  lemma {:induction false} OccursSomewhere(needle: string, s: string)
    ensures Occurs(needle, s) <==> exists i :: OccursAt(needle, s, i)
    decreases |s|
  {
    if needle <= s {
      assert OccursAt(needle, s, 0);
    } else if s != [] {
      OccursSomewhere(needle, s[1..]);
      if Occurs(needle, s[1..]) {
        var j :| OccursAt(needle, s[1..], j);
        assert s[j + 1..j + 1 + |needle|] == s[1..][j..j + |needle|];
        assert OccursAt(needle, s, j + 1);
      }
      if exists i :: OccursAt(needle, s, i) {
        var i :| OccursAt(needle, s, i);
        assert s[1..][i - 1..i - 1 + |needle|] == s[i..i + |needle|];
        assert OccursAt(needle, s[1..], i - 1);
      }
    }
  }

  /** Python's `needle in container` for a string needle: key membership for a
      dict, element equality for a list, substring for a string. Any other value
      raises TypeError, modelled as None. */
  function Contains(container: Json, needle: string): (r: Option<bool>)
    ensures r.None? <==> !(container.Obj? || container.Arr? || container.Str?)
    ensures container.Obj? ==> r == Some(needle in container.fields)
    ensures container.Arr? ==> r == Some(Str(needle) in container.items)
    ensures container.Str? ==> (r == Some(true) <==> exists i :: OccursAt(needle, container.s, i))
  {
    match container
    case Obj(fields) => Some(needle in fields)
    case Arr(items) => Some(Str(needle) in items)
    case Str(s) =>
      OccursSomewhere(needle, s);
      Some(Occurs(needle, s))
    case _ => None
  }

  /** Python's `container[key]` with a string key: only a dict holding the key
      answers; a missing key raises KeyError and a list or string raises
      TypeError, both modelled as None. */
  function Subscript(container: Json, key: string): (r: Option<Json>)
    ensures r.Some? <==> container.Obj? && key in container.fields
    ensures r.Some? ==> r.value == container.fields[key]
  {
    if container.Obj? && key in container.fields then Some(container.fields[key]) else None
  }

  /** The number of steps of `for x in container`: one per key of a dict, per
      element of a list, per character of a string. Iterating any other value
      raises TypeError, modelled as None. */
  function IterationLength(container: Json): (r: Option<nat>)
    ensures r.None? <==> !(container.Obj? || container.Arr? || container.Str?)
    ensures container.Obj? ==> r == Some(|container.fields.Keys|)
    ensures container.Arr? ==> r == Some(|container.items|)
    ensures container.Str? ==> r == Some(|container.s|)
    // a container has no iteration steps exactly when `needle in container` fails for every needle
    ensures r == Some(0) ==> forall needle :: Contains(container, needle) == Some(needle == [] && container.Str?)
  {
    match container
    case Obj(fields) => Some(|fields.Keys|)
    case Arr(items) => Some(|items|)
    case Str(s) => Some(|s|)
    case _ => None
  }

  function BoolValue(b: bool): int {
    if b then 1 else 0
  }

  /** Python's `==` on decoded JSON values: `True == 1` and `False == 0` hold, and
      lists and dicts compare element by element and value by value under the
      same rule. */
  predicate PyEq(a: Json, b: Json)
    decreases a
  {
    match a
    case Null => b.Null?
    case Bool(x) => (b.Bool? && b.b == x) || (b.Num? && b.n == BoolValue(x))
    case Num(n) => (b.Num? && b.n == n) || (b.Bool? && BoolValue(b.b) == n)
    case Str(s) => b.Str? && b.s == s
    case Arr(xs) => b.Arr? && |xs| == |b.items| && forall i :: 0 <= i < |xs| ==> PyEq(xs[i], b.items[i])
    case Obj(f) => b.Obj? && f.Keys == b.fields.Keys && forall k :: k in f ==> PyEq(f[k], b.fields[k])
  }

  /** Python's `==` is reflexive on decoded JSON: equal values compare equal. */
  lemma {:induction false} PyEqIncludesEquality(a: Json)
    ensures PyEq(a, a)
    decreases a
  {
    match a
    case Arr(xs) =>
      forall i | 0 <= i < |xs| ensures PyEq(xs[i], xs[i]) {
        PyEqIncludesEquality(xs[i]);
      }
    case Obj(f) =>
      forall k | k in f ensures PyEq(f[k], f[k]) {
        PyEqIncludesEquality(f[k]);
      }
    case _ =>
  }

  /** `True == 1` in Python, though the two decoded values differ. */
  lemma TrueEqualsOne()
    ensures PyEq(Bool(true), Num(1)) && Bool(true) != Num(1)
  {
  }

  /** A JSON list of strings, such as the `permissions` claim of a token. */
  function StrList(xs: seq<string>): (r: Json)
    ensures r.Arr? && |r.items| == |xs|
    ensures forall i :: 0 <= i < |xs| ==> r.items[i] == Str(xs[i])
  {
    Arr(seq(|xs|, i requires 0 <= i < |xs| => Str(xs[i])))
  }
}
