/** Small datatypes and sequence facts shared by the models of the individual components. */
module Prelude {

  datatype Option<+T> = None | Some(value: T)

  datatype Result<+T, +E> = Ok(value: T) | Err(error: E)

  /** What is read from a timestamp: a moment in UTC, nothing, or a moment that leaves the calendar on its way to UTC. */
  datatype Timestamp = Instant(value: int) | NoTimestamp | OutsideCalendar

  /** The elements of `s` that satisfy `p`, in order. */
  function Filter<T>(p: T -> bool, s: seq<T>): (r: seq<T>)
    ensures forall x | x in r :: x in s && p(x)
    ensures forall x | x in s && p(x) :: x in r
  {
    if s == [] then []
    else
      assert s == [s[0]] + s[1..];
      (if p(s[0]) then [s[0]] else []) + Filter(p, s[1..])
  }

  lemma {:induction false} FilterConcat<T>(p: T -> bool, a: seq<T>, b: seq<T>)
    ensures Filter(p, a + b) == Filter(p, a) + Filter(p, b)
  {
    if a == [] {
      assert a + b == b;
    } else {
      assert (a + b)[1..] == a[1..] + b;
      FilterConcat(p, a[1..], b);
    }
  }

  function ToSet<T>(s: seq<T>): set<T> { set x | x in s }

  /** The hash `h` separates the payloads in `s`; no claim is made about any other payload. */
  ghost predicate CollisionFree<P(!new)>(h: P -> string, s: set<P>) {
    forall x, y | x in s && y in s && h(x) == h(y) :: x == y
  }

  ghost predicate Distinct<T(!new)>(s: seq<T>) {
    forall i, j :: 0 <= i < j < |s| ==> s[i] != s[j]
  }

  predicate NoRepeat<T(==)>(s: seq<T>) {
    s == [] || (s[|s| - 1] !in s[..|s| - 1] && NoRepeat(s[..|s| - 1]))
  }

  lemma {:induction false} NoRepeatSet<T>(s: seq<T>)
    ensures |ToSet(s)| <= |s| && (|ToSet(s)| == |s| <==> NoRepeat(s))
    ensures NoRepeat(s) ==> multiset(s) == multiset(ToSet(s))
  {
    if s != [] {
      var n := |s| - 1;
      NoRepeatSet(s[..n]);
      assert s == s[..n] + [s[n]];
      assert ToSet(s) == ToSet(s[..n]) + {s[n]};
      assert s[n] in s[..n] ==> ToSet(s) == ToSet(s[..n]);
    }
  }
}
