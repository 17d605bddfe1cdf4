/** Values and helpers shared by the station and lock models: optional values,
    JavaScript numbers as the vendor and the configuration deliver them, and the
    first-match search that `Array.prototype.find` performs. */
module Common {

  datatype Option<T> = None | Some(value: T)

  /** A JavaScript number as it reaches the plugin: an integer code, or NaN
      (a configured code that is not a number). Fractions are not modelled. */
  datatype JsNumber = Num(n: int) | NaN

  /** JavaScript `===` on numbers: NaN equals nothing, not even itself. */
  predicate StrictEquals(a: JsNumber, b: JsNumber)
  {
    a.Num? && b.Num? && a.n == b.n
  }

  /** The index of the first element satisfying `p`, as `find` returns the
      first match of its callback. */
  function FindFirst<T>(s: seq<T>, p: T -> bool): (r: Option<nat>)
    ensures r.Some? ==> r.value < |s| && p(s[r.value])
    ensures r.Some? ==> forall j :: 0 <= j < r.value ==> !p(s[j])
    ensures r.None? ==> forall j :: 0 <= j < |s| ==> !p(s[j])
  {
    if |s| == 0 then None
    else if p(s[0]) then Some(0)
    else match FindFirst(s[1..], p)
      case None => None
      case Some(k) => Some(k + 1)
  }

  /** How many elements of `s` satisfy `p`. */
  function Count<T>(s: seq<T>, p: T -> bool): (n: nat)
    ensures n <= |s|
  {
    if |s| == 0 then 0 else (if p(s[0]) then 1 else 0) + Count(s[1..], p)
  }

  /** Counting over a sequence that starts with `x`. */
  lemma CountCons<T>(x: T, b: seq<T>, p: T -> bool)
    ensures Count([x] + b, p) == (if p(x) then 1 else 0) + Count(b, p)
  {
    assert ([x] + b)[0] == x;
    assert ([x] + b)[1..] == b;
  }

  lemma {:induction false} CountAppend<T>(a: seq<T>, b: seq<T>, p: T -> bool)
    ensures Count(a + b, p) == Count(a, p) + Count(b, p)
  {
    if |a| == 0 {
      assert a + b == b;
    } else {
      assert (a + b)[0] == a[0];
      assert (a + b)[1..] == a[1..] + b;
      CountAppend(a[1..], b, p);
    }
  }
}
