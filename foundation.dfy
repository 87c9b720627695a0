/**
 * Small building blocks the application takes from Swift and Foundation:
 * optional values, UUIDs, Swift's truncating `Int` division, `filter`,
 * `firstIndex(where:)`, and the clamped fractional step `min(p + 1.0 / n, 1.0)`
 * that every progress update uses.
 */
module Foundation {

  /** A `UUID`. Only equality between UUIDs matters, so a natural number stands for one. */
  type Uuid = nat

  datatype Option<+T> = None | Some(value: T)

  function Abs(x: int): nat {
    if x < 0 then -x else x
  }

  /** Swift's `Int` division `a / b`, which truncates toward zero (Dafny's `/` is Euclidean). */
  function Quot(a: int, b: int): (q: int)
    requires b != 0
    ensures Abs(b) * Abs(q) <= Abs(a) < Abs(b) * Abs(q) + Abs(b)
    ensures q == 0 || ((q < 0) <==> ((a < 0) != (b < 0)))
  {
    var m := Abs(a) / Abs(b);
    DivBounds(Abs(a), Abs(b));
    if (a < 0) == (b < 0) then m else -m
  }

  lemma DivBounds(x: nat, y: nat)
    requires y > 0
    ensures 0 <= x / y
    ensures y * (x / y) <= x < y * (x / y) + y
  {
    assert x == y * (x / y) + x % y;
  }

  /** Swift's `Int` remainder `a % b`: it takes the sign of `a`. */
  function Rem(a: int, b: int): (r: int)
    requires b != 0
    ensures a == b * Quot(a, b) + r
    ensures Abs(r) < Abs(b)
    ensures r == 0 || ((r < 0) <==> (a < 0))
  {
    var q := Quot(a, b);
    var r := a - b * q;
    QuotRemSign(a, b, q, r);
    r
  }

  lemma QuotRemSign(a: int, b: int, q: int, r: int)
    requires b != 0 && q == Quot(a, b) && r == a - b * q
    ensures Abs(r) < Abs(b)
    ensures r == 0 || ((r < 0) <==> (a < 0))
  {
    var m := Abs(a) / Abs(b);
    assert Abs(a) == Abs(b) * m + Abs(a) % Abs(b);
    if (a < 0) == (b < 0) {
      assert q == m;
      if a >= 0 {
        assert b * q == Abs(b) * m;
        assert r == Abs(a) % Abs(b);
      } else {
        assert b * q == -(Abs(b) * m);
        assert r == -(Abs(a) % Abs(b));
      }
    } else {
      assert q == -m;
      if a >= 0 {
        assert b * q == Abs(b) * m;
        assert r == Abs(a) % Abs(b);
      } else {
        assert b * q == -(Abs(b) * m);
        assert r == -(Abs(a) % Abs(b));
      }
    }
  }

  /**
   * `min(p + 1.0 / Double(n), 1.0)`, the step every lesson, course and skill
   * progress update takes. For n == 0 Swift's division yields +infinity and
   * the minimum is 1.0.
   */
  function StepTowardOne(p: real, n: nat): (r: real)
    ensures r <= 1.0
    ensures n == 0 ==> r == 1.0
    ensures n > 0 ==> r <= p + 1.0 / n as real && (r == 1.0 || r == p + 1.0 / n as real)
    ensures p <= 1.0 ==> p <= r
  {
    if n == 0 then 1.0
    else if 1.0 < p + 1.0 / n as real then 1.0
    else p + 1.0 / n as real
  }

  /** The progress after k steps of `StepTowardOne` from 0.0 toward one in n parts. */
  function StepsFromZero(n: nat, k: nat): real {
    if k == 0 then 0.0 else StepTowardOne(StepsFromZero(n, k - 1), n)
  }

  /** k steps of 1/n from zero are worth exactly k/n until they reach one, and then stay at one. */
  lemma {:induction false} StepsFromZeroValue(n: nat, k: nat)
    requires n > 0
    ensures k <= n ==> StepsFromZero(n, k) == k as real / n as real
    ensures n <= k ==> StepsFromZero(n, k) == 1.0
  {
    if k > 0 {
      StepsFromZeroValue(n, k - 1);
      var before := StepsFromZero(n, k - 1);
      if k <= n {
        assert before == (k - 1) as real / n as real;
        AddShare(k - 1, n);
      } else {
        assert before == 1.0;
      }
    }
  }

  /** One more share of 1/n: (j + 1)/n, which is at most one while j < n. */
  lemma AddShare(j: nat, n: nat)
    requires n > 0
    ensures j as real / n as real + 1.0 / n as real == (j + 1) as real / n as real
    ensures j < n ==> (j + 1) as real / n as real <= 1.0
  {
  }

  /** Swift's `filter`: the elements of `s` that satisfy `keep`, in their order. */
  function Filter<T(!new)>(s: seq<T>, keep: T -> bool): (r: seq<T>)
    ensures |r| <= |s|
    ensures forall x :: multiset(r)[x] == if keep(x) then multiset(s)[x] else 0
  {
    if s == [] then []
    else
      var rest := Filter(s[1..], keep);
      assert s == [s[0]] + s[1..];
      if keep(s[0]) then [s[0]] + rest else rest
  }

  /** Filtering keeps the order of the input: it distributes over concatenation. */
  lemma {:induction false} FilterAppend<T(!new)>(a: seq<T>, b: seq<T>, keep: T -> bool)
    ensures Filter(a + b, keep) == Filter(a, keep) + Filter(b, keep)
  {
    if a == [] {
      assert a + b == b;
    } else {
      assert (a + b)[0] == a[0] && (a + b)[1..] == a[1..] + b;
      FilterAppend(a[1..], b, keep);
    }
  }

  /** Swift's `firstIndex(where:)`. */
  function FirstIndexWhere<T>(s: seq<T>, p: T -> bool): (r: Option<nat>)
    ensures r.None? ==> forall j :: 0 <= j < |s| ==> !p(s[j])
    ensures r.Some? ==> r.value < |s| && p(s[r.value]) && forall j :: 0 <= j < r.value ==> !p(s[j])
  {
    if s == [] then None
    else if p(s[0]) then Some(0)
    else match FirstIndexWhere(s[1..], p)
      case None => None
      case Some(i) => Some(i + 1)
  }
}
