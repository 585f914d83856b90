/** Shared vocabulary of the model: optional values, what the remote service
    answers, JavaScript truthiness and the rounding the pages use. */
module Common {

  datatype Option<+T> = None | Some(value: T)

  /** The answer of a remote query: the rows, or an error (its payload is not modelled). */
  datatype Fetch<T> = Rows(rows: seq<T>) | FetchError

  /** The answer of a remote insert, update or delete. */
  datatype Mutation = Ack | MutateError

  /** A request on the one row of `table` whose id is `id`:
      `.from(table).update(patch).eq('id', id)` (the patch is not part of the
      value) or `.from(table).delete().eq('id', id)`. */
  datatype RowRequest = UpdateRow(table: string, id: string) | DeleteRow(table: string, id: string)

  /** JavaScript truthiness of an optional string (`undefined`, `null` and `""` are falsy). */
  predicate Given(s: Option<string>) {
    s.Some? && s.value != ""
  }

  /** JavaScript truthiness of a nullable number (`null` and `0` are falsy). */
  predicate NonZero(n: Option<int>) {
    n.Some? && n.value != 0
  }

  /** `s || null` for a string: the empty string becomes null. */
  function StringOrNull(s: Option<string>): (r: Option<string>)
    ensures r.None? <==> !Given(s)
    ensures r.Some? ==> r == s
  {
    if Given(s) then s else None
  }

  /** `n || null` for a number: zero becomes null. */
  function NumberOrNull(n: Option<int>): (r: Option<int>)
    ensures r.None? <==> !NonZero(n)
    ensures r.Some? ==> r == n
  {
    if NonZero(n) then n else None
  }

  /** `Math.round(n / d)` for a positive divisor. JavaScript rounds halves up
      (towards +infinity), so the result is the integer r with
      r - 1/2 <= n/d < r + 1/2. */
  function RoundDiv(n: int, d: int): (r: int)
    requires d > 0
    ensures 2 * d * r - d <= 2 * n < 2 * d * r + d
  {
    var q := (2 * n + d) / (2 * d);
    var m := (2 * n + d) % (2 * d);
    assert 2 * n + d == 2 * d * q + m && 0 <= m < 2 * d;
    q
  }

  /** The ensures of RoundDiv determine it: it is exactly Math.round of the ratio. */
  lemma RoundDivUnique(n: int, d: int, r: int)
    requires d > 0
    requires 2 * d * r - d <= 2 * n < 2 * d * r + d
    ensures r == RoundDiv(n, d)
  {
    var q := RoundDiv(n, d);
    if r < q {
      MulMonotone(2 * d, r + 1, q);
      assert false;
    } else if r > q {
      MulMonotone(2 * d, q + 1, r);
      assert false;
    }
  }

  lemma MulMonotone(k: int, a: int, b: int)
    requires k >= 0 && a <= b
    ensures k * a <= k * b
  {
    var diff := b - a;
    assert k * b == k * a + k * diff;
  }

  /** A ratio between lo and hi rounds to a value between lo and hi. */
  lemma RoundDivBounds(n: int, d: int, lo: int, hi: int)
    requires d > 0
    requires d * lo <= n <= d * hi
    ensures lo <= RoundDiv(n, d) <= hi
  {
    var r := RoundDiv(n, d);
    if r > hi {
      MulMonotone(2 * d, hi + 1, r);
      assert false;
    }
    if r < lo {
      MulMonotone(2 * d, r + 1, lo);
      assert false;
    }
  }

  /** `Math.round(x)` on an exact real: the integer r with r - 1/2 <= x < r + 1/2. */
  function Round(x: real): (r: int)
    ensures r as real - 0.5 <= x < r as real + 0.5
  {
    (x + 0.5).Floor
  }

  /** `whole > 0 ? Math.round((part / whole) * 100) : 0`, the percentage the
      pages show. */
  function Percent(part: int, whole: int): (r: int)
    ensures whole <= 0 ==> r == 0
    ensures whole > 0 ==> 2 * whole * r - whole <= 200 * part < 2 * whole * r + whole
  {
    if whole > 0 then RoundDiv(100 * part, whole) else 0
  }

  /** A part between 0 and the whole gives a percentage between 0 and 100;
      the whole gives 100, nothing gives 0. */
  lemma PercentBounds(part: int, whole: int)
    requires 0 <= part <= whole
    ensures 0 <= Percent(part, whole) <= 100
    ensures whole > 0 && part == whole ==> Percent(part, whole) == 100
    ensures part == 0 ==> Percent(part, whole) == 0
  {
    if whole > 0 {
      RoundDivBounds(100 * part, whole, 0, 100);
      if part == whole {
        RoundDivBounds(100 * part, whole, 100, 100);
      }
      if part == 0 {
        RoundDivBounds(100 * part, whole, 0, 0);
      }
    }
  }

  /** `Array.prototype.filter`: the elements that satisfy p, in their order. */
  function Filter<T>(s: seq<T>, p: T -> bool): (r: seq<T>)
    ensures |r| <= |s|
    ensures forall k :: 0 <= k < |r| ==> r[k] in s && p(r[k])
    ensures forall k :: 0 <= k < |s| && p(s[k]) ==> s[k] in r
  {
    if s == [] then [] else (if p(s[0]) then [s[0]] else []) + Filter(s[1..], p)
  }

  lemma {:induction false} FilterAppend<T>(a: seq<T>, b: seq<T>, p: T -> bool)
    ensures Filter(a + b, p) == Filter(a, p) + Filter(b, p)
  {
    if a != [] {
      assert (a + b)[1..] == a[1..] + b;
      FilterAppend(a[1..], b, p);
    } else {
      assert a + b == b;
    }
  }

  /** Filtering by p and by its negation q splits s: together the two parts
      hold every element of s exactly as often as s does. */
  lemma {:induction false} FilterPartition<T>(s: seq<T>, p: T -> bool, q: T -> bool)
    requires forall x :: q(x) == !p(x)
    ensures multiset(Filter(s, p)) + multiset(Filter(s, q)) == multiset(s)
    ensures |Filter(s, p)| + |Filter(s, q)| == |s|
  {
    if s != [] {
      FilterPartition(s[1..], p, q);
      assert s == [s[0]] + s[1..];
    }
  }

  /** The first `n` elements, or all of them when there are fewer
      (`Array.prototype.slice(0, n)`). */
  function Take<T>(s: seq<T>, n: nat): (r: seq<T>)
    ensures |r| <= n && |r| <= |s|
    ensures |s| <= n ==> r == s
    ensures forall k :: 0 <= k < |r| ==> r[k] == s[k]
  {
    if |s| <= n then s else s[..n]
  }

  /** When exactly one element satisfies p, the filter is that element. */
  lemma {:induction false} FilterSingle<T>(s: seq<T>, p: T -> bool, k: nat)
    requires k < |s| && p(s[k])
    requires forall j :: 0 <= j < |s| && j != k ==> !p(s[j])
    ensures Filter(s, p) == [s[k]]
  {
    if k == 0 {
      FilterNone(s[1..], p);
    } else {
      FilterSingle(s[1..], p, k - 1);
    }
  }

  lemma {:induction false} FilterNone<T>(s: seq<T>, p: T -> bool)
    requires forall j :: 0 <= j < |s| ==> !p(s[j])
    ensures Filter(s, p) == []
  {
    if s != [] {
      FilterNone(s[1..], p);
    }
  }

  /** `.maybeSingle()`: the row when the query matches exactly one, null
      otherwise (more than one row is an error whose data is null). */
  function MaybeSingle<T>(rows: seq<T>): (r: Option<T>)
    ensures r.Some? <==> |rows| == 1
    ensures r.Some? ==> r.value == rows[0]
  {
    if |rows| == 1 then Some(rows[0]) else None
  }

  /** A `.maybeSingle()` query over a filter finds the element whenever it is
      the only one that satisfies the filter. */
  lemma MaybeSingleFinds<T>(s: seq<T>, p: T -> bool)
    ensures forall k :: 0 <= k < |s| && p(s[k]) && (forall j :: 0 <= j < |s| && j != k ==> !p(s[j]))
                        ==> MaybeSingle(Filter(s, p)) == Some(s[k])
  {
    forall k | 0 <= k < |s| && p(s[k]) && (forall j :: 0 <= j < |s| && j != k ==> !p(s[j]))
      ensures MaybeSingle(Filter(s, p)) == Some(s[k])
    {
      FilterSingle(s, p, k);
    }
  }

  /** Filtering twice is filtering once by both conditions. */
  lemma {:induction false} FilterFilter<T>(s: seq<T>, p: T -> bool, q: T -> bool, both: T -> bool)
    requires forall x :: both(x) == (p(x) && q(x))
    ensures Filter(Filter(s, p), q) == Filter(s, both)
  {
    if s != [] {
      FilterFilter(s[1..], p, q, both);
      var rest := Filter(s[1..], p);
      var fs := Filter(s, p);
      if p(s[0]) {
        assert fs == [s[0]] + rest;
        assert fs != [] && fs[0] == s[0] && fs[1..] == rest;
        assert Filter(fs, q) == (if q(s[0]) then [s[0]] else []) + Filter(rest, q);
      } else {
        assert fs == rest && !both(s[0]);
      }
    }
  }
}
