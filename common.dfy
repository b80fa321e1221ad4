/**
 * Shared vocabulary of the SafeRemediate backend model: optional values, the
 * numeric helpers every engine re-declares (clamp01, safe_div), and the few
 * Python string operations the engines rely on (`in`, `endswith`,
 * `split(sep)[-1]`).
 */
module Common {

  datatype Option<T> = None | Some(value: T)

  /** A value, or the message of the exception (or HTTP error) raised instead. */
  datatype Result<T> = Ok(value: T) | Err(message: string)

  /** Python's `d.get(key, default)` for a key that may be absent. */
  function GetOr<T>(o: Option<T>, default: T): T
  {
    if o.Some? then o.value else default
  }

  /** An endpoint's answer, or the HTTPException it raised. */
  datatype Reply<T> = Answer(value: T) | HttpError(statusCode: nat, detail: string)

  /** An optional text counts as given when present and non-empty (Python truthiness). */
  predicate Given(o: Option<string>)
  {
    o.Some? && o.value != ""
  }

  /** clamp01: max(0.0, min(1.0, x)). */
  function Clamp01(x: real): (r: real)
    ensures 0.0 <= r <= 1.0
    ensures 0.0 <= x <= 1.0 ==> r == x
    ensures x < 0.0 ==> r == 0.0
    ensures x > 1.0 ==> r == 1.0
  {
    if x < 0.0 then 0.0 else if x > 1.0 then 1.0 else x
  }

  function MinR(a: real, b: real): (r: real)
    ensures r <= a && r <= b && (r == a || r == b)
  {
    if a <= b then a else b
  }

  function MaxR(a: real, b: real): (r: real)
    ensures r >= a && r >= b && (r == a || r == b)
  {
    if a >= b then a else b
  }

  /** safe_div(a, b, default): a / b, or the default for a zero denominator. */
  function SafeDiv(a: real, b: real, default: real): (r: real)
    ensures b == 0.0 ==> r == default
    ensures b != 0.0 ==> r * b == a
  {
    if b != 0.0 then a / b else default
  }

  /** A quotient of two naturals with numerator at most the denominator is a fraction. */
  lemma FractionInUnit(a: int, b: int)
    requires 0 <= a <= b && b != 0
    ensures 0.0 <= (a as real) / (b as real) <= 1.0
  {
  }

  /** A total of at most n values in [0, 1], divided by n, lies in [0, 1]. */
  lemma MeanInUnit(sum: real, n: real)
    requires 1.0 <= n && 0.0 <= sum <= n
    ensures 0.0 <= sum / n <= 1.0
  {
    QuotientTimesDivisor(sum / n, sum, n);
  }

  /** A quotient times its divisor gives the dividend back. */
  lemma QuotientTimesDivisor(q: real, a: real, n: real)
    requires n != 0.0 && q == a / n
    ensures q * n == a
  {
  }

  /** A list comprehension `[x for x in xs if p(x)]`. */
  function Filter<T(!new)>(xs: seq<T>, p: T -> bool): (r: seq<T>)
    ensures |r| <= |xs|
    ensures forall x :: x in r <==> x in xs && p(x)
  {
    if xs == [] then []
    else Filter(xs[..|xs| - 1], p) + (if p(xs[|xs| - 1]) then [xs[|xs| - 1]] else [])
  }

  /** The comprehension keeps every passing item as often as the list holds it, and no other. */
  lemma {:induction false} FilterMultiplicity<T(!new)>(xs: seq<T>, p: T -> bool, x: T)
    ensures multiset(Filter(xs, p))[x] == if p(x) then multiset(xs)[x] else 0
  {
    if xs != [] {
      var init, last := xs[..|xs| - 1], xs[|xs| - 1];
      FilterMultiplicity(init, p, x);
      assert xs == init + [last];
      assert multiset(xs) == multiset(init) + multiset([last]);
    }
  }

  /** The comprehension keeps the order of the list: filtering distributes over concatenation. */
  lemma {:induction false} FilterAppend<T(!new)>(xs: seq<T>, ys: seq<T>, p: T -> bool)
    ensures Filter(xs + ys, p) == Filter(xs, p) + Filter(ys, p)
  {
    if ys != [] {
      var init, last := ys[..|ys| - 1], ys[|ys| - 1];
      FilterAppend(xs, init, p);
      assert (xs + ys)[..|xs + ys| - 1] == xs + init;
      assert (xs + ys)[|xs + ys| - 1] == last;
    } else {
      assert xs + ys == xs;
    }
  }

  /** `sum(1 for x in xs if p(x))`: the number of items that pass. */
  function CountWhere<T>(xs: seq<T>, p: T -> bool): (n: nat)
    ensures n <= |xs|
  {
    if xs == [] then 0 else CountWhere(xs[..|xs| - 1], p) + (if p(xs[|xs| - 1]) then 1 else 0)
  }

  /** No item passes exactly when the count is 0, and every item does exactly when it is the length. */
  lemma {:induction false} CountWhereExtremes<T>(xs: seq<T>, p: T -> bool)
    ensures CountWhere(xs, p) == 0 <==> forall i :: 0 <= i < |xs| ==> !p(xs[i])
    ensures CountWhere(xs, p) == |xs| <==> forall i :: 0 <= i < |xs| ==> p(xs[i])
  {
    if xs != [] {
      var init := xs[..|xs| - 1];
      CountWhereExtremes(init, p);
      assert forall i :: 0 <= i < |init| ==> init[i] == xs[i];
    }
  }

  /** The count is the length of the comprehension that keeps the passing items. */
  lemma {:induction false} CountWhereIsFilterLength<T(!new)>(xs: seq<T>, p: T -> bool)
    ensures CountWhere(xs, p) == |Filter(xs, p)|
  {
    if xs != [] {
      CountWhereIsFilterLength(xs[..|xs| - 1], p);
    }
  }

  /** Filtering a list whose every item passes gives it back. */
  lemma {:induction false} FilterKeepsAll<T(!new)>(xs: seq<T>, p: T -> bool)
    requires forall x :: x in xs ==> p(x)
    ensures Filter(xs, p) == xs
  {
    if xs != [] {
      var init, last := xs[..|xs| - 1], xs[|xs| - 1];
      PrefixItems(xs);
      FilterKeepsAll(init, p);
      FilterStep(xs, p);
      assert init + [last] == xs;
    }
  }

  /** Every item of a proper prefix, and the last item, are items of the list. */
  lemma PrefixItems<T>(xs: seq<T>)
    requires xs != []
    ensures forall x :: x in xs[..|xs| - 1] ==> x in xs
    ensures xs[|xs| - 1] in xs
  {
  }

  /** Filter on a non-empty list: the filtered prefix, then the last item if it passes. */
  lemma FilterStep<T(!new)>(xs: seq<T>, p: T -> bool)
    requires xs != []
    ensures Filter(xs, p) == Filter(xs[..|xs| - 1], p) + (if p(xs[|xs| - 1]) then [xs[|xs| - 1]] else [])
  {
  }

  /** Appending the next item of a list to its prefix extends the prefix. */
  lemma PrefixSnoc<T>(xs: seq<T>, i: nat)
    requires i < |xs|
    ensures xs[..i] + [xs[i]] == xs[..i + 1]
  {
  }

  /** Replacing the item just appended is appending the replacement. */
  lemma UpdateLast<T>(xs: seq<T>, x: T, y: T)
    ensures (xs + [x])[|xs| := y] == xs + [y]
  {
  }

  /** Sequence concatenation is associative. */
  lemma AppendAssoc<T>(a: seq<T>, b: seq<T>, c: seq<T>)
    ensures (a + b) + c == a + (b + c)
  {
  }

  /** Dropping the last item of xs + ys, for a non-empty ys, drops it from ys. */
  lemma InitOfAppend<T>(xs: seq<T>, ys: seq<T>)
    requires ys != []
    ensures (xs + ys)[..|xs + ys| - 1] == xs + ys[..|ys| - 1]
    ensures (xs + ys)[|xs + ys| - 1] == ys[|ys| - 1]
  {
  }

  // ---------------------------------------------------------------------
  // Python string operations on `string` (seq<char>)
  // ---------------------------------------------------------------------

  /** `sub` occurs in `s` starting at index i. */
  predicate OccursAt(s: string, sub: string, i: int)
  {
    0 <= i && i + |sub| <= |s| && s[i..i + |sub|] == sub
  }

  /** Leftmost occurrence of `sub` in `s` at or after `start`. */
  function IndexFrom(s: string, sub: string, start: nat): (r: Option<nat>)
    ensures r.Some? ==> start <= r.value && OccursAt(s, sub, r.value)
    decreases |s| - start
  {
    if start + |sub| > |s| then None
    else if OccursAt(s, sub, start) then Some(start)
    else IndexFrom(s, sub, start + 1)
  }

  /** Leftmost occurrence of `sub` in `s` (Python's str.find, None for -1). */
  function IndexOf(s: string, sub: string): (r: Option<nat>)
    ensures r.Some? ==> OccursAt(s, sub, r.value)
  {
    IndexFrom(s, sub, 0)
  }

  /** The scan from `start` finds an occurrence at or before any occurrence past `start`. */
  lemma {:induction false} IndexFromLeftmost(s: string, sub: string, start: nat, j: nat)
    requires start <= j && OccursAt(s, sub, j)
    ensures IndexFrom(s, sub, start).Some? && IndexFrom(s, sub, start).value <= j
    decreases j - start
  {
    if !OccursAt(s, sub, start) {
      IndexFromLeftmost(s, sub, start + 1, j);
    }
  }

  /** IndexOf finds the leftmost occurrence, and misses none. */
  lemma IndexOfLeftmost(s: string, sub: string, j: nat)
    requires OccursAt(s, sub, j)
    ensures IndexOf(s, sub).Some? && IndexOf(s, sub).value <= j
  {
    IndexFromLeftmost(s, sub, 0, j);
  }

  /** Python `sub in s`. */
  predicate Contains(s: string, sub: string)
  {
    IndexOf(s, sub).Some?
  }

  lemma ContainsIff(s: string, sub: string)
    ensures Contains(s, sub) <==> exists j: nat :: OccursAt(s, sub, j)
  {
    if exists j: nat :: OccursAt(s, sub, j) {
      var j: nat :| OccursAt(s, sub, j);
      IndexOfLeftmost(s, sub, j);
    }
  }

  /** Python `s.endswith(suffix)`. */
  predicate EndsWith(s: string, suffix: string)
  {
    |suffix| <= |s| && s[|s| - |suffix|..] == suffix
  }

  /**
   * Where Python's `s.split(sep)[-1]` starts, scanning from `start`: split
   * finds non-overlapping occurrences left to right, so the last piece is
   * what follows the final occurrence that scan finds.
   */
  function LastPieceFrom(s: string, sep: string, start: nat): (k: nat)
    requires |sep| > 0 && start <= |s|
    ensures start <= k <= |s|
    decreases |s| - start
  {
    match IndexFrom(s, sep, start)
    case None => start
    case Some(i) => LastPieceFrom(s, sep, i + |sep|)
  }

  /** One step of the scan: past the next occurrence, or stop where there is none. */
  lemma LastPieceFromStep(s: string, sep: string, start: nat)
    requires |sep| > 0 && start <= |s|
    ensures IndexFrom(s, sep, start).None? ==> LastPieceFrom(s, sep, start) == start
    ensures IndexFrom(s, sep, start).Some? ==>
      IndexFrom(s, sep, start).value + |sep| <= |s|
      && LastPieceFrom(s, sep, start) == LastPieceFrom(s, sep, IndexFrom(s, sep, start).value + |sep|)
  {
  }

  function LastPieceStart(s: string, sep: string): (k: nat)
    requires |sep| > 0
    ensures k <= |s|
  {
    LastPieceFrom(s, sep, 0)
  }

  /** No occurrence of the separator starts inside the last piece. */
  lemma {:induction false} NoSeparatorAfterLastPiece(s: string, sep: string, start: nat, j: nat)
    requires |sep| > 0 && start <= |s| && LastPieceFrom(s, sep, start) <= j
    ensures !OccursAt(s, sep, j)
    decreases |s| - start
  {
    LastPieceFromStep(s, sep, start);
    if IndexFrom(s, sep, start).None? {
      if OccursAt(s, sep, j) {
        IndexFromLeftmost(s, sep, start, j);
      }
    } else {
      NoSeparatorAfterLastPiece(s, sep, IndexFrom(s, sep, start).value + |sep|, j);
    }
  }

  /** An occurrence in a suffix is an occurrence in the whole string, shifted. */
  lemma OccursInSuffix(s: string, sub: string, off: nat, i: int)
    requires off <= |s| && OccursAt(s[off..], sub, i)
    ensures OccursAt(s, sub, off + i)
  {
    assert s[off..][i..i + |sub|] == s[off + i..off + i + |sub|];
  }

  /** The last piece holds no occurrence of the separator. */
  lemma LastPieceHasNoSeparator(s: string, sep: string)
    requires |sep| > 0
    ensures !Contains(s[LastPieceStart(s, sep)..], sep)
  {
    var k := LastPieceStart(s, sep);
    if Contains(s[k..], sep) {
      var j := IndexOf(s[k..], sep).value;
      OccursInSuffix(s, sep, k, j);
      NoSeparatorAfterLastPiece(s, sep, 0, k + j);
    }
  }

  /** When the scan from `start` finds an occurrence, the last piece follows one. */
  lemma {:induction false} LastPieceFromFollowsSeparator(s: string, sep: string, start: nat)
    requires |sep| > 0 && start <= |s| && IndexFrom(s, sep, start).Some?
    ensures OccursAt(s, sep, LastPieceFrom(s, sep, start) - |sep|)
    decreases |s| - start
  {
    var next := IndexFrom(s, sep, start).value + |sep|;
    LastPieceFromStep(s, sep, start);
    if IndexFrom(s, sep, next).Some? {
      LastPieceFromFollowsSeparator(s, sep, next);
    } else {
      LastPieceAfterFinalSeparator(s, sep, start);
    }
  }

  /** When no occurrence follows the next one, the last piece starts right after it. */
  lemma LastPieceAfterFinalSeparator(s: string, sep: string, start: nat)
    requires |sep| > 0 && start <= |s| && IndexFrom(s, sep, start).Some?
    requires IndexFrom(s, sep, IndexFrom(s, sep, start).value + |sep|).None?
    ensures LastPieceFrom(s, sep, start) == IndexFrom(s, sep, start).value + |sep|
  {
    LastPieceFromStep(s, sep, start);
    LastPieceFromStep(s, sep, IndexFrom(s, sep, start).value + |sep|);
  }

  /** The last piece follows an occurrence of the separator whenever there is one. */
  lemma LastPieceFollowsSeparator(s: string, sep: string)
    requires |sep| > 0 && Contains(s, sep)
    ensures LastPieceStart(s, sep) >= |sep|
    ensures OccursAt(s, sep, LastPieceStart(s, sep) - |sep|)
  {
    LastPieceFromStep(s, sep, 0);
    LastPieceFromFollowsSeparator(s, sep, 0);
  }

  /** Python `s.split(sep)[-1]`. */
  function SplitLast(s: string, sep: string): (r: string)
    requires |sep| > 0
    ensures |r| <= |s| && r == s[|s| - |r|..]
    ensures !Contains(r, sep)
    ensures !Contains(s, sep) ==> r == s
    ensures Contains(s, sep) ==> |r| + |sep| <= |s| && OccursAt(s, sep, |s| - |r| - |sep|)
  {
    var k := LastPieceStart(s, sep);
    LastPieceHasNoSeparator(s, sep);
    if Contains(s, sep) then
      LastPieceFollowsSeparator(s, sep);
      s[k..]
    else
      assert s[0..] == s;
      s[k..]
  }

  /** Python `sep.join(xs)`. */
  function Join(xs: seq<string>, sep: string): (r: string)
    ensures xs == [] ==> r == ""
    ensures |xs| == 1 ==> r == xs[0]
    ensures xs != [] ==> EndsWith(r, xs[|xs| - 1])
  {
    if xs == [] then ""
    else if |xs| == 1 then xs[0]
    else Join(xs[..|xs| - 1], sep) + sep + xs[|xs| - 1]
  }
}
