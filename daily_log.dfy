/** The per-day log both variants keep (`history`: ISO date to list of
    entries) and the day's running totals: the `reduce` both variants of
    `sumToday` run over a day's list, starting from all zeros and adding an
    entry's energy and macronutrients field by field. */
module DailyLog {
  import opened JsArrays

  /** kcal, protein, fat and carbohydrate, as `sumToday` returns them. */
  datatype Totals = Totals(kcal: real, p: real, f: real, c: real)

  const Zero := Totals(0.0, 0.0, 0.0, 0.0)

  function Plus(a: Totals, b: Totals): Totals {
    Totals(a.kcal + b.kcal, a.p + b.p, a.f + b.f, a.c + b.c)
  }

  function Minus(a: Totals, b: Totals): Totals {
    Totals(a.kcal - b.kcal, a.p - b.p, a.f - b.f, a.c - b.c)
  }

  predicate NonNegative(t: Totals) {
    t.kcal >= 0.0 && t.p >= 0.0 && t.f >= 0.0 && t.c >= 0.0
  }

  /** The field-wise totals of a log: a left fold over its elements, in
      order, starting from all zeros. */
  function SumBy<T>(log: seq<T>, values: T -> Totals): (r: Totals)
    ensures log == [] ==> r == Zero
  {
    if log == [] then Zero
    else Plus(SumBy(log[..|log| - 1], values), values(log[|log| - 1]))
  }

  /** Appending an entry adds exactly its values to the totals. */
  lemma {:induction false} SumByAppend<T>(log: seq<T>, x: T, values: T -> Totals)
    ensures SumBy(log + [x], values) == Plus(SumBy(log, values), values(x))
  {
    assert (log + [x])[..|log|] == log;
  }

  /** The totals of two logs laid end to end are the sum of their totals. */
  lemma {:induction false} SumByConcat<T>(a: seq<T>, b: seq<T>, values: T -> Totals)
    ensures SumBy(a + b, values) == Plus(SumBy(a, values), SumBy(b, values))
  {
    if b == [] {
      assert a + b == a;
    } else {
      var b' := b[..|b| - 1];
      var x := b[|b| - 1];
      assert b == b' + [x];
      assert a + b == (a + b') + [x];
      SumByAppend(a + b', x, values);
      SumByConcat(a, b', values);
      SumByAppend(b', x, values);
    }
  }

  /** Taking out the element at position `i` takes its values off the totals. */
  lemma {:induction false} SumByRemoveAt<T>(log: seq<T>, i: nat, values: T -> Totals)
    requires i < |log|
    ensures SumBy(log, values) == Plus(SumBy(RemoveAt(log, i), values), values(log[i]))
  {
    var left, x, right := log[..i], log[i], log[i + 1..];
    assert log == (left + [x]) + right;
    assert RemoveAt(log, i) == left + right;
    SumByConcat(left + [x], right, values);
    SumByAppend(left, x, values);
    SumByConcat(left, right, values);
  }

  /** The totals do not depend on the order of the entries: two logs that
      hold the same entries, in any order, have the same totals. */
  lemma {:induction false} SumByPermutation<T>(a: seq<T>, b: seq<T>, values: T -> Totals)
    requires multiset(a) == multiset(b)
    ensures SumBy(a, values) == SumBy(b, values)
  {
    if a == [] {
      assert |b| == |multiset(b)| == 0;
    } else {
      var a' := a[..|a| - 1];
      var x := a[|a| - 1];
      assert a == a' + [x];
      assert x in multiset(b);
      var i :| 0 <= i < |b| && b[i] == x;
      var b' := RemoveAt(b, i);
      assert multiset(a') == multiset(b') by {
        assert b == (b[..i] + [x]) + b[i + 1..];
        assert b' == b[..i] + b[i + 1..];
        assert multiset(a) == multiset(a') + multiset{x};
        assert multiset(b) == multiset(b[..i]) + multiset{x} + multiset(b[i + 1..]);
        assert multiset(b') == multiset(b[..i]) + multiset(b[i + 1..]);
        assert multiset(a') == multiset(a) - multiset{x};
        assert multiset(b') == multiset(b) - multiset{x};
      }
      SumByPermutation(a', b', values);
      SumByAppend(a', x, values);
      SumByRemoveAt(b, i, values);
    }
  }

  /** Removing the first occurrence of an entry takes exactly its values off
      the totals. */
  lemma {:induction false} SumByRemoveFirst<T>(log: seq<T>, x: T, values: T -> Totals)
    requires x in log
    ensures SumBy(RemoveFirst(log, x), values) == Minus(SumBy(log, values), values(x))
  {
    SumByRemoveAt(log, IndexOf(log, x), values);
  }

  /** Entries with non-negative values give non-negative totals. */
  lemma {:induction false} SumByNonNegative<T>(log: seq<T>, values: T -> Totals)
    requires forall i :: 0 <= i < |log| ==> NonNegative(values(log[i]))
    ensures NonNegative(SumBy(log, values))
  {
    if log != [] {
      SumByNonNegative(log[..|log| - 1], values);
    }
  }

  /** The history after `ensureToday`: a missing day gets an empty list, and
      an existing list is never overwritten. */
  function EnsureDay<E>(history: map<string, seq<E>>, day: string): (r: map<string, seq<E>>)
    ensures day in r && r.Keys == history.Keys + {day}
    ensures day in history ==> r == history
    ensures day !in history ==> r[day] == [] && forall d :: d in history ==> r[d] == history[d]
  {
    if day in history then history else history[day := []]
  }

  /** Ensuring a day twice is ensuring it once. */
  lemma EnsureDayIdempotent<E>(history: map<string, seq<E>>, day: string)
    ensures EnsureDay(EnsureDay(history, day), day) == EnsureDay(history, day)
  {
  }
}
