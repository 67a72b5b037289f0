/** The registrations-per-slot graph: the per-day tally of morning and evening nominations over
    the window, and the width of the bar that shows one count. */
module Tally {
  import opened Domain

  /** The two counters of one day. */
  datatype SlotCount = SlotCount(morning: nat, evening: nat)

  /** The record names day `d` and slot `slot`. */
  predicate Matches(r: Nomination, d: int, slot: string) {
    r.selectedDate == Day(d) && r.selectedSlot == slot
  }

  /** The record lands in some bucket: its date is a day of the window, its slot one of the two. */
  predicate Counted(w: Window, r: Nomination) {
    r.selectedDate.Day? && w.first <= r.selectedDate.day <= w.last
    && (r.selectedSlot == MorningSlot || r.selectedSlot == EveningSlot)
  }

  /** How many of the records name day `d` and slot `slot`. */
  function CountSlot(recs: seq<Nomination>, d: int, slot: string): (n: nat)
    ensures n <= |recs|
  {
    if recs == [] then 0
    else CountSlot(recs[..|recs| - 1], d, slot) + (if Matches(recs[|recs| - 1], d, slot) then 1 else 0)
  }

  /** How many of the records land in some bucket. */
  function CountedCount(w: Window, recs: seq<Nomination>): (n: nat)
    ensures n <= |recs|
  {
    if recs == [] then 0
    else CountedCount(w, recs[..|recs| - 1]) + (if Counted(w, recs[|recs| - 1]) then 1 else 0)
  }

  /** The tally `getSlotCounts` is meant to produce: one bucket for each day of the window, holding
      the number of morning and of evening nominations for that day. */
  function Tally(w: Window, recs: seq<Nomination>): map<int, SlotCount> {
    map d | w.first <= d <= w.last :: SlotCount(CountSlot(recs, d, MorningSlot), CountSlot(recs, d, EveningSlot))
  }

  /** The number of days in the window. */
  function DayCount(w: Window): nat {
    if w.last < w.first then 0 else w.last - w.first + 1
  }

  /** `getSlotCounts`: list the window's days with an empty bucket each, then walk the records once
      and bump the bucket of every record whose date has one and whose slot is one of the two. */
  method GetSlotCounts(w: Window, registrationData: seq<Nomination>) returns (counts: map<int, SlotCount>, dates: seq<int>)
    ensures |dates| == DayCount(w)
    ensures forall i :: 0 <= i < |dates| ==> dates[i] == w.first + i && dates[i] in counts
    ensures counts == Tally(w, registrationData)
  {
    counts := map[];
    dates := [];
    var d := w.first;
    while d <= w.last
      invariant w.first <= d && (d <= w.last + 1 || d == w.first)
      invariant |dates| == d - w.first
      invariant forall i :: 0 <= i < |dates| ==> dates[i] == w.first + i
      invariant forall k :: k in counts <==> w.first <= k < d
      invariant forall k :: k in counts ==> counts[k] == SlotCount(0, 0)
      decreases w.last - d
    {
      dates := dates + [d];
      counts := counts[d := SlotCount(0, 0)];
      d := d + 1;
    }
    EmptyTally(w, counts);
    var i := 0;
    while i < |registrationData|
      invariant 0 <= i <= |registrationData|
      invariant counts == Tally(w, registrationData[..i])
    {
      var nomination := registrationData[i];
      TallyStep(w, registrationData[..i], nomination);
      var dateString := nomination.selectedDate;
      if dateString.Day? && dateString.day in counts {
        var c := counts[dateString.day];
        if nomination.selectedSlot == MorningSlot {
          counts := counts[dateString.day := SlotCount(c.morning + 1, c.evening)];
        } else if nomination.selectedSlot == EveningSlot {
          counts := counts[dateString.day := SlotCount(c.morning, c.evening + 1)];
        }
      }
      assert counts == Tally(w, registrationData[..i] + [nomination]);
      assert registrationData[..i + 1] == registrationData[..i] + [nomination];
      i := i + 1;
    }
    assert registrationData[..|registrationData|] == registrationData;
  }

  lemma SlotsDiffer()
    ensures MorningSlot != EveningSlot
  {
    assert MorningSlot[0] != EveningSlot[0];
  }

  /** Empty buckets for exactly the window's days are the tally of no records. */
  lemma EmptyTally(w: Window, counts: map<int, SlotCount>)
    requires forall k :: k in counts <==> w.first <= k <= w.last
    requires forall k :: k in counts ==> counts[k] == SlotCount(0, 0)
    ensures counts == Tally(w, [])
  {
    assert counts.Keys == Tally(w, []).Keys;
  }

  /** One more record: a record that lands in no bucket leaves the tally as it was; one that lands
      in a bucket adds one to that bucket's counter for its slot and changes nothing else. */
  lemma TallyStep(w: Window, recs: seq<Nomination>, r: Nomination)
    ensures !Counted(w, r) ==> Tally(w, recs + [r]) == Tally(w, recs)
    ensures Counted(w, r) ==>
              var t, d := Tally(w, recs), r.selectedDate.day;
              Tally(w, recs + [r])
              == t[d := if r.selectedSlot == MorningSlot then SlotCount(t[d].morning + 1, t[d].evening)
                        else SlotCount(t[d].morning, t[d].evening + 1)]
  {
    assert (recs + [r])[..|recs|] == recs;
    if Counted(w, r) {
      SlotsDiffer();
      var t, t', d := Tally(w, recs), Tally(w, recs + [r]), r.selectedDate.day;
      var u := t[d := if r.selectedSlot == MorningSlot then SlotCount(t[d].morning + 1, t[d].evening)
                      else SlotCount(t[d].morning, t[d].evening + 1)];
      forall k | k in t' ensures k in u && t'[k] == u[k] {
        if k != d {
          assert !Matches(r, k, MorningSlot) && !Matches(r, k, EveningSlot);
        }
      }
      assert t'.Keys == u.Keys;
    }
  }

  // ---------------------------------------------------------------------------------------------
  // Each counter is the number of matching records, wherever they stand in the list

  /** The positions of the records naming day `d` and slot `slot`. */
  function MatchingPositions(recs: seq<Nomination>, d: int, slot: string): set<int> {
    set i | 0 <= i < |recs| && Matches(recs[i], d, slot)
  }

  /** A counter equals the number of positions holding a matching record. */
  lemma {:induction false} CountSlotIsMatchingPositions(recs: seq<Nomination>, d: int, slot: string)
    ensures CountSlot(recs, d, slot) == |MatchingPositions(recs, d, slot)|
  {
    if recs != [] {
      var p, n := recs[..|recs| - 1], |recs| - 1;
      CountSlotIsMatchingPositions(p, d, slot);
      var s, s' := MatchingPositions(p, d, slot), MatchingPositions(recs, d, slot);
      if Matches(recs[n], d, slot) {
        assert s' == s + {n};
      } else {
        assert s' == s;
      }
    }
  }

  lemma {:induction false} CountSlotAppend(p: seq<Nomination>, q: seq<Nomination>, d: int, slot: string)
    ensures CountSlot(p + q, d, slot) == CountSlot(p, d, slot) + CountSlot(q, d, slot)
  {
    if q == [] {
      assert p + q == p;
    } else {
      var q' := q[..|q| - 1];
      CountSlotAppend(p, q', d, slot);
      assert (p + q)[..|p + q| - 1] == p + q';
    }
  }

  /** Taking out the record at position `j` takes its match, if any, out of the counter. */
  lemma CountSlotRemove(b: seq<Nomination>, j: nat, d: int, slot: string)
    requires j < |b|
    ensures CountSlot(b, d, slot)
            == CountSlot(b[..j] + b[j + 1..], d, slot) + (if Matches(b[j], d, slot) then 1 else 0)
  {
    assert b == b[..j] + [b[j]] + b[j + 1..];
    CountSlotAppend(b[..j] + [b[j]], b[j + 1..], d, slot);
    CountSlotAppend(b[..j], [b[j]], d, slot);
    CountSlotAppend(b[..j], b[j + 1..], d, slot);
    assert [b[j]][..0] == [];
  }

  /** Taking out the record at position `j` takes one copy of it out of the multiset. */
  lemma MultisetRemove(b: seq<Nomination>, j: nat)
    requires j < |b|
    ensures multiset(b[..j] + b[j + 1..]) == multiset(b) - multiset{b[j]}
  {
    assert b == b[..j] + [b[j]] + b[j + 1..];
    assert multiset(b) == multiset(b[..j]) + multiset{b[j]} + multiset(b[j + 1..]);
  }

  /** Reordering the records changes no counter. */
  lemma {:induction false} CountSlotPermutation(a: seq<Nomination>, b: seq<Nomination>, d: int, slot: string)
    requires multiset(a) == multiset(b)
    ensures CountSlot(a, d, slot) == CountSlot(b, d, slot)
    decreases |a|
  {
    if a == [] {
      assert |b| == |multiset(b)| == 0;
    } else {
      var x, a' := a[|a| - 1], a[..|a| - 1];
      assert x in multiset(b) by {
        assert a == a' + [x];
      }
      var j :| 0 <= j < |b| && b[j] == x;
      MultisetRemove(a, |a| - 1);
      MultisetRemove(b, j);
      assert a[..|a| - 1] + a[|a|..] == a';
      CountSlotPermutation(a', b[..j] + b[j + 1..], d, slot);
      CountSlotRemove(a, |a| - 1, d, slot);
      CountSlotRemove(b, j, d, slot);
    }
  }

  /** The tally does not depend on the order in which the records arrive. */
  lemma TallyPermutation(w: Window, a: seq<Nomination>, b: seq<Nomination>)
    requires multiset(a) == multiset(b)
    ensures Tally(w, a) == Tally(w, b)
  {
    forall d | w.first <= d <= w.last
      ensures CountSlot(a, d, MorningSlot) == CountSlot(b, d, MorningSlot)
      ensures CountSlot(a, d, EveningSlot) == CountSlot(b, d, EveningSlot)
    {
      CountSlotPermutation(a, b, d, MorningSlot);
      CountSlotPermutation(a, b, d, EveningSlot);
    }
  }

  // ---------------------------------------------------------------------------------------------
  // The counters add up to the number of records that land in a bucket

  /** Both counters of day `d`, or nothing for a day without a bucket. */
  function DayTotal(t: map<int, SlotCount>, d: int): nat {
    if d in t then t[d].morning + t[d].evening else 0
  }

  /** The sum of both counters over the days `lo` to `hi`. */
  function Total(t: map<int, SlotCount>, lo: int, hi: int): nat
    decreases hi - lo
  {
    if hi < lo then 0 else Total(t, lo, hi - 1) + DayTotal(t, hi)
  }

  lemma {:induction false} TotalOfEmpty(w: Window, lo: int, hi: int)
    ensures Total(Tally(w, []), lo, hi) == 0
    decreases hi - lo
  {
    if lo <= hi {
      TotalOfEmpty(w, lo, hi - 1);
    }
  }

  /** Adding one to a counter of a day in the range adds one to the range's total. */
  lemma {:induction false} TotalBump(t: map<int, SlotCount>, u: map<int, SlotCount>, d: int, lo: int, hi: int)
    requires d in t && d in u && u == t[d := u[d]] && DayTotal(u, d) == DayTotal(t, d) + 1
    ensures Total(u, lo, hi) == Total(t, lo, hi) + (if lo <= d <= hi then 1 else 0)
    decreases hi - lo
  {
    if lo <= hi {
      TotalBump(t, u, d, lo, hi - 1);
      if hi != d {
        assert DayTotal(u, hi) == DayTotal(t, hi);
      }
    }
  }

  /** Every record that lands in a bucket is counted exactly once, so the counters of the graph add
      up to at most the number of records. */
  lemma {:induction false} TallyTotal(w: Window, recs: seq<Nomination>)
    ensures Total(Tally(w, recs), w.first, w.last) == CountedCount(w, recs) <= |recs|
  {
    if recs == [] {
      TotalOfEmpty(w, w.first, w.last);
    } else {
      var p, r := recs[..|recs| - 1], recs[|recs| - 1];
      assert recs == p + [r];
      TallyTotal(w, p);
      TallyStep(w, p, r);
      if Counted(w, r) {
        TotalBump(Tally(w, p), Tally(w, recs), r.selectedDate.day, w.first, w.last);
      }
    }
  }

  // ---------------------------------------------------------------------------------------------
  // The bars

  /** `Math.min(100, count * 10)`: the width, in percent, of the bar that shows `count`. */
  function BarWidth(count: nat): (width: nat)
    ensures width <= 100
    ensures count <= 10 ==> width == 10 * count
    ensures count >= 10 ==> width == 100
  {
    if count * 10 < 100 then count * 10 else 100
  }

  /** A larger count never draws a shorter bar. */
  lemma BarWidthMonotone(c1: nat, c2: nat)
    requires c1 <= c2
    ensures BarWidth(c1) <= BarWidth(c2)
  {
    if c2 < 10 {
      assert 10 * c1 <= 10 * c2;
    }
  }
}
