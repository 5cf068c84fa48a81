/**
 Rate selection of the clock control state machine: table lookup by the C library's binary
 search with a comparator that narrows a 64-bit difference to int, rounding to a step in
 64-bit arithmetic, and derivation of the fallback rate.
 */
module Ccsm {
  import opened Status
  import opened Arithmetic

  const U32: int := 0x1_0000_0000
  const U64: int := 0x1_0000_0000_0000_0000
  const INT_LIMIT: int := 0x8000_0000

  type rate = x: int | 0 <= x < U64

  // ---- Lookup ----

  /** Conversion of a 64-bit unsigned value to int keeps the low 32 bits in two's complement. */
  function ToInt(x: int): int {
    var low := x % U32;
    if low < INT_LIMIT then low else low - U32
  }

  function Compare(key: rate, element: rate): int { ToInt((key - element) % U64) }

  predicate ComparesRight(key: rate, element: rate) {
    && (Compare(key, element) < 0 <==> key < element)
    && (Compare(key, element) == 0 <==> key == element)
  }

  predicate Within(key: rate, element: rate, d: nat) { key <= element + d && element <= key + d }

  lemma NearCompares(key: rate, element: rate)
    requires Within(key, element, INT_LIMIT - 1)
    ensures ComparesRight(key, element)
  {
    if key < element {
      assert (key - element) % U64 == U64 + (key - element);
    }
  }

  /** The comparator can be trusted up to a distance exactly when that distance is below 2^31. */
  lemma ComparatorIff(d: nat)
    ensures (forall key: rate, element: rate :: Within(key, element, d) ==> ComparesRight(key, element)) <==> d < INT_LIMIT
  {
    if d < INT_LIMIT {
      forall key: rate, element: rate | Within(key, element, d)
        ensures ComparesRight(key, element)
      {
        NearCompares(key, element);
      }
    } else {
      var key: rate, element: rate := INT_LIMIT, 0;
      assert Within(key, element, d) && !ComparesRight(key, element);
    }
  }

  predicate Sorted(s: seq<rate>) { forall i, j :: 0 <= i < j < |s| ==> s[i] <= s[j] }

  predicate Near(s: seq<rate>, key: rate) { forall i :: 0 <= i < |s| ==> Within(key, s[i], INT_LIMIT - 1) }

  /**
   The library's search, with any choice of probe in the remaining range. A hit always agrees with
   the key in its low 32 bits; in a sorted table near the key the search finds exactly what is there.
   */
  method Bsearch(s: seq<rate>, key: rate) returns (r: Option<nat>)
    ensures r.Some? ==> r.value < |s| && s[r.value] % U32 == key % U32
    ensures Sorted(s) && Near(s, key) ==> (r.Some? <==> key in s) && (r.Some? ==> s[r.value] == key)
  {
    var lo, hi := 0, |s|;
    ghost var good := Sorted(s) && Near(s, key);
    while lo < hi
      invariant 0 <= lo <= hi <= |s|
      invariant good ==> forall i :: 0 <= i < lo || hi <= i < |s| ==> s[i] != key
    {
      var mid :| lo <= mid < hi;
      var c := Compare(key, s[mid]);
      if good {
        NearCompares(key, s[mid]);
      }
      if c == 0 {
        LowBits(key, s[mid]);
        return Some(mid);
      } else if c < 0 {
        hi := mid;
      } else {
        lo := mid + 1;
      }
    }
    return None;
  }

  lemma LowBits(key: rate, element: rate)
    requires Compare(key, element) == 0
    ensures key % U32 == element % U32
  {
  }

  /** Far from the key, an entry 2^32 away is taken for it. */
  lemma FalseHit(key: rate)
    requires key + U32 < U64
    ensures Compare(key, key + U32) == 0 && key != key + U32
  {
  }

  // ---- Rounding ----

  predicate IsMultiple(x: int, step: rate)
    requires step > 0
  {
    x % step == 0
  }

  ghost predicate IsFloor(x: int, r: rate, step: rate)
    requires step > 0
  {
    IsMultiple(x, step) && x <= r && forall y: int :: IsMultiple(y, step) && y <= r ==> y <= x
  }

  ghost predicate IsCeiling(x: int, r: rate, step: rate)
    requires step > 0
  {
    IsMultiple(x, step) && x >= r && forall y: int :: IsMultiple(y, step) && y >= r ==> y >= x
  }

  function Distance(x: int, y: int): int { if x < y then y - x else x - y }

  /** The closest multiple, the lower one of two. */
  ghost predicate IsNearest(x: int, r: rate, step: rate)
    requires step > 0
  {
    && IsMultiple(x, step)
    && forall y: int :: IsMultiple(y, step) ==> Distance(x, r) < Distance(y, r) || (Distance(x, r) == Distance(y, r) && x <= y)
  }

  function AlignPrevious(r: rate, step: rate): rate
    requires step > 0
  {
    DivMod(r, step);
    r / step * step
  }

  function AlignNext(r: rate, step: rate): rate
    requires step > 0
  {
    var sum := (r + step - 1) % U64;
    DivMod(sum, step);
    sum / step * step
  }

  function RoundNearest(r: rate, step: rate): rate
    requires step > 0
  {
    var down, up := AlignPrevious(r, step), AlignNext(r, step);
    if r - down > (up - r) % U64 then up else down
  }

  /** The floor of a rate, by how close it is below. */
  lemma FloorIs(x: int, r: rate, step: rate)
    requires step > 0 && IsMultiple(x, step)
    ensures IsFloor(x, r, step) <==> x <= r < x + step
    ensures IsCeiling(x, r, step) <==> x - step < r <= x
  {
    Shift(x, step);
    assert IsMultiple(x + step, step) && IsMultiple(x - step, step);
    forall y: int | IsMultiple(y, step)
      ensures y < x ==> y + step <= x
      ensures y > x ==> y >= x + step
    {
      if y < x {
        MultiplesApart(y, x, step);
      } else if y > x {
        MultiplesApart(x, y, step);
      }
    }
  }

  lemma DownIsFloor(r: rate, step: rate)
    requires step > 0
    ensures IsFloor(AlignPrevious(r, step), r, step)
  {
    DivMod(r, step);
    Multiple(r / step, step);
    FloorIs(AlignPrevious(r, step), r, step);
  }

  /** Rounding up gives the ceiling if and only if the sum before the division fits in 64 bits. */
  lemma UpIff(r: rate, step: rate)
    requires step > 0
    ensures IsCeiling(AlignNext(r, step), r, step) <==> r + step - 1 < U64
    ensures r + step - 1 >= U64 ==> AlignNext(r, step) == 0
  {
    var sum := (r + step - 1) % U64;
    DivMod(sum, step);
    Multiple(sum / step, step);
    FloorIs(AlignNext(r, step), r, step);
    if r + step - 1 >= U64 {
      assert sum == r + step - 1 - U64 < step;
      assert sum / step == 0;
    }
  }

  /** The nearest multiple is the floor or the ceiling. */
  lemma NearestIs(low: int, r: rate, step: rate)
    requires step > 0 && IsFloor(low, r, step)
    ensures IsNearest(low, r, step) <==> 2 * (r - low) <= step
    ensures IsNearest(low + step, r, step) <==> 2 * (r - low) > step
    ensures forall x: int :: x != low && x != low + step ==> !IsNearest(x, r, step)
  {
    FloorIs(low, r, step);
    Shift(low, step);
    assert IsMultiple(low + step, step) && IsMultiple(low, step);
    forall y: int | IsMultiple(y, step)
      ensures y == low || y == low + step || y <= low - step || y >= low + step + step
    {
      if y < low {
        MultiplesApart(y, low, step);
      } else if low < y {
        MultiplesApart(low, y, step);
        if low + step < y {
          MultiplesApart(low + step, y, step);
        }
      }
    }
  }

  /** When the sum wraps, the way up counts as the way to 2^64, and up is zero. */
  predicate NearestHolds(r: rate, step: rate)
    requires step > 0
  {
    r + step - 1 < U64 || (r % step <= U64 - r && 2 * (r % step) <= step)
  }

  /** Rounding gives the nearest multiple, ties down, if and only if the sum fits or the way down is short. */
  lemma NearestIff(r: rate, step: rate)
    requires step > 0
    ensures IsNearest(RoundNearest(r, step), r, step) <==> NearestHolds(r, step)
  {
    hide AlignNext, IsNearest;
    var low, up := AlignPrevious(r, step), AlignNext(r, step);
    DivMod(r, step);
    assert low == r - r % step;
    hide AlignPrevious;
    DownIsFloor(r, step);
    UpIff(r, step);
    NearestIs(low, r, step);
    FloorIs(low, r, step);
    if r + step - 1 >= U64 {
      WrappedUp(r, step);
    } else if low != r {
      UpIsNext(low, up, r, step);
    } else {
      FloorIs(up, r, step);
      UpOfMultiple(r, up, step);
    }
  }

  /** The highest rate, to be rounded to a multiple of ten, becomes zero. */
  lemma NearestWraps()
    ensures RoundNearest(U64 - 1, 10) == 0 && !IsNearest(0, U64 - 1, 10)
  {
    NearestIff(U64 - 1, 10);
    WrappedUp(U64 - 1, 10);
  }

  /** After a wrapped sum the way up is zero, taken when the way down is longer than the way to 2^64. */
  lemma WrappedUp(r: rate, step: rate)
    requires step > 0 && r + step - 1 >= U64
    ensures var low := AlignPrevious(r, step);
      RoundNearest(r, step) == if r - low > U64 - r then 0 else low
  {
    UpIff(r, step);
    assert AlignNext(r, step) == 0 && r > 0;
    BelowZero(r);
  }

  lemma BelowZero(r: rate)
    requires r > 0
    ensures (0 - r) % U64 == U64 - r
  {
  }

  lemma UpOfMultiple(r: rate, up: int, step: rate)
    requires step > 0 && IsMultiple(r, step) && IsCeiling(up, r, step)
    ensures up == r
  {
  }

  lemma UpIsNext(low: int, up: int, r: rate, step: rate)
    requires step > 0 && IsFloor(low, r, step) && IsCeiling(up, r, step) && low != r
    ensures up == low + step
  {
    FloorIs(low, r, step);
    FloorIs(up, r, step);
    MultiplesApart(low, up, step);
    Shift(low, step);
    assert IsMultiple(low + step, step);
  }

  // ---- Selection ----

  datatype Mode = Unrounded | Nearest | Down | Up | OtherMode

  /** The status and the rate after rounding. */
  function GetRoundedRate(r: rate, step: rate, mode: Mode): (int, rate)
    requires step > 0
  {
    if r % step == 0 then (SUCCESS, r)
    else match mode
      case Unrounded => (E_RANGE, r)
      case Nearest => (SUCCESS, RoundNearest(r, step))
      case Down => (SUCCESS, AlignPrevious(r, step))
      case Up => (SUCCESS, AlignNext(r, step))
      case OtherMode => (E_SUPPORT, r)
  }

  /** What each mode promises of the rounded rate. */
  ghost predicate RoundedAs(x: rate, r: rate, step: rate, mode: Mode)
    requires step > 0
  {
    match mode
    case Unrounded => x == r && IsMultiple(r, step)
    case Nearest => IsNearest(x, r, step)
    case Down => IsFloor(x, r, step)
    case Up => IsCeiling(x, r, step)
    case OtherMode => x == r && IsMultiple(r, step)
  }

  /** Rounding overflows only upward, for a rate that is not a multiple. */
  predicate NoOverflow(r: rate, step: rate, mode: Mode)
    requires step > 0
  {
    || IsMultiple(r, step)
    || match mode
       case Nearest => NearestHolds(r, step)
       case Up => r + step - 1 < U64
       case _ => true
  }

  /** Rounding always gives a multiple, and the promised one if and only if it does not overflow. */
  lemma RoundingIff(r: rate, step: rate, mode: Mode)
    requires step > 0
    ensures var (status, x) := GetRoundedRate(r, step, mode);
      && (status == SUCCESS <==> IsMultiple(r, step) || mode in {Nearest, Down, Up})
      && (status == SUCCESS ==> IsMultiple(x, step) && (RoundedAs(x, r, step, mode) <==> NoOverflow(r, step, mode)))
      && (status != SUCCESS ==> x == r && status == if mode == Unrounded then E_RANGE else E_SUPPORT)
  {
    DivMod(r, step);
    Multiple(r / step, step);
    var sum := (r + step - 1) % U64;
    Multiple(sum / step, step);
    if IsMultiple(r, step) {
      FloorIs(r, r, step);
      NearestIs(r, r, step);
    } else {
      DownIsFloor(r, step);
      UpIff(r, step);
      NearestIff(r, step);
    }
  }

  /** A table entry. */
  datatype Rates = Rates(nominal: rate, fallback: rate)

  datatype Config = Config(
    table: Option<seq<Rates>>, min: rate, max: rate, step: rate, threshold: rate, percentage: nat)

  predicate IsConfig(c: Config) { c.step > 0 && c.percentage < 256 }

  function Keys(table: seq<Rates>): (keys: seq<rate>)
    ensures |keys| == |table|
  {
    seq(|table|, i requires 0 <= i < |table| => table[i].nominal)
  }

  function RateEntryStatus(c: Config, x: Rates): int {
    if x.nominal > c.max || x.nominal < c.min || (x.fallback > 0 && x.fallback < c.min) then E_SUPPORT else SUCCESS
  }

  /** The fallback as a percentage of the nominal rate, in 64 bits, above a threshold. */
  function Derived(c: Config, nominal: rate): rate {
    if nominal >= c.threshold then (c.percentage * (nominal / 100)) % U64 else 0
  }

  method GetIndexedRates(table: seq<Rates>, target: rate) returns (status: int, entry: Rates)
    ensures status == SUCCESS || status == E_PARAM
    ensures status == SUCCESS ==> entry in table && entry.nominal % U32 == target % U32
    ensures Sorted(Keys(table)) && Near(Keys(table), target) ==>
      && (status == SUCCESS <==> exists e :: e in table && e.nominal == target)
      && (status == SUCCESS ==> entry.nominal == target)
  {
    var keys := Keys(table);
    assert forall i :: 0 <= i < |table| ==> keys[i] == table[i].nominal;
    var at := Bsearch(keys, target);
    match at {
      case None =>
        return E_PARAM, Rates(0, 0);
      case Some(i) =>
        return SUCCESS, table[i];
    }
  }

  /**
   What a selection from the chosen nominal rate and fallback gives: the rounded nominal, the
   greatest step multiple not above the fallback, and success exactly when the nominal is in
   range and the fallback is zero or at least the minimum.
   */
  ghost predicate Selected(c: Config, chosen: rate, fallback: rate, mode: Mode, status: int, x: Rates)
    requires IsConfig(c)
  {
    var (rounded, nominal) := GetRoundedRate(chosen, c.step, mode);
    if rounded != SUCCESS then status == rounded
    else
      && x.nominal == nominal && IsMultiple(nominal, c.step)
      && (RoundedAs(nominal, chosen, c.step, mode) <==> NoOverflow(chosen, c.step, mode))
      && IsFloor(x.fallback, fallback, c.step)
      && status == if c.min <= x.nominal <= c.max && (x.fallback == 0 || c.min <= x.fallback) then SUCCESS else E_SUPPORT
  }

  /** The fallback is the greatest step multiple not above the percentage, if and only if the product fits 64 bits. */
  lemma PercentageIff(c: Config, nominal: rate, fallback: rate)
    requires IsConfig(c) && IsFloor(fallback, Derived(c, nominal), c.step)
    ensures nominal < c.threshold ==> fallback == 0
    ensures nominal >= c.threshold ==>
      var product := c.percentage * (nominal / 100);
      fallback <= product < fallback + c.step <==> product < U64
    ensures c.percentage <= 100 ==> fallback <= nominal
  {
    FloorIs(fallback, Derived(c, nominal), c.step);
    var product := c.percentage * (nominal / 100);
    assert product >= 0;
    if product >= U64 {
      assert product % U64 <= product - U64;
    }
    if nominal < c.threshold {
      FloorIs(0, 0, c.step);
    }
    if c.percentage <= 100 {
      PercentageBelow(c, nominal);
    }
  }

  /** Selects the nominal and fallback rates for a requested rate. */
  method SelectRates(c: Config, requested: rate, mode: Mode) returns (status: int, x: Rates)
    requires IsConfig(c)
    ensures c.table.None? ==>
      var fallback := if x.nominal < c.threshold then 0 else (c.percentage * (x.nominal / 100)) % U64;
      Selected(c, requested, fallback, mode, status, x)
    ensures c.table.None? && GetRoundedRate(requested, c.step, mode).0 == SUCCESS ==>
      var product := c.percentage * (x.nominal / 100);
      && (x.nominal < c.threshold ==> x.fallback == 0)
      && (x.nominal >= c.threshold ==> (x.fallback <= product < x.fallback + c.step <==> product < U64))
      && (c.percentage <= 100 ==> x.fallback <= x.nominal)
    ensures c.table.Some? ==>
      status == E_PARAM
      || exists e :: e in c.table.value && e.nominal % U32 == requested % U32 && Selected(c, e.nominal, e.fallback, mode, status, x)
    ensures c.table.Some? && Sorted(Keys(c.table.value)) && Near(Keys(c.table.value), requested) ==>
      if exists e :: e in c.table.value && e.nominal == requested
      then exists e :: e in c.table.value && e.nominal == requested && Selected(c, e.nominal, e.fallback, mode, status, x)
      else status == E_PARAM
  {
    x := Rates(requested, 0);
    if c.table.Some? {
      status, x := GetIndexedRates(c.table.value, requested);
      if status != SUCCESS {
        return;
      }
    }
    ghost var entry := x;
    var (rounded, nominal) := GetRoundedRate(x.nominal, c.step, mode);
    RoundingIff(x.nominal, c.step, mode);
    status, x := rounded, x.(nominal := nominal);
    if status != SUCCESS {
      assert Selected(c, entry.nominal, entry.fallback, mode, status, x);
      return;
    }
    if c.table.None? {
      x := x.(fallback := Derived(c, x.nominal));
    }
    ghost var before := x.fallback;
    RoundingIff(x.fallback, c.step, Down);
    PreviousOfMultiple(x.fallback, c.step);
    var (again, fallback) := GetRoundedRate(x.fallback, c.step, Down);
    x := x.(fallback := fallback);
    assert IsFloor(x.fallback, before, c.step);
    status := RateEntryStatus(c, x);
    assert Selected(c, entry.nominal, before, mode, status, x);
    if c.table.None? {
      PercentageIff(c, x.nominal, x.fallback);
    }
  }

  lemma PreviousOfMultiple(r: rate, step: rate)
    requires step > 0
    ensures r % step == 0 ==> AlignPrevious(r, step) == r
    ensures AlignPrevious(r, step) <= r
  {
    DivMod(r, step);
  }

  lemma PercentageBelow(c: Config, nominal: rate)
    requires c.percentage <= 100
    ensures Derived(c, nominal) <= nominal
  {
    var h := nominal / 100;
    assert c.percentage * h <= 100 * h <= nominal;
    assert 0 <= c.percentage * h < U64;
  }
}
