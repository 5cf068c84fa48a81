/**
 The address translation unit: a table of slots, some enabled before the driver starts, that
 map ranges of 32-bit logical addresses to physical ones. Owners add and remove regions.
 */
module Atu {
  import opened Status
  import opened Counting
  import Arithmetic

  const WORD: int := 0x1_0000_0000
  const DWORD: int := 0x1_0000_0000_0000_0000

  datatype Owner = NoOwner | Entity(id: nat)

  datatype Region = Region(logical: nat, physical: nat, size: nat, attributes: nat, owner: Owner)

  const Blank := Region(0, 0, 0, 0, NoOwner)

  /** The registers of one slot. */
  datatype Slot = Slot(start: nat, end: nat, addLow: nat, addHigh: nat, bus: nat)

  /** Slots are enabled in the configuration register; the rest but the registers is the driver's table. */
  datatype Unit = Unit(enabled: seq<bool>, owners: seq<Owner>, regions: seq<Region>, slots: seq<Slot>, count: nat)

  /** A page size and a number of slots, read from the build configuration register. */
  datatype Config = Config(page: nat, max: nat)

  predicate IsConfig(c: Config) {
    && c.page in {0x1000, 0x2000, 0x4000}
    && 0 < c.max <= 32
  }

  predicate Typed(r: Region) { r.logical < WORD && r.size < WORD && r.physical < DWORD }

  predicate Sized(c: Config, u: Unit) { |u.enabled| == |u.owners| == |u.regions| == |u.slots| == c.max }

  // ---- What is checked ----

  predicate Aligned(c: Config, r: Region)
    requires c.page > 0
  {
    r.physical % c.page == 0 && r.logical % c.page == 0 && r.size % c.page == 0
  }

  /** The last address of a region, in 32 bits. */
  function LastAddress(r: Region): nat { (r.logical + r.size - 1) % WORD }

  /** The overlap test: only the new region's start is compared. */
  predicate StartsInside(r: Region, active: Region) { active.logical <= r.logical <= LastAddress(active) }

  /** A slot whose region the driver knows. */
  predicate Known(u: Unit, i: nat)
    requires i < |u.enabled| && i < |u.regions|
  {
    u.enabled[i] && u.regions[i].size != 0
  }

  predicate Clashes(c: Config, u: Unit, r: Region)
    requires Sized(c, u)
  {
    exists i: nat :: i < c.max && Known(u, i) && StartsInside(r, u.regions[i])
  }

  function ValidateStatus(c: Config, u: Unit, r: Region): int
    requires IsConfig(c) && Sized(c, u)
  {
    if !Aligned(c, r) then E_ALIGN else if Clashes(c, u, r) then E_SUPPORT else SUCCESS
  }

  /** The first disabled slot, or the number of slots. */
  function FirstFree(enabled: seq<bool>): (i: nat)
    ensures i <= |enabled| && (i < |enabled| ==> !enabled[i]) && forall k :: 0 <= k < i ==> enabled[k]
  {
    if enabled == [] || !enabled[0] then 0 else 1 + FirstFree(enabled[1..])
  }

  // ---- Operations ----

  /** The registers that map a region. */
  function Programmed(c: Config, r: Region): Slot
    requires IsConfig(c)
  {
    var start := r.logical / c.page;
    var add := (r.physical / c.page - start) % DWORD;
    Slot(start, LastAddress(r) / c.page, add % WORD, add / WORD, r.attributes % 0x1_0000)
  }

  function AddStatus(c: Config, u: Unit, r: Region, attributesOk: bool): int
    requires IsConfig(c) && Sized(c, u)
  {
    if !attributesOk then E_PARAM
    else if ValidateStatus(c, u, r) != SUCCESS then ValidateStatus(c, u, r)
    else if FirstFree(u.enabled) == c.max then E_SUPPORT
    else SUCCESS
  }

  function Filled(c: Config, u: Unit, i: nat, r: Region): Unit
    requires IsConfig(c) && Sized(c, u) && i < c.max
  {
    Unit(u.enabled[i := true], u.owners[i := r.owner], u.regions[i := r], u.slots[i := Programmed(c, r)],
         (u.count + 1) % 256)
  }

  function Added(c: Config, u: Unit, r: Region, attributesOk: bool): Unit
    requires IsConfig(c) && Sized(c, u)
  {
    if AddStatus(c, u, r, attributesOk) == SUCCESS then Filled(c, u, FirstFree(u.enabled), r) else u
  }

  /** When an add succeeds, and the slot it fills. */
  ghost predicate AddOutcome(c: Config, u: Unit, r: Region, attributesOk: bool, t: Unit, status: int)
    requires IsConfig(c) && Sized(c, u)
  {
    && Sized(c, t)
    && status ==
         (if !attributesOk then E_PARAM
          else if r.logical % c.page != 0 || r.physical % c.page != 0 || r.size % c.page != 0 then E_ALIGN
          else if exists k :: 0 <= k < c.max && u.enabled[k] && u.regions[k].size != 0 && StartsInside(r, u.regions[k]) then E_SUPPORT
          else if forall k :: 0 <= k < c.max ==> u.enabled[k] then E_SUPPORT
          else SUCCESS)
    && (status != SUCCESS ==> t == u)
    && (status == SUCCESS ==>
          exists i :: 0 <= i < c.max && !u.enabled[i] && (forall k :: 0 <= k < i ==> u.enabled[k])
                   && t.enabled == u.enabled[i := true] && t.owners == u.owners[i := r.owner] && t.regions == u.regions[i := r]
                   && t.slots == u.slots[i := t.slots[i]] && t.slots[i].bus == r.attributes % 0x1_0000
                   && t.count == (u.count + 1) % 256)
  }

  lemma AddedIs(c: Config, u: Unit, r: Region, attributesOk: bool)
    requires IsConfig(c) && Sized(c, u)
    ensures AddOutcome(c, u, r, attributesOk, Added(c, u, r, attributesOk), AddStatus(c, u, r, attributesOk))
  {
    if AddStatus(c, u, r, attributesOk) == SUCCESS {
      assert !u.enabled[FirstFree(u.enabled)];
    } else if exists k :: 0 <= k < c.max && !u.enabled[k] {
      var k :| 0 <= k < c.max && !u.enabled[k];
      assert FirstFree(u.enabled) <= k;
    }
  }

  function RemoveStatus(c: Config, u: Unit, i: nat, requester: Owner): int
    requires Sized(c, u)
  {
    if i >= c.max || requester == NoOwner then E_PARAM
    else if u.owners[i] != requester then E_ACCESS
    else SUCCESS
  }

  function Removed(c: Config, u: Unit, i: nat, requester: Owner): Unit
    requires Sized(c, u)
  {
    if RemoveStatus(c, u, i, requester) != SUCCESS then u
    else if !u.enabled[i] then u.(owners := u.owners[i := NoOwner], regions := u.regions[i := Blank])
    else u.(enabled := u.enabled[i := false], owners := u.owners[i := NoOwner], regions := u.regions[i := Blank],
            count := (u.count - 1) % 256)
  }

  // ---- Bookkeeping ----

  function Owned(owners: seq<Owner>): nat {
    if owners == [] then 0 else Owned(owners[..|owners| - 1]) + (if owners[|owners| - 1] == NoOwner then 0 else 1)
  }

  /**
   Enable bits, owners, saved regions and count agree; the slots in outside were enabled before
   the driver and are never its own.
   */
  ghost predicate Slotted(c: Config, u: Unit, outside: set<nat>, i: nat)
    requires IsConfig(c) && Sized(c, u) && i < c.max
  {
    if u.owners[i] == NoOwner then u.regions[i] == Blank && (u.enabled[i] <==> i in outside)
    else
      && u.enabled[i] && i !in outside
      && Typed(u.regions[i]) && Aligned(c, u.regions[i]) && u.regions[i].owner == u.owners[i]
      && u.slots[i] == Programmed(c, u.regions[i])
  }

  ghost predicate Inv(c: Config, u: Unit, outside: set<nat>)
    requires IsConfig(c)
  {
    && Sized(c, u)
    && (forall i: nat :: i < c.max ==> Slotted(c, u, outside, i))
    && u.count == Owned(u.owners)
  }

  lemma {:induction false} OwnedUpdate(owners: seq<Owner>, i: nat, o: Owner)
    requires i < |owners|
    ensures Owned(owners[i := o]) == Owned(owners) - (if owners[i] == NoOwner then 0 else 1) + (if o == NoOwner then 0 else 1)
  {
    var n := |owners| - 1;
    if i == n {
      assert owners[i := o][..n] == owners[..n];
    } else {
      OwnedUpdate(owners[..n], i, o);
      assert owners[i := o][..n] == owners[..n][i := o];
    }
  }

  lemma {:induction false} OwnedBound(owners: seq<Owner>)
    ensures Owned(owners) <= |owners|
    ensures (exists i :: 0 <= i < |owners| && owners[i] == NoOwner) ==> Owned(owners) < |owners|
    ensures (exists i :: 0 <= i < |owners| && owners[i] != NoOwner) ==> Owned(owners) > 0
  {
    if owners != [] {
      OwnedBound(owners[..|owners| - 1]);
    }
  }

  lemma AddKeeps(c: Config, u: Unit, outside: set<nat>, r: Region, attributesOk: bool)
    requires IsConfig(c) && Inv(c, u, outside) && Typed(r) && r.owner != NoOwner
    ensures Inv(c, Added(c, u, r, attributesOk), outside)
  {
    hide Programmed, Owned;
    if AddStatus(c, u, r, attributesOk) == SUCCESS {
      var i, t := FirstFree(u.enabled), Added(c, u, r, attributesOk);
      assert Slotted(c, u, outside, i);
      OwnedUpdate(u.owners, i, r.owner);
      OwnedBound(u.owners);
      forall k: nat | k < c.max
        ensures Slotted(c, t, outside, k)
      {
        assert Slotted(c, u, outside, k);
      }
    }
  }

  /** The owner is not checked: a region added without one leaves a slot that nobody can remove. */
  lemma OwnerIff(c: Config, u: Unit, outside: set<nat>, r: Region)
    requires IsConfig(c) && Inv(c, u, outside) && Typed(r) && AddStatus(c, u, r, true) == SUCCESS
    ensures Inv(c, Added(c, u, r, true), outside) <==> r.owner != NoOwner
    ensures r.owner == NoOwner ==> forall who :: RemoveStatus(c, Added(c, u, r, true), FirstFree(u.enabled), who) != SUCCESS
  {
    if r.owner != NoOwner {
      AddKeeps(c, u, outside, r, true);
    } else {
      var i := FirstFree(u.enabled);
      assert Slotted(c, u, outside, i);
      assert !Slotted(c, Added(c, u, r, true), outside, i);
    }
  }

  /** A page added without an owner right after boot. */
  lemma OwnerlessAdded()
    ensures var c, r := Config(0x1000, 1), Region(0, 0, 0x1000, 0, NoOwner);
      var u := Boot(c, {}, [Slot(0, 0, 0, 0, 0)]);
      && AddStatus(c, u, r, true) == SUCCESS && !Inv(c, Added(c, u, r, true), {})
      && forall who :: RemoveStatus(c, Added(c, u, r, true), 0, who) != SUCCESS
  {
    var c, r := Config(0x1000, 1), Region(0, 0, 0x1000, 0, NoOwner);
    var u := Boot(c, {}, [Slot(0, 0, 0, 0, 0)]);
    assert u.enabled == [false];
    assert !Slotted(c, Added(c, u, r, true), {}, 0);
  }

  lemma RemoveKeeps(c: Config, u: Unit, outside: set<nat>, i: nat, requester: Owner)
    requires IsConfig(c) && Inv(c, u, outside)
    ensures Inv(c, Removed(c, u, i, requester), outside)
  {
    hide Programmed, Aligned, Owned;
    if RemoveStatus(c, u, i, requester) == SUCCESS {
      var t := Removed(c, u, i, requester);
      assert Slotted(c, u, outside, i);
      OwnedUpdate(u.owners, i, NoOwner);
      OwnedBound(u.owners);
      forall k: nat | k < c.max
        ensures Slotted(c, t, outside, k)
      {
        assert Slotted(c, u, outside, k);
      }
    }
  }

  datatype Op = Add(region: Region, attributesOk: bool) | Remove(slot: nat, requester: Owner)

  /** Regions have an owner and fit their C types. */
  predicate Legal(op: Op) { op.Add? ==> Typed(op.region) && op.region.owner != NoOwner }

  function Exec(c: Config, u: Unit, op: Op): (t: Unit)
    requires IsConfig(c) && Sized(c, u)
    ensures Sized(c, t)
  {
    match op
    case Add(r, ok) => Added(c, u, r, ok)
    case Remove(i, requester) => Removed(c, u, i, requester)
  }

  function Run(c: Config, u: Unit, ops: seq<Op>): (t: Unit)
    requires IsConfig(c) && Sized(c, u)
    ensures Sized(c, t)
    decreases |ops|
  {
    if ops == [] then u else Run(c, Exec(c, u, ops[0]), ops[1..])
  }

  /** The driver's table at the start, with the slots in outside enabled by someone else. */
  function Boot(c: Config, outside: set<nat>, slots: seq<Slot>): Unit {
    Unit(seq(c.max, i requires i >= 0 => i in outside), seq(c.max, i => NoOwner), seq(c.max, i => Blank), slots, 0)
  }

  lemma {:induction false} NoneOwned(n: nat)
    ensures Owned(seq(n, i => NoOwner)) == 0
  {
    if n > 0 {
      NoneOwned(n - 1);
      assert seq(n, i => NoOwner)[..n - 1] == seq(n - 1, i => NoOwner);
    }
  }

  lemma {:induction false} RunKeeps(c: Config, u: Unit, outside: set<nat>, ops: seq<Op>)
    requires IsConfig(c) && Inv(c, u, outside) && forall op <- ops :: Legal(op)
    ensures Inv(c, Run(c, u, ops), outside)
    decreases |ops|
  {
    if ops != [] {
      assert Legal(ops[0]);
      match ops[0] {
        case Add(r, ok) => AddKeeps(c, u, outside, r, ok);
        case Remove(i, requester) => RemoveKeeps(c, u, outside, i, requester);
      }
      RunKeeps(c, Exec(c, u, ops[0]), outside, ops[1..]);
    }
  }

  /** Over every run of adds and removes, the tables agree and slots enabled elsewhere are left alone. */
  lemma EveryRunIsConsistent(c: Config, outside: set<nat>, slots: seq<Slot>, ops: seq<Op>)
    requires IsConfig(c) && |slots| == c.max && forall op <- ops :: Legal(op)
    ensures var u := Run(c, Boot(c, outside, slots), ops);
      && Inv(c, u, outside)
      && forall i: nat :: i < c.max && i in outside ==> u.enabled[i] && u.owners[i] == NoOwner && u.regions[i] == Blank
  {
    NoneOwned(c.max);
    RunKeeps(c, Boot(c, outside, slots), outside, ops);
    var u := Run(c, Boot(c, outside, slots), ops);
    forall i: nat | i < c.max && i in outside
      ensures u.enabled[i] && u.owners[i] == NoOwner && u.regions[i] == Blank
    {
      assert Slotted(c, u, outside, i);
    }
  }

  /** Slot i holds a region of its owner, and carries the low 16 bits of that region's attributes on the bus. */
  ghost predicate Attributed(u: Unit, i: nat)
    requires i < |u.slots| && i < |u.regions| && i < |u.owners|
  {
    u.regions[i].owner == u.owners[i] && u.slots[i].bus == u.regions[i].attributes % 0x1_0000
  }

  /** An owned slot at the end of a run is as at its beginning, or its region was added in the run. */
  lemma {:induction false} RunAdds(c: Config, u: Unit, outside: set<nat>, ops: seq<Op>, i: nat)
    requires IsConfig(c) && Inv(c, u, outside) && i < c.max && forall op <- ops :: Legal(op)
    ensures var t := Run(c, u, ops);
      t.owners[i] == NoOwner || (t.owners[i] == u.owners[i] && t.regions[i] == u.regions[i]) || Add(t.regions[i], true) in ops
    decreases |ops|
  {
    if ops != [] {
      assert Legal(ops[0]);
      RunKeeps(c, u, outside, ops[..1]);
      assert Run(c, u, ops[..1]) == Exec(c, u, ops[0]);
      RunAdds(c, Exec(c, u, ops[0]), outside, ops[1..], i);
    }
  }

  /** In every state of every run an owned slot holds what its owner added, with its bus attributes. */
  lemma EverySlotIsAdded(c: Config, outside: set<nat>, slots: seq<Slot>, ops: seq<Op>, i: nat)
    requires IsConfig(c) && |slots| == c.max && i < c.max && forall op <- ops :: Legal(op)
    ensures var u := Run(c, Boot(c, outside, slots), ops);
      u.owners[i] != NoOwner ==> Attributed(u, i) && Add(u.regions[i], true) in ops
  {
    NoneOwned(c.max);
    EveryRunIsConsistent(c, outside, slots, ops);
    RunKeeps(c, Boot(c, outside, slots), outside, []);
    RunAdds(c, Boot(c, outside, slots), outside, ops, i);
    var u := Run(c, Boot(c, outside, slots), ops);
    assert Slotted(c, u, outside, i);
  }

  /** A slot passes out of its owner's hands, or changes at all, only by that owner's removal. */
  lemma OnlyTheOwnerFrees(c: Config, u: Unit, outside: set<nat>, op: Op, i: nat)
    requires IsConfig(c) && Inv(c, u, outside) && i < c.max && u.owners[i] != NoOwner
    ensures var t := Exec(c, u, op);
      if op == Remove(i, u.owners[i]) then t.owners[i] == NoOwner && !t.enabled[i] && t.count == u.count - 1
      else t.owners[i] == u.owners[i] && t.regions[i] == u.regions[i] && t.enabled[i] && t.slots[i] == u.slots[i]
  {
    assert Slotted(c, u, outside, i);
    OwnedBound(u.owners);
  }

  // ---- Translation ----

  /** What the hardware does with a logical address that a slot covers. */
  predicate Covers(c: Config, s: Slot, address: nat)
    requires IsConfig(c)
  {
    s.start <= address / c.page <= s.end
  }

  function Translate(c: Config, s: Slot, address: nat): nat
    requires IsConfig(c)
  {
    (address / c.page + s.addHigh * WORD + s.addLow) % DWORD * c.page + address % c.page
  }

  /** The first enabled slot from k on that covers an address, or the number of slots. */
  function Router(c: Config, u: Unit, address: nat, k: nat): (i: nat)
    requires IsConfig(c) && Sized(c, u) && k <= c.max
    ensures k <= i <= c.max && (i < c.max ==> u.enabled[i] && Covers(c, u.slots[i], address))
    ensures forall j :: k <= j < i ==> !(u.enabled[j] && Covers(c, u.slots[j], address))
    decreases c.max - k
  {
    if k == c.max || (u.enabled[k] && Covers(c, u.slots[k], address)) then k else Router(c, u, address, k + 1)
  }

  /** Slot i is enabled and covers the address, and no other one does. */
  ghost predicate OnlyRoute(c: Config, u: Unit, i: nat, address: nat)
    requires IsConfig(c) && Sized(c, u)
  {
    && i < c.max && u.enabled[i] && Covers(c, u.slots[i], address)
    && forall j :: 0 <= j < c.max && j != i && u.enabled[j] ==> !Covers(c, u.slots[j], address)
  }

  predicate InRegion(r: Region, address: nat) { r.logical <= address < r.logical + r.size }

  /** The region does not run past the 32-bit logical space. */
  predicate Fits(r: Region) { r.logical + r.size <= WORD }

  lemma Pages(p: nat, k: nat, m: nat, a: nat)
    requires p > 0
    ensures k * p <= a < (k + m) * p <==> k <= a / p < k + m
  {
    var q, e := a / p, a % p;
    assert a == q * p + e;
    Arithmetic.Scale(q, q, p);
    if q < k {
      Arithmetic.Scale(q + 1, k, p);
    } else {
      Arithmetic.Scale(k, q, p);
    }
    if q < k + m {
      Arithmetic.Scale(q + 1, k + m, p);
    } else {
      Arithmetic.Scale(k + m, q, p);
    }
  }

  /** The last page of a region that starts at page k and has m pages. */
  lemma LastPage(p: nat, k: nat, m: nat)
    requires p > 0 && m > 0
    ensures (k * p + m * p - 1) / p == k + m - 1
  {
    var a := k * p + m * p - 1;
    assert a == (k + m) * p - 1;
    assert (k + m - 1) * p == (k + m) * p - p;
    Pages(p, k + m - 1, 1, a);
  }

  /**
   The programmed registers cover the aligned nonempty region exactly, and map each of its
   addresses to the physical base plus the offset.
   */
  lemma MapsRegion(c: Config, r: Region, address: nat)
    requires IsConfig(c) && Typed(r) && Aligned(c, r) && r.size > 0 && Fits(r)
    ensures Covers(c, Programmed(c, r), address) <==> InRegion(r, address)
    ensures InRegion(r, address) ==> Translate(c, Programmed(c, r), address) == r.physical + (address - r.logical)
  {
    CoversRegion(c, r, address);
    if InRegion(r, address) {
      TranslatesRegion(c, r, address);
    }
  }

  lemma CoversRegion(c: Config, r: Region, address: nat)
    requires IsConfig(c) && Typed(r) && Aligned(c, r) && r.size > 0 && Fits(r)
    ensures Covers(c, Programmed(c, r), address) <==> InRegion(r, address)
  {
    assert LastAddress(r) == r.logical + r.size - 1;
    CoversPages(c.page, r.logical / c.page, r.size / c.page, address);
    Arithmetic.DivMod(r.logical, c.page);
    Arithmetic.DivMod(r.size, c.page);
  }

  lemma CoversPages(p: nat, k: nat, m: nat, a: nat)
    requires p > 0 && m > 0
    ensures k <= a / p <= (k * p + m * p - 1) / p <==> k * p <= a < k * p + m * p
  {
    LastPage(p, k, m);
    Pages(p, k, m, a);
    assert (k + m) * p == k * p + m * p;
  }

  lemma TranslatesRegion(c: Config, r: Region, address: nat)
    requires IsConfig(c) && Typed(r) && Aligned(c, r) && Fits(r) && InRegion(r, address)
    ensures Translate(c, Programmed(c, r), address) == r.physical + (address - r.logical)
  {
    var p, k, P, q := c.page, r.logical / c.page, r.physical / c.page, address / c.page;
    var s, add := Programmed(c, r), (P - k) % DWORD;
    assert r.logical == k * p && r.physical == P * p;
    assert s.addHigh * WORD + s.addLow == add;
    assert k <= q by {
      Pages(p, k, q + 1, address);
    }
    AddValue(P, k, q);
    assert (q + P - k) * p == q * p + P * p - k * p;
  }

  lemma AddValue(P: nat, k: nat, q: nat)
    requires k <= q && P + (q - k) < DWORD
    ensures (q + (P - k) % DWORD) % DWORD == q + P - k
  {
    if P < k {
      assert (P - k) % DWORD == P - k + DWORD || k - P >= DWORD;
    }
  }

  /** A region that runs past the logical space is programmed with its end before its start. */
  lemma WrappedCoversNothing(c: Config, r: Region, address: nat)
    requires IsConfig(c) && Typed(r) && Aligned(c, r) && !Fits(r)
    ensures !Covers(c, Programmed(c, r), address)
  {
    var p, e := c.page, r.logical + r.size - 1 - WORD;
    assert LastAddress(r) == e;
    var k := r.logical / p;
    assert r.logical == k * p;
    assert e < k * p;
    Pages(p, 0, k, e);
  }

  /** So does an empty region, unless it starts at zero: then the end wraps and everything is covered. */
  lemma EmptyCovers(c: Config, r: Region, address: nat)
    requires IsConfig(c) && Typed(r) && Aligned(c, r) && r.size == 0 && address < WORD
    ensures Covers(c, Programmed(c, r), address) <==> r.logical == 0
  {
    var p, k := c.page, r.logical / c.page;
    assert r.logical == k * p;
    if k > 0 {
      assert LastAddress(r) == k * p - 1;
      Pages(p, 0, k, k * p - 1);
    } else {
      assert LastAddress(r) == WORD - 1;
    }
  }

  /** The registers cover exactly the region's addresses if and only if it ends in the logical space and is not empty at zero. */
  lemma CoverageIff(c: Config, r: Region)
    requires IsConfig(c) && Typed(r) && Aligned(c, r)
    ensures (forall x: nat :: x < WORD ==> (Covers(c, Programmed(c, r), x) <==> InRegion(r, x)))
      <==> (Fits(r) && (r.size > 0 || r.logical > 0))
  {
    if !Fits(r) {
      WrappedCoversNothing(c, r, r.logical);
      assert InRegion(r, r.logical);
    } else {
      forall x: nat | x < WORD
        ensures Covers(c, Programmed(c, r), x) <==> (InRegion(r, x) || (r.size == 0 && r.logical == 0))
      {
        if r.size == 0 {
          EmptyCovers(c, r, x);
        } else {
          MapsRegion(c, r, x);
        }
      }
      assert 0 < WORD && (r.size == 0 ==> !InRegion(r, 0));
      assert r.size == 0 && r.logical == 0 ==> Covers(c, Programmed(c, r), 0);
    }
  }

  // ---- Overlap ----

  ghost predicate Overlap(a: Region, b: Region) {
    exists x: nat :: InRegion(a, x) && InRegion(b, x)
  }

  lemma OverlapIs(a: Region, b: Region)
    ensures Overlap(a, b) <==>
      a.size > 0 && b.size > 0 && a.logical < b.logical + b.size && b.logical < a.logical + a.size
  {
    if a.size > 0 && b.size > 0 && a.logical < b.logical + b.size && b.logical < a.logical + a.size {
      var x := if a.logical < b.logical then b.logical else a.logical;
      assert InRegion(a, x) && InRegion(b, x);
    }
  }

  /** No two managed regions share a logical address, and none runs past the logical space. */
  ghost predicate Disjoint(u: Unit) {
    && (forall i :: 0 <= i < |u.regions| ==> Fits(u.regions[i]))
    && (forall i, j :: 0 <= i < j < |u.regions| ==> !Overlap(u.regions[i], u.regions[j]))
  }

  /** A known region starts behind the start of r and inside it. */
  predicate StartsBehind(u: Unit, r: Region, i: nat)
    requires i < |u.regions|
  {
    u.regions[i].size > 0 && r.logical < u.regions[i].logical < r.logical + r.size
  }

  /**
   A successful add keeps the managed regions disjoint exactly when the new one ends in the
   logical space and none of them starts inside it: the code tests the other direction only.
   */
  lemma DisjointIff(c: Config, u: Unit, outside: set<nat>, r: Region)
    requires IsConfig(c) && Inv(c, u, outside) && Disjoint(u)
    requires AddStatus(c, u, r, true) == SUCCESS
    ensures Disjoint(Added(c, u, r, true)) <==> Fits(r) && !exists i: nat :: i < c.max && StartsBehind(u, r, i)
  {
    var f, t := FirstFree(u.enabled), Added(c, u, r, true);
    assert Slotted(c, u, outside, f);
    assert t.regions[f] == r;
    if Fits(r) {
      DisjointFits(c, u, outside, r);
    }
  }

  lemma DisjointFits(c: Config, u: Unit, outside: set<nat>, r: Region)
    requires IsConfig(c) && Inv(c, u, outside) && Disjoint(u) && Fits(r)
    requires AddStatus(c, u, r, true) == SUCCESS
    ensures Disjoint(Added(c, u, r, true)) <==> !exists i: nat :: i < c.max && StartsBehind(u, r, i)
  {
    var f, t := FirstFree(u.enabled), Added(c, u, r, true);
    assert Slotted(c, u, outside, f);
    forall i: nat | i < c.max && i != f
      ensures Overlap(u.regions[i], r) <==> StartsBehind(u, r, i)
    {
      ClashTested(c, u, outside, r, i);
      OverlapIs(u.regions[i], r);
    }
    if exists i: nat :: i < c.max && StartsBehind(u, r, i) {
      var i: nat :| i < c.max && StartsBehind(u, r, i);
      assert i != f;
      OverlapIs(u.regions[i], r);
      OverlapIs(r, u.regions[i]);
      assert t.regions[i] == u.regions[i] && t.regions[f] == r;
      assert !Disjoint(t);
    } else {
      forall i, j | 0 <= i < j < c.max
        ensures !Overlap(t.regions[i], t.regions[j])
      {
        if i == f || j == f {
          var o := if i == f then j else i;
          assert !StartsBehind(u, r, o);
          OverlapIs(u.regions[o], r);
          OverlapIs(r, u.regions[o]);
        }
      }
      assert Disjoint(t);
    }
  }

  /** After validation the start of the new region is in no managed one. */
  lemma ClashTested(c: Config, u: Unit, outside: set<nat>, r: Region, i: nat)
    requires IsConfig(c) && Inv(c, u, outside) && i < c.max && !Clashes(c, u, r)
    ensures u.regions[i].size == 0 || !StartsInside(r, u.regions[i])
  {
    assert Slotted(c, u, outside, i);
    assert !Known(u, i) || !StartsInside(r, u.regions[i]);
  }

  /** A second region laid around the first is accepted, and the two overlap. */
  lemma EnclosingRegionAccepted()
    ensures var c := Config(0x1000, 2);
      var u := Boot(c, {}, seq(2, i => Slot(0, 0, 0, 0, 0)));
      var a, b := Region(0x2000, 0, 0x1000, 0, Entity(1)), Region(0x1000, 0, 0x3000, 0, Entity(2));
      var t := Added(c, u, a, true);
      && AddStatus(c, u, a, true) == SUCCESS && AddStatus(c, t, b, true) == SUCCESS
      && Overlap(Added(c, t, b, true).regions[0], Added(c, t, b, true).regions[1])
  {
    var c := Config(0x1000, 2);
    var u := Boot(c, {}, seq(2, i => Slot(0, 0, 0, 0, 0)));
    var a, b := Region(0x2000, 0, 0x1000, 0, Entity(1)), Region(0x1000, 0, 0x3000, 0, Entity(2));
    assert u.enabled == [false, false];
    var t := Added(c, u, a, true);
    assert AddStatus(c, u, a, true) == SUCCESS;
    assert t.enabled == [true, false];
    assert t.enabled[1..] == [false];
    assert FirstFree(t.enabled) == 1;
    assert t.regions == [a, Blank];
    assert Added(c, t, b, true).regions == [a, b];
    assert InRegion(a, 0x2000) && InRegion(b, 0x2000);
  }

  // ---- Regions of one common size ----

  predicate Tile(size: nat, r: Region)
    requires size > 0
  {
    r.size == size && r.logical % size == 0 && Fits(r)
  }

  ghost predicate Tiled(size: nat, u: Unit)
    requires size > 0
  {
    forall i :: 0 <= i < |u.regions| ==> u.regions[i].size == 0 || Tile(size, u.regions[i])
  }

  lemma TilesDoNotInterleave(size: nat, a: Region, b: Region)
    requires size > 0 && Tile(size, a) && Tile(size, b)
    ensures !(a.logical < b.logical < a.logical + a.size)
  {
    if a.logical < b.logical {
      Arithmetic.MultiplesApart(a.logical, b.logical, size);
    }
  }

  /** With regions of one size, aligned to it, every run keeps the managed regions disjoint. */
  lemma {:induction false} TilesStayDisjoint(c: Config, u: Unit, outside: set<nat>, size: nat, ops: seq<Op>)
    requires IsConfig(c) && size > 0 && Inv(c, u, outside) && Disjoint(u) && Tiled(size, u)
    requires forall op <- ops :: Legal(op) && (op.Add? ==> Tile(size, op.region))
    ensures Disjoint(Run(c, u, ops))
    decreases |ops|
  {
    if ops != [] {
      var t := Exec(c, u, ops[0]);
      assert Legal(ops[0]);
      TileStep(c, u, outside, size, ops[0]);
      TilesStayDisjoint(c, t, outside, size, ops[1..]);
    }
  }

  lemma TileStep(c: Config, u: Unit, outside: set<nat>, size: nat, op: Op)
    requires IsConfig(c) && size > 0 && Inv(c, u, outside) && Disjoint(u) && Tiled(size, u)
    requires Legal(op) && (op.Add? ==> Tile(size, op.region))
    ensures var t := Exec(c, u, op); Inv(c, t, outside) && Disjoint(t) && Tiled(size, t)
  {
    var t := Exec(c, u, op);
    match op {
      case Add(r, ok) =>
        AddKeeps(c, u, outside, r, ok);
        if AddStatus(c, u, r, ok) == SUCCESS {
          forall i: nat | i < c.max
            ensures !StartsBehind(u, r, i)
          {
            if u.regions[i].size > 0 {
              TilesDoNotInterleave(size, r, u.regions[i]);
            }
          }
          DisjointIff(c, u, outside, r);
        }
      case Remove(i, requester) =>
        RemoveKeeps(c, u, outside, i, requester);
        assert forall k :: 0 <= k < c.max ==> t.regions[k] == u.regions[k] || t.regions[k] == Blank;
        forall a, b | 0 <= a < b < c.max
          ensures !Overlap(t.regions[a], t.regions[b])
        {
          OverlapIs(t.regions[a], t.regions[b]);
        }
    }
  }

  /** In a disjoint table at most one managed slot covers an address. */
  lemma OneSlotPerAddress(c: Config, u: Unit, outside: set<nat>, i: nat, j: nat, address: nat)
    requires IsConfig(c) && Inv(c, u, outside) && Disjoint(u) && i < c.max && j < c.max
    requires u.regions[i].size > 0 && u.regions[j].size > 0
    requires Covers(c, u.slots[i], address) && Covers(c, u.slots[j], address)
    ensures i == j && Translate(c, u.slots[i], address) == u.regions[i].physical + (address - u.regions[i].logical)
  {
    assert Slotted(c, u, outside, i) && Slotted(c, u, outside, j);
    MapsRegion(c, u.regions[i], address);
    MapsRegion(c, u.regions[j], address);
    assert InRegion(u.regions[i], address) && InRegion(u.regions[j], address);
  }

  // ---- The driver ----

  /** Known slots among the first n. */
  function KnownUpTo(u: Unit, n: nat): nat
    requires n <= |u.enabled| && n <= |u.regions|
  {
    if n == 0 then 0 else KnownUpTo(u, n - 1) + (if Known(u, n - 1) then 1 else 0)
  }

  function IsOn(): bool -> bool { (b: bool) => b }

  /** The active count lies between the regions the driver knows and the enabled slots. */
  predicate Countable(c: Config, u: Unit) {
    Sized(c, u) && KnownUpTo(u, c.max) <= u.count <= Count(u.enabled, IsOn())
  }

  lemma {:induction false} OwnedBetween(c: Config, u: Unit, outside: set<nat>, n: nat)
    requires IsConfig(c) && Inv(c, u, outside) && n <= c.max
    ensures KnownUpTo(u, n) <= Owned(u.owners[..n]) <= Count(u.enabled[..n], IsOn())
  {
    if n > 0 {
      OwnedBetween(c, u, outside, n - 1);
      assert Slotted(c, u, outside, n - 1);
      assert u.owners[..n][..n - 1] == u.owners[..n - 1];
      assert u.enabled[..n] == u.enabled[..n - 1] + [u.enabled[n - 1]];
      CountPush(u.enabled[..n - 1], u.enabled[n - 1], IsOn());
    }
  }

  lemma InvIsCountable(c: Config, u: Unit, outside: set<nat>)
    requires IsConfig(c) && Inv(c, u, outside)
    ensures Countable(c, u)
  {
    OwnedBetween(c, u, outside, c.max);
    assert u.owners[..c.max] == u.owners && u.enabled[..c.max] == u.enabled;
  }

  lemma {:induction false} KnownFilled(u: Unit, t: Unit, i: nat, n: nat)
    requires |u.enabled| == |u.regions| == |t.enabled| == |t.regions| && i < |u.enabled| && n <= |u.enabled|
    requires forall k :: 0 <= k < |u.enabled| && k != i ==> t.enabled[k] == u.enabled[k] && t.regions[k] == u.regions[k]
    ensures KnownUpTo(t, n) <= KnownUpTo(u, n) + 1 && (n <= i ==> KnownUpTo(t, n) == KnownUpTo(u, n))
    decreases n
  {
    if n > 0 {
      KnownFilled(u, t, i, n - 1);
    }
  }

  lemma {:induction false} OnBound(enabled: seq<bool>)
    ensures Count(enabled, IsOn()) <= |enabled|
  {
    if enabled != [] {
      OnBound(enabled[1..]);
    }
  }

  /** Switching on a slot that is off. */
  lemma {:induction false} OnUpdate(enabled: seq<bool>, i: nat)
    requires i < |enabled| && !enabled[i]
    ensures Count(enabled[i := true], IsOn()) == Count(enabled, IsOn()) + 1
  {
    if i > 0 {
      assert enabled[i := true][1..] == enabled[1..][i - 1 := true];
      OnUpdate(enabled[1..], i - 1);
    } else {
      assert enabled[i := true][1..] == enabled[1..];
    }
  }

  /** Every add, with or without an owner, keeps the count usable for the scan. */
  lemma AddCounts(c: Config, u: Unit, r: Region, attributesOk: bool)
    requires IsConfig(c) && Countable(c, u)
    ensures Countable(c, Added(c, u, r, attributesOk))
  {
    if AddStatus(c, u, r, attributesOk) == SUCCESS {
      var f, t := FirstFree(u.enabled), Added(c, u, r, attributesOk);
      KnownFilled(u, t, f, c.max);
      OnUpdate(u.enabled, f);
      OnBound(t.enabled);
    }
  }

  lemma {:induction false} KnownGrows(u: Unit, a: nat, b: nat)
    requires a <= b <= |u.enabled| && b <= |u.regions|
    ensures KnownUpTo(u, a) <= KnownUpTo(u, b)
    decreases b
  {
    if a < b {
      KnownGrows(u, a, b - 1);
    }
  }

  /** Once as many known slots were seen as are counted, there are no more. */
  lemma EarlyExitSeesAll(c: Config, u: Unit, j: nat, k: nat)
    requires IsConfig(c) && Countable(c, u) && j <= k < c.max && KnownUpTo(u, j) >= u.count
    ensures !Known(u, k)
  {
    KnownGrows(u, j, k);
    KnownGrows(u, k + 1, c.max);
  }

  class Device {
    const config: Config
    var enabled: seq<bool>
    var owners: seq<Owner>
    var regions: seq<Region>
    var slots: seq<Slot>
    var count: nat

    function View(): Unit
      reads this
    {
      Unit(enabled, owners, regions, slots, count)
    }

    ghost predicate Valid(outside: set<nat>)
      reads this
    {
      IsConfig(config) && Inv(config, View(), outside)
    }

    constructor (c: Config, enabled0: seq<bool>, slots0: seq<Slot>, ghost outside: set<nat>)
      requires IsConfig(c) && |enabled0| == |slots0| == c.max
      requires forall i: nat :: i < c.max ==> (enabled0[i] <==> i in outside)
      ensures config == c && Valid(outside) && View() == Boot(c, outside, slots0)
    {
      config := c;
      enabled, slots, count := enabled0, slots0, 0;
      owners, regions := seq(c.max, i => NoOwner), seq(c.max, i => Blank);
      new;
      NoneOwned(c.max);
      assert enabled == Boot(c, outside, slots0).enabled;
    }

    /** Scans for a clash until as many known regions were seen as are active. */
    method ValidateRegion(r: Region) returns (status: int)
      requires IsConfig(config) && Countable(config, View())
      ensures status == ValidateStatus(config, View(), r)
    {
      if !Aligned(config, r) {
        return E_ALIGN;
      }
      var i, j := 0, 0;
      ghost var u := View();
      while i < count && j < config.max
        invariant j <= config.max && i == KnownUpTo(u, j)
        invariant forall k: nat :: k < j && Known(u, k) ==> !StartsInside(r, regions[k])
      {
        if enabled[j] && regions[j].size != 0 {
          if StartsInside(r, regions[j]) {
            assert Known(u, j);
            return E_SUPPORT;
          }
          i := i + 1;
        }
        j := j + 1;
      }
      forall k: nat | k < config.max && Known(u, k)
        ensures !StartsInside(r, u.regions[k])
      {
        if k >= j {
          EarlyExitSeesAll(config, u, j, k);
        }
      }
      return SUCCESS;
    }

    /** The lowest disabled slot. */
    method GetAvailableRegion() returns (status: int, idx: nat)
      requires |enabled| == config.max
      ensures idx == FirstFree(enabled)
      ensures status == if idx < config.max then SUCCESS else E_SUPPORT
    {
      idx := 0;
      while idx < config.max
        invariant idx <= config.max
        invariant forall k :: 0 <= k < idx ==> enabled[k]
      {
        if !enabled[idx] {
          return SUCCESS, idx;
        }
        idx := idx + 1;
      }
      return E_SUPPORT, idx;
    }

    method EnableRegion(idx: nat) returns (status: int)
      requires |enabled| == config.max
      modifies this`enabled, this`count
      ensures status == if idx >= config.max then E_SUPPORT else if old(enabled)[idx] then E_STATE else SUCCESS
      ensures enabled == if status == SUCCESS then old(enabled)[idx := true] else old(enabled)
      ensures count == if status == SUCCESS then (old(count) + 1) % 256 else old(count)
    {
      if idx >= config.max {
        return E_SUPPORT;
      }
      if enabled[idx] {
        return E_STATE;
      }
      enabled := enabled[idx := true];
      count := (count + 1) % 256;
      return SUCCESS;
    }

    method DisableRegion(idx: nat) returns (status: int)
      requires |enabled| == config.max
      modifies this`enabled, this`count
      ensures status == if idx >= config.max then E_SUPPORT else SUCCESS
      ensures var off := idx < config.max && old(enabled)[idx];
        && enabled == (if off then old(enabled)[idx := false] else old(enabled))
        && count == (if off then (old(count) - 1) % 256 else old(count))
    {
      if idx >= config.max {
        return E_SUPPORT;
      }
      if !enabled[idx] {
        return SUCCESS;
      }
      enabled := enabled[idx := false];
      count := (count - 1) % 256;
      return SUCCESS;
    }

    /**
     Programs a slot, except for its bus attributes, and enables it. An index past the table is
     refused; a slot that is enabled already is overwritten all the same, and then refused.
     */
    method MapRegion(r: Region, idx: nat) returns (status: int)
      requires IsConfig(config) && Sized(config, View())
      modifies this
      ensures var u := old(View());
        if idx >= config.max then status == E_SUPPORT && View() == u
        else
          && status == (if u.enabled[idx] then E_STATE else SUCCESS)
          && View() == Filled(config, u, idx, r).(
               slots := u.slots[idx := Programmed(config, r).(bus := u.slots[idx].bus)],
               count := if u.enabled[idx] then u.count else (u.count + 1) % 256)
    {
      if idx >= config.max {
        return E_SUPPORT;
      }
      var rsla := r.logical / config.page;
      var rspa := r.physical / config.page;
      var add := (rspa - rsla) % DWORD;
      slots := slots[idx := Slot(rsla, LastAddress(r) / config.page, add % WORD, add / WORD, slots[idx].bus)];
      regions := regions[idx := r];
      owners := owners[idx := r.owner];
      status := EnableRegion(idx);
    }

    /**
     Maps a region into the first free slot, if it is aligned and starts in no managed one. The
     bookkeeping survives exactly when nothing was added or the region has an owner.
     */
    method AddRegion(r: Region, attributesOk: bool, ghost outside: set<nat>) returns (status: int, idx: nat)
      requires IsConfig(config) && Countable(config, View()) && Typed(r)
      modifies this
      ensures Countable(config, View()) && status == AddStatus(config, old(View()), r, attributesOk)
      ensures View() == Added(config, old(View()), r, attributesOk)
      ensures status == SUCCESS ==> idx == FirstFree(old(enabled)) < config.max
      ensures AddOutcome(config, old(View()), r, attributesOk, View(), status)
      ensures old(Valid(outside)) ==> (Valid(outside) <==> status != SUCCESS || r.owner != NoOwner)
    {
      hide AddOutcome, Inv, ValidateStatus, FirstFree, LastAddress;
      AddCounts(config, View(), r, attributesOk);
      AddedIs(config, View(), r, attributesOk);
      if Valid(outside) && AddStatus(config, View(), r, attributesOk) == SUCCESS {
        OwnerIff(config, View(), outside, r);
      }
      idx := 0;
      if !attributesOk {
        return E_PARAM, idx;
      }
      status := ValidateRegion(r);
      if status != SUCCESS {
        return;
      }
      status, idx := GetAvailableRegion();
      if status != SUCCESS {
        return;
      }
      slots := slots[idx := slots[idx].(bus := r.attributes % 0x1_0000)];
      status := MapRegion(r, idx);
      assert slots == old(slots)[idx := Programmed(config, r)];
    }

    method RemoveRegion(idx: nat, requester: Owner, ghost outside: set<nat>) returns (status: int)
      requires IsConfig(config) && Sized(config, View())
      modifies this
      ensures Sized(config, View()) && status == RemoveStatus(config, old(View()), idx, requester)
      ensures View() == Removed(config, old(View()), idx, requester)
      ensures status ==
        if idx >= config.max || requester == NoOwner then E_PARAM
        else if old(owners)[idx] != requester then E_ACCESS
        else SUCCESS
      ensures status == SUCCESS ==>
        && owners == old(owners)[idx := NoOwner] && regions == old(regions)[idx := Blank]
        && enabled == old(enabled)[idx := false] && slots == old(slots)
        && count == if old(enabled)[idx] then (old(count) - 1) % 256 else old(count)
      ensures status != SUCCESS ==> View() == old(View())
      ensures old(Valid(outside)) ==> Valid(outside)
    {
      if Valid(outside) {
        RemoveKeeps(config, View(), outside, idx, requester);
      }
      if idx >= config.max || requester == NoOwner {
        return E_PARAM;
      }
      if owners[idx] != requester {
        return E_ACCESS;
      }
      owners := owners[idx := NoOwner];
      regions := regions[idx := Blank];
      status := DisableRegion(idx);
    }

    /** Adds the configured regions in turn; the first failure ends it. */
    method InitRegions(table: seq<(Region, bool)>, ghost outside: set<nat>) returns (status: int, done: nat)
      requires Valid(outside) && forall e <- table :: Typed(e.0)
      modifies this
      ensures done <= |table| && Countable(config, View())
      ensures View() == Run(config, old(View()), Adds(table[..done]))
      ensures done == |table| ==> status == SUCCESS
      ensures done < |table| ==>
        status == AddStatus(config, View(), table[done].0, table[done].1) && status != SUCCESS
      ensures (forall e <- table :: e.0.owner != NoOwner) ==> Valid(outside)
    {
      hide AddOutcome, Inv, ValidateStatus, Filled;
      InvIsCountable(config, View(), outside);
      ghost var owned := forall e <- table :: e.0.owner != NoOwner;
      done := 0;
      status := SUCCESS;
      while done < |table|
        invariant done <= |table| && Countable(config, View()) && (owned ==> Valid(outside))
        invariant View() == Run(config, old(View()), Adds(table[..done]))
        invariant status == SUCCESS
      {
        var idx;
        assert owned ==> table[done].0.owner != NoOwner;
        status, idx := AddRegion(table[done].0, table[done].1, outside);
        if status != SUCCESS {
          return;
        }
        RunAppends(config, old(View()), table[..done], table[done]);
        assert table[..done + 1] == table[..done] + [table[done]];
        done := done + 1;
      }
    }
  }

  function Adds(table: seq<(Region, bool)>): seq<Op> {
    if table == [] then [] else [Add(table[0].0, table[0].1)] + Adds(table[1..])
  }

  lemma {:induction false} RunAppends(c: Config, u: Unit, table: seq<(Region, bool)>, e: (Region, bool))
    requires IsConfig(c) && Sized(c, u)
    ensures Run(c, u, Adds(table + [e])) == Added(c, Run(c, u, Adds(table)), e.0, e.1)
    decreases |table|
  {
    if table == [] {
      assert Adds([e][1..]) == [];
    } else {
      assert (table + [e])[1..] == table[1..] + [e];
      RunAppends(c, Added(c, u, table[0].0, table[0].1), table[1..], e);
      assert Adds(table)[1..] == Adds(table[1..]);
      assert Adds(table + [e])[1..] == Adds(table[1..] + [e]);
    }
  }
}
