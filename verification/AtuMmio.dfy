/**
 Memory-mapped access to 64-bit physical addresses through one translation window, which is
 remapped on demand. Accesses through the window agree with accesses to flat physical memory.
 */
module AtuMmio {
  import opened Status
  import opened Arithmetic
  import opened Atu

  function Pow2(k: nat): (n: nat)
    ensures n > 0
  {
    if k == 0 then 1 else 2 * Pow2(k - 1)
  }

  /** The window's logical address and size, and the owner of its region. */
  datatype Window = Window(config: Config, address: nat, size: nat, owner: Owner, attributes: nat)

  ghost predicate PowerOfTwo(n: nat) { exists k: nat :: n == Pow2(k) }

  ghost predicate IsWindow(w: Window) {
    && IsConfig(w.config) && 8 <= w.size < WORD && PowerOfTwo(w.size)
    && w.address + w.size <= WORD
    && w.address % w.config.page == 0 && w.size % w.config.page == 0
    && w.owner != NoOwner
  }

  /** The physical base of the mapped window, if one is mapped. */
  datatype Cache = Cache(mapped: bool, current: nat)

  predicate IsWidth(n: nat) { n == 1 || n == 2 || n == 4 || n == 8 }

  /** An access of 1, 2, 4 or 8 bytes at a multiple of its width. */
  predicate Natural(address: nat, n: nat) { IsWidth(n) && address % n == 0 && address + n <= DWORD }

  /** The physical base of the window around an address. */
  function Base(w: Window, address: nat): nat
    requires w.size > 0
  {
    DivMod(address, w.size);
    address - address % w.size
  }

  /** Both sums are taken in 64 bits. */
  predicate IsAddrMapped(w: Window, c: Cache, address: nat, n: nat) {
    c.mapped && address >= c.current && (address + n) % DWORD <= (c.current + w.size) % DWORD
  }

  function Remapped(w: Window, c: Cache, address: nat, n: nat): Cache
    requires w.size > 0
  {
    if IsAddrMapped(w, c, address, n) then c else Cache(true, Base(w, address))
  }

  /** The logical address of an access under the mapped window, in 32 bits. */
  function Local(w: Window, c: Cache, address: nat): nat
  {
    (w.address + address - c.current) % WORD
  }

  function WindowRegion(w: Window, current: nat): Region { Region(w.address, current, w.size, w.attributes, w.owner) }

  /** A mapped window starts at a multiple of its size. */
  predicate Sound(w: Window, c: Cache)
    requires w.size > 0
  {
    c.mapped ==> c.current % w.size == 0 && c.current + w.size <= DWORD
  }

  /** Every byte of the access is covered by the window's slot and goes to the requested address. */
  ghost predicate Reaches(w: Window, c: Cache, address: nat, n: nat)
    requires IsConfig(w.config)
  {
    forall k: nat :: k < n ==> ReachesByte(w, c, address, k)
  }

  predicate ReachesByte(w: Window, c: Cache, address: nat, k: nat)
    requires IsConfig(w.config)
  {
    var slot, at := Programmed(w.config, WindowRegion(w, c.current)), Local(w, c, address) + k;
    Covers(w.config, slot, at) && Translate(w.config, slot, at) == address + k
  }

  /** The one family of accesses for which the 64-bit sum wraps under another window. */
  predicate WrapsElsewhere(w: Window, c: Cache, address: nat, n: nat) {
    c.mapped && address + n == DWORD && c.current + w.size < DWORD
  }

  lemma {:induction false} PowersMultiply(a: nat, b: nat)
    ensures Pow2(a + b) == Pow2(a) * Pow2(b)
  {
    if a > 0 {
      PowersMultiply(a - 1, b);
    }
  }

  lemma {:induction false} PowersGrow(a: nat, b: nat)
    requires a <= b
    ensures Pow2(a) <= Pow2(b)
  {
    if a < b {
      PowersGrow(a, b - 1);
    }
  }

  lemma TopPower()
    ensures Pow2(64) == DWORD
  {
    assert Pow2(8) == 256;
    PowersMultiply(8, 8);
    PowersMultiply(16, 16);
    PowersMultiply(32, 32);
  }

  /** What a power of two divides and is divided by. */
  lemma PowerFacts(n: nat)
    requires PowerOfTwo(n) && 8 <= n < WORD
    ensures n % 8 == 0 && DWORD % n == 0
  {
    var k: nat :| n == Pow2(k);
    assert Pow2(2) == 4 && Pow2(3) == 8;
    TopPower();
    if k < 3 {
      PowersGrow(k, 2);
    }
    if k > 64 {
      PowersGrow(64, k);
    }
    PowersMultiply(k - 3, 3);
    PowersMultiply(64 - k, k);
    Multiple(Pow2(k - 3), 8);
    Multiple(Pow2(64 - k), n);
  }

  lemma SizeFacts(w: Window)
    requires IsWindow(w)
    ensures w.size % 8 == 0 && DWORD % w.size == 0
  {
    PowerFacts(w.size);
  }

  /** A naturally aligned access does not cross the end of its window. */
  lemma WithinWindow(address: nat, n: nat, w: Window)
    requires IsWindow(w) && IsWidth(n) && address % n == 0
    ensures address + n <= Base(w, address) + w.size
  {
    SizeFacts(w);
    Divides(n, 8, w.size);
    FloorIsMultiple(address, w.size);
    var end := Base(w, address) + w.size;
    DivMod(address, w.size);
    assert address < end;
    Sum(Base(w, address), w.size, w.size);
    Divides(n, w.size, end);
    MultiplesApart(address, end, n);
  }

  /** The window around an address ends inside the physical space. */
  lemma BaseIsSound(w: Window, address: nat)
    requires IsWindow(w) && address < DWORD
    ensures Sound(w, Cache(true, Base(w, address)))
  {
    SizeFacts(w);
    FloorIsMultiple(address, w.size);
    MultiplesApart(Base(w, address), DWORD, w.size);
  }

  lemma RegionIsGood(w: Window, current: nat)
    requires IsWindow(w) && Sound(w, Cache(true, current))
    ensures var r := WindowRegion(w, current); Typed(r) && Aligned(w.config, r) && r.size > 0 && Fits(r)
  {
    SizeFacts(w);
    Divides(w.config.page, w.size, current);
  }

  /** Inside the mapped window every byte goes where it should. */
  lemma InsideReaches(w: Window, c: Cache, address: nat, n: nat)
    requires IsWindow(w) && Sound(w, c) && c.mapped
    requires c.current <= address && address + n <= c.current + w.size && n > 0
    ensures Reaches(w, c, address, n)
  {
    RegionIsGood(w, c.current);
    assert Local(w, c, address) == w.address + address - c.current;
    forall k: nat | k < n
      ensures ReachesByte(w, c, address, k)
    {
      MapsRegion(w.config, WindowRegion(w, c.current), Local(w, c, address) + k);
    }
  }

  /** Outside the mapped window nothing does. */
  lemma OutsideFails(w: Window, c: Cache, address: nat, n: nat)
    requires IsWindow(w) && Sound(w, c) && c.mapped && n > 0 && address >= c.current + w.size
    ensures !Reaches(w, c, address, n)
  {
    RegionIsGood(w, c.current);
    MapsRegion(w.config, WindowRegion(w, c.current), Local(w, c, address));
    assert !ReachesByte(w, c, address, 0);
  }

  /** The wrapped comparison is the plain one, except at the top under another window. */
  lemma MappedIsInside(w: Window, c: Cache, address: nat, n: nat)
    requires 0 < n && 0 < w.size && c.current + w.size <= DWORD && address + n <= DWORD
    requires IsAddrMapped(w, c, address, n) && !WrapsElsewhere(w, c, address, n)
    ensures c.current <= address && address + n <= c.current + w.size
  {
    assert address + n < DWORD ==> (address + n) % DWORD == address + n;
    assert c.current + w.size < DWORD ==> (c.current + w.size) % DWORD == c.current + w.size;
  }

  /** A fresh mapping holds the access. */
  lemma RemapReaches(w: Window, address: nat, n: nat)
    requires IsWindow(w) && Natural(address, n)
    ensures var d := Cache(true, Base(w, address)); Sound(w, d) && Reaches(w, d, address, n)
  {
    BaseIsSound(w, address);
    WithinWindow(address, n, w);
    DivMod(address, w.size);
    InsideReaches(w, Cache(true, Base(w, address)), address, n);
  }

  /**
   A naturally aligned access lies in the mapped window and reaches the requested physical address
   if and only if it is not the last of the 64-bit space under another window.
   */
  lemma TranslationIff(w: Window, c: Cache, address: nat, n: nat)
    requires IsWindow(w) && Sound(w, c) && Natural(address, n)
    ensures var d := Remapped(w, c, address, n);
      Sound(w, d) && d.mapped && (Reaches(w, d, address, n) <==> !WrapsElsewhere(w, c, address, n))
  {
    var d := Remapped(w, c, address, n);
    if WrapsElsewhere(w, c, address, n) {
      NextWindow(w, c.current);
      assert d == c;
      OutsideFails(w, c, address, n);
    } else if IsAddrMapped(w, c, address, n) {
      MappedIsInside(w, c, address, n);
      InsideReaches(w, c, address, n);
    } else {
      RemapReaches(w, address, n);
    }
  }

  /** Below the last window there is room for one more. */
  lemma NextWindow(w: Window, current: nat)
    requires IsWindow(w) && current % w.size == 0 && current + w.size < DWORD
    ensures current + w.size + w.size <= DWORD
  {
    SizeFacts(w);
    Sum(current, w.size, w.size);
    MultiplesApart(current + w.size, DWORD, w.size);
  }

  /** With any lower window mapped, reading the last byte of the space is not remapped. */
  lemma LastByteMistranslated(w: Window)
    requires IsWindow(w)
    ensures var c := Cache(true, 0);
      Remapped(w, c, DWORD - 1, 1) == c && !Reaches(w, c, DWORD - 1, 1)
  {
    SizeFacts(w);
    TranslationIff(w, Cache(true, 0), DWORD - 1, 1);
  }

  // ---- Memory ----

  type Memory = map<nat, byte>

  function Get(m: Memory, a: nat): byte { if a in m then m[a] else 0 }

  /** n bytes from a, the lowest first. */
  function Read(m: Memory, a: nat, n: nat): nat
    decreases n
  {
    if n == 0 then 0 else Get(m, a) + 256 * Read(m, a + 1, n - 1)
  }

  function Write(m: Memory, a: nat, n: nat, value: nat): Memory
    decreases n
  {
    if n == 0 then m else Write(m[a := value % 256], a + 1, n - 1, value / 256)
  }

  /** The same through the translation of a slot. */
  function ReadThrough(c: Config, s: Slot, m: Memory, a: nat, n: nat): nat
    requires IsConfig(c)
    decreases n
  {
    if n == 0 then 0 else Get(m, Translate(c, s, a)) + 256 * ReadThrough(c, s, m, a + 1, n - 1)
  }

  function WriteThrough(c: Config, s: Slot, m: Memory, a: nat, n: nat, value: nat): Memory
    requires IsConfig(c)
    decreases n
  {
    if n == 0 then m else WriteThrough(c, s, m[Translate(c, s, a) := value % 256], a + 1, n - 1, value / 256)
  }

  /** What the hardware does: each byte goes through an enabled slot that covers its address, if there is one. */
  function ReadRouted(c: Config, u: Unit, m: Memory, a: nat, n: nat): nat
    requires IsConfig(c) && Sized(c, u)
    decreases n
  {
    if n == 0 then 0
    else
      var i := Router(c, u, a, 0);
      (if i < c.max then Get(m, Translate(c, u.slots[i], a)) else 0) + 256 * ReadRouted(c, u, m, a + 1, n - 1)
  }

  function WriteRouted(c: Config, u: Unit, m: Memory, a: nat, n: nat, value: nat): Memory
    requires IsConfig(c) && Sized(c, u)
    decreases n
  {
    if n == 0 then m
    else
      var i := Router(c, u, a, 0);
      WriteRouted(c, u, if i < c.max then m[Translate(c, u.slots[i], a) := value % 256] else m, a + 1, n - 1, value / 256)
  }

  /** Where one slot alone covers the bytes of an access, the hardware uses that slot. */
  lemma {:induction false} RoutedIsThrough(c: Config, u: Unit, i: nat, m: Memory, a: nat, n: nat, value: nat)
    requires IsConfig(c) && Sized(c, u) && i < c.max && forall k :: a <= k < a + n ==> OnlyRoute(c, u, i, k)
    ensures ReadRouted(c, u, m, a, n) == ReadThrough(c, u.slots[i], m, a, n)
    ensures WriteRouted(c, u, m, a, n, value) == WriteThrough(c, u.slots[i], m, a, n, value)
    decreases n
  {
    if n > 0 {
      assert OnlyRoute(c, u, i, a);
      assert Router(c, u, a, 0) == i;
      RoutedIsThrough(c, u, i, m, a + 1, n - 1, value / 256);
      RoutedIsThrough(c, u, i, m[Translate(c, u.slots[i], a) := value % 256], a + 1, n - 1, value / 256);
    }
  }

  /** Byte by byte, the slot takes local addresses from a on to physical ones from p on. */
  ghost predicate Leads(c: Config, s: Slot, a: nat, p: nat, n: nat)
    requires IsConfig(c)
    decreases n
  {
    n == 0 || (Translate(c, s, a) == p && Leads(c, s, a + 1, p + 1, n - 1))
  }

  lemma {:induction false} ThroughIsFlat(c: Config, s: Slot, m: Memory, a: nat, p: nat, n: nat, value: nat)
    requires IsConfig(c) && Leads(c, s, a, p, n)
    ensures ReadThrough(c, s, m, a, n) == Read(m, p, n)
    ensures WriteThrough(c, s, m, a, n, value) == Write(m, p, n, value)
    decreases n
  {
    if n > 0 {
      ThroughIsFlat(c, s, m, a + 1, p + 1, n - 1, value / 256);
      ThroughIsFlat(c, s, m[p := value % 256], a + 1, p + 1, n - 1, value / 256);
    }
  }

  lemma {:induction false} ReachesLeads(w: Window, c: Cache, address: nat, n: nat, k: nat)
    requires IsConfig(w.config) && Reaches(w, c, address, n) && k <= n
    ensures Leads(w.config, Programmed(w.config, WindowRegion(w, c.current)), Local(w, c, address) + k, address + k, n - k)
    decreases n - k
  {
    if k < n {
      assert ReachesByte(w, c, address, k);
      ReachesLeads(w, c, address, n, k + 1);
    }
  }

  function Pow256(n: nat): nat { if n == 0 then 1 else 256 * Pow256(n - 1) }

  lemma {:induction false} WriteElsewhere(m: Memory, a: nat, n: nat, value: nat, x: nat)
    requires x < a || x >= a + n
    ensures Get(Write(m, a, n, value), x) == Get(m, x)
    decreases n
  {
    if n > 0 {
      WriteElsewhere(m[a := value % 256], a + 1, n - 1, value / 256, x);
    }
  }

  /** A read returns what was written there last, cut to its width. */
  lemma {:induction false} ReadBack(m: Memory, a: nat, n: nat, value: nat)
    requires value < Pow256(n)
    ensures Read(Write(m, a, n, value), a, n) == value
    decreases n
  {
    if n > 0 {
      ReadBack(m[a := value % 256], a + 1, n - 1, value / 256);
      WriteElsewhere(m[a := value % 256], a + 1, n - 1, value / 256, a);
    }
  }

  /** Accesses that share no byte do not disturb each other. */
  lemma {:induction false} ReadUndisturbed(m: Memory, a: nat, n: nat, value: nat, b: nat, k: nat)
    requires b + k <= a || a + n <= b
    ensures Read(Write(m, a, n, value), b, k) == Read(m, b, k)
    decreases k
  {
    if k > 0 {
      WriteElsewhere(m, a, n, value, b);
      ReadUndisturbed(m, a, n, value, b + 1, k - 1);
    }
  }

  // ---- Runs ----

  datatype Access = Load(address: nat, width: nat) | Store(address: nat, width: nat, value: nat)

  /** A naturally aligned access that does not end at the top of the 64-bit space. */
  predicate Ordinary(op: Access) { Natural(op.address, op.width) && op.address + op.width < DWORD }

  /** Memory after an access through the window, and the value loaded. */
  function Through(w: Window, c: Cache, m: Memory, op: Access): (Memory, nat)
    requires IsConfig(w.config) && w.size > 0
  {
    var d := Remapped(w, c, op.address, op.width);
    var slot, at := Programmed(w.config, WindowRegion(w, d.current)), Local(w, d, op.address);
    match op
    case Load(a, n) => (m, ReadThrough(w.config, slot, m, at, n))
    case Store(a, n, value) => (WriteThrough(w.config, slot, m, at, n, value), 0)
  }

  function Direct(m: Memory, op: Access): (Memory, nat) {
    match op
    case Load(a, n) => (m, Read(m, a, n))
    case Store(a, n, value) => (Write(m, a, n, value), 0)
  }

  function RunThrough(w: Window, c: Cache, m: Memory, ops: seq<Access>): (Memory, seq<nat>)
    requires IsConfig(w.config) && w.size > 0
    decreases |ops|
  {
    if ops == [] then (m, [])
    else
      var (m1, x) := Through(w, c, m, ops[0]);
      var (m2, xs) := RunThrough(w, Remapped(w, c, ops[0].address, ops[0].width), m1, ops[1..]);
      (m2, [x] + xs)
  }

  function RunDirect(m: Memory, ops: seq<Access>): (Memory, seq<nat>)
    decreases |ops|
  {
    if ops == [] then (m, [])
    else
      var (m1, x) := Direct(m, ops[0]);
      var (m2, xs) := RunDirect(m1, ops[1..]);
      (m2, [x] + xs)
  }

  lemma AccessAgrees(w: Window, c: Cache, m: Memory, op: Access)
    requires IsWindow(w) && Sound(w, c) && Natural(op.address, op.width)
    requires !WrapsElsewhere(w, c, op.address, op.width)
    ensures Through(w, c, m, op) == Direct(m, op)
    ensures Sound(w, Remapped(w, c, op.address, op.width))
  {
    TranslationIff(w, c, op.address, op.width);
    var d := Remapped(w, c, op.address, op.width);
    ReachesLeads(w, d, op.address, op.width, 0);
    var slot, at := Programmed(w.config, WindowRegion(w, d.current)), Local(w, d, op.address);
    ThroughIsFlat(w.config, slot, m, at, op.address, op.width, if op.Store? then op.value else 0);
  }

  /** Naturally aligned accesses, none of which is the last of the 64-bit space under another window. */
  predicate NeverWraps(w: Window, c: Cache, ops: seq<Access>)
    requires w.size > 0
    decreases |ops|
  {
    ops == []
    || (var op := ops[0];
        && Natural(op.address, op.width) && !WrapsElsewhere(w, c, op.address, op.width)
        && NeverWraps(w, Remapped(w, c, op.address, op.width), ops[1..]))
  }

  /** Every such sequence of accesses through the window behaves as on flat memory. */
  lemma {:induction false} WindowAgreesWithFlat(w: Window, c: Cache, m: Memory, ops: seq<Access>)
    requires IsWindow(w) && Sound(w, c) && NeverWraps(w, c, ops)
    ensures RunThrough(w, c, m, ops) == RunDirect(m, ops)
    decreases |ops|
  {
    if ops != [] {
      AccessAgrees(w, c, m, ops[0]);
      WindowAgreesWithFlat(w, Remapped(w, c, ops[0].address, ops[0].width), Direct(m, ops[0]).0, ops[1..]);
    }
  }

  /** In particular if no access touches the last byte of the space. */
  lemma {:induction false} OrdinaryNeverWraps(w: Window, c: Cache, ops: seq<Access>)
    requires w.size > 0 && forall op <- ops :: Ordinary(op)
    ensures NeverWraps(w, c, ops)
    decreases |ops|
  {
    if ops != [] {
      assert Ordinary(ops[0]);
      OrdinaryNeverWraps(w, Remapped(w, c, ops[0].address, ops[0].width), ops[1..]);
    }
  }

  // ---- The module ----

  /** Slot i is enabled for the window's owner and maps the window at this base, with the window's attributes. */
  ghost predicate Programs(w: Window, d: Device, i: nat, base: nat)
    reads d
  {
    && i < |d.enabled| && i < |d.owners| && i < |d.regions| && i < |d.slots|
    && d.enabled[i] && d.owners[i] == w.owner && d.slots[i].bus == w.attributes % 0x1_0000
    && d.regions[i].logical == w.address && d.regions[i].physical == base && d.regions[i].size == w.size
  }

  lemma AttributesKept(w: Window, base: nat)
    requires IsConfig(w.config)
    ensures Programmed(w.config, WindowRegion(w, base)).bus == w.attributes % 0x1_0000
  {
  }

  class Mmio {
    const device: Device
    const window: Window
    var current: nat
    var index: nat
    var mapped: bool
    /** Physical memory. */
    var memory: Memory

    function View(): Cache
      reads this
    {
      Cache(mapped, current)
    }

    /** The window's slot is as the cache says, and no other enabled slot covers an address of the window. */
    ghost predicate Valid(outside: set<nat>)
      reads this, device
    {
      && IsWindow(window) && device.config == window.config && device.Valid(outside) && Sound(window, View())
      && Placed(window, device.View(), View(), index)
    }

    constructor (d: Device, w: Window, m: Memory, ghost outside: set<nat>)
      requires IsWindow(w) && d.config == w.config && d.Valid(outside) && Placed(w, d.View(), Cache(false, 0), 0)
      ensures device == d && window == w && memory == m && !mapped && Valid(outside)
    {
      device, window, memory := d, w, m;
      current, index, mapped := 0, 0, false;
    }

    /** Removes the window's region if it is mapped, and maps it at another base; both succeed. */
    method Remap(base: nat, ghost outside: set<nat>)
      requires Valid(outside) && Sound(window, Cache(true, base))
      modifies this`current, this`index, this`mapped, device
      ensures Valid(outside) && View() == Cache(true, base)
      ensures Programs(window, device, index, base)
    {
      AttributesKept(window, base);
      hide Exclusive, Inv, Countable, Added, Removed;
      if mapped {
        WindowFreed(window, device.View(), View(), index, outside);
        var removed := device.RemoveRegion(index, window.owner, outside);
        assert removed == SUCCESS;
        mapped := false;
      }
      WindowTaken(window, device.View(), View(), index, base, outside);
      RegionIsGood(window, base);
      InvIsCountable(device.config, device.View(), outside);
      var status;
      status, index := device.AddRegion(WindowRegion(window, base), true, outside);
      assert status == SUCCESS;
      mapped := true;
      current := base;
    }

    /** Maps the window around the address, unless the access lies in the mapped one already. */
    method MapRegion(address: nat, n: nat, ghost outside: set<nat>) returns (local: nat)
      requires Valid(outside) && Natural(address, n)
      modifies this`current, this`index, this`mapped, device
      ensures Valid(outside) && View() == Remapped(window, old(View()), address, n) && mapped
      ensures local == Local(window, View(), address)
    {
      hide Reaches, Placed;
      TranslationIff(window, View(), address, n);
      if !IsAddrMapped(window, View(), address, n) {
        Remap(address - address % window.size, outside);
      }
      local := (window.address + address - current) % WORD;
    }

    /**
     Outside the wrapping family the value is the one at the physical address, and every byte of
     the access is covered by the window's slot alone; in the family the slot does not cover it.
     */
    method ReadValue(address: nat, n: nat, ghost outside: set<nat>) returns (value: nat)
      requires Valid(outside) && Natural(address, n)
      modifies this`current, this`index, this`mapped, device
      ensures Valid(outside) && View() == Remapped(window, old(View()), address, n)
      ensures if WrapsElsewhere(window, old(View()), address, n) then !Reaches(window, View(), address, n)
        else value == Read(memory, address, n)
             && var at := Local(window, View(), address);
                forall k :: at <= k < at + n ==> OnlyRoute(device.config, device.View(), index, k)
    {
      ghost var c := View();
      var local := MapRegion(address, n, outside);
      TranslationIff(window, c, address, n);
      if !WrapsElsewhere(window, c, address, n) {
        AccessAgrees(window, c, memory, Load(address, n));
        InsideAfter(window, c, address, n);
        Routed(window, device.View(), View(), index, outside, address, n);
        RoutedIsThrough(device.config, device.View(), index, memory, local, n, 0);
      }
      value := ReadRouted(device.config, device.View(), memory, local, n);
    }

    method WriteValue(address: nat, value: nat, n: nat, ghost outside: set<nat>)
      requires Valid(outside) && Natural(address, n)
      modifies this, device
      ensures Valid(outside) && View() == Remapped(window, old(View()), address, n)
      ensures if WrapsElsewhere(window, old(View()), address, n) then !Reaches(window, View(), address, n)
        else memory == Write(old(memory), address, n, value)
             && var at := Local(window, View(), address);
                forall k :: at <= k < at + n ==> OnlyRoute(device.config, device.View(), index, k)
    {
      ghost var c := View();
      var local := MapRegion(address, n, outside);
      TranslationIff(window, c, address, n);
      if !WrapsElsewhere(window, c, address, n) {
        AccessAgrees(window, c, memory, Store(address, n, value));
        InsideAfter(window, c, address, n);
        Routed(window, device.View(), View(), index, outside, address, n);
        RoutedIsThrough(device.config, device.View(), index, memory, local, n, value);
      }
      memory := WriteRouted(device.config, device.View(), memory, local, n, value);
    }
  }

  /** Every byte of an access inside the window goes through the window's slot and no other. */
  lemma Routed(w: Window, u: Unit, c: Cache, index: nat, outside: set<nat>, address: nat, n: nat)
    requires IsWindow(w) && Inv(w.config, u, outside) && Placed(w, u, c, index) && Sound(w, c)
    requires c.mapped && n > 0 && c.current <= address && address + n <= c.current + w.size
    ensures index < w.config.max && u.slots[index] == Programmed(w.config, WindowRegion(w, c.current))
    ensures var at := Local(w, c, address); forall k :: at <= k < at + n ==> OnlyRoute(w.config, u, index, k)
  {
    assert Slotted(w.config, u, outside, index);
    RegionIsGood(w, c.current);
    hide Covers, Programmed, Translate, Inv, Aligned;
    var at := Local(w, c, address);
    assert at == w.address + address - c.current;
    forall k | at <= k < at + n
      ensures OnlyRoute(w.config, u, index, k)
    {
      MapsRegion(w.config, WindowRegion(w, c.current), k);
    }
  }

  /** After the remap the access lies in the mapped window. */
  lemma InsideAfter(w: Window, c: Cache, address: nat, n: nat)
    requires IsWindow(w) && Sound(w, c) && Natural(address, n) && !WrapsElsewhere(w, c, address, n)
    ensures var d := Remapped(w, c, address, n); d.mapped && d.current <= address && address + n <= d.current + w.size
  {
    if IsAddrMapped(w, c, address, n) {
      MappedIsInside(w, c, address, n);
    } else {
      WithinWindow(address, n, w);
      DivMod(address, w.size);
    }
  }

  /** No enabled slot, other than the window's own, covers an address of the window. */
  ghost predicate Exclusive(w: Window, u: Unit, c: Cache, index: nat)
    requires IsConfig(w.config) && Sized(w.config, u)
  {
    forall j: nat, a: nat ::
      (j < w.config.max && u.enabled[j] && !(c.mapped && j == index) && w.address <= a < w.address + w.size
       ==> !Covers(w.config, u.slots[j], a))
  }

  ghost predicate Placed(w: Window, u: Unit, c: Cache, index: nat) {
    && IsConfig(w.config) && Sized(w.config, u) && Exclusive(w, u, c, index)
    && (c.mapped ==> index < w.config.max && u.owners[index] == w.owner && u.regions[index] == WindowRegion(w, c.current))
    && (!c.mapped ==> FirstFree(u.enabled) < w.config.max)
  }

  /** Removing the window's region succeeds and leaves room for another one. */
  lemma WindowFreed(w: Window, u: Unit, c: Cache, index: nat, outside: set<nat>)
    requires IsWindow(w) && Inv(w.config, u, outside) && Placed(w, u, c, index) && c.mapped
    ensures RemoveStatus(w.config, u, index, w.owner) == SUCCESS
    ensures Placed(w, Removed(w.config, u, index, w.owner), Cache(false, c.current), index)
  {
    assert Slotted(w.config, u, outside, index);
    assert !Removed(w.config, u, index, w.owner).enabled[index];
  }

  /** A managed region that holds the start of the window covers it. */
  lemma StartIsClear(w: Window, u: Unit, c: Cache, index: nat, base: nat, outside: set<nat>, i: nat)
    requires IsWindow(w) && Inv(w.config, u, outside) && Placed(w, u, c, index) && !c.mapped
    requires i < w.config.max && Known(u, i)
    ensures !StartsInside(WindowRegion(w, base), u.regions[i])
  {
    assert Slotted(w.config, u, outside, i);
    var r := u.regions[i];
    if StartsInside(WindowRegion(w, base), r) {
      MapsRegion(w.config, r, w.address);
    }
  }

  /** Adding the window's region succeeds. */
  lemma WindowTaken(w: Window, u: Unit, c: Cache, index: nat, base: nat, outside: set<nat>)
    requires IsWindow(w) && Inv(w.config, u, outside) && Placed(w, u, c, index) && !c.mapped && Sound(w, Cache(true, base))
    ensures AddStatus(w.config, u, WindowRegion(w, base), true) == SUCCESS
    ensures Placed(w, Added(w.config, u, WindowRegion(w, base), true), Cache(true, base), FirstFree(u.enabled))
  {
    RegionIsGood(w, base);
    forall i: nat | i < w.config.max && Known(u, i)
      ensures !StartsInside(WindowRegion(w, base), u.regions[i])
    {
      StartIsClear(w, u, c, index, base, outside, i);
    }
    assert !Clashes(w.config, u, WindowRegion(w, base));
  }
}
