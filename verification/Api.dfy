/** Resource arithmetic and the VM description, with the widths the Go code uses made explicit. */
module Api {

  datatype Option<+T> = None | Some(value: T)

  const U16: nat := 0x1_0000
  const U32: nat := 0x1_0000_0000
  const U64: nat := 0x1_0000_0000_0000_0000

  function MinInt(a: int, b: int): (m: int) {
    if a < b then a else b
  }

  function MaxInt(a: int, b: int): (m: int) {
    if a > b then a else b
  }

  /** vcpu is a uint32 of milli-CPUs and mem a uint64 of bytes; wrap-around is written where it can occur. */
  datatype Resources = Resources(vcpu: nat, mem: nat) {

    predicate Leq(cmp: Resources) {
      vcpu <= cmp.vcpu && mem <= cmp.mem
    }

    predicate HasFieldGreaterThan(cmp: Resources) {
      vcpu > cmp.vcpu || mem > cmp.mem
    }

    predicate HasFieldLessThan(cmp: Resources) {
      cmp.HasFieldGreaterThan(this)
    }

    function Min(cmp: Resources): (r: Resources) {
      Resources(MinInt(vcpu, cmp.vcpu), MinInt(mem, cmp.mem))
    }

    function Max(cmp: Resources): (r: Resources) {
      Resources(MaxInt(vcpu, cmp.vcpu), MaxInt(mem, cmp.mem))
    }

    function Add(other: Resources): (r: Resources) {
      Resources((vcpu + other.vcpu) % U32, (mem + other.mem) % U64)
    }

    function SaturatingSub(other: Resources): (r: Resources) {
      Resources(if vcpu >= other.vcpu then vcpu - other.vcpu else 0,
                if mem >= other.mem then mem - other.mem else 0)
    }

    /** The factor is a uint16. */
    function Mul(factor: nat): (r: Resources) {
      Resources((factor * vcpu) % U32, (factor * mem) % U64)
    }

    predicate NonZero() {
      vcpu != 0 && mem != 0
    }
  }

  datatype VmInfo = VmInfo(
    cpuMin: nat, cpuMax: nat, cpuUse: nat,
    memMin: nat, memMax: nat, memUse: nat,
    slotSize: nat)
  {
    function Using(): (r: Resources) {
      Resources(cpuUse, (slotSize * memUse) % U64)
    }

    function MinResources(): (r: Resources) {
      Resources(cpuMin, (slotSize * memMin) % U64)
    }

    function MaxResources(): (r: Resources) {
      Resources(cpuMax, (slotSize * memMax) % U64)
    }

    function SetUsing(r: Resources): (vm: VmInfo)
      requires slotSize > 0
    {
      this.(cpuUse := r.vcpu, memUse := (r.mem / slotSize) % U16)
    }

    /** Slot counts are uint16 and no slot product wraps a uint64. */
    ghost predicate Sized() {
      && slotSize > 0
      && slotSize * 0xFFFF < U64
      && memMin < U16 && memMax < U16 && memUse < U16
    }
  }

  /** m is a whole number of slots. */
  ghost predicate Aligned(m: nat, slot: nat)
  {
    exists k: nat :: m == slot * k
  }

  lemma ProductBound(slot: nat, k: nat, n: nat)
    requires k <= n
    ensures slot * k <= slot * n
  {
  }

  lemma SlotsExact(slot: nat, n: nat)
    requires slot * 0xFFFF < U64 && n < U16
    ensures (slot * n) % U64 == slot * n <= slot * 0xFFFF
    ensures Aligned(slot * n, slot)
  {
    ProductBound(slot, n, 0xFFFF);
    SmallModulus(slot * n, U64);
  }

  /** A sized VM's memory figures are exact products. */
  lemma UsingExact(vm: VmInfo)
    requires vm.Sized()
    ensures vm.Using().mem == vm.slotSize * vm.memUse <= vm.slotSize * 0xFFFF
    ensures vm.MinResources().mem == vm.slotSize * vm.memMin <= vm.slotSize * 0xFFFF
    ensures vm.MaxResources().mem == vm.slotSize * vm.memMax <= vm.slotSize * 0xFFFF
    ensures Aligned(vm.Using().mem, vm.slotSize)
    ensures Aligned(vm.MinResources().mem, vm.slotSize)
    ensures Aligned(vm.MaxResources().mem, vm.slotSize)
  {
    SlotsExact(vm.slotSize, vm.memUse);
    SlotsExact(vm.slotSize, vm.memMin);
    SlotsExact(vm.slotSize, vm.memMax);
  }

  lemma Cancel(slot: nat, a: nat, b: nat)
    requires slot * a < slot * b + slot
    ensures a <= b
  {
    assert slot * b + slot == slot * (b + 1);
    if a > b {
      ProductBound(slot, b + 1, a);
    }
  }

  lemma DivisionFacts(m: nat, slot: nat)
    requires slot > 0
    ensures slot * (m / slot) <= m < slot * (m / slot) + slot
  {
    assert m == slot * (m / slot) + m % slot;
  }

  lemma AlignedBelow(x: nat, m: nat, slot: nat)
    requires slot > 0 && Aligned(x, slot) && x <= m
    ensures x <= slot * (m / slot)
  {
    var k: nat :| x == slot * k;
    DivisionFacts(m, slot);
    Cancel(slot, k, m / slot);
    ProductBound(slot, k, m / slot);
  }

  /** The memory that `m` bytes become once counted in slots. */
  function WholeSlots(m: nat, slot: nat): (w: nat)
    requires slot > 0
  {
    slot * (m / slot)
  }

  lemma SetUsingMemory(vm: VmInfo, r: Resources)
    requires vm.Sized() && r.mem <= vm.slotSize * 0xFFFF
    ensures vm.SetUsing(r).Sized()
    ensures vm.SetUsing(r).Using() == Resources(r.vcpu, WholeSlots(r.mem, vm.slotSize))
  {
    var q := r.mem / vm.slotSize;
    DivisionFacts(r.mem, vm.slotSize);
    Cancel(vm.slotSize, q, 0xFFFF);
    SmallModulus(q, U16);
    SlotsExact(vm.slotSize, q);
  }

  /**
   * What the VM uses once it has been told to use `r`: the CPU exactly, the memory rounded down to a
   * whole slot, which is the largest aligned amount that `r` allows.
   */
  lemma SetUsingLands(vm: VmInfo, r: Resources)
    requires vm.Sized() && r.mem <= vm.slotSize * 0xFFFF
    ensures vm.SetUsing(r).Using().Leq(r)
    ensures vm.SetUsing(r).Using().vcpu == r.vcpu
    ensures forall x: nat :: Aligned(x, vm.slotSize) && x <= r.mem ==> x <= vm.SetUsing(r).Using().mem
  {
    var u := vm.SetUsing(r).Using();
    SetUsingMemory(vm, r);
    DivisionFacts(r.mem, vm.slotSize);
    forall x: nat | Aligned(x, vm.slotSize) && x <= r.mem
      ensures x <= u.mem
    {
      AlignedBelow(x, r.mem, vm.slotSize);
    }
  }

  lemma DivisionOfProduct(slot: nat, k: nat)
    requires slot > 0
    ensures (slot * k) / slot == k
  {
    DivisionFacts(slot * k, slot);
    Cancel(slot, k, (slot * k) / slot);
    Cancel(slot, (slot * k) / slot, k);
  }

  /** Reading the usage back and setting it again changes nothing. */
  lemma SetUsingRoundTrip(vm: VmInfo)
    requires vm.Sized()
    ensures vm.SetUsing(vm.Using()) == vm
  {
    UsingExact(vm);
    DivisionOfProduct(vm.slotSize, vm.memUse);
  }

  lemma SmallModulus(n: nat, width: nat)
    requires n < width
    ensures n % width == n
  {
  }
}
