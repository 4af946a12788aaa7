/**
 * Register and bit-field access over the bus, the way the driver uses its
 * register library: a register of one byte or a 16-bit LSB-first pair read
 * or written in one transfer, and a bit field read by reading its register,
 * or written by reading the register, splicing the field in and writing the
 * whole byte back (read-modify-write). The write goes ahead even when the
 * read failed, with the splice made into the bytes the failed read delivered.
 */
module BusIO {
  import opened Bits
  import opened Registers
  import opened I2C

  /** A bit field: `width` bits at bit `offset` of register `reg`. */
  datatype Field = Field(reg: Address, width: Byte, offset: Byte)
  {
    predicate Valid()
    {
      Fits(width, offset)
    }
  }

  /** A one-byte register. */
  function ReadRegister(b: Bus, addr: Address): (r: Reply<Byte>)
    requires b.Valid()
    ensures r.bus == Attempt(b, Read(addr, 1)) && r.bus.Valid()
    ensures r.value == if b.NextFails() then b.floating else b.regs[addr]
  {
    var got := ReadBytes(b, addr, 1);
    Reply(got.value.data[0], got.bus)
  }

  /** A two-byte register, least significant byte at `addr`. */
  function ReadRegister16(b: Bus, addr: Address): (r: Reply<Word>)
    requires b.Valid() && addr < 255
    ensures r.bus == Attempt(b, Read(addr, 2)) && r.bus.Valid()
    ensures !b.NextFails() ==> Lo(r.value) == b.regs[addr] && Hi(r.value) == b.regs[addr + 1]
    ensures b.NextFails() ==> Lo(r.value) == b.floating && Hi(r.value) == b.floating
  {
    var got := ReadBytes(b, addr, 2);
    Reply(LittleEndian(got.value.data[0], got.value.data[1]), got.bus)
  }

  function WriteRegister(b: Bus, addr: Address, v: Byte): (r: Reply<bool>)
    requires b.Valid()
    ensures r.bus.Valid() && r.bus == Attempt(b, Write(addr, [v])).(regs := r.bus.regs)
    ensures r.value == !b.NextFails()
    ensures r.bus.regs == if r.value then b.regs[addr := v] else b.regs
  {
    var r := WriteBytes(b, addr, [v]);
    assert r.value ==> r.bus.regs == b.regs[addr := v];
    r
  }

  function WriteRegister16(b: Bus, addr: Address, w: Word): (r: Reply<bool>)
    requires b.Valid() && addr < 255
    ensures r.bus.Valid() && r.bus == Attempt(b, Write(addr, [Lo(w), Hi(w)])).(regs := r.bus.regs)
    ensures r.value == !b.NextFails()
    ensures r.bus.regs == if r.value then b.regs[addr := Lo(w)][addr + 1 := Hi(w)] else b.regs
  {
    var r := WriteBytes(b, addr, [Lo(w), Hi(w)]);
    assert r.value ==> r.bus.regs == b.regs[addr := Lo(w)][addr + 1 := Hi(w)];
    r
  }

  function ReadField(b: Bus, f: Field): (r: Reply<Byte>)
    requires b.Valid() && f.Valid()
    ensures r.bus == Attempt(b, Read(f.reg, 1)) && r.bus.Valid()
    ensures r.value <= Mask(f.width)
  {
    var got := ReadRegister(b, f.reg);
    Reply(GetBits(got.value, f.width, f.offset), got.bus)
  }

  function WriteField(b: Bus, f: Field, v: Byte): (r: Reply<bool>)
    requires b.Valid() && f.Valid()
    ensures r.bus.Valid() && r.bus.floating == b.floating
    ensures forall i: nat :: r.bus.Succeeds(i) == b.Succeeds(i + 2)
  {
    var got := ReadRegister(b, f.reg);
    WriteRegister(got.bus, f.reg, SetBits(got.value, f.width, f.offset, v))
  }

  /**
   * A field write is a read of its register followed by a write of it, and it
   * reports the write's outcome.
   */
  lemma WriteFieldTransfers(b: Bus, f: Field, v: Byte)
    requires b.Valid() && f.Valid()
    ensures var r := WriteField(b, f, v);
      && r.value == b.Succeeds(1)
      && |r.bus.log| == |b.log| + 2
      && r.bus.log[..|b.log| + 1] == b.log + [Event(Read(f.reg, 1), b.Succeeds(0))]
      && r.bus.log[|b.log| + 1].transfer.Write?
      && r.bus.log[|b.log| + 1].transfer.addr == f.reg
      && r.bus.log[|b.log| + 1].ok == r.value
  {
    var got := ReadRegister(b, f.reg);
    var spliced := SetBits(got.value, f.width, f.offset, v);
    var r := WriteRegister(got.bus, f.reg, spliced);
    assert got.bus.NextFails() == !b.Succeeds(1);
    assert r.bus.log == b.log + [Event(Read(f.reg, 1), b.Succeeds(0))] + [Event(Write(f.reg, [spliced]), r.value)];
  }

  /** The event `e` is a one-byte write of register `f.reg` whose field `f` holds `v`. */
  predicate WritesField(e: Event, f: Field, v: Byte)
    requires f.Valid()
  {
    && e.transfer.Write? && e.transfer.addr == f.reg && |e.transfer.data| == 1
    && GetBits(e.transfer.data[0], f.width, f.offset) == v
  }

  /** The byte a field write sends has the field set to `v`, cut to the field's width. */
  lemma WriteFieldWrites(b: Bus, f: Field, v: Byte)
    requires b.Valid() && f.Valid()
    ensures var log := WriteField(b, f, v).bus.log;
      |log| == |b.log| + 2 && WritesField(log[|b.log| + 1], f, v & Mask(f.width))
  {
    var got := ReadRegister(b, f.reg);
    var spliced := SetBits(got.value, f.width, f.offset, v);
    var r := WriteRegister(got.bus, f.reg, spliced);
    assert r.bus.log[|b.log| + 1] == Event(Write(f.reg, [spliced]), r.value);
  }

  /** A field write changes only its own register, and only if the write completes. */
  lemma WriteFieldFrame(b: Bus, f: Field, v: Byte)
    requires b.Valid() && f.Valid()
    ensures var r := WriteField(b, f, v);
      && r.value == b.Succeeds(1)
      && (forall a: Address :: a != f.reg ==> r.bus.regs[a] == b.regs[a])
      && (!r.value ==> r.bus.regs == b.regs)
      && (r.value ==> r.bus.regs[f.reg] == SetBits(ReadRegister(b, f.reg).value, f.width, f.offset, v))
  {
    var got := ReadRegister(b, f.reg);
    assert got.bus.NextFails() == !b.Succeeds(1);
  }

  /**
   * After a completed field write the field holds `v` cut to the field's
   * width, and the register's other bits are as they were when the read
   * completed, or as the failed read delivered them otherwise.
   */
  lemma WriteFieldEffect(b: Bus, f: Field, v: Byte)
    requires b.Valid() && f.Valid()
    requires WriteField(b, f, v).value
    ensures var after := WriteField(b, f, v).bus.regs[f.reg];
      && GetBits(after, f.width, f.offset) == v & Mask(f.width)
      && var before := if b.Succeeds(0) then b.regs[f.reg] else b.floating;
         after & !FieldMask(f.width, f.offset) == before & !FieldMask(f.width, f.offset)
  {
    WriteFieldFrame(b, f, v);
  }

  /** When the field write and the next read both complete, the read gives back what was written. */
  lemma FieldRoundTrip(b: Bus, f: Field, v: Byte)
    requires b.Valid() && f.Valid()
    requires WriteField(b, f, v).value && WriteField(b, f, v).bus.Succeeds(0)
    ensures ReadField(WriteField(b, f, v).bus, f).value == v & Mask(f.width)
  {
    WriteFieldFrame(b, f, v);
    WriteFieldEffect(b, f, v);
  }

  /** When a 16-bit register write and the next read of it both complete, the read gives back the word. */
  lemma Register16RoundTrip(b: Bus, addr: Address, w: Word)
    requires b.Valid() && addr < 255
    requires WriteRegister16(b, addr, w).value && WriteRegister16(b, addr, w).bus.Succeeds(0)
    ensures ReadRegister16(WriteRegister16(b, addr, w).bus, addr).value == w
  {
    var after := WriteRegister16(b, addr, w).bus;
    var got := ReadRegister16(after, addr).value;
    assert Lo(got) == Lo(w) && Hi(got) == Hi(w);
    LittleEndianOfBytes(got);
    LittleEndianOfBytes(w);
  }
}
