/**
 * The chip on the bus as a mutable object: its register file, the transfers
 * still scripted to fail, the byte a failed read delivers, and the record of
 * the transfers made. Each method changes these fields the way the matching
 * function of `I2C` or `BusIO` maps the bus value before the call to the bus
 * value after it.
 */
module Device {
  import opened Bits
  import opened Registers
  import opened I2C
  import BusIO

  class Device {
    var regs: map<Address, Byte>
    var faults: seq<bool>
    var floating: Byte
    var log: seq<Event>

    /** The device's fields as a bus value. */
    function State(): Bus
      reads this
    {
      Bus(regs, faults, floating, log)
    }

    ghost predicate Valid()
      reads this
    {
      State().Valid()
    }

    constructor(b: Bus)
      ensures State() == b
    {
      regs := b.regs;
      faults := b.faults;
      floating := b.floating;
      log := b.log;
    }

    /** Uses up one entry of the failure script and records the transfer `t`; `ok` is its outcome. */
    method Perform(t: Transfer) returns (ok: bool)
      modifies this
      ensures State() == Attempt(old(State()), t)
      ensures ok == !old(State()).NextFails()
    {
      ok := |faults| == 0 || !faults[0];
      log := log + [Event(t, ok)];
      faults := if |faults| > 0 then faults[1..] else [];
    }

    /** The address probe. */
    method Probe() returns (ok: bool)
      modifies this
      ensures Reply(ok, State()) == ProbeBus(old(State()))
    {
      ok := Perform(I2C.Probe);
    }

    /** A burst read of `buf.Length` registers from `addr` on into `buf`. */
    method ReadBytes(addr: Address, buf: array<Byte>) returns (ok: bool)
      requires Valid() && addr + buf.Length <= 256
      modifies this, buf
      ensures Valid()
      ensures Reply(Received(ok, buf[..]), State()) == I2C.ReadBytes(old(State()), addr, buf.Length)
    {
      ghost var before := State();
      ok := Perform(Read(addr, buf.Length));
      for i := 0 to buf.Length
        invariant State() == Attempt(before, Read(addr, buf.Length))
        invariant forall k :: 0 <= k < i ==> buf[k] == if ok then before.regs[addr + k] else before.floating
      {
        buf[i] := if ok then regs[addr + i] else floating;
      }
      assert buf[..] == I2C.ReadBytes(before, addr, buf.Length).value.data;
    }

    /** A burst write of `data` from `addr` on; the registers change only if the write completes. */
    method WriteBytes(addr: Address, data: seq<Byte>) returns (ok: bool)
      requires Valid() && addr + |data| <= 256
      modifies this
      ensures Valid()
      ensures Reply(ok, State()) == I2C.WriteBytes(old(State()), addr, data)
    {
      ok := Perform(Write(addr, data));
      if ok {
        regs := Store(regs, addr, data);
      }
    }

    method ReadRegister(addr: Address) returns (v: Byte)
      requires Valid()
      modifies this
      ensures Valid()
      ensures Reply(v, State()) == BusIO.ReadRegister(old(State()), addr)
    {
      var buf := new Byte[1];
      var _ := ReadBytes(addr, buf);
      v := buf[0];
    }

    method ReadRegister16(addr: Address) returns (w: Word)
      requires Valid() && addr < 255
      modifies this
      ensures Valid()
      ensures Reply(w, State()) == BusIO.ReadRegister16(old(State()), addr)
    {
      var buf := new Byte[2];
      var _ := ReadBytes(addr, buf);
      w := LittleEndian(buf[0], buf[1]);
    }

    method WriteRegister(addr: Address, v: Byte) returns (ok: bool)
      requires Valid()
      modifies this
      ensures Valid()
      ensures Reply(ok, State()) == BusIO.WriteRegister(old(State()), addr, v)
    {
      ok := WriteBytes(addr, [v]);
    }

    method WriteRegister16(addr: Address, w: Word) returns (ok: bool)
      requires Valid() && addr < 255
      modifies this
      ensures Valid()
      ensures Reply(ok, State()) == BusIO.WriteRegister16(old(State()), addr, w)
    {
      ok := WriteBytes(addr, [Lo(w), Hi(w)]);
    }

    method ReadField(f: BusIO.Field) returns (v: Byte)
      requires Valid() && f.Valid()
      modifies this
      ensures Valid()
      ensures Reply(v, State()) == BusIO.ReadField(old(State()), f)
    {
      var whole := ReadRegister(f.reg);
      v := GetBits(whole, f.width, f.offset);
    }

    /** Read-modify-write: the write goes ahead even when the read failed. */
    method WriteField(f: BusIO.Field, v: Byte) returns (ok: bool)
      requires Valid() && f.Valid()
      modifies this
      ensures Valid()
      ensures Reply(ok, State()) == BusIO.WriteField(old(State()), f, v)
    {
      var whole := ReadRegister(f.reg);
      ok := WriteRegister(f.reg, SetBits(whole, f.width, f.offset, v));
    }
  }
}
