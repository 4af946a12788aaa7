/**
 * The two-wire bus and the chip behind it, as the driver sees them: a register
 * file, transfers that may fail, and the record of every transfer attempted.
 *
 * The transport itself is not modelled. Whether a transfer fails is decided
 * by `faults`, a script given with the bus: the i-th transfer from now fails
 * exactly when `faults[i]` is true, and every transfer past its end succeeds.
 */
module I2C {
  import opened Bits
  import opened Registers

  /** One bus transaction: an address probe, a burst read or a burst write. */
  datatype Transfer =
    | Probe
    | Read(addr: Address, count: nat)
    | Write(addr: Address, data: seq<Byte>)

  /** A transfer that was attempted, and whether it completed. */
  datatype Event = Event(transfer: Transfer, ok: bool)

  /**
   * The register file `regs`, the failure script `faults`, the byte a failed
   * read delivers in each position (`floating`), and the transfers made so far.
   */
  datatype Bus = Bus(regs: map<Address, Byte>, faults: seq<bool>, floating: Byte, log: seq<Event>)
  {
    /** Every register address holds a byte. */
    ghost predicate Valid()
    {
      forall a: Address :: a in regs
    }

    /** The `i`-th transfer from now succeeds. */
    predicate Succeeds(i: nat)
    {
      i >= |faults| || !faults[i]
    }

    /** The next transfer fails. */
    predicate NextFails()
    {
      !Succeeds(0)
    }
  }

  /** What an operation returns, with the bus it leaves behind. */
  datatype Reply<T> = Reply(value: T, bus: Bus)

  /** What a burst read delivered: the bytes, and whether the read completed. */
  datatype Received = Received(ok: bool, data: seq<Byte>)

  /** The bus after the transfer `t`: one entry of the script used, one event logged. */
  function Attempt(b: Bus, t: Transfer): (b': Bus)
    ensures b'.regs == b.regs && b'.floating == b.floating
    ensures b'.log == b.log + [Event(t, !b.NextFails())]
    ensures forall i: nat :: b'.Succeeds(i) == b.Succeeds(i + 1)
  {
    b.(faults := if |b.faults| > 0 then b.faults[1..] else [],
       log := b.log + [Event(t, !b.NextFails())])
  }

  /** An address probe (an empty write); true when the chip acknowledges. */
  function ProbeBus(b: Bus): (r: Reply<bool>)
    ensures r.value == !b.NextFails()
    ensures r.bus == Attempt(b, Probe)
  {
    Reply(!b.NextFails(), Attempt(b, Probe))
  }

  /**
   * What the chip sends in a burst of `n` bytes from `addr`: it sends the
   * register at its address pointer and then steps the pointer on by one, so
   * each byte comes from the register after the one before it.
   */
  function Consecutive(regs: map<Address, Byte>, addr: int, n: nat): (data: seq<Byte>)
    requires 0 <= addr && addr + n <= 256
    requires forall a: Address :: a in regs
    ensures |data| == n
    ensures forall i :: 0 <= i < n ==> data[i] == regs[addr + i]
    decreases n
  {
    if n == 0 then [] else [regs[addr]] + Consecutive(regs, addr + 1, n - 1)
  }

  /** The `n` registers from `addr` on, read in one transfer. */
  function ReadBytes(b: Bus, addr: Address, n: nat): (r: Reply<Received>)
    requires b.Valid() && addr + n <= 256
    ensures r.bus == Attempt(b, Read(addr, n)) && r.bus.Valid()
    ensures r.value.ok == !b.NextFails() && |r.value.data| == n
    ensures forall i :: 0 <= i < n ==>
              r.value.data[i] == if r.value.ok then b.regs[addr + i] else b.floating
  {
    var ok := !b.NextFails();
    var data := if ok then Consecutive(b.regs, addr, n) else seq(n, _ => b.floating);
    Reply(Received(ok, data), Attempt(b, Read(addr, n)))
  }

  /** `regs` with the bytes `data` stored from `addr` on. */
  function Store(regs: map<Address, Byte>, addr: Address, data: seq<Byte>): (m: map<Address, Byte>)
    requires addr + |data| <= 256
    ensures m.Keys == regs.Keys
    ensures forall a :: a in regs ==> m[a] == if addr <= a < addr + |data| then data[a - addr] else regs[a]
  {
    map a | a in regs :: if addr <= a < addr + |data| then data[a - addr] else regs[a]
  }

  /** The bytes `data` written from `addr` on in one transfer; the registers change only if it completes. */
  function WriteBytes(b: Bus, addr: Address, data: seq<Byte>): (r: Reply<bool>)
    requires b.Valid() && addr + |data| <= 256
    ensures r.value == !b.NextFails()
    ensures r.bus == Attempt(b, Write(addr, data)).(regs := r.bus.regs) && r.bus.Valid()
    ensures r.bus.regs == if r.value then Store(b.regs, addr, data) else b.regs
  {
    var ok := !b.NextFails();
    var after := Attempt(b, Write(addr, data));
    Reply(ok, if ok then after.(regs := Store(b.regs, addr, data)) else after)
  }
}
