/** The address phase of `ad7708.c`: `ad7708_setNextOperation` rewrites the
    command fields of the device's communications-register image, then sends
    that one byte to the chip inside a chip-select frame, and reports whether
    the bus accepted it. The chip-select pin and the SPI peripheral are
    outside the model: pin writes and transmit calls are recorded in a
    ghost trace of bus events, and what the SPI transmit answers is an input
    of the operation. */
module Ad7708 {
  import opened Bits
  import opened Ad7708Defs

  /** What the HAL SPI transmit answers (HAL_OK .. HAL_TIMEOUT). */
  datatype HalStatus = HalOk | HalError | HalBusy | HalTimeout

  function HalCode(h: HalStatus): (c: Byte)
    ensures c < 4
    ensures c == 0 <==> h == HalOk
  {
    match h
    case HalOk => 0x00
    case HalError => 0x01
    case HalBusy => 0x02
    case HalTimeout => 0x03
  }

  /** Observable effects on the bus: chip-select driven low (selected) or
      high (released), and one call of the SPI transmit with a byte (recorded
      whatever the HAL answers, so a busy or failed transmit is recorded
      too). */
  datatype BusEvent = CsLow | CsHigh | Tx(data: Byte)

  /** The driver status spiTransmit reports for a HAL answer: anything but
      HAL_OK is an error, whatever kind of failure the HAL names. */
  function TransmitStatus(h: HalStatus): (s: StatusType)
    ensures s == Ok <==> h == HalOk
    ensures s == Ok || s == Error
  {
    if HalCode(h) != StatusCode(Ok) then Error else Ok
  }

  /** The communications-register image after the three field assignments of
      the address phase: WEN := 0, RW := rw, addr := reg. */
  function AddressPhaseCommand(comm: Byte, reg: SelectedReg, rw: Byte): (r: Byte)
    ensures Get(r, CommLayout(Wen)) == 0
    ensures Get(r, CommLayout(Rw)) == rw & 1
    ensures Get(r, CommLayout(Addr)) == AddressCode(reg)
    ensures Get(r, CommLayout(Zeros)) == Get(comm, CommLayout(Zeros))
  {
    var disabled := Set(comm, CommLayout(Wen), 0);
    var directed := Set(disabled, CommLayout(Rw), rw);
    Set(directed, CommLayout(Addr), AddressCode(reg))
  }

  /** From a zeroed image the command byte is reg + 64 rw, for both
      direction constants; in general the RW bit takes the low bit of rw. */
  lemma AddressPhaseFromZero(reg: SelectedReg, rw: Byte)
    ensures AddressPhaseCommand(0, reg, rw) == AddressCode(reg) + 64 * (rw & 1)
    ensures rw == READ || rw == WRITE ==>
              AddressPhaseCommand(0, reg, rw) as int == AddressCode(reg) as int + 64 * rw as int
  {
  }

  /** The command byte depends on the old image only through z1 and z2:
      the rest of it is overwritten. */
  lemma AddressPhaseKeepsOnlyZeros(c1: Byte, c2: Byte, reg: SelectedReg, rw: Byte)
    ensures Get(c1, CommLayout(Zeros)) == Get(c2, CommLayout(Zeros)) <==>
              AddressPhaseCommand(c1, reg, rw) == AddressPhaseCommand(c2, reg, rw)
  {
    var r1, r2 := AddressPhaseCommand(c1, reg, rw), AddressPhaseCommand(c2, reg, rw);
    CommBitsComposeByte(r1);
    CommBitsComposeByte(r2);
    CommMergedIsBits(r1);
    CommMergedIsBits(r2);
  }

  /** Repeating the address phase for the same register and direction
      transmits the same byte. */
  lemma AddressPhaseIdempotent(comm: Byte, reg: SelectedReg, rw: Byte)
    ensures var once := AddressPhaseCommand(comm, reg, rw);
      AddressPhaseCommand(once, reg, rw) == once
  {
    var once := AddressPhaseCommand(comm, reg, rw);
    AddressPhaseKeepsOnlyZeros(once, comm, reg, rw);
  }

  /** The chip, decoding the transmitted byte with the register selection
      table, selects the register the caller named, provided that the
      direction is one that register is reached with (address 0 is the
      communications register when written and the status register when
      read). */
  lemma AddressPhaseSelects(comm: Byte, reg: SelectedReg, rw: Byte)
    requires ReachableWith(reg, rw & 1)
    ensures var cmd := AddressPhaseCommand(comm, reg, rw);
      SelectedRegAt(Get(cmd, CommLayout(Addr)), Get(cmd, CommLayout(Rw))) == reg
  {
    SelectedRegAtAddressCode(reg, rw & 1);
  }

  /** The events of one address phase that transmits `cmd`. */
  function AddressPhaseFrame(cmd: Byte): seq<BusEvent> {
    [CsLow, Tx(cmd), CsHigh]
  }

  /** The trace is a sequence of complete address-phase frames: chip-select
      is driven low, the transmit is called once, chip-select is released. */
  predicate Framed(t: seq<BusEvent>)
    decreases |t|
  {
    t == [] || (|t| >= 3 && t[0] == CsLow && t[1].Tx? && t[2] == CsHigh && Framed(t[3..]))
  }

  /** The number of occurrences of `e` in `t`. */
  function Occurrences(t: seq<BusEvent>, e: BusEvent): nat {
    if t == [] then 0 else (if t[0] == e then 1 else 0) + Occurrences(t[1..], e)
  }

  /** Frames compose: a framed trace followed by a framed trace is framed. */
  lemma {:induction false} FramedAppend(t: seq<BusEvent>, u: seq<BusEvent>)
    requires Framed(t) && Framed(u)
    ensures Framed(t + u)
    decreases |t|
  {
    if t == [] {
      assert t + u == u;
    } else {
      var tu := t + u;
      assert tu[0] == CsLow && tu[1].Tx? && tu[2] == CsHigh;
      assert tu[3..] == t[3..] + u;
      FramedAppend(t[3..], u);
      assert Framed(tu[3..]);
    }
  }

  /** In a framed trace chip-select is driven low as often as it is
      released, once per frame, and the chip is released at the end. */
  lemma {:induction false} FramedBalanced(t: seq<BusEvent>)
    requires Framed(t)
    ensures Occurrences(t, CsLow) == Occurrences(t, CsHigh) == |t| / 3
    ensures t != [] ==> t[|t| - 1] == CsHigh
    decreases |t|
  {
    if t != [] {
      var rest := t[3..];
      FramedBalanced(rest);
      var t1 := t[1..];
      var t2 := t1[1..];
      assert t2[1..] == rest;
      assert t1[0].Tx? && t2[0] == CsHigh;
      assert Occurrences(t2, CsLow) == Occurrences(rest, CsLow);
      assert Occurrences(t2, CsHigh) == 1 + Occurrences(rest, CsHigh);
      if |t| > 3 {
        assert t[|t| - 1] == t[3..][|t| - 4];
      }
    }
  }

  /** The device handle (`ad7708_dev`): the bus handle and the register
      images. The delay function pointer is never called by the core and is
      not part of the model. */
  class Device {
    var intf: Byte
    var commReg: Byte
    var ioControlReg: Byte
    var filterReg: Byte
    var controlReg: Byte
    var modeReg: Byte
    /** Every chip-select change and every transmit call, in order. */
    ghost var trace: seq<BusEvent>

    /** Between operations the bus history is complete frames only: the chip
        is never left selected. */
    ghost predicate Valid()
      reads this
    {
      Framed(trace)
    }

    /** A handle whose images the caller has filled in, with no bus
        history yet. */
    constructor (intf: Byte, commReg: Byte, ioControlReg: Byte, filterReg: Byte,
                 controlReg: Byte, modeReg: Byte)
      ensures Valid() && trace == []
      ensures this.intf == intf && this.commReg == commReg
      ensures this.ioControlReg == ioControlReg && this.filterReg == filterReg
      ensures this.controlReg == controlReg && this.modeReg == modeReg
    {
      this.intf := intf;
      this.commReg := commReg;
      this.ioControlReg := ioControlReg;
      this.filterReg := filterReg;
      this.controlReg := controlReg;
      this.modeReg := modeReg;
      trace := [];
    }

    /** Drive the chip-select pin: level 0 selects the chip, any other level
        releases it. A step of SetNextOperation only (a static helper of the
        driver): on its own it leaves a partial frame, so Valid() need not
        hold after it. */
    method SetCs(state: Byte)
      modifies this`trace
      ensures trace == old(trace) + [if state == 0 then CsLow else CsHigh]
    {
      trace := trace + [if state == 0 then CsLow else CsHigh];
    }

    /** Send one byte over the bus; `hal` is what the HAL transmit answers.
        The status is computed step by step as `spiTransmit` does; the
        function TransmitStatus specifies it.
        A step of SetNextOperation only (a static helper of the driver): on
        its own it records a transmit outside a frame, so Valid() need not
        hold after it. */
    method SpiTransmit(data: Byte, hal: HalStatus) returns (status: StatusType)
      modifies this`trace
      ensures trace == old(trace) + [Tx(data)]
      ensures status == TransmitStatus(hal)
    {
      status := Ok;
      trace := trace + [Tx(data)];
      if HalCode(hal) != StatusCode(Ok) {
        status := Error;
      }
    }

    /** `ad7708_setNextOperation`: select register `reg` for direction `rw`
        (READ or WRITE) by the address phase: the three field assignments of
        AddressPhaseCommand on the communications-register image, then one
        chip-select frame around the transmitted image. WEN is left at 0 and
        z1, z2 keep whatever they held; the chip is released whatever the bus
        answered. */
    method SetNextOperation(reg: SelectedReg, rw: Byte, hal: HalStatus) returns (status: StatusType)
      modifies this`commReg, this`trace
      ensures commReg == AddressPhaseCommand(old(commReg), reg, rw)
      ensures trace == old(trace) + AddressPhaseFrame(commReg)
      ensures status == TransmitStatus(hal)
      ensures old(Valid()) ==> Valid()
      ensures intf == old(intf) && ioControlReg == old(ioControlReg) && filterReg == old(filterReg)
      ensures controlReg == old(controlReg) && modeReg == old(modeReg)
    {
      commReg := AddressPhaseCommand(commReg, reg, rw);

      SetCs(0);
      status := SpiTransmit(commReg, hal);
      SetCs(1);

      assert Framed(AddressPhaseFrame(commReg)) by {
        assert AddressPhaseFrame(commReg)[3..] == [];
      }
      if old(Valid()) {
        FramedAppend(old(trace), AddressPhaseFrame(commReg));
      }
    }
  }
}
