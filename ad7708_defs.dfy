/** The AD7708 register model of `ad7708_defs.h`: the value domains of the
    register fields (register address, operating mode, input range, channel,
    polarity, driver status) and the six one-byte register unions, each with
    its bit view and, where it has one, its merged view. Both views are
    fields of the same byte, so assigning through one is observed through
    the other. Only the 10-channel table (`AD7708_CHCON == 1`) is built. */
module Ad7708Defs {
  import opened Bits

  /** `rw` argument values of the address phase. */
  const READ: Byte := 0x01
  const WRITE: Byte := 0x00

  // ---------------------------------------------------------------------
  // Register selection (the A3..A0 address of the communications register)
  // ---------------------------------------------------------------------

  /** The registers a communications-register address can select. The
      communications register and the status register share address 0: a
      write at address 0 reaches the former, a read the latter. */
  datatype SelectedReg =
    | CommReg | StatusReg | ModeReg | ControlReg | FilterReg | DataReg
    | OffsetReg | GainReg | IoControlReg
    | Undefined | Undefined1 | Undefined2 | Undefined3
    | Test1Reg | Test2Reg | Undefined4 | IdReg

  /** The 4-bit address that selects `r`. */
  function AddressCode(r: SelectedReg): (c: Byte)
    ensures c < 16
    ensures c == 0 <==> r == CommReg || r == StatusReg
  {
    match r
    case CommReg => 0x00
    case StatusReg => 0x00
    case ModeReg => 0x01
    case ControlReg => 0x02
    case FilterReg => 0x03
    case DataReg => 0x04
    case OffsetReg => 0x05
    case GainReg => 0x06
    case IoControlReg => 0x07
    case Undefined => 0x08
    case Undefined1 => 0x09
    case Undefined2 => 0x0A
    case Undefined3 => 0x0B
    case Test1Reg => 0x0C
    case Test2Reg => 0x0D
    case Undefined4 => 0x0E
    case IdReg => 0x0F
  }

  /** The register the chip selects for address `addr` and read/write bit
      `rwBit` (1 reads, 0 writes), per the register selection table. */
  function SelectedRegAt(addr: Byte, rwBit: Byte): (r: SelectedReg)
    requires addr < 16 && rwBit <= 1
    ensures AddressCode(r) == addr
    ensures addr == 0 ==> (r == StatusReg <==> rwBit == READ)
  {
    if addr == 0x00 then (if rwBit == READ then StatusReg else CommReg)
    else if addr == 0x01 then ModeReg
    else if addr == 0x02 then ControlReg
    else if addr == 0x03 then FilterReg
    else if addr == 0x04 then DataReg
    else if addr == 0x05 then OffsetReg
    else if addr == 0x06 then GainReg
    else if addr == 0x07 then IoControlReg
    else if addr == 0x08 then Undefined
    else if addr == 0x09 then Undefined1
    else if addr == 0x0A then Undefined2
    else if addr == 0x0B then Undefined3
    else if addr == 0x0C then Test1Reg
    else if addr == 0x0D then Test2Reg
    else if addr == 0x0E then Undefined4
    else IdReg
  }

  /** The direction under which `r` is reached: the status register is only
      read, the communications register only written; the others take
      either direction. */
  predicate ReachableWith(r: SelectedReg, rwBit: Byte) {
    && (r == StatusReg ==> rwBit == READ)
    && (r == CommReg ==> rwBit == WRITE)
  }

  /** Decoding an address with a direction under which the register is
      reachable gives the register back. */
  lemma {:induction false} SelectedRegAtAddressCode(r: SelectedReg, rwBit: Byte)
    requires rwBit <= 1 && ReachableWith(r, rwBit)
    ensures SelectedRegAt(AddressCode(r), rwBit) == r
  {
    match r
    case CommReg =>
    case StatusReg =>
    case _ =>
      var s := SelectedRegAt(AddressCode(r), rwBit);
      SameNonzeroAddressSameReg(r, s);
  }

  /** A non-zero address names one register only. */
  lemma SameNonzeroAddressSameReg(r: SelectedReg, s: SelectedReg)
    requires AddressCode(r) == AddressCode(s) != 0
    ensures r == s
  {
    match r
    case CommReg =>
    case StatusReg =>
    case ModeReg =>
    case ControlReg =>
    case FilterReg =>
    case DataReg =>
    case OffsetReg =>
    case GainReg =>
    case IoControlReg =>
    case Undefined =>
    case Undefined1 =>
    case Undefined2 =>
    case Undefined3 =>
    case Test1Reg =>
    case Test2Reg =>
    case Undefined4 =>
    case IdReg =>
  }

  /** Two registers share an address exactly when they are the same register
      or are the communications/status pair, so the address alone does not
      say which register of that pair is meant: the direction does. */
  lemma AddressAliasing(r: SelectedReg, s: SelectedReg)
    ensures AddressCode(r) == AddressCode(s) <==>
              r == s || {r, s} == {CommReg, StatusReg}
  {
    if AddressCode(r) == AddressCode(s) && AddressCode(r) != 0 {
      SameNonzeroAddressSameReg(r, s);
    }
  }

  // ---------------------------------------------------------------------
  // Driver status
  // ---------------------------------------------------------------------

  /** The driver's result codes (`AD7708_OK` .. `AD7708_TIMEOUT`). */
  datatype StatusType = Ok | Error | Busy | Timeout

  function StatusCode(s: StatusType): (c: Byte)
    ensures c < 4
    ensures c == 0 <==> s == Ok
  {
    match s
    case Ok => 0x00
    case Error => 0x01
    case Busy => 0x02
    case Timeout => 0x03
  }

  // ---------------------------------------------------------------------
  // Input range
  // ---------------------------------------------------------------------

  /** ADC input range, for a 2.5 V reference. */
  datatype InputRange =
    | Range20mV | Range40mV | Range80mV | Range160mV
    | Range320mV | Range640mV | Range1p28V | Range2p56V

  /** The RN2..RN0 code of a range. */
  function RangeCode(r: InputRange): (c: Byte)
    ensures c < 8
  {
    match r
    case Range20mV => 0x00
    case Range40mV => 0x01
    case Range80mV => 0x02
    case Range160mV => 0x03
    case Range320mV => 0x04
    case Range640mV => 0x05
    case Range1p28V => 0x06
    case Range2p56V => 0x07
  }

  /** The range a 3-bit code denotes. */
  function RangeOf(c: Byte): (r: InputRange)
    requires c < 8
    ensures RangeCode(r) == c
  {
    if c == 0 then Range20mV
    else if c == 1 then Range40mV
    else if c == 2 then Range80mV
    else if c == 3 then Range160mV
    else if c == 4 then Range320mV
    else if c == 5 then Range640mV
    else if c == 6 then Range1p28V
    else Range2p56V
  }

  lemma RangeCodeRoundTrip(r: InputRange)
    ensures RangeOf(RangeCode(r)) == r
  {
    match r
    case Range20mV =>
    case Range40mV =>
    case Range80mV =>
    case Range160mV =>
    case Range320mV =>
    case Range640mV =>
    case Range1p28V =>
    case Range2p56V =>
  }

  /** 2 to the power `n`. */
  function Pow2(n: nat): nat {
    if n == 0 then 1 else 2 * Pow2(n - 1)
  }

  /** The half-span of a range in millivolts (the range is plus or minus
      this value), as the range table lists it. */
  function FullScaleMillivolts(r: InputRange): (mv: nat)
    ensures mv == 20 * Pow2(RangeCode(r) as nat)
  {
    match r
    case Range20mV => 20
    case Range40mV => 40
    case Range80mV => 80
    case Range160mV => 160
    case Range320mV => assert Pow2(4) == 16; 320
    case Range640mV => assert Pow2(5) == 32; 640
    case Range1p28V => assert Pow2(6) == 64; 1280
    case Range2p56V => assert Pow2(7) == 128; 2560
  }

  /** Each step of the range code doubles the span. */
  lemma RangeDoubles(c: Byte)
    requires c < 7
    ensures FullScaleMillivolts(RangeOf(c + 1)) == 2 * FullScaleMillivolts(RangeOf(c))
  {
  }

  // ---------------------------------------------------------------------
  // Channel (10-channel configuration, CHCON = 1)
  // ---------------------------------------------------------------------

  /** Input channel pairs of the 10-channel configuration. */
  datatype Channel =
    | Channel1 | Channel2 | Channel3 | Channel4
    | Channel5 | Channel6 | Channel7 | Channel8
    | Channel1_2 | Channel3_4 | Channel5_6 | Channel7_8
    | Channel9_10 | ChannelCom | Channel9Com | Channel10Com

  /** The CH3..CH0 code of a channel. */
  function ChannelCode(ch: Channel): (c: Byte)
    ensures c < 16
  {
    match ch
    case Channel1 => 0x00
    case Channel2 => 0x01
    case Channel3 => 0x02
    case Channel4 => 0x03
    case Channel5 => 0x04
    case Channel6 => 0x05
    case Channel7 => 0x06
    case Channel8 => 0x07
    case Channel1_2 => 0x08
    case Channel3_4 => 0x09
    case Channel5_6 => 0x0A
    case Channel7_8 => 0x0B
    case Channel9_10 => 0x0C
    case ChannelCom => 0x0D
    case Channel9Com => 0x0E
    case Channel10Com => 0x0F
  }

  /** The channel a 4-bit code denotes. */
  function ChannelOf(c: Byte): (ch: Channel)
    requires c < 16
    ensures ChannelCode(ch) == c
  {
    if c == 0x00 then Channel1
    else if c == 0x01 then Channel2
    else if c == 0x02 then Channel3
    else if c == 0x03 then Channel4
    else if c == 0x04 then Channel5
    else if c == 0x05 then Channel6
    else if c == 0x06 then Channel7
    else if c == 0x07 then Channel8
    else if c == 0x08 then Channel1_2
    else if c == 0x09 then Channel3_4
    else if c == 0x0A then Channel5_6
    else if c == 0x0B then Channel7_8
    else if c == 0x0C then Channel9_10
    else if c == 0x0D then ChannelCom
    else if c == 0x0E then Channel9Com
    else Channel10Com
  }

  lemma ChannelCodeRoundTrip(ch: Channel)
    ensures ChannelOf(ChannelCode(ch)) == ch
  {
    match ch
    case Channel1 =>
    case Channel2 =>
    case Channel3 =>
    case Channel4 =>
    case Channel5 =>
    case Channel6 =>
    case Channel7 =>
    case Channel8 =>
    case Channel1_2 =>
    case Channel3_4 =>
    case Channel5_6 =>
    case Channel7_8 =>
    case Channel9_10 =>
    case ChannelCom =>
    case Channel9Com =>
    case Channel10Com =>
  }

  // ---------------------------------------------------------------------
  // Polarity
  // ---------------------------------------------------------------------

  datatype Polarity = Bipolar | Unipolar

  /** The U/B bit value of a polarity. */
  function PolarityCode(p: Polarity): (c: Byte)
    ensures c < 2
    ensures c == 1 <==> p == Unipolar
  {
    match p
    case Bipolar => 0x00
    case Unipolar => 0x01
  }

  function PolarityOf(c: Byte): (p: Polarity)
    requires c < 2
    ensures PolarityCode(p) == c
  {
    if c == 0 then Bipolar else Unipolar
  }

  // ---------------------------------------------------------------------
  // Operating mode
  // ---------------------------------------------------------------------

  datatype OperatingMode =
    | PowerDown | Idle | SingleConversion | ContinuousConversion
    | InternalZeroCalibration | InternalFullCalibration
    | SystemZeroCalibration | SystemFullCalibration

  /** The MD2..MD0 code of a mode. */
  function ModeCode(m: OperatingMode): (c: Byte)
    ensures c < 8
  {
    match m
    case PowerDown => 0x00
    case Idle => 0x01
    case SingleConversion => 0x02
    case ContinuousConversion => 0x03
    case InternalZeroCalibration => 0x04
    case InternalFullCalibration => 0x05
    case SystemZeroCalibration => 0x06
    case SystemFullCalibration => 0x07
  }

  function ModeOf(c: Byte): (m: OperatingMode)
    requires c < 8
    ensures ModeCode(m) == c
  {
    if c == 0 then PowerDown
    else if c == 1 then Idle
    else if c == 2 then SingleConversion
    else if c == 3 then ContinuousConversion
    else if c == 4 then InternalZeroCalibration
    else if c == 5 then InternalFullCalibration
    else if c == 6 then SystemZeroCalibration
    else SystemFullCalibration
  }

  lemma ModeCodeRoundTrip(m: OperatingMode)
    ensures ModeOf(ModeCode(m)) == m
  {
    match m
    case PowerDown =>
    case Idle =>
    case SingleConversion =>
    case ContinuousConversion =>
    case InternalZeroCalibration =>
    case InternalFullCalibration =>
    case SystemZeroCalibration =>
    case SystemFullCalibration =>
  }

  // ---------------------------------------------------------------------
  // Communications register (CommReg)
  // ---------------------------------------------------------------------

  /** Members of CommReg: the bit view A0..A3, z1, z2, RW, WEN and the merged
      view addr, zeros. */
  datatype CommField = A0 | A1 | A2 | A3 | Z1 | Z2 | Rw | Wen | Addr | Zeros

  function CommLayout(f: CommField): (r: Field)
    ensures Fits(r)
  {
    match f
    case A0 => Field(0, 0x01)
    case A1 => Field(1, 0x02)
    case A2 => Field(2, 0x04)
    case A3 => Field(3, 0x08)
    case Z1 => Field(4, 0x10)
    case Z2 => Field(5, 0x20)
    case Rw => Field(6, 0x40)
    case Wen => Field(7, 0x80)
    case Addr => Field(0, 0x0F)
    case Zeros => Field(4, 0x30)
  }

  /** Assigning a member and reading it back gives the value truncated to the
      member's width. */
  lemma CommSetGet(b: Byte, f: CommField, v: Byte)
    ensures Get(Set(b, CommLayout(f), v), CommLayout(f)) == v & Max(CommLayout(f))
  {
    match f
    case A0 => case A1 => case A2 => case A3 => case Z1 => case Z2 => case Rw =>
    case Wen => case Addr => case Zeros =>
  }

  /** Assigning a member leaves every member that shares no bit with it
      unchanged. */
  lemma CommSetFrame(b: Byte, f: CommField, g: CommField, v: Byte)
    requires Disjoint(CommLayout(f), CommLayout(g))
    ensures Get(Set(b, CommLayout(f), v), CommLayout(g)) == Get(b, CommLayout(g))
  {
    match f
    case A0 => case A1 => case A2 => case A3 => case Z1 => case Z2 => case Rw =>
    case Wen => case Addr => case Zeros =>
  }

  /** The merged members are the bits they cover, lowest bit first. */
  lemma CommMergedIsBits(b: Byte)
    ensures Get(b, CommLayout(Addr)) ==
              Get(b, CommLayout(A0)) + 2 * Get(b, CommLayout(A1))
              + 4 * Get(b, CommLayout(A2)) + 8 * Get(b, CommLayout(A3))
    ensures Get(b, CommLayout(Zeros)) == Get(b, CommLayout(Z1)) + 2 * Get(b, CommLayout(Z2))
  {
  }

  /** The bit view accounts for the whole byte: A0..A3 are bits 0-3, z1 and z2
      bits 4-5, RW bit 6 and WEN bit 7. */
  lemma CommBitsComposeByte(b: Byte)
    ensures b == Get(b, CommLayout(A0)) | (Get(b, CommLayout(A1)) << 1)
                 | (Get(b, CommLayout(A2)) << 2) | (Get(b, CommLayout(A3)) << 3)
                 | (Get(b, CommLayout(Z1)) << 4) | (Get(b, CommLayout(Z2)) << 5)
                 | (Get(b, CommLayout(Rw)) << 6) | (Get(b, CommLayout(Wen)) << 7)
  {
  }

  // ---------------------------------------------------------------------
  // Status register (statusReg)
  // ---------------------------------------------------------------------

  /** Members of statusReg: the flags and the unused bits between them. */
  datatype StatusField = Lock | None1 | None2 | Err | None3 | Cal | None4 | Rdy

  function StatusLayout(f: StatusField): (r: Field)
    ensures Fits(r) && Max(r) == 1
  {
    match f
    case Lock => Field(0, 0x01)
    case None1 => Field(1, 0x02)
    case None2 => Field(2, 0x04)
    case Err => Field(3, 0x08)
    case None3 => Field(4, 0x10)
    case Cal => Field(5, 0x20)
    case None4 => Field(6, 0x40)
    case Rdy => Field(7, 0x80)
  }

  /** Each status flag is set exactly when its mask bit is set in the byte
      read from the chip: LOCK 0x01, ERR 0x08, CAL 0x20, RDY 0x80. */
  lemma StatusFlagMasks(b: Byte)
    ensures Get(b, StatusLayout(Lock)) == 1 <==> b & 0x01 != 0
    ensures Get(b, StatusLayout(Err)) == 1 <==> b & 0x08 != 0
    ensures Get(b, StatusLayout(Cal)) == 1 <==> b & 0x20 != 0
    ensures Get(b, StatusLayout(Rdy)) == 1 <==> b & 0x80 != 0
  {
  }

  // ---------------------------------------------------------------------
  // Mode register (ModeReg)
  // ---------------------------------------------------------------------

  /** Members of ModeReg: MD0..MD2, the configuration flags and the merged
      mode. */
  datatype ModeField = Md0 | Md1 | Md2 | Oscpd | Chcon | Refsel | Negbuf | Chop | Mode

  function ModeLayout(f: ModeField): (r: Field)
    ensures Fits(r)
  {
    match f
    case Md0 => Field(0, 0x01)
    case Md1 => Field(1, 0x02)
    case Md2 => Field(2, 0x04)
    case Oscpd => Field(3, 0x08)
    case Chcon => Field(4, 0x10)
    case Refsel => Field(5, 0x20)
    case Negbuf => Field(6, 0x40)
    case Chop => Field(7, 0x80)
    case Mode => Field(0, 0x07)
  }

  lemma ModeSetGet(b: Byte, f: ModeField, v: Byte)
    ensures Get(Set(b, ModeLayout(f), v), ModeLayout(f)) == v & Max(ModeLayout(f))
  {
    match f
    case Md0 => case Md1 => case Md2 => case Oscpd => case Chcon =>
    case Refsel => case Negbuf => case Chop => case Mode =>
  }

  lemma ModeSetFrame(b: Byte, f: ModeField, g: ModeField, v: Byte)
    requires Disjoint(ModeLayout(f), ModeLayout(g))
    ensures Get(Set(b, ModeLayout(f), v), ModeLayout(g)) == Get(b, ModeLayout(g))
  {
    match f
    case Md0 => case Md1 => case Md2 => case Oscpd => case Chcon =>
    case Refsel => case Negbuf => case Chop => case Mode =>
  }

  /** The merged mode is MD0 + 2 MD1 + 4 MD2. */
  lemma ModeMergedIsBits(b: Byte)
    ensures Get(b, ModeLayout(Mode)) ==
              Get(b, ModeLayout(Md0)) + 2 * Get(b, ModeLayout(Md1)) + 4 * Get(b, ModeLayout(Md2))
  {
  }

  /** Writing a mode code into the merged view changes MD0..MD2 only: the
      upper five bits (OSCPD, CHCON, REFSEL, NEGBUF, CHOP) are kept, and the
      register then reads back as that mode. */
  lemma ModeSetKeepsFlags(b: Byte, m: OperatingMode)
    ensures var r := Set(b, ModeLayout(Mode), ModeCode(m));
      && r & 0xF8 == b & 0xF8
      && Get(r, ModeLayout(Oscpd)) == Get(b, ModeLayout(Oscpd))
      && Get(r, ModeLayout(Chcon)) == Get(b, ModeLayout(Chcon))
      && Get(r, ModeLayout(Refsel)) == Get(b, ModeLayout(Refsel))
      && Get(r, ModeLayout(Negbuf)) == Get(b, ModeLayout(Negbuf))
      && Get(r, ModeLayout(Chop)) == Get(b, ModeLayout(Chop))
      && ModeOf(Get(r, ModeLayout(Mode))) == m
  {
    ModeCodeRoundTrip(m);
  }

  // ---------------------------------------------------------------------
  // ADC control register (ControlReg)
  // ---------------------------------------------------------------------

  /** Members of ControlReg: RN0..RN2, U/B, CH0..CH3 and the merged range and
      channelConfig. */
  datatype ControlField = Rn0 | Rn1 | Rn2 | Ub | Ch0 | Ch1 | Ch2 | Ch3 | Range | ChannelConfig

  function ControlLayout(f: ControlField): (r: Field)
    ensures Fits(r)
  {
    match f
    case Rn0 => Field(0, 0x01)
    case Rn1 => Field(1, 0x02)
    case Rn2 => Field(2, 0x04)
    case Ub => Field(3, 0x08)
    case Ch0 => Field(4, 0x10)
    case Ch1 => Field(5, 0x20)
    case Ch2 => Field(6, 0x40)
    case Ch3 => Field(7, 0x80)
    case Range => Field(0, 0x07)
    case ChannelConfig => Field(4, 0xF0)
  }

  lemma ControlSetGet(b: Byte, f: ControlField, v: Byte)
    ensures Get(Set(b, ControlLayout(f), v), ControlLayout(f)) == v & Max(ControlLayout(f))
  {
    match f
    case Rn0 => case Rn1 => case Rn2 => case Ub => case Ch0 => case Ch1 =>
    case Ch2 => case Ch3 => case Range => case ChannelConfig =>
  }

  lemma ControlSetFrame(b: Byte, f: ControlField, g: ControlField, v: Byte)
    requires Disjoint(ControlLayout(f), ControlLayout(g))
    ensures Get(Set(b, ControlLayout(f), v), ControlLayout(g)) == Get(b, ControlLayout(g))
  {
    match f
    case Rn0 => case Rn1 => case Rn2 => case Ub => case Ch0 => case Ch1 =>
    case Ch2 => case Ch3 => case Range => case ChannelConfig =>
  }

  /** The merged range is RN0 + 2 RN1 + 4 RN2 and the merged channel is
      CH0 + 2 CH1 + 4 CH2 + 8 CH3. */
  lemma ControlMergedIsBits(b: Byte)
    ensures Get(b, ControlLayout(Range)) ==
              Get(b, ControlLayout(Rn0)) + 2 * Get(b, ControlLayout(Rn1)) + 4 * Get(b, ControlLayout(Rn2))
    ensures Get(b, ControlLayout(ChannelConfig)) ==
              Get(b, ControlLayout(Ch0)) + 2 * Get(b, ControlLayout(Ch1))
              + 4 * Get(b, ControlLayout(Ch2)) + 8 * Get(b, ControlLayout(Ch3))
  {
  }

  /** A control image built by assigning range, U/B and channelConfig of a
      zeroed union. */
  function PackControl(range: InputRange, polarity: Polarity, channel: Channel): (b: Byte)
    ensures RangeOf(Get(b, ControlLayout(Range))) == range
    ensures PolarityOf(Get(b, ControlLayout(Ub))) == polarity
    ensures ChannelOf(Get(b, ControlLayout(ChannelConfig))) == channel
  {
    var withRange := Set(0, ControlLayout(Range), RangeCode(range));
    var withPolarity := Set(withRange, ControlLayout(Ub), PolarityCode(polarity));
    var b := Set(withPolarity, ControlLayout(ChannelConfig), ChannelCode(channel));
    RangeCodeRoundTrip(range);
    ChannelCodeRoundTrip(channel);
    b
  }

  /** Every byte is the control image of the range, polarity and channel it
      decodes to: the three fields cover the register and have no reserved
      bit. */
  lemma ControlUnpackPack(b: Byte)
    ensures PackControl(RangeOf(Get(b, ControlLayout(Range))),
                        PolarityOf(Get(b, ControlLayout(Ub))),
                        ChannelOf(Get(b, ControlLayout(ChannelConfig)))) == b
  {
  }

  // ---------------------------------------------------------------------
  // Filter register (FilterReg)
  // ---------------------------------------------------------------------

  /** Members of FilterReg: the bits SF0..SF7 of the filter rate code. */
  datatype FilterField = Sf0 | Sf1 | Sf2 | Sf3 | Sf4 | Sf5 | Sf6 | Sf7

  function FilterLayout(f: FilterField): (r: Field)
    ensures Fits(r) && Max(r) == 1
  {
    match f
    case Sf0 => Field(0, 0x01)
    case Sf1 => Field(1, 0x02)
    case Sf2 => Field(2, 0x04)
    case Sf3 => Field(3, 0x08)
    case Sf4 => Field(4, 0x10)
    case Sf5 => Field(5, 0x20)
    case Sf6 => Field(6, 0x40)
    case Sf7 => Field(7, 0x80)
  }

  /** The byte is the rate code SF7..SF0, SF0 its least significant bit. */
  lemma FilterBitsComposeByte(b: Byte)
    ensures b == Get(b, FilterLayout(Sf0)) | (Get(b, FilterLayout(Sf1)) << 1)
                 | (Get(b, FilterLayout(Sf2)) << 2) | (Get(b, FilterLayout(Sf3)) << 3)
                 | (Get(b, FilterLayout(Sf4)) << 4) | (Get(b, FilterLayout(Sf5)) << 5)
                 | (Get(b, FilterLayout(Sf6)) << 6) | (Get(b, FilterLayout(Sf7)) << 7)
  {
  }

  // ---------------------------------------------------------------------
  // I/O control register (IOControlReg)
  // ---------------------------------------------------------------------

  /** Members of IOControlReg: the pin data and direction bits, the
      must-be-zero bits z3..z6 and the merged zeros1, zeros2. */
  datatype IoControlField = P1dat | P2dat | Z3 | Z4 | P1dir | P2dir | Z5 | Z6 | Zeros1 | Zeros2

  function IoControlLayout(f: IoControlField): (r: Field)
    ensures Fits(r)
  {
    match f
    case P1dat => Field(0, 0x01)
    case P2dat => Field(1, 0x02)
    case Z3 => Field(2, 0x04)
    case Z4 => Field(3, 0x08)
    case P1dir => Field(4, 0x10)
    case P2dir => Field(5, 0x20)
    case Z5 => Field(6, 0x40)
    case Z6 => Field(7, 0x80)
    case Zeros1 => Field(2, 0x0C)
    case Zeros2 => Field(6, 0xC0)
  }

  lemma IoControlSetGet(b: Byte, f: IoControlField, v: Byte)
    ensures Get(Set(b, IoControlLayout(f), v), IoControlLayout(f)) == v & Max(IoControlLayout(f))
  {
    match f
    case P1dat => case P2dat => case Z3 => case Z4 => case P1dir =>
    case P2dir => case Z5 => case Z6 => case Zeros1 => case Zeros2 =>
  }

  lemma IoControlSetFrame(b: Byte, f: IoControlField, g: IoControlField, v: Byte)
    requires Disjoint(IoControlLayout(f), IoControlLayout(g))
    ensures Get(Set(b, IoControlLayout(f), v), IoControlLayout(g)) == Get(b, IoControlLayout(g))
  {
    match f
    case P1dat => case P2dat => case Z3 => case Z4 => case P1dir =>
    case P2dir => case Z5 => case Z6 => case Zeros1 => case Zeros2 =>
  }

  /** zeros1 is z3 + 2 z4 and zeros2 is z5 + 2 z6. */
  lemma IoControlMergedIsBits(b: Byte)
    ensures Get(b, IoControlLayout(Zeros1)) ==
              Get(b, IoControlLayout(Z3)) + 2 * Get(b, IoControlLayout(Z4))
    ensures Get(b, IoControlLayout(Zeros2)) ==
              Get(b, IoControlLayout(Z5)) + 2 * Get(b, IoControlLayout(Z6))
  {
  }

  /** The image with 0 assigned to the must-be-zero groups zeros1 and
      zeros2. */
  function ClearReserved(b: Byte): Byte {
    Set(Set(b, IoControlLayout(Zeros1), 0), IoControlLayout(Zeros2), 0)
  }

  /** Assigning 0 to zeros1 and zeros2 clears exactly the four must-be-zero
      bits (mask 0xCC) and keeps the others, which are P1DAT, P2DAT, P1DIR
      and P2DIR (mask 0x33). */
  lemma IoControlClearReserved(b: Byte)
    ensures ClearReserved(b) == b & 0x33
    ensures Get(ClearReserved(b), IoControlLayout(Zeros1)) == 0
    ensures Get(ClearReserved(b), IoControlLayout(Zeros2)) == 0
  {
  }
}
