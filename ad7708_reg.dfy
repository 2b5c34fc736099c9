/** The older register layouts of `ad7708_reg.h`. The build does not include
    this header (the driver includes `ad7708_defs.h` only); its unions are
    modelled as a second set of layouts and compared with the current ones.
    They agree everywhere except the merged view of the control register,
    which puts channelConfig on the range bits and range on the channel
    bits. */
module Ad7708Reg {
  import opened Bits
  import D = Ad7708Defs

  // ---------------------------------------------------------------------
  // Communications register (union CommReg): merged view is addr only
  // ---------------------------------------------------------------------

  datatype CommField = A0 | A1 | A2 | A3 | Z1 | Z2 | Rw | Wen | Addr

  function CommLayout(f: CommField): (r: Field)
    ensures Fits(r)
  {
    match f
    case A0 => Field(0, 0x01)
    case A1 => Field(1, 0x02)
    case A2 => Field(2, 0x04)
    case A3 => Field(3, 0x08)
    case Z1 => Field(4, 0x10)
    case Z2 => Field(5, 0x20)
    case Rw => Field(6, 0x40)
    case Wen => Field(7, 0x80)
    case Addr => Field(0, 0x0F)
  }

  /** The member of the current CommReg with the same name. */
  function CommInDefs(f: CommField): D.CommField {
    match f
    case A0 => D.CommField.A0
    case A1 => D.CommField.A1
    case A2 => D.CommField.A2
    case A3 => D.CommField.A3
    case Z1 => D.CommField.Z1
    case Z2 => D.CommField.Z2
    case Rw => D.CommField.Rw
    case Wen => D.CommField.Wen
    case Addr => D.CommField.Addr
  }

  /** Every member sits where the same-named member of the current header
      sits: A0..A3 bits 0-3, z1 and z2 bits 4-5, RW bit 6, WEN bit 7, addr
      bits 0-3. */
  lemma CommLayoutsAgree(f: CommField)
    ensures CommLayout(f) == D.CommLayout(CommInDefs(f))
  {
    match f
    case A0 => case A1 => case A2 => case A3 => case Z1 =>
    case Z2 => case Rw => case Wen => case Addr =>
  }

  /** addr is A0 + 2 A1 + 4 A2 + 8 A3. */
  lemma CommMergedIsBits(b: Byte)
    ensures Get(b, CommLayout(Addr)) ==
              Get(b, CommLayout(A0)) + 2 * Get(b, CommLayout(A1))
              + 4 * Get(b, CommLayout(A2)) + 8 * Get(b, CommLayout(A3))
  {
  }

  // ---------------------------------------------------------------------
  // Status register (union statusReg)
  // ---------------------------------------------------------------------

  datatype StatusField = Lock | None1 | None2 | Err | None3 | Cal | None4 | Rdy

  function StatusLayout(f: StatusField): (r: Field)
    ensures Fits(r) && Max(r) == 1
  {
    match f
    case Lock => Field(0, 0x01)
    case None1 => Field(1, 0x02)
    case None2 => Field(2, 0x04)
    case Err => Field(3, 0x08)
    case None3 => Field(4, 0x10)
    case Cal => Field(5, 0x20)
    case None4 => Field(6, 0x40)
    case Rdy => Field(7, 0x80)
  }

  function StatusInDefs(f: StatusField): D.StatusField {
    match f
    case Lock => D.StatusField.Lock
    case None1 => D.StatusField.None1
    case None2 => D.StatusField.None2
    case Err => D.StatusField.Err
    case None3 => D.StatusField.None3
    case Cal => D.StatusField.Cal
    case None4 => D.StatusField.None4
    case Rdy => D.StatusField.Rdy
  }

  /** LOCK, ERR, CAL and RDY are at bits 0, 3, 5 and 7, as in the current
      header. */
  lemma StatusLayoutsAgree(f: StatusField)
    ensures StatusLayout(f) == D.StatusLayout(StatusInDefs(f))
    ensures StatusLayout(Lock).lo == 0 && StatusLayout(Err).lo == 3
    ensures StatusLayout(Cal).lo == 5 && StatusLayout(Rdy).lo == 7
  {
    match f
    case Lock => case None1 => case None2 => case Err =>
    case None3 => case Cal => case None4 => case Rdy =>
  }

  // ---------------------------------------------------------------------
  // Mode register (union modeReg)
  // ---------------------------------------------------------------------

  datatype ModeField = Md0 | Md1 | Md2 | Oscpd | Chcon | Refsel | Negbuf | Chop | Mode

  function ModeLayout(f: ModeField): (r: Field)
    ensures Fits(r)
  {
    match f
    case Md0 => Field(0, 0x01)
    case Md1 => Field(1, 0x02)
    case Md2 => Field(2, 0x04)
    case Oscpd => Field(3, 0x08)
    case Chcon => Field(4, 0x10)
    case Refsel => Field(5, 0x20)
    case Negbuf => Field(6, 0x40)
    case Chop => Field(7, 0x80)
    case Mode => Field(0, 0x07)
  }

  function ModeInDefs(f: ModeField): D.ModeField {
    match f
    case Md0 => D.ModeField.Md0
    case Md1 => D.ModeField.Md1
    case Md2 => D.ModeField.Md2
    case Oscpd => D.ModeField.Oscpd
    case Chcon => D.ModeField.Chcon
    case Refsel => D.ModeField.Refsel
    case Negbuf => D.ModeField.Negbuf
    case Chop => D.ModeField.Chop
    case Mode => D.ModeField.Mode
  }

  lemma ModeLayoutsAgree(f: ModeField)
    ensures ModeLayout(f) == D.ModeLayout(ModeInDefs(f))
  {
    match f
    case Md0 => case Md1 => case Md2 => case Oscpd => case Chcon =>
    case Refsel => case Negbuf => case Chop => case Mode =>
  }

  /** mode is MD0 + 2 MD1 + 4 MD2; OSCPD, CHCON, REFSEL, NEGBUF and CHOP are
      bits 3 to 7. */
  lemma ModeMergedIsBits(b: Byte)
    ensures Get(b, ModeLayout(Mode)) ==
              Get(b, ModeLayout(Md0)) + 2 * Get(b, ModeLayout(Md1)) + 4 * Get(b, ModeLayout(Md2))
    ensures b >> 3 == Get(b, ModeLayout(Oscpd)) | (Get(b, ModeLayout(Chcon)) << 1)
                      | (Get(b, ModeLayout(Refsel)) << 2) | (Get(b, ModeLayout(Negbuf)) << 3)
                      | (Get(b, ModeLayout(Chop)) << 4)
  {
  }

  // ---------------------------------------------------------------------
  // ADC control register (union controlReg)
  // ---------------------------------------------------------------------

  datatype ControlField = Rn0 | Rn1 | Rn2 | Ub | Ch0 | Ch1 | Ch2 | Ch3 | ChannelConfig | Range

  /** As declared here: the merged view is channelConfig (3 bits), one padding
      bit, then range (4 bits). */
  function ControlLayout(f: ControlField): (r: Field)
    ensures Fits(r)
  {
    match f
    case Rn0 => Field(0, 0x01)
    case Rn1 => Field(1, 0x02)
    case Rn2 => Field(2, 0x04)
    case Ub => Field(3, 0x08)
    case Ch0 => Field(4, 0x10)
    case Ch1 => Field(5, 0x20)
    case Ch2 => Field(6, 0x40)
    case Ch3 => Field(7, 0x80)
    case ChannelConfig => Field(0, 0x07)
    case Range => Field(4, 0xF0)
  }

  function ControlInDefs(f: ControlField): D.ControlField {
    match f
    case Rn0 => D.ControlField.Rn0
    case Rn1 => D.ControlField.Rn1
    case Rn2 => D.ControlField.Rn2
    case Ub => D.ControlField.Ub
    case Ch0 => D.ControlField.Ch0
    case Ch1 => D.ControlField.Ch1
    case Ch2 => D.ControlField.Ch2
    case Ch3 => D.ControlField.Ch3
    case ChannelConfig => D.ControlField.ChannelConfig
    case Range => D.ControlField.Range
  }

  /** The bit view agrees with the current header, the merged view does not:
      a member sits where its namesake in the current header sits exactly
      when it is a single bit. */
  lemma ControlLayoutsAgreeOnBits(f: ControlField)
    ensures ControlLayout(f) == D.ControlLayout(ControlInDefs(f)) <==>
              f != ChannelConfig && f != Range
  {
    match f
    case Rn0 => case Rn1 => case Rn2 => case Ub => case Ch0 =>
    case Ch1 => case Ch2 => case Ch3 => case ChannelConfig => case Range =>
  }

  /** In this union the merged channelConfig reads the range bits RN0..RN2
      and the merged range reads the channel bits CH0..CH3, the other way
      round from the names. A byte with only CH0 set (channel code 1, range
      code 0 by the bit view) reads channelConfig 0 and range 1. */
  lemma ControlMergedSwapped(b: Byte)
    ensures Get(b, ControlLayout(ChannelConfig)) ==
              Get(b, ControlLayout(Rn0)) + 2 * Get(b, ControlLayout(Rn1)) + 4 * Get(b, ControlLayout(Rn2))
    ensures Get(b, ControlLayout(Range)) ==
              Get(b, ControlLayout(Ch0)) + 2 * Get(b, ControlLayout(Ch1))
              + 4 * Get(b, ControlLayout(Ch2)) + 8 * Get(b, ControlLayout(Ch3))
    ensures b == 0x10 ==>
              && Get(b, ControlLayout(Ch0)) == 1 && Get(b, ControlLayout(Rn0)) == 0
              && Get(b, ControlLayout(ChannelConfig)) == 0 && Get(b, ControlLayout(Range)) == 1
              && Get(b, D.ControlLayout(D.ControlField.ChannelConfig)) == 1
              && Get(b, D.ControlLayout(D.ControlField.Range)) == 0
  {
  }

  // ---------------------------------------------------------------------
  // Filter register (union filterReg)
  // ---------------------------------------------------------------------

  datatype FilterField = Sf0 | Sf1 | Sf2 | Sf3 | Sf4 | Sf5 | Sf6 | Sf7

  function FilterLayout(f: FilterField): (r: Field)
    ensures Fits(r) && Max(r) == 1
  {
    match f
    case Sf0 => Field(0, 0x01)
    case Sf1 => Field(1, 0x02)
    case Sf2 => Field(2, 0x04)
    case Sf3 => Field(3, 0x08)
    case Sf4 => Field(4, 0x10)
    case Sf5 => Field(5, 0x20)
    case Sf6 => Field(6, 0x40)
    case Sf7 => Field(7, 0x80)
  }

  function FilterInDefs(f: FilterField): D.FilterField {
    match f
    case Sf0 => D.FilterField.Sf0
    case Sf1 => D.FilterField.Sf1
    case Sf2 => D.FilterField.Sf2
    case Sf3 => D.FilterField.Sf3
    case Sf4 => D.FilterField.Sf4
    case Sf5 => D.FilterField.Sf5
    case Sf6 => D.FilterField.Sf6
    case Sf7 => D.FilterField.Sf7
  }

  lemma FilterLayoutsAgree(f: FilterField)
    ensures FilterLayout(f) == D.FilterLayout(FilterInDefs(f))
  {
    match f
    case Sf0 => case Sf1 => case Sf2 => case Sf3 =>
    case Sf4 => case Sf5 => case Sf6 => case Sf7 =>
  }

  // ---------------------------------------------------------------------
  // I/O control register (union ioControlReg): bit view only
  // ---------------------------------------------------------------------

  datatype IoControlField = P1dat | P2dat | Z3 | Z4 | P1dir | P2dir | Z5 | Z6

  function IoControlLayout(f: IoControlField): (r: Field)
    ensures Fits(r) && Max(r) == 1
  {
    match f
    case P1dat => Field(0, 0x01)
    case P2dat => Field(1, 0x02)
    case Z3 => Field(2, 0x04)
    case Z4 => Field(3, 0x08)
    case P1dir => Field(4, 0x10)
    case P2dir => Field(5, 0x20)
    case Z5 => Field(6, 0x40)
    case Z6 => Field(7, 0x80)
  }

  function IoControlInDefs(f: IoControlField): D.IoControlField {
    match f
    case P1dat => D.IoControlField.P1dat
    case P2dat => D.IoControlField.P2dat
    case Z3 => D.IoControlField.Z3
    case Z4 => D.IoControlField.Z4
    case P1dir => D.IoControlField.P1dir
    case P2dir => D.IoControlField.P2dir
    case Z5 => D.IoControlField.Z5
    case Z6 => D.IoControlField.Z6
  }

  /** The must-be-zero bits are exactly positions 2, 3, 6 and 7 (mask 0xCC);
      P1DAT and P2DAT are bits 0-1, P1DIR and P2DIR bits 4-5; every member sits
      where it sits in the current header. */
  lemma IoControlLayoutsAgree(f: IoControlField)
    ensures IoControlLayout(f) == D.IoControlLayout(IoControlInDefs(f))
    ensures f in {Z3, Z4, Z5, Z6} <==> IoControlLayout(f).mask & 0xCC != 0
    ensures f in {P1dat, P2dat} <==> IoControlLayout(f).lo < 2
    ensures f in {P1dir, P2dir} <==> 4 <= IoControlLayout(f).lo < 6
  {
    match f
    case P1dat => case P2dat => case Z3 => case Z4 =>
    case P1dir => case P2dir => case Z5 => case Z6 =>
  }
}
