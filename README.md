# AD7708 register model and address phase

A Dafny model of the core of a small STM32 driver for the Analog Devices
AD7708 multi-channel ADC.

- **Register model** (`ad7708_defs.h`, modelled in `ad7708_defs.dfy`). Each
  register union (`CommReg`, `statusReg`, `ModeReg`, `ControlReg`,
  `FilterReg`, `IOControlReg`) is one byte (`bv8`). Every named member of the
  union is a bit-field of that byte. This covers the single bits of the
  `bits` view and the groups of the `merged` view. `Bits.Get` reads a field
  and `Bits.Set` assigns one. Both views read and write the same byte, so the
  union's aliasing is explicit: assigning `merged.addr` changes `A0..A3` and
  nothing else. Bit-fields are allocated from the least significant bit in
  declaration order, as GCC for ARM does. So `A0` is bit 0, `RW` is bit 6 and
  `WEN` is bit 7. The enums are datatypes with code functions and decoders:
  `SelectedReg`, `AD7708_Mode`, `AD7708_Range`, the 10-channel
  `AD7708_Channel` and `AD7708_Polarity`. `StatusTypeDef` is a datatype
  with a code function only.
- **Older layouts** (`ad7708_reg.h`, modelled in `ad7708_reg.dfy`). This is a
  second set of layouts, compared member by member with the current ones. The
  build does not include this header.
- **Address phase** (`ad7708.c`, modelled in `ad7708.dfy`). The device handle
  `ad7708_dev` is a class with one byte field per register image.
  `ad7708_setNextOperation` is the method `Device.SetNextOperation`. It
  assigns `WEN := 0`, `RW := rw` and `addr := reg` in place, drives
  chip-select low, transmits the one command byte, and drives chip-select
  high. Pin writes and transmit calls go to a ghost trace of bus events.
  The HAL transmit's answer is an argument. The result is `Ok` exactly when
  the HAL answers `HAL_OK`, and `Error` otherwise.

The zero bits `z1` and `z2` must be 0 in the command byte
(`ad7708_defs.h:228`). The code does not force them: it sends whatever the
image holds, and the model does the same (the lemma
`AddressPhaseKeepsOnlyZeros` says the sent byte depends on the old image
exactly through those two bits). The code sets `WEN` to 0 and leaves it there.

Layout facts the model relies on:

- The command byte is `WEN` at bit 7, `RW` at bit 6, the zero bits at 5-4 and
  `A3..A0` at bits 3-0, as the code's unions give it.
- The channel code is 4 bits wide (`channelConfig`, bits 4-7 of the control
  register).

## Model

| member | source | states |
|---|---|---|
| `Ad7708Defs.AddressCode` | ad7708_defs.h:48-67 | every register address fits the 4-bit addr field; address 0 belongs exactly to the communications and status registers |
| `Ad7708Defs.SelectedRegAt` | ad7708_defs.h:28-47 | the register selection table: the register chosen for an address has that address; at address 0 a read selects the status register and a write the communications register |
| `Ad7708Defs.SelectedRegAtAddressCode` | ad7708_defs.h:28-67 | decoding a register's address, with a direction that reaches that register, gives the register back |
| `Ad7708Defs.SameNonzeroAddressSameReg` | ad7708_defs.h:52-66 | no two registers share a non-zero address |
| `Ad7708Defs.AddressAliasing` | ad7708_defs.h:50-51 | two registers share an address iff they are equal or are the communications/status pair, so the direction is needed to tell that pair apart |
| `Ad7708Defs.StatusCode` | ad7708_defs.h:69-75 | the driver status codes are 0..3 and only `AD7708_OK` is 0 |
| `Ad7708Defs.RangeCode` | ad7708_defs.h:90-100 | every range code fits the 3-bit range field |
| `Ad7708Defs.RangeOf` | ad7708_defs.h:90-100 | every 3-bit code denotes a range whose code is that value |
| `Ad7708Defs.RangeCodeRoundTrip` | ad7708_defs.h:90-100 | decoding a range's code gives the range back |
| `Ad7708Defs.FullScaleMillivolts` | ad7708_defs.h:77-88 | range code k is plus or minus 20 mV times 2^k (20, 40, ..., 2560 mV) |
| `Ad7708Defs.RangeDoubles` | ad7708_defs.h:77-100 | each step of the range code doubles the span |
| `Ad7708Defs.ChannelCode` | ad7708_defs.h:166-184 | every channel code of the 10-channel configuration fits the 4-bit channelConfig field |
| `Ad7708Defs.ChannelOf` | ad7708_defs.h:166-184 | every 4-bit code denotes a channel whose code is that value |
| `Ad7708Defs.ChannelCodeRoundTrip` | ad7708_defs.h:166-184 | decoding a channel's code gives the channel back |
| `Ad7708Defs.PolarityCode` | ad7708_defs.h:187-191 | polarity fits the 1-bit U/B field; 1 means unipolar |
| `Ad7708Defs.PolarityOf` | ad7708_defs.h:187-191 | each U/B bit value denotes the polarity with that code |
| `Ad7708Defs.ModeCode` | ad7708_defs.h:205-215 | every mode code fits the 3-bit mode field |
| `Ad7708Defs.ModeOf` | ad7708_defs.h:193-215 | every 3-bit code denotes a mode whose code is that value |
| `Ad7708Defs.ModeCodeRoundTrip` | ad7708_defs.h:205-215 | decoding a mode's code gives the mode back |
| `Ad7708Defs.CommLayout` | ad7708_defs.h:218-238 | every member of CommReg is a field inside the byte |
| `Ad7708Defs.CommSetGet` | ad7708_defs.h:218-238 | assigning a CommReg member and reading it back gives the value truncated to the member's width |
| `Ad7708Defs.CommSetFrame` | ad7708_defs.h:218-238 | assigning a CommReg member leaves every member that shares no bit with it unchanged |
| `Ad7708Defs.CommMergedIsBits` | ad7708_defs.h:223-236 | addr = A0 + 2 A1 + 4 A2 + 8 A3 and zeros = z1 + 2 z2 |
| `Ad7708Defs.CommBitsComposeByte` | ad7708_defs.h:223-230 | the byte is A0..A3 at bits 0-3, z1 and z2 at bits 4-5, RW at bit 6 and WEN at bit 7 |
| `Ad7708Defs.StatusLayout` | ad7708_defs.h:240-254 | every status member is one bit inside the byte |
| `Ad7708Defs.StatusFlagMasks` | ad7708_defs.h:245-252 | LOCK, ERR, CAL and RDY are set exactly when bits 0, 3, 5 and 7 are set |
| `Ad7708Defs.ModeLayout` | ad7708_defs.h:256-276 | every member of ModeReg is a field inside the byte |
| `Ad7708Defs.ModeSetGet` | ad7708_defs.h:256-276 | assigning a ModeReg member and reading it back gives the value truncated to the member's width |
| `Ad7708Defs.ModeSetFrame` | ad7708_defs.h:256-276 | assigning a ModeReg member leaves every member that shares no bit with it unchanged |
| `Ad7708Defs.ModeMergedIsBits` | ad7708_defs.h:261-273 | mode = MD0 + 2 MD1 + 4 MD2 |
| `Ad7708Defs.ModeSetKeepsFlags` | ad7708_defs.h:261-273 | writing a mode code keeps OSCPD, CHCON, REFSEL, NEGBUF and CHOP (bits 3-7), and the register then reads back as that mode |
| `Ad7708Defs.ControlLayout` | ad7708_defs.h:278-298 | every member of ControlReg is a field inside the byte |
| `Ad7708Defs.ControlSetGet` | ad7708_defs.h:278-298 | assigning a ControlReg member and reading it back gives the value truncated to the member's width |
| `Ad7708Defs.ControlSetFrame` | ad7708_defs.h:278-298 | assigning a ControlReg member leaves every member that shares no bit with it unchanged |
| `Ad7708Defs.ControlMergedIsBits` | ad7708_defs.h:283-296 | range = RN0 + 2 RN1 + 4 RN2 (bits 0-2) and channelConfig = CH0 + 2 CH1 + 4 CH2 + 8 CH3 (bits 4-7) |
| `Ad7708Defs.PackControl` | ad7708_defs.h:283-296 | a control image built from a range, a polarity and a channel decodes to the same range, polarity and channel |
| `Ad7708Defs.ControlUnpackPack` | ad7708_defs.h:283-296 | every byte is the control image of the range, polarity and channel it decodes to |
| `Ad7708Defs.FilterLayout` | ad7708_defs.h:300-314 | every filter member is one bit inside the byte |
| `Ad7708Defs.FilterBitsComposeByte` | ad7708_defs.h:305-312 | the byte is the rate code SF7..SF0 with SF0 as its lowest bit |
| `Ad7708Defs.IoControlLayout` | ad7708_defs.h:316-338 | every member of IOControlReg is a field inside the byte |
| `Ad7708Defs.IoControlSetGet` | ad7708_defs.h:316-338 | assigning an IOControlReg member and reading it back gives the value truncated to the member's width |
| `Ad7708Defs.IoControlSetFrame` | ad7708_defs.h:316-338 | assigning an IOControlReg member leaves every member that shares no bit with it unchanged |
| `Ad7708Defs.IoControlMergedIsBits` | ad7708_defs.h:321-335 | zeros1 = z3 + 2 z4 and zeros2 = z5 + 2 z6 |
| `Ad7708Defs.IoControlClearReserved` | ad7708_defs.h:321-335 | assigning 0 to zeros1 and zeros2 clears exactly the must-be-zero bits 2, 3, 6 and 7 and keeps P1DAT, P2DAT, P1DIR and P2DIR |
| `Ad7708Reg.CommLayout` | ad7708_reg.h:6-24 | every member of the older CommReg is a field inside the byte |
| `Ad7708Reg.CommLayoutsAgree` | ad7708_reg.h:10-22 | every older CommReg member sits where its namesake in the current header sits |
| `Ad7708Reg.CommMergedIsBits` | ad7708_reg.h:10-22 | addr = A0 + 2 A1 + 4 A2 + 8 A3 |
| `Ad7708Reg.StatusLayout` | ad7708_reg.h:47-60 | every older status member is one bit inside the byte |
| `Ad7708Reg.StatusLayoutsAgree` | ad7708_reg.h:51-58 | LOCK, ERR, CAL and RDY are at bits 0, 3, 5 and 7, as in the current header |
| `Ad7708Reg.ModeLayout` | ad7708_reg.h:62-81 | every member of the older modeReg is a field inside the byte |
| `Ad7708Reg.ModeLayoutsAgree` | ad7708_reg.h:62-81 | every older modeReg member sits where its namesake in the current header sits |
| `Ad7708Reg.ModeMergedIsBits` | ad7708_reg.h:66-78 | mode = MD0 + 2 MD1 + 4 MD2, and bits 3-7 are OSCPD, CHCON, REFSEL, NEGBUF and CHOP |
| `Ad7708Reg.ControlLayout` | ad7708_reg.h:95-115 | every member of the older controlReg is a field inside the byte |
| `Ad7708Reg.ControlLayoutsAgreeOnBits` | ad7708_reg.h:100-113 | an older controlReg member sits where its namesake in the current header sits iff it is a single bit; the two merged members do not |
| `Ad7708Reg.ControlMergedSwapped` | ad7708_reg.h:100-113 | the older merged channelConfig reads RN0..RN2 and the older merged range reads CH0..CH3; byte 0x10 shows the two headers disagree |
| `Ad7708Reg.FilterLayout` | ad7708_reg.h:172-186 | every older filter member is one bit inside the byte |
| `Ad7708Reg.FilterLayoutsAgree` | ad7708_reg.h:175-185 | every older filter bit sits where its namesake in the current header sits |
| `Ad7708Reg.IoControlLayout` | ad7708_reg.h:188-203 | every older ioControlReg member is one bit inside the byte |
| `Ad7708Reg.IoControlLayoutsAgree` | ad7708_reg.h:193-200 | the must-be-zero bits are exactly bits 2, 3, 6 and 7; P1DAT/P2DAT are bits 0-1 and P1DIR/P2DIR bits 4-5, as in the current header |
| `Ad7708.HalCode` | ad7708.c:56 | HAL answers are codes 0..3 and only HAL_OK is 0, the value compared against `AD7708_OK` |
| `Ad7708.TransmitStatus` | ad7708.c:52-62 | the transmit status is OK iff the HAL answers OK, and otherwise ERROR; BUSY and TIMEOUT are never reported |
| `Ad7708.AddressPhaseCommand` | ad7708.c:26-28 | after the address-phase assignments WEN is 0, RW is rw mod 2, addr is the register's address, and z1/z2 keep their old values |
| `Ad7708.AddressPhaseFromZero` | ad7708.c:26-31 | from a zeroed image the transmitted byte is reg + 64 rw |
| `Ad7708.AddressPhaseKeepsOnlyZeros` | ad7708.c:26-28 | two old images give the same command byte iff they agree on z1 and z2 |
| `Ad7708.AddressPhaseIdempotent` | ad7708.c:26-28 | repeating the address phase for the same register and direction gives the same byte |
| `Ad7708.AddressPhaseSelects` | ad7708.c:26-31 | the chip decodes the transmitted byte to the register the caller named, given a direction that reaches that register |
| `Ad7708.FramedAppend` | ad7708.c:30-32 | bus histories made of complete chip-select frames compose |
| `Ad7708.FramedBalanced` | ad7708.c:30-32 | in a framed history chip-select is asserted as often as it is released, and the chip is released at the end |
| `Ad7708.Device.constructor` | ad7708_defs.h:340-350 | a handle holds the given register images and has no bus history |
| `Ad7708.Device.SetCs` | ad7708.c:44-47 | level 0 records chip-select low, any other level records chip-select high |
| `Ad7708.Device.SpiTransmit` | ad7708.c:52-62 | the transmit call is recorded as a `Tx` event of the byte, whatever the HAL answers; the status is the HAL answer mapped to OK or ERROR |
| `Ad7708.Device.SetNextOperation` | ad7708.c:23-35 | the comm image becomes the address-phase command; the history grows by exactly CS low, that byte, CS high, whatever the bus answers; the status is the mapped HAL answer; the other images and the bus handle are unchanged; complete-frame histories stay complete |

## Findings

| source | as written | input that shows it | evidently intended | confidence | as-written member | corrected member |
|---|---|---|---|---|---|---|
| ad7708_reg.h:109-114 | the merged view of `controlReg` declares `channelConfig : 3` then a padding bit then `range : 4`, so channelConfig covers RN0..RN2 and range covers CH0..CH3, unlike the bit view of the same union | byte 0x10 (only CH0 set: channel code 1, range code 0 by the bit view) reads channelConfig 0 and range 1 through the merged view | range : 3 at bits 0-2, one padding bit, channelConfig : 4 at bits 4-7, as `ad7708_defs.h:292-297` declares; the build includes only that header | high (not executed) | `Ad7708Reg.ControlMergedSwapped` | `Ad7708Defs.ControlMergedIsBits` |

## Left out

- `HAL_GPIO_WritePin` and `HAL_SPI_Transmit` are vendor HAL calls. They appear as trace events and as the `hal` argument of `SetNextOperation`/`SpiTransmit`. The pin, port and SPI macros and the 1000 ms transmit timeout are not modelled.
- Ad7708.Device.SetNextOperation: the HAL transmit's answer is an argument rather than a nondeterministic outcome. Every answer is covered because the contract holds for all of them.
- Ad7708.Device.SpiTransmit: the byte is taken by value rather than through a pointer. The only caller passes the address of the image it has just written.
- The `intf` bus handle: `ad7708.c:56` passes `&dev->intf` to `HAL_SPI_Transmit`, which uses it as an SPI handle and may read and write handle state through it. The model never passes `intf` to the transmit and assumes the HAL leaves the device struct untouched; the "bus handle unchanged" part of `SetNextOperation`'s contract rests on that assumption. Passing a `uint8_t*` where the HAL expects an SPI handle is a C type mismatch with no counterpart in the model.
- The `delay_ms` function pointer is never called. `AD7708_IMEOUT`, `AD7708_SF_Rate`, `AD7708_IOPIN_Input` and `AD7708_IOPIN_Output` are unused constants.
- `ad7708.h` declares `ad7708setNextOperation`, but the definition is named `ad7708_setNextOperation`. This is a link-time defect with no behaviour to model.
- The 8-channel enum variant (`AD7708_CHCON == 0`) is not compiled. The channel-to-input-pin tables are comments. Neither is modelled, and only the 10-channel codes are.
- Several unions declare a tagged `struct bits { ... };` or `struct merged { ... };` (`ad7708_defs.h:243` for `statusReg` and `:303` for `FilterReg`; `ad7708_reg.h:49`, `:64`, `:98`, `:175` and `:191` for `struct bits`; `ad7708_reg.h:19`, `:75` and `:109` for `struct merged`, the last being the control-register view of the Findings row), which in standard C declares no member. The model keeps the bit positions those declarations document.
- Bit-field allocation order is implementation-defined in C. The model fixes it to least-significant-bit first.
- Calibration polling, data-register reads, register-configuration writers and the ID presence check have no code in the driver. No data phase follows the address phase inside the same chip-select frame. None of them is modelled.
- Ad7708Reg layouts: round-trip and frame lemmas are proved for the current header only. The older header's layouts are related to the current ones member by member instead.
