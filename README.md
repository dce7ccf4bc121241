# PAA5100JE optical-flow driver — a verified model

This project models the Arduino driver class `PAA5100JE_OF` for the PixArt
PAA5100JE optical-flow sensor: its SPI register codec, its power lifecycle
(reset, identity check, vendor performance-optimisation routine, shutdown),
the shutdown and calibration gates on its public operations, its two
motion-read strategies (discrete register reads and one twelve-byte burst),
and the bytes it computes before writing them (orientation flags, clamped
resolution, the two calibration bytes).

The SPI bus is an abstract device (`Spi.Bus`). Every chip-select bracket is
one `Transaction` appended to the bus log: a write frame, a read frame or a
burst frame, each holding the address byte that went out first and the data
that followed. What the sensor answers comes from an oracle of type
`Spi.Miso`, which maps the log so far, the current address byte and the index
of the data byte to the byte received. An answer may therefore depend on
everything the driver has already sent.

Modules:

- `Bytes` — the read/write bit of an address byte, and the two's-complement
  16-bit value formed from a high and a low byte, with its inverse.
- `Spi` — transactions, the log, the oracle and the `Bus` class.
- `Protocol` — the pure decisions: the quality gate, the orientation byte, the
  resolution clamp, the calibration bytes C1 and C2, and the SQUAL figure.
- `Sensor` — each public operation as a function from the driver's flags, the
  log and the oracle to the returned value, the new flags and the new log. It
  also holds the lemmas about single operations and about whole sequences of
  operations (`Run`).
- `Driver` — the class `Paa5100je` with the source's fields (`shutdown`,
  `cpiSet`, `cpi`) and methods. Each method is proved to leave exactly the log,
  flags and outputs that the `Sensor` function prescribes.

The register address constants, the four vendor tables and the initial flag
values live in the driver's header, which is not part of this model. They are
parameters: a `Sensor.RegisterMap`, a `Sensor.Tables` value (tables of 5, 5,
67 and 16 entries) and constructor arguments. Each table is a sequence of
(register, value) pairs; the source keeps two parallel arrays.

Where the code and the driver's documentation disagree, the model follows the
code:

- The identity check fails only when both identity bytes are wrong
  (`productID != 0x49 && invProductID != 0xB6`). `Sensor.IdentityCheckIsPermissive`
  shows a device that answers 0xB6 to every read is accepted although its
  product ID is wrong.
- `setResolution` and `getObservation` have no shutdown check, so both reach
  the bus even while the sensor is shut down.
- The discrete read calls its shutter variable `shutter_upper`, but it reads
  the register named `SHUTTER_LOWER_REG`. The model reads that register.
- `setCPI` changes the CPI value but never sets the calibration flag, so only
  `setWorkingHeight` enables the distance reads.

## Model

| member | source | states |
|---|---|---|
| Bytes.WriteAddress | src/PAA5100JE.cpp:248-250 | a register write's address byte has bit 7 set and designates the same register |
| Bytes.ReadAddress | src/PAA5100JE.cpp:263-265 | a register read's address byte has bit 7 clear, designates the same register, and is the register itself when that is below 0x80 |
| Bytes.AddressDecodes | src/PAA5100JE.cpp:248-265 | every address byte is the write or read address of its low seven bits, according to its bit 7 |
| Bytes.Int16Of | src/PAA5100JE.cpp:194-195 | the assembled delta lies in [-32768, 32767], is congruent to the unsigned word `hi · 256 + lo` modulo 2^16, and is negative exactly when bit 7 of the high byte is set |
| Bytes.Int16OfBytes | src/PAA5100JE.cpp:194-195 | every signed 16-bit value is the assembly of its own high and low bytes |
| Bytes.BytesOfInt16 | src/PAA5100JE.cpp:194-195 | assembling two bytes loses nothing: the high and low bytes of the result are the bytes it came from |
| Bytes.Word | src/PAA5100JE.cpp:194 | the unsigned word of a high and a low byte, hi · 256 + lo, lies in [0, 65535] |
| Bytes.WordBytes | src/PAA5100JE.cpp:194 | the unsigned word keeps both bytes: divided by 256 it gives the high byte, its remainder is the low byte |
| Spi.Bus.Write | src/PAA5100JE.cpp:251-258 | one write transaction with the given address and data byte is appended to the log |
| Spi.Bus.Read | src/PAA5100JE.cpp:266-276 | one read transaction is appended; the byte returned is the sensor's answer to that address after the log so far |
| Spi.Bus.BeginBurst | src/PAA5100JE.cpp:212-216 | a burst transaction with the given address and no payload yet is opened at the end of the log |
| Spi.Bus.BurstByte | src/PAA5100JE.cpp:217-220 | the next byte the sensor sends in the open burst is appended to its payload and returned |
| Protocol.QualityAccepted | src/PAA5100JE.cpp:188 | a sample is kept exactly when SQUAL is at least 25 (0x19) and the shutter byte is not 31 (0x1F); the burst read applies the same gate at line 227 |
| Protocol.QualityGateBoundaries | src/PAA5100JE.cpp:186-191 | a SQUAL of 0x18 or a shutter byte of 0x1F always rejects; SQUAL 0x19 with a shutter byte other than 0x1F accepts; an accepted sample has SQUAL at least 25 |
| Protocol.OrientationByte | src/PAA5100JE.cpp:112-118 | bits 0-4 of the orientation byte are zero and bits 5, 6 and 7 equal invert-X, invert-Y and swap-X/Y |
| Protocol.OrientationRoundTrip | src/PAA5100JE.cpp:112-118 | the three flags and an orientation byte with bits 0-4 clear determine each other |
| Protocol.ClampResolution | src/PAA5100JE.cpp:98-103 | the value written is at most 0xA8, equals the request exactly when the request is at most 0xA8, and is 0xA8 otherwise |
| Protocol.ClampResolutionMonotone | src/PAA5100JE.cpp:100-101 | clamping twice is clamping once, and clamping preserves order |
| Protocol.CalibrationC1 | src/PAA5100JE.cpp:301-307 | C1 lies in [14, 63]; it is reg 0x70 + 14 up to 28, + 11 from 29 to 52, and 63 above 52 |
| Protocol.CalibrationC2 | src/PAA5100JE.cpp:308-309 | C2 lies in [0, 114] and is 45 % of reg 0x71 rounded down (`100·C2 ≤ 45·reg < 100·C2 + 100`) |
| Protocol.SqualFigure | src/PAA5100JE.cpp:128 | the SQUAL figure lies in [0, 1020], is a multiple of 4, and a quarter of it is the register value |
| Sensor.Answer | src/PAA5100JE.cpp:263-276 | the byte a register read returns is the sensor's answer at data index 0 to the read address of that register after the log so far; its contract is `Sensor.ReadRegFrame` |
| Sensor.WriteReg | src/PAA5100JE.cpp:248-259 | the log after `writeRegister`: the old log and one write transaction whose address is `WriteAddress(reg)` and whose data is the value; its contract is `Sensor.WriteRegFrame` |
| Sensor.ReadReg | src/PAA5100JE.cpp:263-277 | the log after `readRegister`: the old log and one read transaction whose address is `ReadAddress(reg)` and whose data is `Answer`; its contract is `Sensor.ReadRegFrame` |
| Sensor.WriteRegFrame | src/PAA5100JE.cpp:248-259 | a register write appends exactly one correctly framed transaction: a write with bit 7 set, designating the register, carrying the value |
| Sensor.ReadRegFrame | src/PAA5100JE.cpp:263-277 | a register read appends exactly one correctly framed transaction: a read with bit 7 clear, designating the register, carrying the sensor's answer to that address byte; that answer is the same for every read address byte that designates the register |
| Sensor.TableWrites | src/PAA5100JE.cpp:285-288 | replaying a table writes entry i's value to entry i's register, one write per entry, in table order |
| Sensor.Replay | src/PAA5100JE.cpp:318-326 | replaying a table only appends correctly framed transactions, one per entry |
| Sensor.ReplaySnoc | src/PAA5100JE.cpp:295-298 | replaying one more entry is one more register write, which is what the replay loop's step relies on |
| Sensor.CalibrationLog | src/PAA5100JE.cpp:299-317 | the calibration block appends eight correctly framed transactions |
| Sensor.CalibrationShape | src/PAA5100JE.cpp:299-317 | the calibration block reads 0x70 then 0x71, writes the fixed four-write preamble, then writes C1 in [14, 63] to 0x70 and C2 ≤ 114 to 0x71, each computed from the byte just read |
| Sensor.Reg48Value | src/PAA5100JE.cpp:289-294 | register 0x48 receives 0x04 exactly when bit 7 of register 0x67 is set, and 0x02 exactly when it is clear |
| Sensor.OptimisationLog | src/PAA5100JE.cpp:281-329 | the routine appends only correctly framed transactions: 97 of them, or 105 with the calibration block |
| Sensor.OptimisationHead | src/PAA5100JE.cpp:285-298 | the routine's first thirteen transactions are table 1, the read of 0x67, the write of `Reg48Value` of that read to 0x48, table 2 and the read of 0x73 |
| Sensor.OptimisationShape | src/PAA5100JE.cpp:281-329 | table 1, read 0x67, write 0x48, table 2, read 0x73, the calibration block exactly when 0x73 read zero, tables 3 and 4, and a final write of 0x00 to 0x73 |
| Sensor.DrainLog | src/PAA5100JE.cpp:47-52 | the drain appends six correctly framed transactions, all of them reads |
| Sensor.DrainShape | src/PAA5100JE.cpp:47-52 | the drain reads the motion register, X low, X high, Y low, Y high and X high again, in that order, each carrying the sensor's answer after the reads before it |
| Sensor.PowerUp | src/PAA5100JE.cpp:37-61 | a failed power-up leaves the flags unchanged after three transactions; a successful one clears only the shutdown flag and includes the optimisation routine |
| Sensor.PowerUpShape | src/PAA5100JE.cpp:39-56 | power-up writes 0x5A to the reset register, reads both identity registers, fails exactly when the product ID is not 0x49 and the inverse ID is not 0xB6, and on success drains the motion registers and then runs the optimisation routine |
| Sensor.PowerUpPrefix | src/PAA5100JE.cpp:39-56 | the log of power-up starts with the reset write and the two identity reads in either outcome |
| Sensor.IdentityCheckIsPermissive | src/PAA5100JE.cpp:44-45 | a device answering 0xB6 to every read passes the identity check although its product ID is not 0x49 |
| Sensor.PowerDown | src/PAA5100JE.cpp:64-69 | power-down always succeeds, writes 0xB6 to the shutdown register, and sets the shutdown flag and nothing else |
| Sensor.SetWorkingHeight | src/PAA5100JE.cpp:75-86 | the calibration flag is set exactly when not shut down and the height is in [12.5, 37.5] mm; the state is otherwise unchanged; on success CPI × height = 11914 |
| Sensor.SetCpi | src/PAA5100JE.cpp:89-92 | only the CPI value changes; the calibration and shutdown flags stay as they were |
| Sensor.SetResolution | src/PAA5100JE.cpp:98-105 | exactly one write to the resolution register, whatever the state, of the request when it is at most 0xA8 and of 0xA8 when it is above |
| Sensor.SetOrientation | src/PAA5100JE.cpp:108-120 | while shut down there is no bus traffic; otherwise exactly one write to the orientation register, with a byte whose flags are the requested ones and whose bits 0-4 are zero |
| Sensor.GetSqual | src/PAA5100JE.cpp:123-129 | -99 exactly when shut down, with no bus traffic; otherwise one read of the SQUAL register, carrying the sensor's answer, and four times that answer, in [0, 1020] |
| Sensor.GetObservation | src/PAA5100JE.cpp:131-134 | one read of the observation register, whatever the state, returning the sensor's answer |
| Sensor.DeltaSample | src/PAA5100JE.cpp:186-196 | a sample exists exactly when the quality gate accepts SQUAL and the shutter byte, and its counts are signed 16-bit values |
| Sensor.DeltaSampleBytes | src/PAA5100JE.cpp:194-195 | the high and low bytes of a sample's counts are the delta bytes it was read from |
| Sensor.MotionRead | src/PAA5100JE.cpp:168-199 | while shut down, no sample and no bus traffic; otherwise only correctly framed reads, and every sample is in signed 16-bit range |
| Sensor.MotionReadShape | src/PAA5100JE.cpp:172-196 | with bit 7 of the motion register clear the result is (0, 0) after exactly one read; otherwise six more reads of delta X low/high, delta Y low/high, SQUAL and shutter, each carrying the sensor's answer after the reads before it; the gate decides; the deltas are the signed words of the high and low bytes |
| Sensor.BurstPayload | src/PAA5100JE.cpp:217-220 | the payload is twelve bytes, byte j being the sensor's j-th answer in the burst |
| Sensor.BurstSample | src/PAA5100JE.cpp:227-234 | a burst payload carries no sample exactly when the gate fails on bytes 6 and 10; otherwise X is the signed word of bytes 3 and 2 and Y that of bytes 5 and 4 |
| Sensor.BurstMotionRead | src/PAA5100JE.cpp:203-236 | while shut down, no sample and no bus traffic; otherwise exactly one burst transaction with bit 7 of the address clear and the sensor's twelve bytes; the sample is rejected exactly when the gate fails on bytes 6 and 10, else X comes from bytes 3, 2 and Y from bytes 5, 4 |
| Sensor.GetDistance | src/PAA5100JE.cpp:139-145 | without calibration or while shut down, no sample and no bus traffic; otherwise the discrete read's result and log |
| Sensor.GetDistanceBurst | src/PAA5100JE.cpp:154-160 | without calibration or while shut down, no sample and no bus traffic; otherwise the burst read's result and log |
| Sensor.Step | src/PAA5100JE.cpp:37-236 | any single public operation only appends correctly framed transactions |
| Sensor.RunEmits | src/PAA5100JE.cpp:248-277 | after any sequence of public operations, every transaction sent uses bit 7 of the address for its direction |
| Sensor.CalibrationPersists | src/PAA5100JE.cpp:75-92 | once the calibration flag is set, no sequence of operations clears it |
| Sensor.DistanceNeedsHeight | src/PAA5100JE.cpp:75-92 | until a working-height call is accepted (not shut down, height in range), no operation calibrates, setting CPI included, so both distance reads fail after any such sequence of operations |
| Sensor.ShutdownIsQuiet | src/PAA5100JE.cpp:77-78 | while shut down, operations other than power-up, power-down, setResolution and getObservation send nothing, keep the shutdown flag and leave calibration unchanged |
| Driver.Paa5100je.constructor | src/PAA5100JE.cpp:3-6 | a driver over the given bus, with the header's registers, tables and initial flags |
| Driver.Paa5100je.WriteRegister | src/PAA5100JE.cpp:248-260 | one write transaction with bit 7 of the address set |
| Driver.Paa5100je.ReadRegister | src/PAA5100JE.cpp:263-277 | one read transaction with bit 7 of the address clear; returns the sensor's answer |
| Driver.Paa5100je.ReplayTable | src/PAA5100JE.cpp:285-288 | the loop writes the table's entries in order, as `Sensor.Replay` says |
| Driver.Paa5100je.PerformanceOptimizationRoutine | src/PAA5100JE.cpp:281-329 | the bus log becomes exactly `Sensor.OptimisationLog` of the old log |
| Driver.Paa5100je.DrainMotionRegisters | src/PAA5100JE.cpp:47-52 | the bus log becomes exactly `Sensor.DrainLog` of the old log |
| Driver.Paa5100je.PowerUpSeq | src/PAA5100JE.cpp:37-61 | result, flags and log are exactly those of `Sensor.PowerUp` |
| Driver.Paa5100je.Init | src/PAA5100JE.cpp:14-33 | result, flags and log are those of power-up |
| Driver.Paa5100je.PowerDownSeq | src/PAA5100JE.cpp:64-69 | result, flags and log are exactly those of `Sensor.PowerDown` |
| Driver.Paa5100je.SetWorkingHeight | src/PAA5100JE.cpp:75-86 | the new flags and CPI are those of `Sensor.SetWorkingHeight` |
| Driver.Paa5100je.SetCpi | src/PAA5100JE.cpp:89-92 | the new flags and CPI are those of `Sensor.SetCpi` |
| Driver.Paa5100je.SetResolution | src/PAA5100JE.cpp:98-105 | the log becomes that of `Sensor.SetResolution` |
| Driver.Paa5100je.SetOrientation | src/PAA5100JE.cpp:108-120 | the log becomes that of `Sensor.SetOrientation` |
| Driver.Paa5100je.GetSqual | src/PAA5100JE.cpp:123-129 | result and log are those of `Sensor.GetSqual` |
| Driver.Paa5100je.GetObservation | src/PAA5100JE.cpp:131-134 | result and log are those of `Sensor.GetObservation` |
| Driver.Paa5100je.MotionRead | src/PAA5100JE.cpp:168-199 | result and log are those of `Sensor.MotionRead`; on success the output holds the sample, on failure it is untouched |
| Driver.Paa5100je.BurstTransfer | src/PAA5100JE.cpp:209-225 | one burst transaction; the twelve-element buffer holds the sensor's twelve answers, which are also the logged payload |
| Driver.Paa5100je.StoreBurstSample | src/PAA5100JE.cpp:227-235 | the gate on bytes 6 and 10 decides; on success the output holds the sample of the payload, on failure it is untouched |
| Driver.Paa5100je.BurstMotionRead | src/PAA5100JE.cpp:203-236 | result and log are those of `Sensor.BurstMotionRead`; on success the output holds the sample, on failure it is untouched |
| Driver.Paa5100je.GetDistance | src/PAA5100JE.cpp:139-149 | result and log are those of `Sensor.GetDistance`; on success the output holds the counts, on failure it is untouched |
| Driver.Paa5100je.GetDistanceBurst | src/PAA5100JE.cpp:154-164 | result and log are those of `Sensor.GetDistanceBurst`; on success the output holds the counts, on failure it is untouched |

## Left out

- Pins, `SPISettings`, `beginTransaction`/`endTransaction`, chip-select toggling and all delays are not modelled. The chip-select wake pulse in `init` is not modelled either. A transaction in the log stands for one chip-select bracket.
- The byte the driver clocks out while receiving (always 0x00) is not recorded in a read or burst frame.
- Driver.Paa5100je.GetDistance: writes the raw counts to the output; the source scales them to millimetres with `25.4 / CPI` in double precision, which is not modelled.
- Driver.Paa5100je.GetDistanceBurst: writes the raw counts to the output; the source's double-precision scaling `· (1 / CPI) · 25.4` is not modelled.
- Sensor.SetWorkingHeight: CPI is an exact real, so double rounding is not modelled. A NaN height is not modelled either: in the source it passes both range comparisons and sets the flag.
- Sensor.GetDistance: the result carries counts; the conversion to millimetres is not modelled.
- Sensor.GetDistanceBurst: the result carries counts; the conversion to millimetres is not modelled.
- The register addresses, the contents of the four optimisation tables and the initial flag values come from the header, which is not part of this model. They are parameters.
- `frameSync_stopOperation` is not modelled: it replays an eight-entry header table that is not part of this model.
- The destructor is not modelled: it only raises the chip-select pin.
- The burst buffer holds bytes (`bv8`); the source stores them in `int16_t` elements, which holds the same values 0-255.
- The int16 assembly assumes the two's-complement conversion to `int16_t` that every Arduino compiler performs.
- `setResolution` also checks for a negative value; that check can never hold for an unsigned byte, so it is not modelled.
