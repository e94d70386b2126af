# TermiMax core, modelled in Dafny

TermiMax is a serial / TCP / Modbus terminal. This project models three parts of it and proves properties of the models.

- **Tab registry** of the Vue front end (`useTabStore` in `src/stores/tabStore.js`). It holds at most eight connection tabs: serial terminal, TCP client, TCP server or Modbus master. It keeps:
  - a `Map` from id to tab,
  - a display order `tabOrder`,
  - the active tab id,
  - a counter that numbers new tabs `tab-1`, `tab-2`, ….

  It is modelled as the class `TabStore.TabStore`. `Valid()` holds the invariant:
  - capacity;
  - the order lists the map's keys without repeats;
  - every tab is stored under its own id;
  - no id the counter will hand out later is in use;
  - the active id is null exactly when the store is empty, and is otherwise a key.

  `CreateTab`, `CloseTab` and `SetActiveTab` are methods that keep `Valid()` and state the whole new state. The factories and the routing lookups are functions over the fields.
- **Modbus master** (`src-tauri/src/modbus.rs`), in modules `Crc` and `Modbus`:
  - the table-driven CRC-16/MODBUS (a loop method proved equal to a function);
  - RTU framing and CRC verification;
  - the MBAP header of Modbus TCP;
  - the request encoders with their quantity limits and LSB-first coil packing;
  - response parsing, including exception replies;
  - exception texts;
  - the t3.5 inter-frame delay and the expected reply length.

  Module `CrcReference` proves that the lookup table and the byte loop compute the bit-serial CRC of Modbus over Serial Line V1.02, section 6.2.2. Module `Bytes` holds Rust's `u8`/`u16` casts, the endian conversions and coil packing.
- **Modbus slave** (`src-tauri/src/modbus_slave.rs`), in modules `ModbusSlave` and `SlaveStats`. It covers:
  - both request parsers;
  - the exception mappings;
  - `process_request` against the four data tables, including the in-place writes, modelled by methods on `ModbusSlaveData` and tied to a function of the tables before the request;
  - the response builders;
  - `export`/`import`;
  - the integer statistics.

  Module `RoundTrip` connects master and slave. Parsing what the encoders build gives the request back, and parsing what the response builders send gives the reply back.

Rust panics on caller-supplied frames are not preconditions. They are a third result, `Panic`, next to `Ok` and `Err`. This covers:
- slicing and indexing past the end of a frame or a table;
- the odd byte count of a register reply;
- the `frame[12]` read of a 12-byte TCP write request.

Rust's `as u8`/`as u16` truncations are written out with `AsU8`/`AsU16`.

Where the code and its comments or tests disagree, the model follows the code:
- `build_request_data` limits every read to 1..125, coil reads included, so the model does the same.
- The CRC of the read request `01 03 00 00 00 0A` is modelled as the code computes it (0xCDC5), not as one unit test expects it (see Findings).

## Model

| member | source | states |
|---|---|---|
| Bytes.AsU8 | src-tauri/src/modbus.rs:291 | `as u8` keeps a value below 256 unchanged (byte counts of coil and register payloads) |
| Bytes.AsU16 | src-tauri/src/modbus.rs:290 | `as u16` keeps a value below 65536 unchanged (the coil quantity of FC15) |
| Bytes.ToBe | src-tauri/src/modbus.rs:252-257 | `to_be_bytes` gives two bytes that `from_be_bytes` turns back into the value |
| Bytes.ToLe | src-tauri/src/modbus.rs:224 | `to_le_bytes` gives two bytes that `from_le_bytes` turns back into the value |
| Bytes.FromBeInjective | src-tauri/src/modbus_slave.rs:423 | two big-endian byte pairs decode to the same word only when they are the same bytes |
| Bytes.PackBits | src-tauri/src/modbus.rs:297-307 | the packed number of n coils is below 2^n |
| Bytes.PackBitsBit | src-tauri/src/modbus.rs:297-307 | bit k of the packed number is coil k, and every bit beyond the coils is zero |
| Bytes.PackCoils | src-tauri/src/modbus.rs:290-307 | the coil packing loop emits ceil(n/8) bytes |
| Bytes.PackCoilsBit | src-tauri/src/modbus.rs:297-307 | bit i%8 of byte i/8 is coil i (LSB first), and every padding bit of the last byte is zero |
| Bytes.UnpackBits | src-tauri/src/modbus.rs:468-474 | unpacking gives eight coils per byte |
| Bytes.UnpackPackCoils | src-tauri/src/modbus.rs:468-474 | unpacking packed coils gives the coils back, followed only by false padding |
| Bytes.RegistersToBytes | src-tauri/src/modbus.rs:282-284 | the register loop emits two bytes per register |
| Bytes.RegistersToBytesAt | src-tauri/src/modbus.rs:282-284 | register i can be read back big-endian from bytes 2i and 2i+1 |
| Text.DecimalString | src-tauri/src/modbus.rs:315 | `{}` of a number is a non-empty string of digits, one digit exactly for numbers below 10 |
| Text.DecimalStringInjective | src/stores/tabStore.js:168 | different numbers have different decimal spellings |
| Text.HexDigit | src-tauri/src/modbus.rs:541 | `{:X}` digits are `0`-`9` then upper-case `A`-`F` |
| Text.Hex2 | src-tauri/src/modbus.rs:541 | `{:02X}` of a byte has exactly two characters |
| Text.Hex2Injective | src-tauri/src/modbus.rs:541 | different bytes have different two-digit spellings |
| Modbus.FunctionCode.IsRead | src-tauri/src/modbus.rs:84-92 | a code is a read exactly when its byte value is at most 0x04 |
| Modbus.FunctionCode.IsCoilOperation | src-tauri/src/modbus.rs:94-102 | the coil operations are exactly codes 0x01, 0x02, 0x05 and 0x0F |
| Modbus.FromU8 | src-tauri/src/modbus.rs:70-82 | `from_u8` returns the code whose value is the byte, and returns None exactly for bytes outside the eight supported codes |
| Crc.CrcOfSnoc | src-tauri/src/modbus.rs:197-200 | feeding one more byte applies one more loop step to the register |
| Crc.CalculateCrc16 | src-tauri/src/modbus.rs:195-202 | the loop leaves, for every input, the CRC of the whole input, starting from 0xFFFF |
| Crc.CrcOfEmpty | src-tauri/src/modbus.rs:195-202 | the empty input gives 0xFFFF |
| Crc.VerifyCrc16 | src-tauri/src/modbus.rs:205-213 | true iff the frame has at least 4 bytes and its last two bytes, little-endian, equal the CRC of the rest |
| Crc.AppendedCrcVerifies | src-tauri/src/modbus.rs:218-226 | a body of at least two bytes with its little-endian CRC appended always verifies |
| CrcReference.Feedback | src-tauri/src/modbus.rs:10-45 | the branch-free feedback term is 0xA001 exactly when the low bit is set |
| CrcReference.ShiftByteRounds | src-tauri/src/modbus.rs:10-45 | the eight nested shifts are eight rounds of the bit-serial algorithm |
| CrcReference.TableIsBitwise | src-tauri/src/modbus.rs:10-45 | each of the 256 entries of `CRC_TABLE` is the eight-shift image of its index |
| CrcReference.StepIsTable | src-tauri/src/modbus.rs:197-200 | the loop step is the table step applied to the widened byte |
| CrcReference.StepIsBitwise | src-tauri/src/modbus.rs:197-200 | one table step is eight bit-serial shifts of the register xor the byte |
| CrcReference.CrcIsBitwise | src-tauri/src/modbus.rs:195-202 | the table-driven CRC equals the bit-serial CRC of the serial-line standard on every message |
| CrcReference.CrcReadRequestVector | src-tauri/src/modbus.rs:633-636 | the CRC of `01 03 00 00 00 0A` is 0xCDC5, and the frame ending `C5 CD` verifies |
| CrcReference.CrcTestExpectationDisagrees | src-tauri/src/modbus.rs:605-610 | the CRC of that request is not the 0x04C5 the unit test expects, and a frame ending `C5 04` does not verify |
| Modbus.BuildRtuFrame | src-tauri/src/modbus.rs:218-226 | the frame is `[slave, fc] ++ data ++ CRC-LE`, is four bytes longer than the data, and always passes `verify_crc16` |
| Modbus.MbapLength | src-tauri/src/modbus.rs:235-241 | the MBAP length field is the data length plus 2 whenever that fits in 16 bits, and agrees with it modulo 65536 otherwise |
| Modbus.BuildTcpFrame | src-tauri/src/modbus.rs:229-249 | the frame is eight bytes longer than the data: transaction id big-endian, protocol 0, the data length plus 2 (as u16), unit, fc, data |
| Modbus.ReadRequestData | src-tauri/src/modbus.rs:252-257 | four bytes: start and quantity, big-endian |
| Modbus.WriteSingleRegisterData | src-tauri/src/modbus.rs:260-265 | four bytes: address and value, big-endian |
| Modbus.WriteSingleCoilData | src-tauri/src/modbus.rs:268-273 | four bytes: address, then 0xFF00 for on and 0x0000 for off |
| Modbus.WriteMultipleRegistersData | src-tauri/src/modbus.rs:276-286 | `5 + 2n` bytes: start, count (as u16), byte count (as u8), then the registers big-endian |
| Modbus.WriteMultipleRegistersDataValues | src-tauri/src/modbus.rs:276-286 | register i reads back from bytes 5+2i and 6+2i |
| Modbus.WriteMultipleCoilsData | src-tauri/src/modbus.rs:289-310 | `5 + ceil(n/8)` bytes: start, quantity, byte 4 equal to ceil(n/8), then the packed coils |
| Modbus.WriteMultipleCoilsDataBits | src-tauri/src/modbus.rs:289-310 | bit i%8 of byte 5+i/8 is coil i |
| Modbus.FirstOr | src-tauri/src/modbus.rs:327-345 | a single write takes the first given value, and false/0 when the list is missing or empty |
| Modbus.BuildRequestData | src-tauri/src/modbus.rs:313-366 | Ok exactly for accepted requests, never a panic, and "Invalid function code: N" for an unknown code |
| Modbus.BuildRequestDataErrors | src-tauri/src/modbus.rs:322-363 | each rejection has its message: read quantity outside 1..125, FC15 list missing or outside 1..1968, FC16 list missing or outside 1..123 |
| Modbus.BuildRequestDataEncodes | src-tauri/src/modbus.rs:317-365 | an accepted request encodes the data of the `build_*_data` of its code, single writes defaulting to false/0 |
| Modbus.ClearExceptionBit | src-tauri/src/modbus.rs:394-398 | `fc & 0x7F`: the exception flag removed, other codes unchanged |
| Modbus.BytesToRegisters | src-tauri/src/modbus.rs:496-500 | n registers, register i decoded big-endian from bytes 2i and 2i+1 |
| Modbus.ParseResponseData | src-tauri/src/modbus.rs:457-527 | panics exactly on an odd register byte count that fills the frame; otherwise Ok iff the code is known and a read's announced bytes are present; gives unpacked coils, big-endian registers, or nothing for writes |
| Modbus.ParseRtuResponse | src-tauri/src/modbus.rs:381-416 | "Response too short" below 5 bytes, then "CRC error", then an exception reply for a flagged code, then the mismatch error; an Ok reply is from `frame[0]` and carries the expected code unless it is an exception |
| Modbus.ParseTcpResponse | src-tauri/src/modbus.rs:419-454 | "Response too short" below 9 bytes, then exception, then mismatch, with the MBAP header unchecked |
| Modbus.FormatExceptionError | src-tauri/src/modbus.rs:530-543 | the nine named codes get names; every other code gets "Unknown Exception: 0x" and two hex digits |
| Modbus.FormatExceptionErrorInjective | src-tauri/src/modbus.rs:530-543 | different exception codes give different messages |
| Modbus.InterFrameDelayUs | src-tauri/src/modbus.rs:548-555 | the delay is `max(1750, (11_000_000 / baud) * 7 / 2)`, so it is never below 1750 us |
| Modbus.CharTimeBounds | src-tauri/src/modbus.rs:552 | 11_000_000 / baud is at most 500 exactly from 21957 baud on |
| Modbus.InterFrameDelayFloor | src-tauri/src/modbus.rs:548-555 | the written delay is 1750 us exactly from 21957 baud on |
| Modbus.InterFrameDelayAt20000 | src-tauri/src/modbus.rs:548-555 | at 20000 baud the written delay is 1925 us |
| Modbus.InterFrameDelayStandardUs | src-tauri/src/modbus.rs:548-555 | the delay Modbus over Serial Line V1.02, section 2.5.1.1 fixes: 3.5 characters up to 19200 baud, 1750 us above |
| Modbus.InterFrameDelayAgreement | src-tauri/src/modbus.rs:548-555 | the written and the standard delay agree exactly outside 19201..21956 baud |
| Modbus.ExpectedResponseLength | src-tauri/src/modbus.rs:558-580 | the predicted length is at least the 5-byte (RTU) or 9-byte (TCP) base |
| Modbus.ExpectedResponseLengthCorrected | src-tauri/src/modbus.rs:558-580 | write replies are 8 (RTU) or 12 (TCP) bytes; unknown codes get the base length |
| Modbus.ExpectedResponseLengthWriteShortByOne | src-tauri/src/modbus.rs:570-575 | as written, every write reply is predicted one byte shorter than it is |
| Modbus.ExpectedResponseLengthRightOffWrites | src-tauri/src/modbus.rs:558-580 | for every code other than the four writes the written prediction is the corrected one: base plus ceil(q/8) for coil and discrete-input reads, base plus 2q for register reads, the bare base for unknown codes |
| ModbusSlave.CoilsAt | src-tauri/src/modbus_slave.rs:472-477 | n coils, coil i being bit i%8 of frame byte offset+i/8 |
| ModbusSlave.ParseRtuRequest | src-tauri/src/modbus_slave.rs:412-514 | "Frame too short" below 8 bytes, "CRC error", unknown code, and the two "Incomplete" errors; panics exactly when the FC15/16 loop runs past the frame; an Ok request has the frame's slave, code, start and quantity, and exactly `quantity` FC15/16 values |
| ModbusSlave.ParseTcpRequest | src-tauri/src/modbus_slave.rs:517-633 | "TCP frame too short" below 12 bytes, "Incomplete TCP frame" below `6 + length`, unknown code; panics exactly on a 12-byte FC15/16 frame; an Ok result carries the transaction id and never more than `quantity` values |
| ModbusSlave.TcpCoilsAreThoseInFrame | src-tauri/src/modbus_slave.rs:580-605 | the FC15 coils are the frame's bits from byte 13, LSB first, as many as `quantity` or as the frame holds |
| ModbusSlave.ExceptionFc | src-tauri/src/modbus_slave.rs:901 | `fc \| 0x80` is flagged as an exception and keeps the code's low seven bits |
| ModbusSlave.Frame | src-tauri/src/modbus_slave.rs:903-906 | the RTU or TCP frame of the mode, 4 or 8 bytes longer than the data |
| ModbusSlave.FramePdu | src-tauri/src/modbus_slave.rs:903-906 | the PDU of a built frame is the function code followed by the data |
| ModbusSlave.BuildExceptionResponse | src-tauri/src/modbus_slave.rs:893-907 | the PDU is `[fc \| 0x80, code]`, and the frame is 5 or 9 bytes |
| ModbusSlave.BuildReadCoilsResponse | src-tauri/src/modbus_slave.rs:910-936 | the PDU is `[fc, ceil(n/8) as u8]` followed by the packed coils |
| ModbusSlave.BuildReadRegistersResponse | src-tauri/src/modbus_slave.rs:939-957 | the PDU is `[fc, 2n as u8]` followed by the registers big-endian |
| ModbusSlave.BuildWriteSingleCoilResponse | src-tauri/src/modbus_slave.rs:960-975 | the PDU echoes `0x05`, the address, and 0xFF00 or 0x0000 |
| ModbusSlave.BuildWriteSingleRegisterResponse | src-tauri/src/modbus_slave.rs:978-993 | the PDU echoes `0x06`, the address and the value |
| ModbusSlave.BuildWriteMultipleResponse | src-tauri/src/modbus_slave.rs:996-1012 | the PDU echoes fc, start and quantity in five bytes |
| ModbusSlave.FindException | src-tauri/src/modbus_slave.rs:317-328 | None iff no mapping matches type and `start <= addr <= end`; otherwise the code of the first one that matches |
| ModbusSlave.ModbusSlaveHandle.constructor | src-tauri/src/modbus_slave.rs:242-272 | a new handle has no exception mappings |
| ModbusSlave.ModbusSlaveHandle.GetException | src-tauri/src/modbus_slave.rs:317-328 | the search loop returns the first matching mapping's code |
| ModbusSlave.Overwrite | src-tauri/src/modbus_slave.rs:808-811 | same length; the indices `start..start+n` that fit hold the new values, and every other index is unchanged |
| ModbusSlave.ModbusSlaveData.constructor | src-tauri/src/modbus_slave.rs:33-46 | four tables of 10000 entries, all false or 0 |
| ModbusSlave.ModbusSlaveData.Export | src-tauri/src/modbus_slave.rs:1027-1034 | the export is a copy of the four tables |
| ModbusSlave.ModbusSlaveData.Import | src-tauri/src/modbus_slave.rs:1037-1042 | after import, export returns exactly what was imported |
| ModbusSlave.ModbusSlaveData.WriteCoils | src-tauri/src/modbus_slave.rs:806-812 | coils `start..` overwritten as far as the table reaches; ok iff the loop stays inside; the other three tables unchanged |
| ModbusSlave.ModbusSlaveData.WriteRegisters | src-tauri/src/modbus_slave.rs:841-847 | the holding registers are overwritten in the same way; the other three tables are unchanged |
| ModbusSlave.DataTypeOf | src-tauri/src/modbus_slave.rs:649-655 | the mapping's data type is empty exactly for unsupported codes |
| ModbusSlave.CoilWords | src-tauri/src/modbus_slave.rs:819 | the event reports 1 for each coil that is on and 0 for each that is off |
| ModbusSlave.WriteSingleCoilOutcome | src-tauri/src/modbus_slave.rs:736-770 | FC05 changes only the coil table, and keeps its length |
| ModbusSlave.WriteSingleRegisterOutcome | src-tauri/src/modbus_slave.rs:771-805 | FC06 changes only the holding-register table, and keeps its length |
| ModbusSlave.WriteMultipleCoilsOutcome | src-tauri/src/modbus_slave.rs:806-840 | FC15 changes only the coil table, and keeps its length |
| ModbusSlave.WriteMultipleRegistersOutcome | src-tauri/src/modbus_slave.rs:841-875 | FC16 changes only the holding-register table, and keeps its length |
| ModbusSlave.Process | src-tauri/src/modbus_slave.rs:636-888 | a reply that is not a success changes no table and reports no change; only the four write codes report changed data (the `Process*` and footprint lemmas below state each branch) |
| ModbusSlave.ProcessRequest | src-tauri/src/modbus_slave.rs:636-888 | the in-place processing returns the outcome, and leaves the tables, that `Process` gives for the tables before the request |
| ModbusSlave.ApplyWriteSingleCoil | src-tauri/src/modbus_slave.rs:736-770 | the in-place FC05 branch agrees with its outcome function |
| ModbusSlave.ApplyWriteSingleRegister | src-tauri/src/modbus_slave.rs:771-805 | the in-place FC06 branch agrees with its outcome function |
| ModbusSlave.ApplyWriteMultipleCoils | src-tauri/src/modbus_slave.rs:806-840 | the in-place FC15 loop agrees with its outcome function, including the writes made before a panic |
| ModbusSlave.ApplyWriteMultipleRegisters | src-tauri/src/modbus_slave.rs:841-875 | the in-place FC16 loop agrees with its outcome function |
| ModbusSlave.ProcessMappedException | src-tauri/src/modbus_slave.rs:657-668 | a matching mapping wins first: an exception reply with its code and message, `success` false, no event, no table change |
| ModbusSlave.ProcessRangeCheck | src-tauri/src/modbus_slave.rs:669-681 | otherwise `addr + qty > 10000` gives exception 0x02, "Illegal Data Address", and no change |
| ModbusSlave.ProcessIllegalFunction | src-tauri/src/modbus_slave.rs:876-886 | an unsupported code that passes both checks gives exception 0x01, "Illegal Function", and no change |
| ModbusSlave.ReadBitsReplies | src-tauri/src/modbus_slave.rs:684-709 | a bit read succeeds iff the slice lies in the table, and replies with that slice packed; it never errs |
| ModbusSlave.ReadRegistersReplies | src-tauri/src/modbus_slave.rs:710-735 | a register read succeeds iff the slice lies in the table, and replies with that slice big-endian |
| ModbusSlave.ReadBitsOutcomeReplies | src-tauri/src/modbus_slave.rs:684-709 | FC01 reads coils and FC02 reads discrete inputs, in the reply |
| ModbusSlave.ReadRegistersOutcomeReplies | src-tauri/src/modbus_slave.rs:710-735 | FC03 reads holding registers and FC04 reads input registers, in the reply |
| ModbusSlave.ProcessReadChangesNothing | src-tauri/src/modbus_slave.rs:683-735 | reads leave all four tables unchanged |
| ModbusSlave.ProcessNeverWritesInputTables | src-tauri/src/modbus_slave.rs:636-888 | no request writes the discrete inputs or input registers, and no request resizes a table |
| ModbusSlave.ProcessDispatchesWrites | src-tauri/src/modbus_slave.rs:657-875 | a successful request passed both checks and, for a write code, is exactly that code's write |
| ModbusSlave.SingleCoilFootprint | src-tauri/src/modbus_slave.rs:736-760 | a successful FC05 sets exactly coil `addr` to the first value and reports it as 1/0 |
| ModbusSlave.MultipleCoilsFootprint | src-tauri/src/modbus_slave.rs:806-830 | a successful FC15 overwrites exactly coils `addr..addr+n` with the request's values and reports them |
| ModbusSlave.SingleRegisterFootprint | src-tauri/src/modbus_slave.rs:771-795 | a successful FC06 sets exactly register `addr` and reports it |
| ModbusSlave.MultipleRegistersFootprint | src-tauri/src/modbus_slave.rs:841-865 | a successful FC16 overwrites exactly registers `addr..addr+n` and reports them |
| ModbusSlave.ParsersProduceShapedRequests | src-tauri/src/modbus_slave.rs:412-633 | every parsed request has a supported code and value lists no longer than its quantity |
| ModbusSlave.ProcessNoPanicOnDefaultTables | src-tauri/src/modbus_slave.rs:636-888 | on tables of at least 10000 entries, no parsed request makes `process_request` panic |
| SlaveStats.MinMaxBound | src-tauri/src/modbus_slave.rs:174-180 | min and max bound every recorded time and are themselves recorded times |
| SlaveStats.CountsBalancedAfterRecord | src-tauri/src/modbus_slave.rs:164-171 | per code, the request count stays the sum of successes and errors |
| SlaveStats.SumAppend | src-tauri/src/modbus_slave.rs:181 | the sum grows by the new time |
| SlaveStats.MinMaxAppend | src-tauri/src/modbus_slave.rs:174-180 | the new min and max are the old ones compared with the new time |
| SlaveStats.SlaveStatistics.constructor | src-tauri/src/modbus_slave.rs:140-161 | all counters zero, all maps empty |
| SlaveStats.SlaveStatistics.RecordRequest | src-tauri/src/modbus_slave.rs:163-183 | total and the code's count grow by one; exactly one of success or error grows; min <= time <= max, and min/max bound every recorded time |
| SlaveStats.SlaveStatistics.CountRequest | src-tauri/src/modbus_slave.rs:164-171 | the counting half keeps counts balanced and leaves the timing fields alone |
| SlaveStats.SlaveStatistics.RecordResponseTime | src-tauri/src/modbus_slave.rs:174-182 | the timing half keeps count, sum, min and max equal to those of all recorded times |
| SlaveStats.StatisticsExample | src-tauri/src/modbus_slave.rs:1072-1086 | 5, 10 and 15 ms on FC03, two of them successes, give total 3, successes 2, errors 1, min 5, max 15, sum 30, count 3 |
| RoundTrip.RegistersDecode | src-tauri/src/modbus_slave.rs:496-501 | decoding the encoded registers gives them back |
| RoundTrip.CoilsDecode | src-tauri/src/modbus_slave.rs:472-477 | the parser's coil loop reads back exactly the coils the encoder packed |
| RoundTrip.CoilWordIsState | src-tauri/src/modbus_slave.rs:440-451 | the FC05 value word is 0xFF00 exactly when the coil is on |
| RoundTrip.RtuReadRequestRoundTrip | src-tauri/src/modbus_slave.rs:425-439 | parsing the RTU frame of a read request gives back slave, code, start and quantity |
| RoundTrip.RtuWriteSingleCoilRoundTrip | src-tauri/src/modbus_slave.rs:440-451 | FC05 round trip: the coil comes back, with quantity 1 |
| RoundTrip.RtuWriteSingleRegisterRoundTrip | src-tauri/src/modbus_slave.rs:452-462 | FC06 round trip: the value comes back, with quantity 1 |
| RoundTrip.RtuWriteMultipleCoilsRoundTrip | src-tauri/src/modbus_slave.rs:463-487 | FC15 round trip: exactly the coils come back |
| RoundTrip.RtuWriteMultipleRegistersRoundTrip | src-tauri/src/modbus_slave.rs:488-511 | FC16 round trip: exactly the registers come back |
| RoundTrip.TcpReadRequestRoundTrip | src-tauri/src/modbus_slave.rs:533-550 | the TCP parser gives back transaction id, unit, code, start and quantity |
| RoundTrip.TcpWriteSingleCoilRoundTrip | src-tauri/src/modbus_slave.rs:551-565 | FC05 round trip over TCP |
| RoundTrip.TcpWriteSingleRegisterRoundTrip | src-tauri/src/modbus_slave.rs:566-579 | FC06 round trip over TCP |
| RoundTrip.TcpWriteMultipleCoilsRoundTrip | src-tauri/src/modbus_slave.rs:580-605 | FC15 round trip over TCP |
| RoundTrip.TcpWriteMultipleRegistersRoundTrip | src-tauri/src/modbus_slave.rs:606-632 | FC16 round trip over TCP |
| RoundTrip.ReadRegistersReplyRoundTrip | src-tauri/src/modbus.rs:486-510 | the master parses the slave's register reply back into the registers |
| RoundTrip.ReadCoilsReplyRoundTrip | src-tauri/src/modbus.rs:459-485 | the master parses the slave's coil reply into the coils, followed by false padding to whole bytes |
| RoundTrip.ExceptionReplyRoundTrip | src-tauri/src/modbus.rs:394-404 | the master parses the slave's exception reply into the original code and the exception code |
| RoundTrip.WriteSingleCoilReplyRoundTrip | src-tauri/src/modbus.rs:512-524 | the master accepts the FC05 echo |
| RoundTrip.WriteSingleRegisterReplyRoundTrip | src-tauri/src/modbus.rs:512-524 | the master accepts the FC06 echo |
| RoundTrip.WriteMultipleReplyRoundTrip | src-tauri/src/modbus.rs:512-524 | the master accepts the FC15/FC16 echo |
| RoundTrip.ExpectedLengthMatchesReplies | src-tauri/src/modbus.rs:558-580 | the corrected expected length is the exact length of every reply the slave builds |
| TabStore.ConnectionTypeName | src/stores/tabStore.js:7-12 | every connection type is a non-empty string |
| TabStore.ConnectionTypeNameInjective | src/stores/tabStore.js:7-12 | the four type strings are distinct |
| TabStore.BaseTabState | src/stores/tabStore.js:32-60 | nothing sent or received, auto-send off, no timer |
| TabStore.SerialTabState | src/stores/tabStore.js:63-76 | a disconnected serial tab with the base state and no port |
| TabStore.TcpClientTabState | src/stores/tabStore.js:79-91 | a disconnected TCP client tab whose `connectionId` is its id |
| TabStore.TcpServerTabState | src/stores/tabStore.js:94-107 | a disconnected TCP server tab whose `serverId` is its id, with no clients |
| TabStore.ModbusTabState | src/stores/tabStore.js:110-162 | a disconnected Modbus tab whose `connectionId` is its id, with no `modbusConnectionId` |
| TabStore.NewTabState | src/stores/tabStore.js:170-183 | the tab has the requested type and id; an unknown type falls back to the serial shape |
| TabStore.TabIdInjective | src/stores/tabStore.js:168 | different counter values give different `tab-N` ids |
| TabStore.NextIdStaysFree | src/stores/tabStore.js:168-185 | the next id is free, and stays free of all later ids once stored |
| TabStore.DistinctIndices | src/stores/tabStore.js:24 | a repeat-free order has different ids at different positions |
| TabStore.ElementsMember | src/stores/tabStore.js:24 | the order's element set holds exactly its members |
| TabStore.IdsMatchAll | src/stores/tabStore.js:168-185 | every listed id is a key whose tab carries that id |
| TabStore.IndexOf | src/stores/tabStore.js:209 | `indexOf`: -1 iff absent, otherwise the first position of the id |
| TabStore.SpliceRemoves | src/stores/tabStore.js:209-212 | `splice(k, 1)` keeps the order free of repeats and drops exactly the removed id |
| TabStore.Without | src/stores/tabStore.js:209-212 | removing a present id shortens the order by one |
| TabStore.FirstMatchIndex | src/stores/tabStore.js:234-274 | the `for ... of` scan stops at the first tab that matches, or reports none |
| TabStore.FirstMatch | src/stores/tabStore.js:234-274 | the scan returns the first matching tab in map order, and null iff none matches |
| TabStore.AnyMatch | src/stores/tabStore.js:277-285 | true iff some tab matches |
| TabStore.ConnectedPorts | src/stores/tabStore.js:288-297 | exactly the non-empty ports of connected serial tabs, at most one per tab; a single tab gives its port when it is a connected serial tab with a port, and nothing otherwise |
| TabStore.ConnectedPortsAppend | src/stores/tabStore.js:288-297 | the ports of two consecutive stretches of the map order are the ports of the first followed by those of the second: the scan order is kept, one entry per tab, and repeats stay |
| TabStore.FocusAfterClose | src/stores/tabStore.js:214-223 | closing a non-active tab keeps focus; closing the active tab at k > 0 focuses `tabOrder[k-1]`, at 0 the new first tab, and an emptied store gets null |
| TabStore.CreateKeepsInvariant | src/stores/tabStore.js:165-192 | with room, storing the counter's next id keeps the store invariant |
| TabStore.CloseKeepsInvariant | src/stores/tabStore.js:195-224 | closing a live tab keeps the store invariant |
| TabStore.KeysSpliced | src/stores/tabStore.js:206-212 | after delete and splice, map and order still hold the same keys |
| TabStore.KeysAppended | src/stores/tabStore.js:185-186 | after `set` and `push`, map and order still hold the same keys |
| TabStore.IdsKey | src/stores/tabStore.js:185 | every tab is stored under its own non-empty id |
| TabStore.IdsAppended | src/stores/tabStore.js:185-186 | the new tab is stored under its own id |
| TabStore.IdsSpliced | src/stores/tabStore.js:206-212 | the remaining tabs are still stored under their own ids |
| TabStore.RemoveKeepsFutureFree | src/stores/tabStore.js:206 | deleting a tab never makes a future id taken |
| TabStore.InsertGrowsByOne | src/stores/tabStore.js:185 | storing a fresh key grows the map by one |
| TabStore.DistinctCount | src/stores/tabStore.js:28 | `tabCount` (the map's size) equals the order's length |
| TabStore.CloseCount | src/stores/tabStore.js:206 | deleting a key shrinks the map by one |
| TabStore.TabStore.constructor | src/stores/tabStore.js:22-24 | an empty store: no tabs, empty order, null active id, counter 0 |
| TabStore.TabStore.ActiveTab | src/stores/tabStore.js:27 | `activeTab` is present iff the store is not empty, and is the tab of the active id |
| TabStore.TabStore.TabCount | src/stores/tabStore.js:28 | the tab count never exceeds 8 and equals the order's length |
| TabStore.TabStore.CanAddTab | src/stores/tabStore.js:29 | true iff fewer than 8 tabs exist |
| TabStore.TabStore.CreateTab | src/stores/tabStore.js:165-192 | at capacity, returns null and changes nothing; otherwise draws `tab-(counter+1)`, a fresh id, stores the tab for the type, appends it to the order, makes it active and returns it |
| TabStore.TabStore.CloseTab | src/stores/tabStore.js:195-224 | an unknown id changes nothing; otherwise clears a running timer, removes the id from map and order, and moves focus as `FocusAfterClose` says |
| TabStore.TabStore.SetActiveTab | src/stores/tabStore.js:227-231 | focuses a live id and ignores any other; nothing else changes |
| TabStore.TabStore.GetConnectedPorts | src/stores/tabStore.js:288-297 | the loop collects `ConnectedPorts` of the tabs in map order |
| TabStore.TabStore.GetTabByPortName | src/stores/tabStore.js:234-243 | non-null iff some tab is a connected serial tab on the port; the result is such a tab, and no tab before it in map order is one |
| TabStore.TabStore.IsPortConnected | src/stores/tabStore.js:277-285 | true iff some tab is a connected serial tab on the port |
| TabStore.TabStore.GetTabByConnectionId | src/stores/tabStore.js:245-261 | non-null iff some TCP client, TCP server or Modbus tab routes the id; the result is the first such tab in map order, never a serial tab |
| TabStore.TabStore.GetModbusTabByConnectionId | src/stores/tabStore.js:264-274 | non-null iff some Modbus tab has the id as its connection id or its Modbus connection id; the result is the first such tab in map order |
| TabStore.PortLookupAgrees | src/stores/tabStore.js:234-285 | `getTabByPortName(p)` is non-null iff `isPortConnected(p)`, and returns a connected serial tab on `p` |
| TabStore.ConnectionLookupByKey | src/stores/tabStore.js:245-261 | when routing ids are the tab ids, `getTabByConnectionId(c)` is the TCP or Modbus tab `c`, else null |
| TabStore.FirstMatchSingleKey | src/stores/tabStore.js:245-261 | a scan that only one key can match returns that key's tab or null |
| TabStore.RoutingIdsPreserved | src/stores/tabStore.js:165-211 | creating and closing tabs keep the routing ids equal to the tab ids |
| TabStore.ModbusLookupFindsOwnId | src/stores/tabStore.js:264-274 | `getModbusTabByConnectionId` only returns Modbus tabs, and finds a Modbus tab by its own connection id |

## Left out

- Serial ports, sockets, threads, sleeps, Tauri events and the Flutter front end are I/O. The model starts from a received frame and ends at a frame to send.
- `get_timestamp`, and every timestamp it feeds, are left out: the statistics timestamps and the `timestamp` of the data-changed event.
- `requests_per_second` and `average_response_time_ms` are floating point. The model keeps the integer sum and count they are computed from.
- `rand_u32` and `get_delay_ms` are clock-seeded randomness and sleeping. They are not part of this model.
- `RwLock`, `AtomicBool` and `AtomicU64` are left out. The tables and counters are plain fields, and no concurrent request is modelled.
- `format_hex` is display formatting. It is not part of this model.
- Vue reactivity is left out: `reactive`, `ref` and `computed` are plain fields and functions. The module-level singleton `storeInstance` is one explicitly constructed `TabStore` object.
- Timers firing are left out. `clearInterval` is recorded as the handle appended to `clearedTimers`. The tab holding the handle is deleted in the same call, so its `autoSendTimer = null` has no later observer.
- Components outside the store can reorder `tabOrder` by drag and drop. That is not modelled, so `tabOrder` stays in the map's insertion order.
- The display-only parts of a Modbus tab are not modelled: its log and register view arrays, and its `pollRequests` list of polled requests.
- SlaveStats.SlaveStatistics.RecordRequest: does not model `u64` wrap-around of the counters and sums. They are unbounded naturals, which no realistic run exceeds.
- Modbus.InterFrameDelayUs: requires a non-zero baud rate. The code divides by the `u32` baud rate unchecked and panics at 0.
- Modbus.InterFrameDelayStandardUs, Modbus.InterFrameDelayAgreement, Modbus.InterFrameDelayFloor: these require a non-zero baud rate, for the same reason.
- RoundTrip.RtuWriteMultipleCoilsRoundTrip, RoundTrip.TcpWriteMultipleCoilsRoundTrip, RoundTrip.ReadCoilsReplyRoundTrip: these are stated for at most 2040 coils. Beyond that, the `as u8` byte count wraps and the frame no longer describes itself.
- RoundTrip.RtuWriteMultipleRegistersRoundTrip, RoundTrip.TcpWriteMultipleRegistersRoundTrip, RoundTrip.ReadRegistersReplyRoundTrip: these are stated for at most 127 registers, for the same reason.
- TabStore.ConnectionLookupByKey: this is stated for stores whose TCP and Modbus routing ids equal the tab ids, which is how the factories create them. The Vue views may later reassign `connectionId`. That is outside this model.

## Findings

| source | as written | input that shows it | evidently intended | confidence | as-written member | corrected member |
|---|---|---|---|---|---|---|
| src-tauri/src/modbus.rs:570-575 | write replies (FC05/06/15/16) are predicted as `base + 2` bytes | FC06 over RTU: predicted 7, but the echo `slave, 06, addr(2), value(2), crc(2)` is 8 bytes | `base + 3`: the two bytes of address and the two of value or quantity replace the one byte-count byte | not executed | Modbus.ExpectedResponseLengthWriteShortByOne | Modbus.ExpectedResponseLengthCorrected, RoundTrip.ExpectedLengthMatchesReplies |
| src-tauri/src/modbus.rs:548-555 | `max(1750, (11_000_000 / baud) * 7 / 2)` | 20000 baud gives 1925 us | 1750 us for every rate above 19200 baud, as Modbus over Serial Line V1.02, section 2.5.1.1 fixes it; the comments at :550 and :554 call 1750 us a minimum, which reads either as this or as the floor the code applies | not executed | Modbus.InterFrameDelayFloor, Modbus.InterFrameDelayAt20000 | Modbus.InterFrameDelayStandardUs, Modbus.InterFrameDelayAgreement |
| src-tauri/src/modbus.rs:605-610 | the unit test expects `calculate_crc16([01 03 00 00 00 0A]) == 0x04C5` | that request: the function computes 0xCDC5 | 0xCDC5, the value whose trailer `C5 CD` the test at lines 633-636 accepts | not executed | CrcReference.CrcTestExpectationDisagrees | CrcReference.CrcReadRequestVector |
