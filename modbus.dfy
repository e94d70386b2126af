/**
 * The Modbus master: function codes, RTU and TCP framing, the request-PDU
 * encoders, response parsing, exception texts, and the timing and length
 * arithmetic (`src-tauri/src/modbus.rs`).
 */
module Modbus {
  import opened Wrappers
  import opened Bytes
  import opened Text
  import opened Crc

  /** Serial RTU framing (CRC trailer) or TCP framing (MBAP header). */
  datatype ModbusMode = Rtu | Tcp

  /** The eight function codes the application supports. */
  datatype FunctionCode =
    | ReadCoils | ReadDiscreteInputs | ReadHoldingRegisters | ReadInputRegisters
    | WriteSingleCoil | WriteSingleRegister | WriteMultipleCoils | WriteMultipleRegisters
  {
    /** The `#[repr(u8)]` discriminant, the code on the wire. */
    function Code(): uint8 {
      match this
      case ReadCoils => 0x01
      case ReadDiscreteInputs => 0x02
      case ReadHoldingRegisters => 0x03
      case ReadInputRegisters => 0x04
      case WriteSingleCoil => 0x05
      case WriteSingleRegister => 0x06
      case WriteMultipleCoils => 0x0F
      case WriteMultipleRegisters => 0x10
    }

    /** FC01-FC04. */
    predicate IsRead()
      ensures IsRead() <==> Code() <= 0x04
    {
      this in {ReadCoils, ReadDiscreteInputs, ReadHoldingRegisters, ReadInputRegisters}
    }

    /** The codes that address the coil or discrete-input tables. */
    predicate IsCoilOperation()
      ensures IsCoilOperation() <==> Code() in {0x01, 0x02, 0x05, 0x0F}
    {
      this in {ReadCoils, ReadDiscreteInputs, WriteSingleCoil, WriteMultipleCoils}
    }
  }

  /** `FunctionCode::from_u8`: the inverse of `Code` on the eight supported codes. */
  function FromU8(value: uint8): (r: Option<FunctionCode>)
    ensures forall fc: FunctionCode :: r == Some(fc) <==> fc.Code() == value
    ensures r.Some? <==> value in {0x01, 0x02, 0x03, 0x04, 0x05, 0x06, 0x0F, 0x10}
  {
    match value
    case 0x01 => Some(ReadCoils)
    case 0x02 => Some(ReadDiscreteInputs)
    case 0x03 => Some(ReadHoldingRegisters)
    case 0x04 => Some(ReadInputRegisters)
    case 0x05 => Some(WriteSingleCoil)
    case 0x06 => Some(WriteSingleRegister)
    case 0x0F => Some(WriteMultipleCoils)
    case 0x10 => Some(WriteMultipleRegisters)
    case _ => None
  }

  // ---------------------------------------------------------------- frames

  /** `build_rtu_frame`: address, function code, data, then the CRC low byte first. */
  function BuildRtuFrame(slave: uint8, fc: uint8, data: seq<uint8>): (f: seq<uint8>)
    ensures |f| == |data| + 4
    ensures f[0] == slave && f[1] == fc && f[2..|f| - 2] == data
    ensures FromLe(f[|f| - 2], f[|f| - 1]) == Crc16(f[..|f| - 2])
    ensures VerifyCrc16(f)
  {
    var body := [slave, fc] + data;
    AppendedCrcVerifies(body);
    var f := body + ToLe(Crc16(body));
    assert f[..|f| - 2] == body;
    f
  }

  /** Rust `pdu_length as u16` where `pdu_length = |data| + 2` (unit id and function code). */
  function MbapLength(dataLen: nat): (n: uint16)
    ensures dataLen + 2 < 0x1_0000 ==> n == dataLen + 2
    ensures (dataLen + 2 - n) % 0x1_0000 == 0
  {
    AsU16(dataLen + 2)
  }

  /**
   * `build_tcp_frame`: the seven-byte MBAP header of the Modbus Messaging on
   * TCP/IP Implementation Guide V1.0b, section 3.1.3 (transaction id,
   * protocol id 0, length, unit id), then the function code and the data.
   */
  function BuildTcpFrame(tid: uint16, unit: uint8, fc: uint8, data: seq<uint8>): (f: seq<uint8>)
    ensures |f| == |data| + 8
    ensures FromBe(f[0], f[1]) == tid
    ensures f[2] == 0 && f[3] == 0
    ensures FromBe(f[4], f[5]) == MbapLength(|data|)
    ensures |data| + 2 < 0x1_0000 ==> FromBe(f[4], f[5]) == |data| + 2
    ensures f[6] == unit && f[7] == fc && f[8..] == data
  {
    ToBe(tid) + [0, 0] + ToBe(MbapLength(|data|)) + [unit, fc] + data
  }

  // ---------------------------------------------------------------- request PDUs

  /** `build_read_request_data` (FC01-FC04): start address and quantity, big-endian. */
  function ReadRequestData(start: uint16, quantity: uint16): (d: seq<uint8>)
    ensures |d| == 4 && FromBe(d[0], d[1]) == start && FromBe(d[2], d[3]) == quantity
  {
    ToBe(start) + ToBe(quantity)
  }

  /** `build_write_single_register_data` (FC06): address and value, big-endian. */
  function WriteSingleRegisterData(address: uint16, value: uint16): (d: seq<uint8>)
    ensures |d| == 4 && FromBe(d[0], d[1]) == address && FromBe(d[2], d[3]) == value
  {
    ToBe(address) + ToBe(value)
  }

  /** The value word of a single-coil write: 0xFF00 for on, 0x0000 for off. */
  const COIL_ON: uint16 := 0xFF00

  /** `build_write_single_coil_data` (FC05). */
  function WriteSingleCoilData(address: uint16, value: bool): (d: seq<uint8>)
    ensures |d| == 4 && FromBe(d[0], d[1]) == address
    ensures FromBe(d[2], d[3]) == (if value then COIL_ON else 0)
  {
    ToBe(address) + (if value then [0xFF, 0x00] else [0x00, 0x00])
  }

  /**
   * `build_write_multiple_registers_data` (FC16): start, quantity, byte count,
   * then the registers big-endian. Quantity and byte count are the Rust
   * truncating casts `as u16` and `as u8`.
   */
  function WriteMultipleRegistersData(start: uint16, values: seq<uint16>): (d: seq<uint8>)
    ensures |d| == 5 + 2 * |values|
    ensures FromBe(d[0], d[1]) == start && FromBe(d[2], d[3]) == AsU16(|values|)
    ensures d[4] == AsU8(2 * |values|)
    ensures d[5..] == RegistersToBytes(values)
  {
    ToBe(start) + ToBe(AsU16(|values|)) + [AsU8(2 * |values|)] + RegistersToBytes(values)
  }

  /** Every register can be read back, big-endian, at offset `5 + 2 i`. */
  lemma WriteMultipleRegistersDataValues(start: uint16, values: seq<uint16>, i: nat)
    requires i < |values|
    ensures var d := WriteMultipleRegistersData(start, values);
            FromBe(d[5 + 2 * i], d[6 + 2 * i]) == values[i]
  {
    var d := WriteMultipleRegistersData(start, values);
    RegistersToBytesAt(values, i);
    assert d[5 + 2 * i] == RegistersToBytes(values)[2 * i];
    assert d[6 + 2 * i] == RegistersToBytes(values)[2 * i + 1];
  }

  /**
   * `build_write_multiple_coils_data` (FC15): start, quantity, byte count
   * `ceil(n / 8)`, then the coils packed LSB first.
   */
  function WriteMultipleCoilsData(start: uint16, values: seq<bool>): (d: seq<uint8>)
    ensures |d| == 5 + (|values| + 7) / 8
    ensures FromBe(d[0], d[1]) == start && FromBe(d[2], d[3]) == AsU16(|values|)
    ensures d[4] == AsU8((|values| + 7) / 8)
    ensures d[5..] == PackCoils(values)
  {
    ToBe(start) + ToBe(AsU16(|values|)) + [AsU8((|values| + 7) / 8)] + PackCoils(values)
  }

  /** Coil `i` is bit `i % 8` of byte `5 + i / 8`. */
  lemma WriteMultipleCoilsDataBits(start: uint16, values: seq<bool>, i: nat)
    requires i < |values|
    ensures BitOf(WriteMultipleCoilsData(start, values)[5 + i / 8], i % 8) == values[i]
  {
    var d := WriteMultipleCoilsData(start, values);
    PackCoilsBit(values, i);
    assert d[5 + i / 8] == PackCoils(values)[i / 8];
  }

  /** The request a tab sends, as the front end passes it in. */
  datatype ModbusRequest = ModbusRequest(
    connectionId: string,
    functionCode: uint8,
    startAddress: uint16,
    quantity: uint16,
    values: Option<seq<uint16>>,
    coilValues: Option<seq<bool>>)

  /** The first element of an optional list, or a default (`.and_then(|v| v.first()).unwrap_or(d)`). */
  function FirstOr<T>(list: Option<seq<T>>, default: T): (r: T)
    ensures list.Some? && |list.value| > 0 ==> r == list.value[0]
    ensures (list.None? || |list.value| == 0) ==> r == default
  {
    if list.Some? && |list.value| > 0 then list.value[0] else default
  }

  /** The requests `build_request_data` accepts. */
  predicate RequestAccepted(req: ModbusRequest) {
    match FromU8(req.functionCode)
    case None => false
    case Some(fc) =>
      (fc.IsRead() ==> 1 <= req.quantity <= 125) &&
      (fc == WriteMultipleCoils ==> req.coilValues.Some? && 1 <= |req.coilValues.value| <= 1968) &&
      (fc == WriteMultipleRegisters ==> req.values.Some? && 1 <= |req.values.value| <= 123)
  }

  /**
   * `build_request_data`: validates the request and encodes its PDU data
   * (everything after the function code).
   */
  function BuildRequestData(req: ModbusRequest): (r: Result<seq<uint8>>)
    ensures r.Ok? <==> RequestAccepted(req)
    ensures !r.Panic?
    ensures FromU8(req.functionCode).None? ==>
              r == Err("Invalid function code: " + DecimalString(req.functionCode))
  {
    match FromU8(req.functionCode)
    case None => Err("Invalid function code: " + DecimalString(req.functionCode))
    case Some(fc) =>
      match fc
      case ReadCoils | ReadDiscreteInputs | ReadHoldingRegisters | ReadInputRegisters =>
        if req.quantity == 0 || req.quantity > 125 then Err("Quantity must be between 1 and 125")
        else Ok(ReadRequestData(req.startAddress, req.quantity))
      case WriteSingleCoil =>
        Ok(WriteSingleCoilData(req.startAddress, FirstOr(req.coilValues, false)))
      case WriteSingleRegister =>
        Ok(WriteSingleRegisterData(req.startAddress, FirstOr(req.values, 0)))
      case WriteMultipleCoils =>
        if req.coilValues.None? then Err("Coil values required for FC15")
        else if |req.coilValues.value| == 0 || |req.coilValues.value| > 1968 then
          Err("Number of coils must be between 1 and 1968")
        else Ok(WriteMultipleCoilsData(req.startAddress, req.coilValues.value))
      case WriteMultipleRegisters =>
        if req.values.None? then Err("Register values required for FC16")
        else if |req.values.value| == 0 || |req.values.value| > 123 then
          Err("Number of registers must be between 1 and 123")
        else Ok(WriteMultipleRegistersData(req.startAddress, req.values.value))
  }

  /** Each rejection of `build_request_data` with its message. */
  lemma BuildRequestDataErrors(req: ModbusRequest)
    ensures FromU8(req.functionCode).Some? && FromU8(req.functionCode).value.IsRead() &&
            (req.quantity == 0 || req.quantity > 125) ==>
              BuildRequestData(req) == Err("Quantity must be between 1 and 125")
    ensures req.functionCode == 0x0F && req.coilValues.None? ==>
              BuildRequestData(req) == Err("Coil values required for FC15")
    ensures req.functionCode == 0x0F && req.coilValues.Some? &&
            (|req.coilValues.value| == 0 || |req.coilValues.value| > 1968) ==>
              BuildRequestData(req) == Err("Number of coils must be between 1 and 1968")
    ensures req.functionCode == 0x10 && req.values.None? ==>
              BuildRequestData(req) == Err("Register values required for FC16")
    ensures req.functionCode == 0x10 && req.values.Some? &&
            (|req.values.value| == 0 || |req.values.value| > 123) ==>
              BuildRequestData(req) == Err("Number of registers must be between 1 and 123")
  {
  }

  /** What each accepted request encodes: the data of the matching `build_*_data`. */
  lemma BuildRequestDataEncodes(req: ModbusRequest)
    requires RequestAccepted(req)
    ensures var fc := FromU8(req.functionCode).value;
            var d := BuildRequestData(req).value;
            (fc.IsRead() ==> d == ReadRequestData(req.startAddress, req.quantity)) &&
            (fc == WriteSingleCoil ==> d == WriteSingleCoilData(req.startAddress, FirstOr(req.coilValues, false))) &&
            (fc == WriteSingleRegister ==> d == WriteSingleRegisterData(req.startAddress, FirstOr(req.values, 0))) &&
            (fc == WriteMultipleCoils ==> d == WriteMultipleCoilsData(req.startAddress, req.coilValues.value)) &&
            (fc == WriteMultipleRegisters ==> d == WriteMultipleRegistersData(req.startAddress, req.values.value))
  {
  }

  // ---------------------------------------------------------------- responses

  /** `ParsedResponse`: what the master extracts from a reply. */
  datatype ParsedResponse = ParsedResponse(
    slaveId: uint8,
    functionCode: uint8,
    data: Option<seq<uint16>>,
    coils: Option<seq<bool>>,
    isException: bool,
    exceptionCode: Option<uint8>)

  /** `fc & 0x80 != 0`: the exception flag of a response function code (section 7 of the Modbus Application Protocol V1.1b3). */
  predicate IsExceptionCode(fc: uint8) {
    fc >= 0x80
  }

  /** `fc & 0x7F`. */
  function ClearExceptionBit(fc: uint8): (r: uint8)
    ensures r < 0x80
    ensures IsExceptionCode(fc) ==> r + 0x80 == fc
    ensures !IsExceptionCode(fc) ==> r == fc
  {
    fc % 0x80
  }

  /** The registers of a read response: `n` big-endian pairs from the front of `bytes`. */
  function BytesToRegisters(bytes: seq<uint8>, n: nat): (r: seq<uint16>)
    requires 2 * n <= |bytes|
    ensures |r| == n
    ensures forall i :: 0 <= i < n ==> r[i] == FromBe(bytes[2 * i], bytes[2 * i + 1])
  {
    seq(n, i requires 0 <= i < n => FromBe(bytes[2 * i], bytes[2 * i + 1]))
  }

  /**
   * `parse_response_data`: `dataFrame` starts at the byte after the function
   * code. Reads carry a byte count; the register loop steps by two over
   * `0..byte_count` and reads `dataFrame[1 + i]` and `dataFrame[2 + i]`, so an
   * odd byte count reads one byte past the announced data and panics when
   * that byte is missing.
   */
  function ParseResponseData(fc: uint8, dataFrame: seq<uint8>, slave: uint8): (r: Result<ParsedResponse>)
    ensures r.Panic? <==> fc in {0x03, 0x04} && |dataFrame| >= 1 &&
                          dataFrame[0] % 2 == 1 && |dataFrame| == dataFrame[0] as int + 1
    ensures r.Ok? ==> r.value.slaveId == slave && r.value.functionCode == fc && !r.value.isException
    ensures r.Ok? <==> FromU8(fc).Some? &&
                       (FromU8(fc).value.IsRead() ==> |dataFrame| >= 1 && |dataFrame| >= 1 + dataFrame[0] as int) &&
                       !r.Panic?
    ensures r.Ok? && fc in {0x01, 0x02} ==>
              r.value.coils == Some(UnpackBits(dataFrame[1..1 + dataFrame[0]])) && r.value.data.None?
    ensures r.Ok? && fc in {0x03, 0x04} ==>
              r.value.data.Some? && |r.value.data.value| == (dataFrame[0] as int + 1) / 2 && r.value.coils.None? &&
              forall i :: 0 <= i < |r.value.data.value| ==>
                r.value.data.value[i] == FromBe(dataFrame[1 + 2 * i], dataFrame[2 + 2 * i])
    ensures r.Ok? && fc in {0x05, 0x06, 0x0F, 0x10} ==> r.value.data.None? && r.value.coils.None?
  {
    match FromU8(fc)
    case Some(ReadCoils) | Some(ReadDiscreteInputs) =>
      if |dataFrame| == 0 then Err("Empty response data")
      else
        var byteCount: nat := dataFrame[0];
        if |dataFrame| < 1 + byteCount then Err("Incomplete coil data")
        else Ok(ParsedResponse(slave, fc, None, Some(UnpackBits(dataFrame[1..1 + byteCount])), false, None))
    case Some(ReadHoldingRegisters) | Some(ReadInputRegisters) =>
      if |dataFrame| == 0 then Err("Empty response data")
      else
        var byteCount: nat := dataFrame[0];
        if |dataFrame| < 1 + byteCount then Err("Incomplete register data")
        else if byteCount % 2 == 1 && |dataFrame| < byteCount + 2 then Panic("index out of bounds: data_frame[1 + byte_count]")
        else Ok(ParsedResponse(slave, fc, Some(BytesToRegisters(dataFrame[1..], (byteCount + 1) / 2)), None, false, None))
    case Some(_) =>
      Ok(ParsedResponse(slave, fc, None, None, false, None))
    case None =>
      Err("Unknown function code: " + DecimalString(fc))
  }

  /** The exception reply shape both transports share. */
  function ExceptionResponse(slave: uint8, fc: uint8, code: uint8): ParsedResponse
    requires IsExceptionCode(fc)
  {
    ParsedResponse(slave, ClearExceptionBit(fc), None, None, true, Some(code))
  }

  /** The error text of a reply whose function code is not the one requested. */
  function MismatchMessage(expected: uint8, got: uint8): string {
    "Function code mismatch: expected " + DecimalString(expected) + ", got " + DecimalString(got)
  }

  /** `parse_rtu_response`: length, then CRC, then exception flag, then function code, then data. */
  function ParseRtuResponse(frame: seq<uint8>, expectedFc: uint8): (r: Result<ParsedResponse>)
    ensures |frame| < 5 ==> r == Err("Response too short")
    ensures |frame| >= 5 && !VerifyCrc16(frame) ==> r == Err("CRC error")
    ensures |frame| >= 5 && VerifyCrc16(frame) && IsExceptionCode(frame[1]) ==>
              r == Ok(ExceptionResponse(frame[0], frame[1], frame[2]))
    ensures |frame| >= 5 && VerifyCrc16(frame) && !IsExceptionCode(frame[1]) && frame[1] != expectedFc ==>
              r == Err(MismatchMessage(expectedFc, frame[1]))
    ensures r.Ok? ==> r.value.slaveId == frame[0] &&
                      (r.value.isException || r.value.functionCode == expectedFc)
  {
    if |frame| < 5 then Err("Response too short")
    else if !VerifyCrc16(frame) then Err("CRC error")
    else
      var slave, fc := frame[0], frame[1];
      if IsExceptionCode(fc) then Ok(ExceptionResponse(slave, fc, frame[2]))
      else if fc != expectedFc then Err(MismatchMessage(expectedFc, fc))
      else ParseResponseData(fc, frame[2..|frame| - 2], slave)
  }

  /** `parse_tcp_response`: the MBAP header is skipped unchecked; unit id and function code follow it. */
  function ParseTcpResponse(frame: seq<uint8>, expectedFc: uint8): (r: Result<ParsedResponse>)
    ensures |frame| < 9 ==> r == Err("Response too short")
    ensures |frame| >= 9 && IsExceptionCode(frame[7]) ==>
              r == Ok(ExceptionResponse(frame[6], frame[7], frame[8]))
    ensures |frame| >= 9 && !IsExceptionCode(frame[7]) && frame[7] != expectedFc ==>
              r == Err(MismatchMessage(expectedFc, frame[7]))
    ensures r.Ok? ==> r.value.slaveId == frame[6] &&
                      (r.value.isException || r.value.functionCode == expectedFc)
  {
    if |frame| < 9 then Err("Response too short")
    else
      var unit, fc := frame[6], frame[7];
      if IsExceptionCode(fc) then Ok(ExceptionResponse(unit, fc, frame[8]))
      else if fc != expectedFc then Err(MismatchMessage(expectedFc, fc))
      else ParseResponseData(fc, frame[8..], unit)
  }

  /** The nine exception codes with names (section 7 of the Modbus Application Protocol V1.1b3). */
  predicate IsNamedException(code: uint8) {
    code in {0x01, 0x02, 0x03, 0x04, 0x05, 0x06, 0x08, 0x0A, 0x0B}
  }

  /** `format_exception_error`: the standard name, or `Unknown Exception: 0xNN`. */
  function FormatExceptionError(code: uint8): (s: string)
    ensures !IsNamedException(code) ==> s == "Unknown Exception: 0x" + Hex2(code)
    ensures |s| > 0 && (IsNamedException(code) <==> s[0] != 'U')
  {
    match code
    case 0x01 => "Illegal Function"
    case 0x02 => "Illegal Data Address"
    case 0x03 => "Illegal Data Value"
    case 0x04 => "Slave Device Failure"
    case 0x05 => "Acknowledge"
    case 0x06 => "Slave Device Busy"
    case 0x08 => "Memory Parity Error"
    case 0x0A => "Gateway Path Unavailable"
    case 0x0B => "Gateway Target Device Failed to Respond"
    case _ => "Unknown Exception: 0x" + Hex2(code)
  }

  /** No two exception codes share a message, so the code can be recovered from the text. */
  lemma FormatExceptionErrorInjective(a: uint8, b: uint8)
    requires FormatExceptionError(a) == FormatExceptionError(b)
    ensures a == b
  {
    if !IsNamedException(a) && !IsNamedException(b) {
      var s := FormatExceptionError(a);
      assert s[21..] == Hex2(a) && s[21..] == Hex2(b);
      Hex2Injective(a, b);
    }
  }

  // ---------------------------------------------------------------- timing and lengths

  /** Microseconds of 3.5 eleven-bit characters at `baud`, in the code's integer steps. */
  function ThreeAndHalfCharsUs(baud: nat): nat
    requires baud > 0
  {
    (11_000_000 / baud) * 7 / 2
  }

  /**
   * `calculate_inter_frame_delay_us`: the t3.5 silence, never below 1750 us.
   * Baud rates are `u32`; the code divides by the baud rate unchecked.
   */
  function InterFrameDelayUs(baud: nat): (r: nat)
    requires 0 < baud < 0x1_0000_0000
    ensures r >= 1750 && r >= ThreeAndHalfCharsUs(baud)
    ensures r == 1750 || r == ThreeAndHalfCharsUs(baud)
  {
    var delay := ThreeAndHalfCharsUs(baud);
    if delay > 1750 then delay else 1750
  }

  /** The character count above 19200 baud: 11_000_000 / baud falls to 500 only from 21957 baud on. */
  lemma {:induction false} CharTimeBounds(baud: nat)
    requires baud > 0
    ensures baud >= 21957 ==> 11_000_000 / baud <= 500
    ensures baud <= 21956 ==> 11_000_000 / baud >= 501
    ensures baud <= 19200 ==> 11_000_000 / baud >= 572
  {
    var q, m := 11_000_000 / baud, 11_000_000 % baud;
    assert q * baud + m == 11_000_000 && 0 <= m < baud;
    if baud >= 21957 && q >= 501 {
      assert q * baud >= 501 * baud by { MulMonotone(501, q, baud); }
      assert false;
    }
  }

  lemma MulMonotone(a: nat, b: nat, c: nat)
    requires a <= b
    ensures a * c <= b * c
  {
  }

  /**
   * The delay as written reaches its 1750 us floor exactly from 21957 baud
   * on, not from 19201 baud on as the serial-line standard (Modbus over
   * Serial Line V1.02, section 2.5.1.1) fixes it.
   */
  lemma InterFrameDelayFloor(baud: nat)
    requires 0 < baud < 0x1_0000_0000
    ensures InterFrameDelayUs(baud) == 1750 <==> baud >= 21957
  {
    CharTimeBounds(baud);
  }

  /** Between 19201 and 21956 baud the written delay exceeds 1750 us: at 20000 baud it is 1925 us. */
  lemma InterFrameDelayAt20000()
    ensures InterFrameDelayUs(20000) == 1925
  {
  }

  /**
   * The t3.5 delay of section 2.5.1.1 of Modbus over Serial Line V1.02:
   * 3.5 character times up to 19200 baud, a fixed 1750 us above.
   */
  function InterFrameDelayStandardUs(baud: nat): (r: nat)
    requires 0 < baud < 0x1_0000_0000
    ensures r >= 1750
    ensures baud > 19200 ==> r == 1750
  {
    CharTimeBounds(baud);
    if baud > 19200 then 1750 else ThreeAndHalfCharsUs(baud)
  }

  /** The written and the standard delay agree except on 19201..21956 baud. */
  lemma InterFrameDelayAgreement(baud: nat)
    requires 0 < baud < 0x1_0000_0000
    ensures InterFrameDelayStandardUs(baud) == InterFrameDelayUs(baud) <==> baud <= 19200 || baud >= 21957
  {
    CharTimeBounds(baud);
  }

  /** `calculate_expected_response_length`, as written: base length by mode, plus the data of each code. */
  function ExpectedResponseLength(fc: uint8, quantity: uint16, mode: ModbusMode): (n: nat)
    ensures n >= (if mode == Rtu then 5 else 9)
  {
    var base := if mode == Rtu then 5 else 9;
    match FromU8(fc)
    case Some(ReadCoils) | Some(ReadDiscreteInputs) => base + (quantity + 7) / 8
    case Some(ReadHoldingRegisters) | Some(ReadInputRegisters) => base + quantity * 2
    case Some(WriteSingleCoil) | Some(WriteSingleRegister) => base + 2
    case Some(WriteMultipleCoils) | Some(WriteMultipleRegisters) => base + 2
    case None => base
  }

  /**
   * The reply length the slave of `modbus_slave.rs` actually sends: the
   * write replies echo four bytes (address and value or quantity), so they
   * are `base + 3` long, not `base + 2`.
   */
  function ExpectedResponseLengthCorrected(fc: uint8, quantity: uint16, mode: ModbusMode): (n: nat)
    ensures FromU8(fc).Some? && !FromU8(fc).value.IsRead() ==>
              n == (if mode == Rtu then 8 else 12)
    ensures FromU8(fc).None? ==> n == (if mode == Rtu then 5 else 9)
  {
    var base := if mode == Rtu then 5 else 9;
    match FromU8(fc)
    case Some(ReadCoils) | Some(ReadDiscreteInputs) => base + (quantity + 7) / 8
    case Some(ReadHoldingRegisters) | Some(ReadInputRegisters) => base + quantity * 2
    case Some(_) => base + 3
    case None => base
  }

  /** As written, every write reply is predicted one byte short: 7 instead of 8 (RTU), 11 instead of 12 (TCP). */
  lemma ExpectedResponseLengthWriteShortByOne(fc: uint8, quantity: uint16, mode: ModbusMode)
    requires fc in {0x05, 0x06, 0x0F, 0x10}
    ensures ExpectedResponseLength(fc, quantity, mode) + 1 == ExpectedResponseLengthCorrected(fc, quantity, mode)
  {
  }

  /**
   * Everywhere else the written prediction is the reply length: the reads
   * get the byte count of their data and unknown codes the bare base.
   */
  lemma ExpectedResponseLengthRightOffWrites(fc: uint8, quantity: uint16, mode: ModbusMode)
    requires fc !in {0x05, 0x06, 0x0F, 0x10}
    ensures ExpectedResponseLength(fc, quantity, mode) == ExpectedResponseLengthCorrected(fc, quantity, mode)
    ensures fc in {0x01, 0x02} ==>
              ExpectedResponseLength(fc, quantity, mode) == (if mode == Rtu then 5 else 9) + (quantity + 7) / 8
    ensures fc in {0x03, 0x04} ==>
              ExpectedResponseLength(fc, quantity, mode) == (if mode == Rtu then 5 else 9) + 2 * quantity
    ensures FromU8(fc).None? ==> ExpectedResponseLength(fc, quantity, mode) == (if mode == Rtu then 5 else 9)
  {
  }
}
