/**
 * The Modbus slave (`src-tauri/src/modbus_slave.rs`): request parsing for
 * both transports, the configured exception mappings, request processing
 * against the four data tables, the response builders and the integer
 * statistics.
 */
module ModbusSlave {
  import opened Wrappers
  import opened Bytes
  import opened Text
  import opened Crc
  import opened Modbus

  /** Entries per data table of a fresh slave. */
  const DEFAULT_DATA_SIZE: nat := 10000

  /** `ParsedRtuRequest`, the request both parsers produce. */
  datatype ParsedRequest = ParsedRequest(
    slaveId: uint8,
    functionCode: uint8,
    startAddress: uint16,
    quantity: uint16,
    writeValues: Option<seq<uint16>>,
    coilValues: Option<seq<bool>>)

  /** The error of both parsers for a code outside the eight supported ones. */
  function UnknownFunctionMessage(fc: uint8): string {
    "Unknown function code: 0x" + Hex2(fc)
  }

  /** `n` coils read LSB first from the bytes starting at `offset`: coil `i` is bit `i % 8` of `frame[offset + i / 8]`. */
  function CoilsAt(frame: seq<uint8>, offset: nat, n: nat): (r: seq<bool>)
    requires n == 0 || offset + (n - 1) / 8 < |frame|
    ensures |r| == n
    ensures forall i :: 0 <= i < n ==> r[i] == BitOf(frame[offset + i / 8], i % 8)
  {
    seq(n, i requires 0 <= i < n => BitOf(frame[offset + i / 8], i % 8))
  }

  // ---------------------------------------------------------------- RTU requests

  /**
   * `parse_rtu_request`. The FC15/FC16 loops index the frame by the
   * announced quantity, not by the byte count that was length-checked, so a
   * quantity larger than the data reads into the CRC and then past the end
   * of the frame, which panics.
   */
  function ParseRtuRequest(frame: seq<uint8>): (r: Result<ParsedRequest>)
    ensures |frame| < 8 ==> r == Err("Frame too short")
    ensures |frame| >= 8 && !VerifyCrc16(frame) ==> r == Err("CRC error")
    ensures |frame| >= 8 && VerifyCrc16(frame) && FromU8(frame[1]).None? ==>
              r == Err(UnknownFunctionMessage(frame[1]))
    ensures |frame| >= 8 && VerifyCrc16(frame) && frame[1] == 0x0F && |frame| < 9 + frame[6] as int ==>
              r == Err("Incomplete write multiple coils request")
    ensures |frame| >= 8 && VerifyCrc16(frame) && frame[1] == 0x10 && |frame| < 9 + frame[6] as int ==>
              r == Err("Incomplete write multiple registers request")
    ensures r.Panic? <==>
              |frame| >= 8 && VerifyCrc16(frame) && frame[1] in {0x0F, 0x10} && |frame| >= 9 + frame[6] as int &&
              (var q := FromBe(frame[4], frame[5]);
               if frame[1] == 0x0F then q > 0 && 7 + (q - 1) / 8 >= |frame| else 6 + 2 * q >= |frame|)
    ensures r.Ok? ==>
              var p := r.value;
              p.slaveId == frame[0] && p.functionCode == frame[1] && p.startAddress == FromBe(frame[2], frame[3]) &&
              FromU8(frame[1]).Some? &&
              (frame[1] in {0x05, 0x06} ==> p.quantity == 1) &&
              (frame[1] !in {0x05, 0x06} ==> p.quantity == FromBe(frame[4], frame[5])) &&
              (p.coilValues.Some? <==> frame[1] in {0x05, 0x0F}) &&
              (p.writeValues.Some? <==> frame[1] in {0x06, 0x10}) &&
              (frame[1] == 0x05 ==> p.coilValues.value == [FromBe(frame[4], frame[5]) == COIL_ON]) &&
              (frame[1] == 0x06 ==> p.writeValues.value == [FromBe(frame[4], frame[5])]) &&
              (frame[1] == 0x0F ==> |p.coilValues.value| == p.quantity) &&
              (frame[1] == 0x10 ==> |p.writeValues.value| == p.quantity)
  {
    if |frame| < 8 then Err("Frame too short")
    else if !VerifyCrc16(frame) then Err("CRC error")
    else
      var slave, fc, start := frame[0], frame[1], FromBe(frame[2], frame[3]);
      var word := FromBe(frame[4], frame[5]);
      match FromU8(fc)
      case Some(ReadCoils) | Some(ReadDiscreteInputs) | Some(ReadHoldingRegisters) | Some(ReadInputRegisters) =>
        Ok(ParsedRequest(slave, fc, start, word, None, None))
      case Some(WriteSingleCoil) =>
        Ok(ParsedRequest(slave, fc, start, 1, None, Some([word == COIL_ON])))
      case Some(WriteSingleRegister) =>
        Ok(ParsedRequest(slave, fc, start, 1, Some([word]), None))
      case Some(WriteMultipleCoils) =>
        var byteCount: nat := frame[6];
        if |frame| < 9 + byteCount then Err("Incomplete write multiple coils request")
        else if word > 0 && 7 + (word - 1) / 8 >= |frame| then Panic("index out of bounds: frame[7 + i / 8]")
        else Ok(ParsedRequest(slave, fc, start, word, None, Some(CoilsAt(frame, 7, word))))
      case Some(WriteMultipleRegisters) =>
        var byteCount: nat := frame[6];
        if |frame| < 9 + byteCount then Err("Incomplete write multiple registers request")
        else if 6 + 2 * word >= |frame| then Panic("index out of bounds: frame[7 + i * 2 + 1]")
        else Ok(ParsedRequest(slave, fc, start, word, Some(BytesToRegisters(frame[7..], word)), None))
      case None =>
        Err(UnknownFunctionMessage(fc))
  }

  // ---------------------------------------------------------------- TCP requests

  /**
   * `parse_tcp_request`: the MBAP length must be covered by the frame. The
   * FC15/FC16 branches read the byte count at `frame[12]` (a panic on a
   * 12-byte frame) and then keep only the values that lie inside the frame.
   */
  function ParseTcpRequest(frame: seq<uint8>): (r: Result<(uint16, ParsedRequest)>)
    ensures |frame| < 12 ==> r == Err("TCP frame too short")
    ensures |frame| >= 12 && |frame| < 6 + FromBe(frame[4], frame[5]) ==> r == Err("Incomplete TCP frame")
    ensures |frame| >= 12 && |frame| >= 6 + FromBe(frame[4], frame[5]) && FromU8(frame[7]).None? ==>
              r == Err(UnknownFunctionMessage(frame[7]))
    ensures r.Panic? <==>
              |frame| == 12 && 12 >= 6 + FromBe(frame[4], frame[5]) && frame[7] in {0x0F, 0x10}
    ensures r.Ok? ==>
              var (tid, p) := r.value;
              tid == FromBe(frame[0], frame[1]) &&
              p.slaveId == frame[6] && p.functionCode == frame[7] && p.startAddress == FromBe(frame[8], frame[9]) &&
              FromU8(frame[7]).Some? &&
              (frame[7] in {0x05, 0x06} ==> p.quantity == 1) &&
              (frame[7] !in {0x05, 0x06} ==> p.quantity == FromBe(frame[10], frame[11])) &&
              (p.coilValues.Some? <==> frame[7] in {0x05, 0x0F}) &&
              (p.writeValues.Some? <==> frame[7] in {0x06, 0x10}) &&
              (frame[7] == 0x05 ==> p.coilValues.value == [FromBe(frame[10], frame[11]) == COIL_ON]) &&
              (frame[7] == 0x06 ==> p.writeValues.value == [FromBe(frame[10], frame[11])]) &&
              (frame[7] == 0x0F ==> |p.coilValues.value| <= p.quantity) &&
              (frame[7] == 0x10 ==> |p.writeValues.value| <= p.quantity)
  {
    if |frame| < 12 then Err("TCP frame too short")
    else
      var tid, length := FromBe(frame[0], frame[1]), FromBe(frame[4], frame[5]);
      var unit, fc, start := frame[6], frame[7], FromBe(frame[8], frame[9]);
      if |frame| < 6 + length then Err("Incomplete TCP frame")
      else
        var word := FromBe(frame[10], frame[11]);
        match FromU8(fc)
        case Some(ReadCoils) | Some(ReadDiscreteInputs) | Some(ReadHoldingRegisters) | Some(ReadInputRegisters) =>
          Ok((tid, ParsedRequest(unit, fc, start, word, None, None)))
        case Some(WriteSingleCoil) =>
          Ok((tid, ParsedRequest(unit, fc, start, 1, None, Some([word == COIL_ON]))))
        case Some(WriteSingleRegister) =>
          Ok((tid, ParsedRequest(unit, fc, start, 1, Some([word]), None)))
        case Some(WriteMultipleCoils) =>
          if |frame| == 12 then Panic("index out of bounds: frame[12]")
          else
            var n := if word <= 8 * (|frame| - 13) then word else 8 * (|frame| - 13);
            Ok((tid, ParsedRequest(unit, fc, start, word, None, Some(CoilsAt(frame, 13, n)))))
        case Some(WriteMultipleRegisters) =>
          if |frame| == 12 then Panic("index out of bounds: frame[12]")
          else
            var n := if word <= (|frame| - 13) / 2 then word else (|frame| - 13) / 2;
            Ok((tid, ParsedRequest(unit, fc, start, word, Some(BytesToRegisters(frame[13..], n)), None)))
        case None =>
          Err(UnknownFunctionMessage(fc))
  }

  /** The FC15 coils of a TCP request are those of the announced quantity that lie inside the frame. */
  lemma TcpCoilsAreThoseInFrame(frame: seq<uint8>)
    requires ParseTcpRequest(frame).Ok? && frame[7] == 0x0F
    ensures var cs := ParseTcpRequest(frame).value.1.coilValues.value;
            |cs| == (if FromBe(frame[10], frame[11]) <= 8 * (|frame| - 13) then FromBe(frame[10], frame[11]) else 8 * (|frame| - 13)) &&
            forall i :: 0 <= i < |cs| ==> 13 + i / 8 < |frame| && cs[i] == BitOf(frame[13 + i / 8], i % 8)
  {
  }

  // ---------------------------------------------------------------- responses

  /** `fc | 0x80`, the function code of an exception reply. */
  function ExceptionFc(fc: uint8): (r: uint8)
    ensures IsExceptionCode(r)
    ensures ClearExceptionBit(r) == ClearExceptionBit(fc)
  {
    if fc >= 0x80 then fc else fc + 0x80
  }

  /** The transport framing shared by every builder: RTU frame or MBAP frame around `fc` and `data`. */
  function Frame(mode: ModbusMode, slave: uint8, fc: uint8, data: seq<uint8>, tid: uint16): (f: seq<uint8>)
    ensures mode == Rtu ==> f == BuildRtuFrame(slave, fc, data)
    ensures mode == Tcp ==> f == BuildTcpFrame(tid, slave, fc, data)
    ensures |f| == |data| + (if mode == Rtu then 4 else 8)
  {
    match mode
    case Rtu => BuildRtuFrame(slave, fc, data)
    case Tcp => BuildTcpFrame(tid, slave, fc, data)
  }

  /** The PDU of a frame: function code and data, without address, CRC or MBAP header. */
  function Pdu(mode: ModbusMode, f: seq<uint8>): seq<uint8>
    requires |f| >= (if mode == Rtu then 4 else 8)
  {
    if mode == Rtu then f[1..|f| - 2] else f[7..]
  }

  lemma FramePdu(mode: ModbusMode, slave: uint8, fc: uint8, data: seq<uint8>, tid: uint16)
    ensures Pdu(mode, Frame(mode, slave, fc, data, tid)) == [fc] + data
  {
    var f := Frame(mode, slave, fc, data, tid);
    if mode == Rtu {
      assert f[1..|f| - 2] == [f[1]] + f[2..|f| - 2];
    } else {
      assert f[7..] == [f[7]] + f[8..];
    }
  }

  /** `build_exception_response`: the PDU is `[fc | 0x80, code]`. */
  function BuildExceptionResponse(slave: uint8, fc: uint8, code: uint8, mode: ModbusMode, tid: uint16): (f: seq<uint8>)
    ensures |f| == (if mode == Rtu then 5 else 9)
    ensures Pdu(mode, f) == [ExceptionFc(fc), code]
  {
    FramePdu(mode, slave, ExceptionFc(fc), [code], tid);
    Frame(mode, slave, ExceptionFc(fc), [code], tid)
  }

  /** `build_read_coils_response`: byte count `ceil(n / 8)` (truncated `as u8`), then the packed coils. */
  function BuildReadCoilsResponse(slave: uint8, fc: uint8, values: seq<bool>, mode: ModbusMode, tid: uint16): (f: seq<uint8>)
    ensures |f| == 1 + (|values| + 7) / 8 + (if mode == Rtu then 4 else 8)
    ensures Pdu(mode, f) == [fc, AsU8((|values| + 7) / 8)] + PackCoils(values)
  {
    var data := [AsU8((|values| + 7) / 8)] + PackCoils(values);
    FramePdu(mode, slave, fc, data, tid);
    Frame(mode, slave, fc, data, tid)
  }

  /** `build_read_registers_response`: byte count `2 n` (truncated `as u8`), then the registers big-endian. */
  function BuildReadRegistersResponse(slave: uint8, fc: uint8, values: seq<uint16>, mode: ModbusMode, tid: uint16): (f: seq<uint8>)
    ensures |f| == 1 + 2 * |values| + (if mode == Rtu then 4 else 8)
    ensures Pdu(mode, f) == [fc, AsU8(2 * |values|)] + RegistersToBytes(values)
  {
    var data := [AsU8(2 * |values|)] + RegistersToBytes(values);
    FramePdu(mode, slave, fc, data, tid);
    Frame(mode, slave, fc, data, tid)
  }

  /** `build_write_single_coil_response`: echoes the address and the 0xFF00/0x0000 value word under FC05. */
  function BuildWriteSingleCoilResponse(slave: uint8, address: uint16, value: bool, mode: ModbusMode, tid: uint16): (f: seq<uint8>)
    ensures |f| == (if mode == Rtu then 8 else 12)
    ensures Pdu(mode, f) == [0x05] + WriteSingleCoilData(address, value)
  {
    FramePdu(mode, slave, 0x05, WriteSingleCoilData(address, value), tid);
    Frame(mode, slave, 0x05, WriteSingleCoilData(address, value), tid)
  }

  /** `build_write_single_register_response`: echoes address and value under FC06. */
  function BuildWriteSingleRegisterResponse(slave: uint8, address: uint16, value: uint16, mode: ModbusMode, tid: uint16): (f: seq<uint8>)
    ensures |f| == (if mode == Rtu then 8 else 12)
    ensures Pdu(mode, f) == [0x06] + WriteSingleRegisterData(address, value)
  {
    FramePdu(mode, slave, 0x06, WriteSingleRegisterData(address, value), tid);
    Frame(mode, slave, 0x06, WriteSingleRegisterData(address, value), tid)
  }

  /** `build_write_multiple_response`: echoes start address and quantity under the request's code. */
  function BuildWriteMultipleResponse(slave: uint8, fc: uint8, start: uint16, quantity: uint16, mode: ModbusMode, tid: uint16): (f: seq<uint8>)
    ensures |f| == (if mode == Rtu then 8 else 12)
    ensures var p := Pdu(mode, f);
            |p| == 5 && p[0] == fc && FromBe(p[1], p[2]) == start && FromBe(p[3], p[4]) == quantity
  {
    var data := ToBe(start) + ToBe(quantity);
    FramePdu(mode, slave, fc, data, tid);
    Frame(mode, slave, fc, data, tid)
  }

  // ---------------------------------------------------------------- exception mappings

  /** A configured fault: requests of `dataType` at an address in `startAddress..=endAddress` get `exceptionCode`. */
  datatype ExceptionMapping = ExceptionMapping(dataType: string, startAddress: uint16, endAddress: uint16, exceptionCode: uint8)

  predicate MappingMatches(m: ExceptionMapping, dataType: string, address: uint16) {
    m.dataType == dataType && m.startAddress <= address <= m.endAddress
  }

  /** The code of the first matching mapping, if any. */
  function FindException(mappings: seq<ExceptionMapping>, dataType: string, address: uint16): (r: Option<uint8>)
    ensures r.None? <==> forall i :: 0 <= i < |mappings| ==> !MappingMatches(mappings[i], dataType, address)
    ensures r.Some? ==> exists i :: 0 <= i < |mappings| && MappingMatches(mappings[i], dataType, address) &&
                                   r.value == mappings[i].exceptionCode &&
                                   forall j :: 0 <= j < i ==> !MappingMatches(mappings[j], dataType, address)
  {
    if mappings == [] then None
    else if MappingMatches(mappings[0], dataType, address) then Some(mappings[0].exceptionCode)
    else
      var r := FindException(mappings[1..], dataType, address);
      assert forall i :: 1 <= i < |mappings| ==> mappings[i] == mappings[1..][i - 1];
      r
  }

  /** The part of `ModbusSlaveHandle` that request processing consults: its exception mappings. */
  class ModbusSlaveHandle {
    var exceptionMappings: seq<ExceptionMapping>

    /** A new handle has no mappings (`new_rtu`, `new_tcp`). */
    constructor ()
      ensures exceptionMappings == []
    {
      exceptionMappings := [];
    }

    /** `get_exception`: a linear search for the first matching mapping. */
    method GetException(dataType: string, address: uint16) returns (r: Option<uint8>)
      ensures r == FindException(exceptionMappings, dataType, address)
    {
      var i := 0;
      while i < |exceptionMappings|
        invariant 0 <= i <= |exceptionMappings|
        invariant FindException(exceptionMappings, dataType, address) ==
                  FindException(exceptionMappings[i..], dataType, address)
      {
        var m := exceptionMappings[i];
        if m.dataType == dataType && address >= m.startAddress && address <= m.endAddress {
          return Some(m.exceptionCode);
        }
        assert exceptionMappings[i..][1..] == exceptionMappings[i + 1..];
        i := i + 1;
      }
      return None;
    }
  }

  // ---------------------------------------------------------------- data tables

  /** `ModbusSlaveDataExport`: a snapshot of the four tables. */
  datatype DataExport = DataExport(
    coils: seq<bool>,
    discreteInputs: seq<bool>,
    holdingRegisters: seq<uint16>,
    inputRegisters: seq<uint16>)

  /**
   * `s` with `values` written from index `start` on, as far as `s` reaches:
   * the loop `table[start + i] = values[i]` up to the first index outside the
   * table, where it panics.
   */
  function Overwrite<T>(s: seq<T>, start: nat, values: seq<T>): (r: seq<T>)
    ensures |r| == |s|
    ensures forall j :: 0 <= j < |s| ==> r[j] == if start <= j < start + |values| then values[j - start] else s[j]
  {
    seq(|s|, j requires 0 <= j < |s| => if start <= j < start + |values| then values[j - start] else s[j])
  }

  /** `ModbusSlaveData`: the coil, discrete-input, holding-register and input-register tables. */
  class ModbusSlaveData {
    var coils: seq<bool>
    var discreteInputs: seq<bool>
    var holdingRegisters: seq<uint16>
    var inputRegisters: seq<uint16>

    /** `Default`: four tables of `DEFAULT_DATA_SIZE` entries, all off or zero. */
    constructor ()
      ensures coils == seq(DEFAULT_DATA_SIZE, _ => false) && discreteInputs == seq(DEFAULT_DATA_SIZE, _ => false)
      ensures holdingRegisters == seq(DEFAULT_DATA_SIZE, _ => 0) && inputRegisters == seq(DEFAULT_DATA_SIZE, _ => 0)
    {
      coils := seq(DEFAULT_DATA_SIZE, _ => false);
      discreteInputs := seq(DEFAULT_DATA_SIZE, _ => false);
      holdingRegisters := seq(DEFAULT_DATA_SIZE, _ => 0);
      inputRegisters := seq(DEFAULT_DATA_SIZE, _ => 0);
    }

    /** `export`: a copy of the four tables. */
    function Export(): (e: DataExport)
      reads this
      ensures e.coils == coils && e.discreteInputs == discreteInputs
      ensures e.holdingRegisters == holdingRegisters && e.inputRegisters == inputRegisters
    {
      DataExport(coils, discreteInputs, holdingRegisters, inputRegisters)
    }

    /** `import`: replaces all four tables, so a later export returns exactly what was imported. */
    method Import(data: DataExport)
      modifies this
      ensures Export() == data
    {
      coils := data.coils;
      discreteInputs := data.discreteInputs;
      holdingRegisters := data.holdingRegisters;
      inputRegisters := data.inputRegisters;
    }

    /**
     * The FC15 write loop: `coils[start + i] = values[i]` in order. `ok` is
     * false when the loop runs off the table (a panic in the code), after the
     * writes that fit have been made. An empty list writes nothing and
     * cannot fail.
     */
    method WriteCoils(start: nat, values: seq<bool>) returns (ok: bool)
      modifies this
      ensures ok <==> |values| == 0 || start + |values| <= |old(coils)|
      ensures coils == Overwrite(old(coils), start, values)
      ensures discreteInputs == old(discreteInputs) && holdingRegisters == old(holdingRegisters)
      ensures inputRegisters == old(inputRegisters)
    {
      var i := 0;
      while i < |values|
        invariant 0 <= i <= |values|
        invariant start + i <= |coils| || i == 0
        invariant coils == Overwrite(old(coils), start, values[..i])
        invariant discreteInputs == old(discreteInputs) && holdingRegisters == old(holdingRegisters)
        invariant inputRegisters == old(inputRegisters)
      {
        if start + i >= |coils| {
          assert values[..i] + values[i..] == values;
          assert coils == Overwrite(old(coils), start, values);
          return false;
        }
        coils := coils[start + i := values[i]];
        assert values[..i + 1] == values[..i] + [values[i]];
        i := i + 1;
      }
      assert values[..i] == values;
      return true;
    }

    /** The FC16 write loop: `holding_registers[start + i] = values[i]`, with the same panic behaviour. */
    method WriteRegisters(start: nat, values: seq<uint16>) returns (ok: bool)
      modifies this
      ensures ok <==> |values| == 0 || start + |values| <= |old(holdingRegisters)|
      ensures holdingRegisters == Overwrite(old(holdingRegisters), start, values)
      ensures coils == old(coils) && discreteInputs == old(discreteInputs)
      ensures inputRegisters == old(inputRegisters)
    {
      var i := 0;
      while i < |values|
        invariant 0 <= i <= |values|
        invariant start + i <= |holdingRegisters| || i == 0
        invariant holdingRegisters == Overwrite(old(holdingRegisters), start, values[..i])
        invariant coils == old(coils) && discreteInputs == old(discreteInputs)
        invariant inputRegisters == old(inputRegisters)
      {
        if start + i >= |holdingRegisters| {
          assert holdingRegisters == Overwrite(old(holdingRegisters), start, values);
          return false;
        }
        holdingRegisters := holdingRegisters[start + i := values[i]];
        assert values[..i + 1] == values[..i] + [values[i]];
        i := i + 1;
      }
      assert values[..i] == values;
      return true;
    }
  }

  // ---------------------------------------------------------------- request processing

  /** `ModbusSlaveDataChangedEvent` without its timestamp: what a write changed. */
  datatype DataChanged = DataChanged(connectionId: string, dataType: string, startAddress: uint16, values: seq<uint16>)

  /** `ProcessedRequest`: the reply and what the request did. */
  datatype ProcessedRequest = ProcessedRequest(
    responseFrame: seq<uint8>,
    success: bool,
    errorMessage: Option<string>,
    dataChanged: Option<DataChanged>,
    startAddress: uint16,
    quantity: uint16)

  /** The table a function code addresses, as the exception mappings name it. */
  function DataTypeOf(fc: uint8): (t: string)
    ensures t == "" <==> FromU8(fc).None?
  {
    match FromU8(fc)
    case Some(ReadCoils) | Some(WriteSingleCoil) | Some(WriteMultipleCoils) => "coil"
    case Some(ReadDiscreteInputs) => "discrete_input"
    case Some(ReadHoldingRegisters) | Some(WriteSingleRegister) | Some(WriteMultipleRegisters) => "holding_register"
    case Some(ReadInputRegisters) => "input_register"
    case None => ""
  }

  /** Coils reported as 0/1 words in a data-changed event. */
  function CoilWords(values: seq<bool>): (r: seq<uint16>)
    ensures |r| == |values|
    ensures forall i :: 0 <= i < |r| ==> (r[i] == 1 <==> values[i]) && r[i] <= 1
  {
    seq(|values|, i requires 0 <= i < |values| => if values[i] then 1 else 0)
  }

  /** An exception reply: nothing changed, `success` false, `message` as the error. */
  function Refusal(req: ParsedRequest, code: uint8, message: string, mode: ModbusMode, tid: uint16): ProcessedRequest {
    ProcessedRequest(BuildExceptionResponse(req.slaveId, req.functionCode, code, mode, tid), false, Some(message), None,
                     req.startAddress, req.quantity)
  }

  /** The successful reply to a read: the response frame, nothing changed. */
  function ReadReply(req: ParsedRequest, frame: seq<uint8>): ProcessedRequest {
    ProcessedRequest(frame, true, None, None, req.startAddress, req.quantity)
  }

  /** A bit read (FC01, FC02) of `table`: the slice packed in the reply, or a panic when it runs past the end. */
  function ReadBits(req: ParsedRequest, table: seq<bool>, tableName: string, mode: ModbusMode, tid: uint16): Result<ProcessedRequest> {
    var addr, endAddr := req.startAddress, req.startAddress + req.quantity;
    if endAddr > |table| then Panic("range end index out of range for " + tableName)
    else Ok(ReadReply(req, BuildReadCoilsResponse(req.slaveId, req.functionCode, table[addr..endAddr], mode, tid)))
  }

  /** A register read (FC03, FC04) of `table`: the slice big-endian in the reply, or a panic past the end. */
  function ReadRegisters(req: ParsedRequest, table: seq<uint16>, tableName: string, mode: ModbusMode, tid: uint16): Result<ProcessedRequest> {
    var addr, endAddr := req.startAddress, req.startAddress + req.quantity;
    if endAddr > |table| then Panic("range end index out of range for " + tableName)
    else Ok(ReadReply(req, BuildReadRegistersResponse(req.slaveId, req.functionCode, table[addr..endAddr], mode, tid)))
  }

  /** The reads FC01-FC04: the addressed slice of a table, in the reply; nothing changes. */
  function ReadOutcome(req: ParsedRequest, t: DataExport, mode: ModbusMode, tid: uint16): Result<ProcessedRequest>
    requires req.functionCode in {0x01, 0x02, 0x03, 0x04}
  {
    match req.functionCode
    case 0x01 => ReadBits(req, t.coils, "coils", mode, tid)
    case 0x02 => ReadBits(req, t.discreteInputs, "discrete_inputs", mode, tid)
    case 0x03 => ReadRegisters(req, t.holdingRegisters, "holding_registers", mode, tid)
    case _ => ReadRegisters(req, t.inputRegisters, "input_registers", mode, tid)
  }

  /** FC05: one coil set from the first coil value; exception 0x03 when there is none. */
  function WriteSingleCoilOutcome(req: ParsedRequest, t: DataExport, mode: ModbusMode, tid: uint16,
                                  connectionId: string): (out: (Result<ProcessedRequest>, DataExport))
    ensures out.1 == t.(coils := out.1.coils) && |out.1.coils| == |t.coils|
  {
    var addr := req.startAddress;
    if req.coilValues.Some? && |req.coilValues.value| > 0 then
      var value := req.coilValues.value[0];
      if addr >= |t.coils| then (Panic("index out of bounds: coils[start_address]"), t)
      else
        (Ok(ProcessedRequest(BuildWriteSingleCoilResponse(req.slaveId, addr, value, mode, tid), true, None,
                             Some(DataChanged(connectionId, "coil", addr, CoilWords([value]))), addr, 1)),
         t.(coils := t.coils[addr := value]))
    else (Ok(Refusal(req, 0x03, "Illegal Data Value", mode, tid)), t)
  }

  /** FC06: one holding register set from the first write value; exception 0x03 when there is none. */
  function WriteSingleRegisterOutcome(req: ParsedRequest, t: DataExport, mode: ModbusMode, tid: uint16,
                                      connectionId: string): (out: (Result<ProcessedRequest>, DataExport))
    ensures out.1 == t.(holdingRegisters := out.1.holdingRegisters) && |out.1.holdingRegisters| == |t.holdingRegisters|
  {
    var addr := req.startAddress;
    if req.writeValues.Some? && |req.writeValues.value| > 0 then
      var value := req.writeValues.value[0];
      if addr >= |t.holdingRegisters| then (Panic("index out of bounds: holding_registers[start_address]"), t)
      else
        (Ok(ProcessedRequest(BuildWriteSingleRegisterResponse(req.slaveId, addr, value, mode, tid), true, None,
                             Some(DataChanged(connectionId, "holding_register", addr, [value])), addr, 1)),
         t.(holdingRegisters := t.holdingRegisters[addr := value]))
    else (Ok(Refusal(req, 0x03, "Illegal Data Value", mode, tid)), t)
  }

  /** FC15: every coil value written from the start address on; exception 0x03 when the list is missing. */
  function WriteMultipleCoilsOutcome(req: ParsedRequest, t: DataExport, mode: ModbusMode, tid: uint16,
                                     connectionId: string): (out: (Result<ProcessedRequest>, DataExport))
    ensures out.1 == t.(coils := out.1.coils) && |out.1.coils| == |t.coils|
  {
    var addr := req.startAddress;
    if req.coilValues.Some? then
      var values := req.coilValues.value;
      var after := t.(coils := Overwrite(t.coils, addr, values));
      if |values| > 0 && addr + |values| > |t.coils| then (Panic("index out of bounds: coils[start_address + i]"), after)
      else
        (Ok(ProcessedRequest(BuildWriteMultipleResponse(req.slaveId, req.functionCode, addr, req.quantity, mode, tid), true, None,
                             Some(DataChanged(connectionId, "coil", addr, CoilWords(values))), addr, req.quantity)),
         after)
    else (Ok(Refusal(req, 0x03, "Illegal Data Value", mode, tid)), t)
  }

  /** FC16: every register value written from the start address on; exception 0x03 when the list is missing. */
  function WriteMultipleRegistersOutcome(req: ParsedRequest, t: DataExport, mode: ModbusMode, tid: uint16,
                                         connectionId: string): (out: (Result<ProcessedRequest>, DataExport))
    ensures out.1 == t.(holdingRegisters := out.1.holdingRegisters) && |out.1.holdingRegisters| == |t.holdingRegisters|
  {
    var addr := req.startAddress;
    if req.writeValues.Some? then
      var values := req.writeValues.value;
      var after := t.(holdingRegisters := Overwrite(t.holdingRegisters, addr, values));
      if |values| > 0 && addr + |values| > |t.holdingRegisters| then
        (Panic("index out of bounds: holding_registers[start_address + i]"), after)
      else
        (Ok(ProcessedRequest(BuildWriteMultipleResponse(req.slaveId, req.functionCode, addr, req.quantity, mode, tid), true, None,
                             Some(DataChanged(connectionId, "holding_register", addr, values)), addr, req.quantity)),
         after)
    else (Ok(Refusal(req, 0x03, "Illegal Data Value", mode, tid)), t)
  }

  /**
   * `process_request` as a function of the tables before the request: its
   * outcome and the tables after it. The steps, in order: a configured
   * exception mapping for the addressed table and start address; the range
   * check `start + quantity > 10000` (exception 0x02); then the function
   * code, where an unsupported code gets exception 0x01. Indexing outside a
   * table (possible once `import` has installed shorter tables) panics; a
   * multiple write keeps the writes made before the panic.
   */
  function Process(req: ParsedRequest, t: DataExport, mappings: seq<ExceptionMapping>,
                   mode: ModbusMode, tid: uint16, connectionId: string): (out: (Result<ProcessedRequest>, DataExport))
    ensures out.0.Ok? && !out.0.value.success ==> out.1 == t && out.0.value.dataChanged.None?
    ensures out.0.Ok? && out.0.value.dataChanged.Some? ==> req.functionCode in {0x05, 0x06, 0x0F, 0x10}
  {
    var fc := req.functionCode;
    match FindException(mappings, DataTypeOf(fc), req.startAddress)
    case Some(code) => (Ok(Refusal(req, code, FormatExceptionError(code), mode, tid)), t)
    case None =>
      if req.startAddress + req.quantity > DEFAULT_DATA_SIZE then (Ok(Refusal(req, 0x02, "Illegal Data Address", mode, tid)), t)
      else if fc in {0x01, 0x02, 0x03, 0x04} then (ReadOutcome(req, t, mode, tid), t)
      else if fc == 0x05 then WriteSingleCoilOutcome(req, t, mode, tid, connectionId)
      else if fc == 0x06 then WriteSingleRegisterOutcome(req, t, mode, tid, connectionId)
      else if fc == 0x0F then WriteMultipleCoilsOutcome(req, t, mode, tid, connectionId)
      else if fc == 0x10 then WriteMultipleRegistersOutcome(req, t, mode, tid, connectionId)
      else (Ok(Refusal(req, 0x01, "Illegal Function", mode, tid)), t)
  }

  /** `process_request`: consults the handle's mappings and reads or writes `data` in place. */
  method ProcessRequest(req: ParsedRequest, data: ModbusSlaveData, mode: ModbusMode, tid: uint16,
                        connectionId: string, handle: ModbusSlaveHandle) returns (r: Result<ProcessedRequest>)
    modifies data
    ensures (r, data.Export()) == Process(req, old(data.Export()), handle.exceptionMappings, mode, tid, connectionId)
  {
    var fc, addr, qty := req.functionCode, req.startAddress, req.quantity;
    var mapped := handle.GetException(DataTypeOf(fc), addr);
    if mapped.Some? {
      return Ok(Refusal(req, mapped.value, FormatExceptionError(mapped.value), mode, tid));
    }
    if addr + qty > DEFAULT_DATA_SIZE {
      return Ok(Refusal(req, 0x02, "Illegal Data Address", mode, tid));
    }
    if fc in {0x01, 0x02, 0x03, 0x04} {
      r := ReadOutcome(req, data.Export(), mode, tid);
    } else if fc == 0x05 {
      r := ApplyWriteSingleCoil(req, data, mode, tid, connectionId);
    } else if fc == 0x06 {
      r := ApplyWriteSingleRegister(req, data, mode, tid, connectionId);
    } else if fc == 0x0F {
      r := ApplyWriteMultipleCoils(req, data, mode, tid, connectionId);
    } else if fc == 0x10 {
      r := ApplyWriteMultipleRegisters(req, data, mode, tid, connectionId);
    } else {
      r := Ok(Refusal(req, 0x01, "Illegal Function", mode, tid));
    }
  }

  /** The FC05 branch of `process_request`: `coils[start_address] = value`. */
  method ApplyWriteSingleCoil(req: ParsedRequest, data: ModbusSlaveData, mode: ModbusMode, tid: uint16,
                              connectionId: string) returns (r: Result<ProcessedRequest>)
    modifies data
    ensures (r, data.Export()) == WriteSingleCoilOutcome(req, old(data.Export()), mode, tid, connectionId)
  {
    var addr := req.startAddress;
    if req.coilValues.Some? && |req.coilValues.value| > 0 {
      var value := req.coilValues.value[0];
      if addr >= |data.coils| { return Panic("index out of bounds: coils[start_address]"); }
      data.coils := data.coils[addr := value];
      r := Ok(ProcessedRequest(BuildWriteSingleCoilResponse(req.slaveId, addr, value, mode, tid), true, None,
                               Some(DataChanged(connectionId, "coil", addr, CoilWords([value]))), addr, 1));
    } else {
      r := Ok(Refusal(req, 0x03, "Illegal Data Value", mode, tid));
    }
  }

  /** The FC06 branch of `process_request`: `holding_registers[start_address] = value`. */
  method ApplyWriteSingleRegister(req: ParsedRequest, data: ModbusSlaveData, mode: ModbusMode, tid: uint16,
                                  connectionId: string) returns (r: Result<ProcessedRequest>)
    modifies data
    ensures (r, data.Export()) == WriteSingleRegisterOutcome(req, old(data.Export()), mode, tid, connectionId)
  {
    var addr := req.startAddress;
    if req.writeValues.Some? && |req.writeValues.value| > 0 {
      var value := req.writeValues.value[0];
      if addr >= |data.holdingRegisters| { return Panic("index out of bounds: holding_registers[start_address]"); }
      data.holdingRegisters := data.holdingRegisters[addr := value];
      r := Ok(ProcessedRequest(BuildWriteSingleRegisterResponse(req.slaveId, addr, value, mode, tid), true, None,
                               Some(DataChanged(connectionId, "holding_register", addr, [value])), addr, 1));
    } else {
      r := Ok(Refusal(req, 0x03, "Illegal Data Value", mode, tid));
    }
  }

  /** The FC15 branch of `process_request`: the coil write loop. */
  method ApplyWriteMultipleCoils(req: ParsedRequest, data: ModbusSlaveData, mode: ModbusMode, tid: uint16,
                                 connectionId: string) returns (r: Result<ProcessedRequest>)
    modifies data
    ensures (r, data.Export()) == WriteMultipleCoilsOutcome(req, old(data.Export()), mode, tid, connectionId)
  {
    var addr := req.startAddress;
    if req.coilValues.Some? {
      var values := req.coilValues.value;
      var ok := data.WriteCoils(addr, values);
      if !ok { return Panic("index out of bounds: coils[start_address + i]"); }
      r := Ok(ProcessedRequest(BuildWriteMultipleResponse(req.slaveId, req.functionCode, addr, req.quantity, mode, tid), true, None,
                               Some(DataChanged(connectionId, "coil", addr, CoilWords(values))), addr, req.quantity));
    } else {
      r := Ok(Refusal(req, 0x03, "Illegal Data Value", mode, tid));
    }
  }

  /** The FC16 branch of `process_request`: the register write loop. */
  method ApplyWriteMultipleRegisters(req: ParsedRequest, data: ModbusSlaveData, mode: ModbusMode, tid: uint16,
                                     connectionId: string) returns (r: Result<ProcessedRequest>)
    modifies data
    ensures (r, data.Export()) == WriteMultipleRegistersOutcome(req, old(data.Export()), mode, tid, connectionId)
  {
    var addr := req.startAddress;
    if req.writeValues.Some? {
      var values := req.writeValues.value;
      var ok := data.WriteRegisters(addr, values);
      if !ok { return Panic("index out of bounds: holding_registers[start_address + i]"); }
      r := Ok(ProcessedRequest(BuildWriteMultipleResponse(req.slaveId, req.functionCode, addr, req.quantity, mode, tid), true, None,
                               Some(DataChanged(connectionId, "holding_register", addr, values)), addr, req.quantity));
    } else {
      r := Ok(Refusal(req, 0x03, "Illegal Data Value", mode, tid));
    }
  }

  // ---------------------------------------------------------------- properties of request processing

  /** A configured exception wins over everything else: the mapped code is returned and no table changes. */
  lemma ProcessMappedException(req: ParsedRequest, t: DataExport, mappings: seq<ExceptionMapping>,
                               mode: ModbusMode, tid: uint16, connectionId: string)
    requires FindException(mappings, DataTypeOf(req.functionCode), req.startAddress).Some?
    ensures var code := FindException(mappings, DataTypeOf(req.functionCode), req.startAddress).value;
            var out := Process(req, t, mappings, mode, tid, connectionId);
            out.1 == t && out.0.Ok? && !out.0.value.success && out.0.value.dataChanged.None? &&
            out.0.value.errorMessage == Some(FormatExceptionError(code)) &&
            Pdu(mode, out.0.value.responseFrame) == [ExceptionFc(req.functionCode), code]
  {
  }

  /** Without a mapping, a range past the 10000-entry tables gets exception 0x02 and no table changes. */
  lemma ProcessRangeCheck(req: ParsedRequest, t: DataExport, mappings: seq<ExceptionMapping>,
                          mode: ModbusMode, tid: uint16, connectionId: string)
    requires FindException(mappings, DataTypeOf(req.functionCode), req.startAddress).None?
    requires req.startAddress + req.quantity > DEFAULT_DATA_SIZE
    ensures var out := Process(req, t, mappings, mode, tid, connectionId);
            out.1 == t && out.0.Ok? && !out.0.value.success && out.0.value.dataChanged.None? &&
            out.0.value.errorMessage == Some("Illegal Data Address") &&
            Pdu(mode, out.0.value.responseFrame) == [ExceptionFc(req.functionCode), 0x02]
  {
  }

  /** An unsupported function code in range, with no mapping for the empty table name, gets exception 0x01. */
  lemma ProcessIllegalFunction(req: ParsedRequest, t: DataExport, mappings: seq<ExceptionMapping>,
                               mode: ModbusMode, tid: uint16, connectionId: string)
    requires FromU8(req.functionCode).None?
    requires FindException(mappings, "", req.startAddress).None?
    requires req.startAddress + req.quantity <= DEFAULT_DATA_SIZE
    ensures var out := Process(req, t, mappings, mode, tid, connectionId);
            out.1 == t && out.0.Ok? && !out.0.value.success &&
            out.0.value.errorMessage == Some("Illegal Function") &&
            Pdu(mode, out.0.value.responseFrame) == [ExceptionFc(req.functionCode), 0x01]
  {
  }

  /** A bit read panics exactly when the slice runs past the table, and otherwise replies with the packed slice. */
  lemma ReadBitsReplies(req: ParsedRequest, table: seq<bool>, tableName: string, mode: ModbusMode, tid: uint16)
    ensures var out := ReadBits(req, table, tableName, mode, tid);
            var a, e := req.startAddress, req.startAddress + req.quantity;
            !out.Err? && (out.Ok? <==> e <= |table|) &&
            (out.Ok? ==>
               out.value.success && out.value.dataChanged.None? &&
               Pdu(mode, out.value.responseFrame) == [req.functionCode, AsU8((req.quantity + 7) / 8)] + PackCoils(table[a..e]))
  {
    var a, e := req.startAddress, req.startAddress + req.quantity;
    if e <= |table| {
      assert |table[a..e]| == req.quantity;
    }
  }

  /** A register read panics exactly when the slice runs past the table, and otherwise replies with the slice big-endian. */
  lemma ReadRegistersReplies(req: ParsedRequest, table: seq<uint16>, tableName: string, mode: ModbusMode, tid: uint16)
    ensures var out := ReadRegisters(req, table, tableName, mode, tid);
            var a, e := req.startAddress, req.startAddress + req.quantity;
            !out.Err? && (out.Ok? <==> e <= |table|) &&
            (out.Ok? ==>
               out.value.success && out.value.dataChanged.None? &&
               Pdu(mode, out.value.responseFrame) == [req.functionCode, AsU8(2 * req.quantity)] + RegistersToBytes(table[a..e]))
  {
    var a, e := req.startAddress, req.startAddress + req.quantity;
    if e <= |table| {
      assert |table[a..e]| == req.quantity;
    }
  }

  /** A successful coil or discrete-input read replies with the packed slice of its table. */
  lemma ReadBitsOutcomeReplies(req: ParsedRequest, t: DataExport, mode: ModbusMode, tid: uint16)
    requires req.functionCode in {0x01, 0x02}
    ensures var out := ReadOutcome(req, t, mode, tid);
            var a, e := req.startAddress, req.startAddress + req.quantity;
            var table := if req.functionCode == 0x01 then t.coils else t.discreteInputs;
            !out.Err? && (out.Ok? <==> e <= |table|) &&
            (out.Ok? ==>
               out.value.success && out.value.dataChanged.None? &&
               Pdu(mode, out.value.responseFrame) == [req.functionCode, AsU8((req.quantity + 7) / 8)] + PackCoils(table[a..e]))
  {
    if req.functionCode == 0x01 {
      ReadBitsReplies(req, t.coils, "coils", mode, tid);
    } else {
      ReadBitsReplies(req, t.discreteInputs, "discrete_inputs", mode, tid);
    }
  }

  /** A successful holding- or input-register read replies with the big-endian slice of its table. */
  lemma ReadRegistersOutcomeReplies(req: ParsedRequest, t: DataExport, mode: ModbusMode, tid: uint16)
    requires req.functionCode in {0x03, 0x04}
    ensures var out := ReadOutcome(req, t, mode, tid);
            var a, e := req.startAddress, req.startAddress + req.quantity;
            var table := if req.functionCode == 0x03 then t.holdingRegisters else t.inputRegisters;
            !out.Err? && (out.Ok? <==> e <= |table|) &&
            (out.Ok? ==>
               out.value.success && out.value.dataChanged.None? &&
               Pdu(mode, out.value.responseFrame) == [req.functionCode, AsU8(2 * req.quantity)] + RegistersToBytes(table[a..e]))
  {
    if req.functionCode == 0x03 {
      ReadRegistersReplies(req, t.holdingRegisters, "holding_registers", mode, tid);
    } else {
      ReadRegistersReplies(req, t.inputRegisters, "input_registers", mode, tid);
    }
  }

  /** Reads change no table; a read that gets past the mapping and range checks is answered by `ReadOutcome`. */
  lemma ProcessReadChangesNothing(req: ParsedRequest, t: DataExport, mappings: seq<ExceptionMapping>,
                                  mode: ModbusMode, tid: uint16, connectionId: string)
    requires req.functionCode in {0x01, 0x02, 0x03, 0x04}
    ensures var out := Process(req, t, mappings, mode, tid, connectionId);
            out.1 == t &&
            (out.0.Ok? && out.0.value.success ==> out.0 == ReadOutcome(req, t, mode, tid))
  {
  }

  /** No request writes the discrete inputs or the input registers, and no table changes length. */
  lemma ProcessNeverWritesInputTables(req: ParsedRequest, t: DataExport, mappings: seq<ExceptionMapping>,
                                      mode: ModbusMode, tid: uint16, connectionId: string)
    ensures var after := Process(req, t, mappings, mode, tid, connectionId).1;
            after.discreteInputs == t.discreteInputs && after.inputRegisters == t.inputRegisters &&
            |after.coils| == |t.coils| && |after.holdingRegisters| == |t.holdingRegisters|
  {
    var fc := req.functionCode;
    var after := Process(req, t, mappings, mode, tid, connectionId).1;
    if FindException(mappings, DataTypeOf(fc), req.startAddress).None? && req.startAddress + req.quantity <= DEFAULT_DATA_SIZE {
      if fc == 0x05 {
        assert after == WriteSingleCoilOutcome(req, t, mode, tid, connectionId).1;
      } else if fc == 0x06 {
        assert after == WriteSingleRegisterOutcome(req, t, mode, tid, connectionId).1;
      } else if fc == 0x0F {
        assert after == WriteMultipleCoilsOutcome(req, t, mode, tid, connectionId).1;
      } else if fc == 0x10 {
        assert after == WriteMultipleRegistersOutcome(req, t, mode, tid, connectionId).1;
      }
    }
  }

  /** When the mapping and range checks pass, `process_request` hands a write to its branch. */
  lemma ProcessDispatchesWrites(req: ParsedRequest, t: DataExport, mappings: seq<ExceptionMapping>,
                                mode: ModbusMode, tid: uint16, connectionId: string)
    requires var out := Process(req, t, mappings, mode, tid, connectionId).0; out.Ok? && out.value.success
    ensures FindException(mappings, DataTypeOf(req.functionCode), req.startAddress).None?
    ensures req.startAddress + req.quantity <= DEFAULT_DATA_SIZE
    ensures var out := Process(req, t, mappings, mode, tid, connectionId);
            (req.functionCode == 0x05 ==> out == WriteSingleCoilOutcome(req, t, mode, tid, connectionId)) &&
            (req.functionCode == 0x06 ==> out == WriteSingleRegisterOutcome(req, t, mode, tid, connectionId)) &&
            (req.functionCode == 0x0F ==> out == WriteMultipleCoilsOutcome(req, t, mode, tid, connectionId)) &&
            (req.functionCode == 0x10 ==> out == WriteMultipleRegistersOutcome(req, t, mode, tid, connectionId))
  {
  }

  /** A successful FC05 sets exactly the addressed coil to the first coil value and reports it as changed. */
  lemma SingleCoilFootprint(req: ParsedRequest, t: DataExport, mode: ModbusMode, tid: uint16, connectionId: string)
    requires var out := WriteSingleCoilOutcome(req, t, mode, tid, connectionId).0; out.Ok? && out.value.success
    ensures req.coilValues.Some? && |req.coilValues.value| > 0
    ensures req.startAddress < |t.coils|
    ensures WriteSingleCoilOutcome(req, t, mode, tid, connectionId).1
            == t.(coils := Overwrite(t.coils, req.startAddress, [req.coilValues.value[0]]))
    ensures WriteSingleCoilOutcome(req, t, mode, tid, connectionId).0.value.dataChanged
            == Some(DataChanged(connectionId, "coil", req.startAddress, [if req.coilValues.value[0] then 1 else 0]))
  {
    var values, a := req.coilValues, req.startAddress;
    if values.Some? && |values.value| > 0 && a < |t.coils| {
      var r := WriteSingleCoilOutcome(req, t, mode, tid, connectionId);
      var v := values.value[0];
      assert r.1 == t.(coils := t.coils[a := v]);
      assert r.0.value.dataChanged == Some(DataChanged(connectionId, "coil", a, CoilWords([v])));
      OverwriteOne(t.coils, a, v);
      CoilWordsOne(v);
    }
  }

  lemma OverwriteOne<T>(s: seq<T>, i: nat, v: T)
    requires i < |s|
    ensures s[i := v] == Overwrite(s, i, [v])
  {
  }

  lemma CoilWordsOne(v: bool)
    ensures CoilWords([v]) == [if v then 1 else 0]
  {
  }

  /** A successful FC15 sets exactly the coils `start .. start + n - 1` to the coil values and reports them as changed. */
  lemma MultipleCoilsFootprint(req: ParsedRequest, t: DataExport, mode: ModbusMode, tid: uint16, connectionId: string)
    requires var out := WriteMultipleCoilsOutcome(req, t, mode, tid, connectionId).0; out.Ok? && out.value.success
    ensures req.coilValues.Some?
    ensures var (out, after) := WriteMultipleCoilsOutcome(req, t, mode, tid, connectionId);
            var a, vs := req.startAddress, req.coilValues.value;
            (|vs| == 0 || a + |vs| <= |t.coils|) &&
            after == t.(coils := Overwrite(t.coils, a, vs)) &&
            out.value.dataChanged == Some(DataChanged(connectionId, "coil", a, CoilWords(vs)))
  {
  }

  /** A successful FC06 sets exactly the addressed holding register to the first write value and reports it as changed. */
  lemma SingleRegisterFootprint(req: ParsedRequest, t: DataExport, mode: ModbusMode, tid: uint16, connectionId: string)
    requires var out := WriteSingleRegisterOutcome(req, t, mode, tid, connectionId).0; out.Ok? && out.value.success
    ensures req.writeValues.Some? && |req.writeValues.value| > 0
    ensures var (out, after) := WriteSingleRegisterOutcome(req, t, mode, tid, connectionId);
            var a, v := req.startAddress, req.writeValues.value[0];
            a < |t.holdingRegisters| &&
            after == t.(holdingRegisters := Overwrite(t.holdingRegisters, a, [v])) &&
            out.value.dataChanged == Some(DataChanged(connectionId, "holding_register", a, [v]))
  {
    var a, v := req.startAddress, req.writeValues.value[0];
    assert t.holdingRegisters[a := v] == Overwrite(t.holdingRegisters, a, [v]);
  }

  /** A successful FC16 sets exactly the holding registers `start .. start + n - 1` to the write values and reports them. */
  lemma MultipleRegistersFootprint(req: ParsedRequest, t: DataExport, mode: ModbusMode, tid: uint16, connectionId: string)
    requires var out := WriteMultipleRegistersOutcome(req, t, mode, tid, connectionId).0; out.Ok? && out.value.success
    ensures req.writeValues.Some?
    ensures var (out, after) := WriteMultipleRegistersOutcome(req, t, mode, tid, connectionId);
            var a, vs := req.startAddress, req.writeValues.value;
            (|vs| == 0 || a + |vs| <= |t.holdingRegisters|) &&
            after == t.(holdingRegisters := Overwrite(t.holdingRegisters, a, vs)) &&
            out.value.dataChanged == Some(DataChanged(connectionId, "holding_register", a, vs))
  {
  }

  /** The shape of every request the two parsers produce: single writes have quantity 1, multiple writes at most `quantity` values. */
  predicate ParserShaped(req: ParsedRequest) {
    (req.functionCode in {0x05, 0x06} ==> req.quantity == 1) &&
    (req.functionCode == 0x0F && req.coilValues.Some? ==> |req.coilValues.value| <= req.quantity) &&
    (req.functionCode == 0x10 && req.writeValues.Some? ==> |req.writeValues.value| <= req.quantity)
  }

  lemma ParsersProduceShapedRequests(frame: seq<uint8>)
    ensures ParseRtuRequest(frame).Ok? ==> ParserShaped(ParseRtuRequest(frame).value)
    ensures ParseTcpRequest(frame).Ok? ==> ParserShaped(ParseTcpRequest(frame).value.1)
  {
  }

  /** On tables of at least the default size, no parsed request makes `process_request` panic. */
  lemma ProcessNoPanicOnDefaultTables(req: ParsedRequest, t: DataExport, mappings: seq<ExceptionMapping>,
                                      mode: ModbusMode, tid: uint16, connectionId: string)
    requires ParserShaped(req)
    requires |t.coils| >= DEFAULT_DATA_SIZE && |t.discreteInputs| >= DEFAULT_DATA_SIZE
    requires |t.holdingRegisters| >= DEFAULT_DATA_SIZE && |t.inputRegisters| >= DEFAULT_DATA_SIZE
    ensures Process(req, t, mappings, mode, tid, connectionId).0.Ok?
  {
  }
}
