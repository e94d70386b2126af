/**
 * The master of `modbus.rs` and the slave of `modbus_slave.rs` speak to each
 * other: every request the master encodes is parsed back by the slave into
 * the fields it was built from, and every reply the slave builds is parsed
 * back by the master into the values that went into it.
 */
module RoundTrip {
  import opened Wrappers
  import opened Bytes
  import opened Crc
  import opened Modbus
  import opened ModbusSlave

  // ---------------------------------------------------------------- shared helpers

  /** Registers encoded big-endian at the front of `bytes` decode back to themselves. */
  lemma RegistersDecode(bytes: seq<uint8>, values: seq<uint16>)
    requires 2 * |values| <= |bytes|
    requires bytes[..2 * |values|] == RegistersToBytes(values)
    ensures BytesToRegisters(bytes, |values|) == values
  {
    var r := BytesToRegisters(bytes, |values|);
    forall i | 0 <= i < |values|
      ensures r[i] == values[i]
    {
      RegisterDecodes(bytes, values, i);
    }
  }

  lemma RegisterDecodes(bytes: seq<uint8>, values: seq<uint16>, i: nat)
    requires 2 * |values| <= |bytes|
    requires bytes[..2 * |values|] == RegistersToBytes(values)
    requires i < |values|
    ensures FromBe(bytes[2 * i], bytes[2 * i + 1]) == values[i]
  {
    var prefix := bytes[..2 * |values|];
    RegistersToBytesAt(values, i);
    assert bytes[2 * i] == prefix[2 * i] && bytes[2 * i + 1] == prefix[2 * i + 1];
  }

  /** Coils packed at `offset` in `frame` read back as themselves. */
  lemma CoilsDecode(frame: seq<uint8>, offset: nat, start: uint16, values: seq<bool>)
    requires offset >= 5 && offset - 5 + |WriteMultipleCoilsData(start, values)| <= |frame|
    requires frame[offset - 5..offset - 5 + |WriteMultipleCoilsData(start, values)|] == WriteMultipleCoilsData(start, values)
    ensures |values| == 0 || offset + (|values| - 1) / 8 < |frame|
    ensures CoilsAt(frame, offset, |values|) == values
  {
    var d := WriteMultipleCoilsData(start, values);
    var c := CoilsAt(frame, offset, |values|);
    forall i | 0 <= i < |values|
      ensures c[i] == values[i]
    {
      WriteMultipleCoilsDataBits(start, values, i);
      assert frame[offset + i / 8] == d[5 + i / 8];
    }
  }

  /** The value word of a single-coil write is `COIL_ON` exactly when the coil is on. */
  lemma CoilWordIsState(address: uint16, value: bool)
    ensures var d := WriteSingleCoilData(address, value); (FromBe(d[2], d[3]) == COIL_ON) == value
  {
  }

  // ---------------------------------------------------------------- requests over RTU

  /** An RTU frame with a good CRC and a fixed-length function code (FC01-FC06) parses from its first six bytes. */
  lemma RtuFixedRequestParses(frame: seq<uint8>)
    requires |frame| >= 8 && VerifyCrc16(frame) && 0x01 <= frame[1] <= 0x06
    ensures var word := FromBe(frame[4], frame[5]);
            ParseRtuRequest(frame) == Ok(ParsedRequest(frame[0], frame[1], FromBe(frame[2], frame[3]),
                                                       if frame[1] in {0x05, 0x06} then 1 else word,
                                                       if frame[1] == 0x06 then Some([word]) else None,
                                                       if frame[1] == 0x05 then Some([word == COIL_ON]) else None))
  {
  }

  /** A read request (FC01-FC04) is parsed back into its start address and quantity. */
  lemma RtuReadRequestRoundTrip(slave: uint8, fc: FunctionCode, start: uint16, quantity: uint16)
    requires fc.IsRead()
    ensures ParseRtuRequest(BuildRtuFrame(slave, fc.Code(), ReadRequestData(start, quantity)))
            == Ok(ParsedRequest(slave, fc.Code(), start, quantity, None, None))
  {
    var f := BuildRtuFrame(slave, fc.Code(), ReadRequestData(start, quantity));
    assert f[2..6] == ReadRequestData(start, quantity);
  }

  /** A single-coil write (FC05) is parsed back into its address and state. */
  lemma RtuWriteSingleCoilRoundTrip(slave: uint8, address: uint16, value: bool)
    ensures ParseRtuRequest(BuildRtuFrame(slave, 0x05, WriteSingleCoilData(address, value)))
            == Ok(ParsedRequest(slave, 0x05, address, 1, None, Some([value])))
  {
    var d := WriteSingleCoilData(address, value);
    var f := BuildRtuFrame(slave, 0x05, d);
    assert f[2..6] == d;
    assert f[2] == d[0] && f[3] == d[1] && f[4] == d[2] && f[5] == d[3];
    CoilWordIsState(address, value);
    RtuFixedRequestParses(f);
  }

  /** A single-register write (FC06) is parsed back into its address and value. */
  lemma RtuWriteSingleRegisterRoundTrip(slave: uint8, address: uint16, value: uint16)
    ensures ParseRtuRequest(BuildRtuFrame(slave, 0x06, WriteSingleRegisterData(address, value)))
            == Ok(ParsedRequest(slave, 0x06, address, 1, Some([value]), None))
  {
    var f := BuildRtuFrame(slave, 0x06, WriteSingleRegisterData(address, value));
    assert f[2..6] == WriteSingleRegisterData(address, value);
  }

  /**
   * A multiple-coil write (FC15) is parsed back into its start and coils,
   * for every count whose byte count still fits the one-byte field.
   */
  lemma RtuWriteMultipleCoilsRoundTrip(slave: uint8, start: uint16, values: seq<bool>)
    requires |values| <= 2040
    ensures ParseRtuRequest(BuildRtuFrame(slave, 0x0F, WriteMultipleCoilsData(start, values)))
            == Ok(ParsedRequest(slave, 0x0F, start, |values|, None, Some(values)))
  {
    var d := WriteMultipleCoilsData(start, values);
    var f := BuildRtuFrame(slave, 0x0F, d);
    assert f[2..2 + |d|] == d;
    assert f[6] == d[4];
    CoilsDecode(f, 7, start, values);
  }

  /**
   * A multiple-register write (FC16) is parsed back into its start and
   * registers, for every count whose byte count still fits the one-byte field.
   */
  lemma RtuWriteMultipleRegistersRoundTrip(slave: uint8, start: uint16, values: seq<uint16>)
    requires |values| <= 127
    ensures ParseRtuRequest(BuildRtuFrame(slave, 0x10, WriteMultipleRegistersData(start, values)))
            == Ok(ParsedRequest(slave, 0x10, start, |values|, Some(values), None))
  {
    var d := WriteMultipleRegistersData(start, values);
    var f := BuildRtuFrame(slave, 0x10, d);
    assert f[2..2 + |d|] == d;
    assert f[6] == d[4];
    assert f[7..][..2 * |values|] == d[5..];
    RegistersDecode(f[7..], values);
  }

  // ---------------------------------------------------------------- requests over TCP

  /** Over TCP the transaction id comes back as well as the read request. */
  lemma TcpReadRequestRoundTrip(tid: uint16, unit: uint8, fc: FunctionCode, start: uint16, quantity: uint16)
    requires fc.IsRead()
    ensures ParseTcpRequest(BuildTcpFrame(tid, unit, fc.Code(), ReadRequestData(start, quantity)))
            == Ok((tid, ParsedRequest(unit, fc.Code(), start, quantity, None, None)))
  {
    var f := BuildTcpFrame(tid, unit, fc.Code(), ReadRequestData(start, quantity));
    assert f[8..12] == ReadRequestData(start, quantity);
  }

  lemma TcpWriteSingleCoilRoundTrip(tid: uint16, unit: uint8, address: uint16, value: bool)
    ensures ParseTcpRequest(BuildTcpFrame(tid, unit, 0x05, WriteSingleCoilData(address, value)))
            == Ok((tid, ParsedRequest(unit, 0x05, address, 1, None, Some([value]))))
  {
    var d := WriteSingleCoilData(address, value);
    CoilWordIsState(address, value);
    TcpSingleWriteParses(tid, unit, 0x05, d);
  }

  /** The FC05/FC06 branch of the TCP parser on a master-built frame. */
  lemma TcpSingleWriteParses(tid: uint16, unit: uint8, fc: uint8, d: seq<uint8>)
    requires fc in {0x05, 0x06} && |d| == 4
    ensures var f := BuildTcpFrame(tid, unit, fc, d);
            var r := ParseTcpRequest(f);
            r.Ok? && r.value.0 == tid && r.value.1.slaveId == unit && r.value.1.functionCode == fc &&
            r.value.1.startAddress == FromBe(d[0], d[1]) && r.value.1.quantity == 1 &&
            (fc == 0x05 ==> r.value.1.coilValues == Some([FromBe(d[2], d[3]) == COIL_ON]) && r.value.1.writeValues.None?) &&
            (fc == 0x06 ==> r.value.1.writeValues == Some([FromBe(d[2], d[3])]) && r.value.1.coilValues.None?)
  {
    var f := BuildTcpFrame(tid, unit, fc, d);
    assert f[8..12] == d;
  }

  lemma TcpWriteSingleRegisterRoundTrip(tid: uint16, unit: uint8, address: uint16, value: uint16)
    ensures ParseTcpRequest(BuildTcpFrame(tid, unit, 0x06, WriteSingleRegisterData(address, value)))
            == Ok((tid, ParsedRequest(unit, 0x06, address, 1, Some([value]), None)))
  {
    var f := BuildTcpFrame(tid, unit, 0x06, WriteSingleRegisterData(address, value));
    assert f[8..12] == WriteSingleRegisterData(address, value);
  }

  /** The TCP parser keeps only coils inside the frame; a master-built frame holds all of them. */
  lemma TcpWriteMultipleCoilsRoundTrip(tid: uint16, unit: uint8, start: uint16, values: seq<bool>)
    requires |values| <= 2040
    ensures ParseTcpRequest(BuildTcpFrame(tid, unit, 0x0F, WriteMultipleCoilsData(start, values)))
            == Ok((tid, ParsedRequest(unit, 0x0F, start, |values|, None, Some(values))))
  {
    var d := WriteMultipleCoilsData(start, values);
    var f := BuildTcpFrame(tid, unit, 0x0F, d);
    assert f[8..8 + |d|] == d;
    assert f[8] == d[0] && f[9] == d[1] && f[10] == d[2] && f[11] == d[3];
    TcpMultipleCoilsParses(f);
    CoilsDecode(f, 13, start, values);
  }

  /** The FC15 branch of the TCP parser on a frame long enough for its MBAP length and byte count. */
  lemma TcpMultipleCoilsParses(frame: seq<uint8>)
    requires |frame| >= 13 && |frame| >= 6 + FromBe(frame[4], frame[5]) && frame[7] == 0x0F
    ensures var word := FromBe(frame[10], frame[11]);
            var n := if word <= 8 * (|frame| - 13) then word else 8 * (|frame| - 13);
            ParseTcpRequest(frame) == Ok((FromBe(frame[0], frame[1]),
                                          ParsedRequest(frame[6], 0x0F, FromBe(frame[8], frame[9]), word, None,
                                                        Some(CoilsAt(frame, 13, n)))))
  {
  }

  /** The TCP parser keeps only registers inside the frame; a master-built frame holds all of them. */
  lemma TcpWriteMultipleRegistersRoundTrip(tid: uint16, unit: uint8, start: uint16, values: seq<uint16>)
    requires |values| <= 127
    ensures ParseTcpRequest(BuildTcpFrame(tid, unit, 0x10, WriteMultipleRegistersData(start, values)))
            == Ok((tid, ParsedRequest(unit, 0x10, start, |values|, Some(values), None)))
  {
    var d := WriteMultipleRegistersData(start, values);
    var f := BuildTcpFrame(tid, unit, 0x10, d);
    assert f[13..] == d[5..];
    RegistersDecode(f[13..], values);
  }

  // ---------------------------------------------------------------- replies

  /** The master's parser for the given transport. */
  function ParseReply(mode: ModbusMode, frame: seq<uint8>, expectedFc: uint8): Result<ParsedResponse> {
    if mode == Rtu then ParseRtuResponse(frame, expectedFc) else ParseTcpResponse(frame, expectedFc)
  }

  /** The data the master's parsers hand to `parse_response_data`: the PDU without its function code. */
  lemma ReplyData(mode: ModbusMode, slave: uint8, fc: uint8, data: seq<uint8>, tid: uint16)
    requires |data| >= 1 && fc < 0x80
    ensures ParseReply(mode, Frame(mode, slave, fc, data, tid), fc) == ParseResponseData(fc, data, slave)
  {
    var f := Frame(mode, slave, fc, data, tid);
    if mode == Rtu {
      assert f[2..|f| - 2] == data;
    } else {
      assert f[8..] == data;
    }
  }

  /** `parse_response_data` on a byte count `2 n` followed by `n` big-endian registers decodes them. */
  lemma RegistersDataParses(fc: uint8, df: seq<uint8>, values: seq<uint16>, slave: uint8)
    requires fc in {0x03, 0x04}
    requires |df| == 1 + 2 * |values| && df[0] as int == 2 * |values|
    requires forall i :: 0 <= i < |values| ==> FromBe(df[1 + 2 * i], df[2 + 2 * i]) == values[i]
    ensures ParseResponseData(fc, df, slave) == Ok(ParsedResponse(slave, fc, Some(values), None, false, None))
  {
    var n := |values|;
    assert (2 * n + 1) / 2 == n;
    var regs := BytesToRegisters(df[1..], n);
    assert regs == values;
  }

  /** A register read reply (FC03/FC04) gives the master back exactly the registers the slave sent. */
  lemma ReadRegistersReplyRoundTrip(mode: ModbusMode, slave: uint8, fc: uint8, values: seq<uint16>, tid: uint16)
    requires fc in {0x03, 0x04} && |values| <= 127
    ensures ParseReply(mode, BuildReadRegistersResponse(slave, fc, values, mode, tid), fc)
            == Ok(ParsedResponse(slave, fc, Some(values), None, false, None))
  {
    var data := [AsU8(2 * |values|)] + RegistersToBytes(values);
    ReplyData(mode, slave, fc, data, tid);
    RegistersPayloadDecodes(values);
    RegistersDataParses(fc, data, values, slave);
  }

  /** Behind its byte count, the data of a register read reply holds each register big-endian. */
  lemma RegistersPayloadDecodes(values: seq<uint16>)
    requires |values| <= 127
    ensures var data := [AsU8(2 * |values|)] + RegistersToBytes(values);
            |data| == 1 + 2 * |values| && data[0] as int == 2 * |values| &&
            forall i :: 0 <= i < |values| ==> FromBe(data[1 + 2 * i], data[2 + 2 * i]) == values[i]
  {
    var data := [AsU8(2 * |values|)] + RegistersToBytes(values);
    forall i | 0 <= i < |values|
      ensures FromBe(data[1 + 2 * i], data[2 + 2 * i]) == values[i]
    {
      RegisterDecodes(data[1..], values, i);
    }
  }

  /**
   * A coil read reply (FC01/FC02) gives the master back the coils the slave
   * sent, followed by the zero padding of the last byte.
   */
  lemma ReadCoilsReplyRoundTrip(mode: ModbusMode, slave: uint8, fc: uint8, values: seq<bool>, tid: uint16)
    requires fc in {0x01, 0x02} && |values| <= 2040
    ensures var r := ParseReply(mode, BuildReadCoilsResponse(slave, fc, values, mode, tid), fc);
            r.Ok? && !r.value.isException && r.value.slaveId == slave && r.value.functionCode == fc &&
            r.value.data.None? && r.value.coils.Some? &&
            |r.value.coils.value| == 8 * ((|values| + 7) / 8) &&
            r.value.coils.value[..|values|] == values &&
            forall i :: |values| <= i < |r.value.coils.value| ==> !r.value.coils.value[i]
  {
    var data := [AsU8((|values| + 7) / 8)] + PackCoils(values);
    ReplyData(mode, slave, fc, data, tid);
    var packed := PackCoils(values);
    assert (|values| + 7) / 8 < 256;
    CoilsDataParses(fc, packed, slave);
    UnpackPackCoils(values);
  }

  /** `parse_response_data` on a byte count followed by that many bytes of coils unpacks exactly those bytes. */
  lemma CoilsDataParses(fc: uint8, packed: seq<uint8>, slave: uint8)
    requires fc in {0x01, 0x02} && |packed| < 256
    ensures ParseResponseData(fc, [AsU8(|packed|)] + packed, slave)
            == Ok(ParsedResponse(slave, fc, None, Some(UnpackBits(packed)), false, None))
  {
    var data := [AsU8(|packed|)] + packed;
    assert data[1..1 + data[0]] == packed;
  }

  /** An exception reply gives the master the request's function code and the exception code. */
  lemma ExceptionReplyRoundTrip(mode: ModbusMode, slave: uint8, fc: uint8, code: uint8, tid: uint16)
    requires fc < 0x80
    ensures ParseReply(mode, BuildExceptionResponse(slave, fc, code, mode, tid), fc)
            == Ok(ParsedResponse(slave, fc, None, None, true, Some(code)))
  {
    var f := Frame(mode, slave, ExceptionFc(fc), [code], tid);
    if mode == Rtu {
      assert f[2..|f| - 2] == [code];
    } else {
      assert f[8..] == [code];
    }
  }

  /** A write reply carries four data bytes and is accepted as a plain success. */
  lemma WriteReplyParses(mode: ModbusMode, slave: uint8, fc: uint8, data: seq<uint8>, tid: uint16)
    requires fc in {0x05, 0x06, 0x0F, 0x10} && |data| == 4
    ensures ParseReply(mode, Frame(mode, slave, fc, data, tid), fc) == Ok(ParsedResponse(slave, fc, None, None, false, None))
  {
    ReplyData(mode, slave, fc, data, tid);
  }

  /** The FC05 reply the slave builds is accepted by the master. */
  lemma WriteSingleCoilReplyRoundTrip(mode: ModbusMode, slave: uint8, address: uint16, coil: bool, tid: uint16)
    ensures ParseReply(mode, BuildWriteSingleCoilResponse(slave, address, coil, mode, tid), 0x05)
            == Ok(ParsedResponse(slave, 0x05, None, None, false, None))
  {
    WriteReplyParses(mode, slave, 0x05, WriteSingleCoilData(address, coil), tid);
  }

  /** The FC06 reply the slave builds is accepted by the master. */
  lemma WriteSingleRegisterReplyRoundTrip(mode: ModbusMode, slave: uint8, address: uint16, value: uint16, tid: uint16)
    ensures ParseReply(mode, BuildWriteSingleRegisterResponse(slave, address, value, mode, tid), 0x06)
            == Ok(ParsedResponse(slave, 0x06, None, None, false, None))
  {
    WriteReplyParses(mode, slave, 0x06, WriteSingleRegisterData(address, value), tid);
  }

  /** The FC15/FC16 reply the slave builds is accepted by the master. */
  lemma WriteMultipleReplyRoundTrip(mode: ModbusMode, slave: uint8, fc: uint8, start: uint16, quantity: uint16, tid: uint16)
    requires fc in {0x0F, 0x10}
    ensures ParseReply(mode, BuildWriteMultipleResponse(slave, fc, start, quantity, mode, tid), fc)
            == Ok(ParsedResponse(slave, fc, None, None, false, None))
  {
    WriteReplyParses(mode, slave, fc, ToBe(start) + ToBe(quantity), tid);
  }

  // ---------------------------------------------------------------- reply lengths

  /** A coil read reply is as long as the corrected prediction for its quantity. */
  lemma CoilsReplyLength(mode: ModbusMode, slave: uint8, fc: uint8, coils: seq<bool>, tid: uint16)
    requires fc in {0x01, 0x02} && |coils| < 0x1_0000
    ensures |BuildReadCoilsResponse(slave, fc, coils, mode, tid)| == ExpectedResponseLengthCorrected(fc, |coils|, mode)
  {
  }

  /** A register read reply is as long as the corrected prediction for its quantity. */
  lemma RegistersReplyLength(mode: ModbusMode, slave: uint8, fc: uint8, registers: seq<uint16>, tid: uint16)
    requires fc in {0x03, 0x04} && |registers| < 0x1_0000
    ensures |BuildReadRegistersResponse(slave, fc, registers, mode, tid)| == ExpectedResponseLengthCorrected(fc, |registers|, mode)
  {
  }

  /** Every write reply is as long as the corrected prediction. */
  lemma WriteRepliesLength(mode: ModbusMode, slave: uint8, fc: uint8, quantity: uint16, address: uint16, tid: uint16)
    ensures |BuildWriteSingleCoilResponse(slave, address, true, mode, tid)| == ExpectedResponseLengthCorrected(0x05, quantity, mode)
    ensures |BuildWriteSingleRegisterResponse(slave, address, 0, mode, tid)| == ExpectedResponseLengthCorrected(0x06, quantity, mode)
    ensures fc in {0x0F, 0x10} ==>
              |BuildWriteMultipleResponse(slave, fc, address, quantity, mode, tid)| == ExpectedResponseLengthCorrected(fc, quantity, mode)
  {
    assert FromU8(0x05) == Some(WriteSingleCoil) && FromU8(0x06) == Some(WriteSingleRegister);
  }

  /**
   * The corrected length prediction is the length of the reply the slave
   * actually builds, for every function code and transport (reads within
   * the one-byte byte count).
   */
  lemma ExpectedLengthMatchesReplies(mode: ModbusMode, slave: uint8, fc: uint8, quantity: uint16,
                                     coils: seq<bool>, registers: seq<uint16>, address: uint16, tid: uint16)
    requires |coils| == quantity && |registers| == quantity
    ensures fc in {0x01, 0x02} ==>
              |BuildReadCoilsResponse(slave, fc, coils, mode, tid)| == ExpectedResponseLengthCorrected(fc, quantity, mode)
    ensures fc in {0x03, 0x04} ==>
              |BuildReadRegistersResponse(slave, fc, registers, mode, tid)| == ExpectedResponseLengthCorrected(fc, quantity, mode)
    ensures |BuildWriteSingleCoilResponse(slave, address, true, mode, tid)| == ExpectedResponseLengthCorrected(0x05, quantity, mode)
    ensures |BuildWriteSingleRegisterResponse(slave, address, 0, mode, tid)| == ExpectedResponseLengthCorrected(0x06, quantity, mode)
    ensures fc in {0x0F, 0x10} ==>
              |BuildWriteMultipleResponse(slave, fc, address, quantity, mode, tid)| == ExpectedResponseLengthCorrected(fc, quantity, mode)
    ensures |BuildExceptionResponse(slave, fc, 0x01, mode, tid)| == ExpectedResponseLengthCorrected(0, quantity, mode)
  {
    if fc in {0x01, 0x02} {
      CoilsReplyLength(mode, slave, fc, coils, tid);
    } else if fc in {0x03, 0x04} {
      RegistersReplyLength(mode, slave, fc, registers, tid);
    }
    WriteRepliesLength(mode, slave, fc, quantity, address, tid);
  }
}
