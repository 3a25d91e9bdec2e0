/**
 * The SPI register transport handed to the BMI160 driver: a register write sends
 * one frame [address with bit 7 clear] ++ payload; a register read sends the
 * address with bit 7 set, clocks in len+1 bytes into SPI_RX_Buffer and returns
 * all but the first (address-phase) byte.
 */
module BusTransport {
  import opened Types

  /** Size of SPI_RX_Buffer. */
  const RX_BUFFER_SIZE: nat := 500

  /** The command byte of a register write: the address with its MSB cleared. */
  function WriteCommand(regAddr: Byte): (c: Byte)
    ensures c & 0x80 == 0
    ensures c & 0x7F == regAddr & 0x7F
  {
    regAddr & 0x7F
  }

  /** The command byte of a register read: the address with its MSB set. */
  function ReadCommand(regAddr: Byte): (c: Byte)
    ensures c & 0x80 == 0x80
    ensures c & 0x7F == regAddr & 0x7F
  {
    regAddr | 0x80
  }

  /** Write and read framings of one address differ in bit 7 and nowhere else. */
  lemma CommandsDifferOnlyInBit7(regAddr: Byte)
    ensures WriteCommand(regAddr) ^ ReadCommand(regAddr) == 0x80
    ensures WriteCommand(regAddr) | 0x80 == ReadCommand(regAddr)
  {
  }

  /** The frame a register write puts on MOSI. */
  function WriteFrame(regAddr: Byte, payload: seq<Byte>): (f: seq<Byte>)
    ensures |f| == |payload| + 1
    ensures f[0] == WriteCommand(regAddr)
    ensures forall k :: 0 <= k < |payload| ==> f[k + 1] == payload[k]
  {
    [WriteCommand(regAddr)] + payload
  }

  /** The frame a register read puts on MOSI: the command byte alone. */
  function ReadFrame(regAddr: Byte): (f: seq<Byte>)
    ensures f == [ReadCommand(regAddr)]
  {
    [regAddr | 0x80]
  }

  /** What the sensor makes of a frame: bit 7 of the first byte selects a read, bits 0..6 the register. */
  datatype Request = WriteRequest(reg: Byte, data: seq<Byte>) | ReadRequest(reg: Byte)

  function DecodeFrame(frame: seq<Byte>): Option<Request>
  {
    if |frame| == 0 then None
    else if frame[0] & 0x80 == 0 then Some(WriteRequest(frame[0] & 0x7F, frame[1..]))
    else Some(ReadRequest(frame[0] & 0x7F))
  }

  /** The sensor sees a write of exactly the payload to the 7-bit register. */
  lemma WriteFrameRoundTrip(regAddr: Byte, payload: seq<Byte>)
    ensures DecodeFrame(WriteFrame(regAddr, payload)) == Some(WriteRequest(regAddr & 0x7F, payload))
  {
    assert WriteFrame(regAddr, payload)[1..] == payload;
  }

  /** The sensor sees a read of the 7-bit register. */
  lemma ReadFrameRoundTrip(regAddr: Byte)
    ensures DecodeFrame(ReadFrame(regAddr)) == Some(ReadRequest(regAddr & 0x7F))
  {
  }

  /** The bytes a read hands back: the received bytes after the address phase. */
  function ReadPayload(rx: seq<Byte>, len: nat): (d: seq<Byte>)
    requires len + 1 <= |rx|
    ensures |d| == len
    ensures forall k :: 0 <= k < len ==> d[k] == rx[k + 1]
  {
    rx[1..len + 1]
  }

  /** A response of one dummy byte followed by the register contents yields exactly those contents. */
  lemma ReadResponseRoundTrip(dummy: Byte, data: seq<Byte>)
    ensures ReadPayload([dummy] + data, |data|) == data
  {
  }

  /**
   * The SPI master with its receive buffer and its transfer-complete flag.
   * `sent` logs every frame put on MOSI, in order.
   */
  class SpiBus {
    var rxBuffer: array<Byte>
    var xferDone: bool
    ghost var sent: seq<seq<Byte>>

    ghost predicate Valid()
      reads this
    {
      rxBuffer.Length == RX_BUFFER_SIZE
    }

    constructor ()
      ensures Valid() && fresh(rxBuffer)
      ensures !xferDone && sent == []
    {
      rxBuffer := new Byte[RX_BUFFER_SIZE];
      xferDone := false;
      sent := [];
    }

    /** spi_event_handler: the transfer-complete callback raises the flag. */
    method EventHandler()
      modifies this`xferDone
      ensures xferDone
    {
      xferDone := true;
    }

    /**
     * nrf_drv_spi_transfer followed by its completion event: tx goes out on MOSI,
     * the rxLen bytes the sensor drives on MISO (`miso`) land at the start of the
     * receive buffer. The flag must have been cleared before submission.
     */
    method Transfer(tx: seq<Byte>, rxLen: nat, miso: seq<Byte>)
      requires Valid() && !xferDone
      requires rxLen <= rxBuffer.Length && |miso| == rxLen
      modifies this`xferDone, this`sent, rxBuffer
      ensures Valid() && xferDone
      ensures sent == old(sent) + [tx]
      ensures rxBuffer[..rxLen] == miso
      ensures rxBuffer[rxLen..] == old(rxBuffer[rxLen..])
    {
      sent := sent + [tx];
      forall k | 0 <= k < rxLen {
        rxBuffer[k] := miso[k];
      }
      EventHandler();
    }

    /** bmi160_spi_bus_write: send [regAddr & 0x7F] ++ regData[..cnt] as one transfer. */
    method BusWrite(hwAddr: Byte, regAddr: Byte, regData: array<Byte>, cnt: UInt16) returns (error: int)
      requires Valid() && cnt <= regData.Length
      modifies this`xferDone, this`sent, rxBuffer
      ensures Valid() && xferDone && error == 0
      ensures sent == old(sent) + [WriteFrame(regAddr, regData[..cnt])]
      ensures rxBuffer[..] == old(rxBuffer[..])
    {
      xferDone := false;
      error := 0;
      var txBuff := new Byte[cnt + 1];
      txBuff[0] := regAddr & 0x7F;
      for stringPos := 0 to cnt
        invariant !xferDone && sent == old(sent) && rxBuffer[..] == old(rxBuffer[..])
        invariant txBuff[0] == WriteCommand(regAddr)
        invariant forall k :: 0 <= k < stringPos ==> txBuff[k + 1] == regData[k]
      {
        txBuff[stringPos + 1] := regData[stringPos];
      }
      assert txBuff[..] == WriteFrame(regAddr, regData[..cnt]);
      Transfer(txBuff[..], 0, []);
    }

    /**
     * bmi160_spi_bus_read: send regAddr | 0x80, receive len+1 bytes (the sensor's
     * response `miso`) and copy all but the first into regData[..len].
     */
    method BusRead(hwAddr: Byte, regAddr: Byte, regData: array<Byte>, len: UInt16, miso: seq<Byte>)
      returns (error: int)
      requires Valid() && regData != rxBuffer
      requires len <= regData.Length && len + 1 <= rxBuffer.Length
      requires |miso| == len + 1
      modifies this`xferDone, this`sent, rxBuffer, regData
      ensures Valid() && xferDone && error == 0
      ensures sent == old(sent) + [ReadFrame(regAddr)]
      ensures rxBuffer[..len + 1] == miso
      ensures rxBuffer[len + 1..] == old(rxBuffer[len + 1..])
      ensures regData[..len] == ReadPayload(miso, len)
      ensures regData[len..] == old(regData[len..])
    {
      xferDone := false;
      error := 0;
      var txBuff: Byte := regAddr | 0x80;
      Transfer([txBuff], len + 1, miso);
      ghost var received := rxBuffer[..];
      for stringPos := 0 to len
        invariant xferDone && sent == old(sent) + [ReadFrame(regAddr)]
        invariant rxBuffer[..] == received
        invariant forall k :: 0 <= k < stringPos ==> regData[k] == miso[k + 1]
        invariant regData[len..] == old(regData[len..])
      {
        regData[stringPos] := rxBuffer[stringPos + 1];
      }
      assert regData[..len] == ReadPayload(miso, len);
    }
  }
}
