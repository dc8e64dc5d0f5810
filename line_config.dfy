/** The line-configuration mapper of serial_ftdi_configure: the translation of
    libdivecomputer's data-bit, parity, stop-bit and flow-control codes into
    libftdi's enumerations, the order in which the hardware is told, and the
    outcome of each combination. */
module LineConfig {
  import opened Types

  /** Data-bit count, parity and stop-bit codes that the switches accept. */
  predicate SupportedFrame(databits: u32, parity: int, stopbits: int)
  {
    (databits == 7 || databits == 8)
    && (parity == ParityNone || parity == ParityEven || parity == ParityOdd)
    && (stopbits == StopBitsOne || stopbits == StopBitsTwo)
  }

  predicate SupportedFlow(flow: int)
  {
    flow == FlowNone || flow == FlowHardware || flow == FlowSoftware
  }

  function FtdiBits(databits: u32): BitsType
    requires databits == 7 || databits == 8
  {
    if databits == 7 then Bits7 else Bits8
  }

  function FtdiParity(parity: int): ParityType
    requires parity == ParityNone || parity == ParityEven || parity == ParityOdd
  {
    if parity == ParityNone then NoParity
    else if parity == ParityEven then EvenParity
    else OddParity
  }

  function FtdiStopBits(stopbits: int): StopBitsType
    requires stopbits == StopBitsOne || stopbits == StopBitsTwo
  {
    if stopbits == StopBitsOne then StopBit1 else StopBit2
  }

  function FtdiFlow(flow: int): FlowCtrl
    requires SupportedFlow(flow)
  {
    if flow == FlowNone then DisableFlowCtrl
    else if flow == FlowHardware then RtsCtsHs
    else XonXoffHs
  }

  /** The single ftdi_set_line_property call for a supported frame. */
  function LineCall(databits: u32, parity: int, stopbits: int): Call
    requires SupportedFrame(databits, parity, stopbits)
  {
    SetLineProperty(FtdiBits(databits), FtdiStopBits(stopbits), FtdiParity(parity))
  }

  /** What one configure call reports and the hardware calls it made. */
  datatype ConfigOutcome = ConfigOutcome(status: Status, calls: seq<Call>)

  /** serial_ftdi_configure on a non-null handle. The baud rate goes to the
      hardware before any argument is looked at, the frame is then validated
      and applied in one call, and the flow control is validated only after
      that. */
  function Configure(baudrate: u32, databits: u32, parity: int, stopbits: int, flow: int, hw: Hardware): (r: ConfigOutcome)
  {
    var baud := SetBaudrate(baudrate);
    if hw(baud) < 0 then ConfigOutcome(IO, [baud])
    else if !SupportedFrame(databits, parity, stopbits) then ConfigOutcome(InvalidArgs, [baud])
    else
      var line := LineCall(databits, parity, stopbits);
      if hw(line) != 0 then ConfigOutcome(IO, [baud, line])
      else if !SupportedFlow(flow) then ConfigOutcome(InvalidArgs, [baud, line])
      else
        var fc := SetFlowCtrl(FtdiFlow(flow));
        if hw(fc) < 0 then ConfigOutcome(IO, [baud, line, fc])
        else ConfigOutcome(Success, [baud, line, fc])
  }

  /** The outcome of every argument combination. The baud rate is always
      the first call; the result is Success exactly when every argument is
      supported and the hardware takes all three calls; InvalidArgs exactly
      when the baud rate was taken and the frame is unsupported, or the frame
      was applied and the flow control is unsupported; IO otherwise. */
  lemma ConfigureOutcomes(baudrate: u32, databits: u32, parity: int, stopbits: int, flow: int, hw: Hardware)
    ensures Configure(baudrate, databits, parity, stopbits, flow, hw).status == Success || Configure(baudrate, databits, parity, stopbits, flow, hw).status == InvalidArgs || Configure(baudrate, databits, parity, stopbits, flow, hw).status == IO
    ensures |Configure(baudrate, databits, parity, stopbits, flow, hw).calls| >= 1 && Configure(baudrate, databits, parity, stopbits, flow, hw).calls[0] == SetBaudrate(baudrate)
    ensures Configure(baudrate, databits, parity, stopbits, flow, hw).status == Success <==>
      && hw(SetBaudrate(baudrate)) >= 0
      && SupportedFrame(databits, parity, stopbits)
      && hw(LineCall(databits, parity, stopbits)) == 0
      && SupportedFlow(flow)
      && hw(SetFlowCtrl(FtdiFlow(flow))) >= 0
    ensures Configure(baudrate, databits, parity, stopbits, flow, hw).status == InvalidArgs <==>
      && hw(SetBaudrate(baudrate)) >= 0
      && (|| !SupportedFrame(databits, parity, stopbits)
          || (hw(LineCall(databits, parity, stopbits)) == 0 && !SupportedFlow(flow)))
    ensures Configure(baudrate, databits, parity, stopbits, flow, hw).status == Success ==>
      Configure(baudrate, databits, parity, stopbits, flow, hw).calls == [SetBaudrate(baudrate), LineCall(databits, parity, stopbits), SetFlowCtrl(FtdiFlow(flow))]
    ensures hw(SetBaudrate(baudrate)) < 0 || !SupportedFrame(databits, parity, stopbits) ==>
      Configure(baudrate, databits, parity, stopbits, flow, hw).calls == [SetBaudrate(baudrate)]
  {
  }

  /** The frame size stored by configure, in unsigned int arithmetic:
      start bit, data bits, the stop-bit code and one bit for any parity. */
  function NBits(databits: u32, stopbits: u32, parity: u32): u32
  {
    ((1 + databits as int + stopbits as int + (if parity != 0 then 1 else 0)) % 0x1_0000_0000) as u32
  }

  /** For every accepted frame the unsigned sum does not wrap. Because the
      stop-bit term is the dc_stopbits_t code (0 for one stop bit, 2 for two),
      an 8N1 frame is counted as 9 bits and an 8N2 frame as 11. */
  lemma NBitsOfSupportedFrame(databits: u32, parity: int, stopbits: int)
    requires SupportedFrame(databits, parity, stopbits)
    ensures 0 <= parity && 0 <= stopbits
    ensures NBits(databits, stopbits as u32, parity as u32) as int
            == 1 + databits as int + stopbits + (if parity != ParityNone then 1 else 0)
    ensures 8 <= NBits(databits, stopbits as u32, parity as u32) <= 12
    ensures NBits(8, StopBitsOne as u32, ParityNone as u32) == 9
  {
  }
}
