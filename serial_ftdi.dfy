/** The FTDI serial transport: the handle that serial_ftdi_open hands out and
    the operations the host framework calls on it. Each operation takes the
    handle as a possibly-null reference, as the C functions take `void *io`,
    and the hardware as an oracle; each reports the calls it made across its
    boundary. */
module SerialFtdi {
  import opened Types
  import LineConfig
  import Discovery
  import Transfer

  /** What serial_ftdi_close returns: a status, or on a failed ftdi_usb_close
      the raw libftdi code itself. */
  datatype CloseResult = Closed(status: Status) | RawCode(ret: int)

  /** What one open call reports and the calls it made. */
  datatype OpenOutcome = OpenOutcome(status: Status, calls: seq<Call>)

  /** The hardware steps of serial_ftdi_open once both allocations have
      succeeded, as a reference definition: select the interface, claim a
      device, reset it and purge its buffers, stopping at the first failure. */
  function ClaimSpec(hw: Hardware): (r: OpenOutcome)
  {
    if hw(SetInterfaceAny) != 0 then OpenOutcome(IO, [SetInterfaceAny])
    else
      var probe := Discovery.Discover(hw, Discovery.AcceptedPids);
      var scanned := [SetInterfaceAny] + probe.tried;
      if probe.ret < 0 then OpenOutcome(IO, scanned)
      else if hw(UsbReset) != 0 then OpenOutcome(IO, scanned + [UsbReset])
      else if hw(PurgeBuffers) != 0 then OpenOutcome(IO, scanned + [UsbReset, PurgeBuffers])
      else OpenOutcome(Success, scanned + [UsbReset, PurgeBuffers])
  }

  /** serial_ftdi_open as a reference definition, with `handleAlloc` and
      `contextAlloc` saying whether malloc and ftdi_new succeed. A failed
      hardware step frees the handle and nothing else. */
  function OpenSpec(handleAlloc: bool, contextAlloc: bool, hw: Hardware): (r: OpenOutcome)
  {
    if !handleAlloc then OpenOutcome(NoMemory, [AllocHandle])
    else if !contextAlloc then OpenOutcome(NoMemory, [AllocHandle, FtdiNew, FreeHandle])
    else
      var claim := ClaimSpec(hw);
      var trace := [AllocHandle, FtdiNew, FtdiInit] + claim.calls;
      if claim.status == Success then OpenOutcome(Success, trace)
      else OpenOutcome(claim.status, trace + [FreeHandle])
  }

  /** The hardware steps report Success exactly when each of them succeeds
      and IO otherwise, and they never touch the allocator. */
  lemma ClaimOutcomes(hw: Hardware)
    ensures var r := ClaimSpec(hw);
      && (r.status == Success || r.status == IO)
      && (r.status == Success <==>
           && hw(SetInterfaceAny) == 0
           && Discovery.Discover(hw, Discovery.AcceptedPids).ret >= 0
           && hw(UsbReset) == 0
           && hw(PurgeBuffers) == 0)
      && FtdiFree !in r.calls && FreeHandle !in r.calls
  {
    if hw(SetInterfaceAny) == 0 {
      var probe := Discovery.Discover(hw, Discovery.AcceptedPids);
      Discovery.DiscoverIsScan(hw, Discovery.AcceptedPids);
      forall k | 0 <= k < |probe.tried|
        ensures probe.tried[k] != FtdiFree && probe.tried[k] != FreeHandle
      {
        assert probe.tried[k] == UsbOpen(Discovery.Vid, Discovery.AcceptedPids[k]);
      }
    }
  }

  /** What open reports: NoMemory exactly when an allocation fails, Success
      exactly when every hardware step succeeds, IO otherwise. No path frees
      the libftdi context; every failure after the handle was allocated frees
      the handle. */
  lemma OpenOutcomes(handleAlloc: bool, contextAlloc: bool, hw: Hardware)
    ensures var r := OpenSpec(handleAlloc, contextAlloc, hw);
      && (r.status == Success || r.status == NoMemory || r.status == IO)
      && (r.status == NoMemory <==> !handleAlloc || !contextAlloc)
      && (r.status == Success <==>
           && handleAlloc && contextAlloc
           && hw(SetInterfaceAny) == 0
           && Discovery.Discover(hw, Discovery.AcceptedPids).ret >= 0
           && hw(UsbReset) == 0
           && hw(PurgeBuffers) == 0)
      && FtdiFree !in r.calls
      && (FreeHandle in r.calls <==> handleAlloc && r.status != Success)
  {
    ClaimOutcomes(hw);
  }

  /** The hardware call serial_ftdi_purge makes for a dc_direction_t code:
      input purges libftdi's transmit buffer, output its receive buffer, and
      every other code, "all" included, resets the device. */
  function PurgeCall(queue: int): (c: Call)
    ensures c == PurgeTxBuffer <==> queue == DirectionInput
    ensures c == PurgeRxBuffer <==> queue == DirectionOutput
    ensures c == UsbReset <==> queue != DirectionInput && queue != DirectionOutput
  {
    if queue == DirectionInput then PurgeTxBuffer
    else if queue == DirectionOutput then PurgeRxBuffer
    else UsbReset
  }

  /** ftdi_serial_t without its library and libftdi context pointers. */
  class FtdiSerial {
    var timeout: int      // long; -1 means blocking
    var baudrate: u32
    var nbits: u32
    var databits: u32
    var stopbits: u32
    var parity: u32

    /** The line state a fresh handle has. */
    predicate Unconfigured()
      reads this
    {
      baudrate == 0 && nbits == 0 && databits == 0 && stopbits == 0 && parity == 0
    }

    /** The line state after a successful configure. */
    predicate Configured()
      reads this
    {
      LineConfig.SupportedFrame(databits, parity as int, stopbits as int)
      && nbits == LineConfig.NBits(databits, stopbits, parity)
    }

    /** The line-state invariant: open establishes it and no operation breaks it. */
    predicate Consistent()
      reads this
    {
      Unconfigured() || Configured()
    }

    /** serial_ftdi_open_device: try each accepted product id in order and
        stop at the first claim that does not report "device not found". */
    static method OpenDevice(hw: Hardware) returns (ret: int, calls: seq<Call>)
      ensures Discovery.Probe(ret, calls) == Discovery.Discover(hw, Discovery.AcceptedPids)
    {
      var pids := Discovery.AcceptedPids;
      calls := [];
      ret := Discovery.DeviceNotFound;
      var i := 0;
      while i < |pids|
        invariant 0 <= i <= |pids| && |calls| == i
        invariant forall k :: 0 <= k < i ==> calls[k] == UsbOpen(Discovery.Vid, pids[k])
        invariant forall k :: 0 <= k < i ==> hw(calls[k]) == Discovery.DeviceNotFound
        invariant i > 0 ==> ret == hw(calls[i - 1])
      {
        var claim := UsbOpen(Discovery.Vid, pids[i]);
        ret := hw(claim);
        calls := calls + [claim];
        if ret != Discovery.DeviceNotFound {
          Discovery.DiscoverUnique(hw, pids, Discovery.Probe(ret, calls));
          return;
        }
        i := i + 1;
      }
      Discovery.DiscoverUnique(hw, pids, Discovery.Probe(ret, calls));
    }

    /** The hardware steps of serial_ftdi_open on a fresh libftdi context:
        each returns at the first call libftdi rejects. */
    static method ClaimDevice(hw: Hardware) returns (st: Status, calls: seq<Call>)
      ensures OpenOutcome(st, calls) == ClaimSpec(hw)
    {
      calls := [SetInterfaceAny];
      if hw(SetInterfaceAny) != 0 {
        return IO, calls;
      }
      var ret, tried := OpenDevice(hw);
      calls := calls + tried;
      if ret < 0 {
        return IO, calls;
      }
      calls := calls + [UsbReset];
      if hw(UsbReset) != 0 {
        return IO, calls;
      }
      calls := calls + [PurgeBuffers];
      if hw(PurgeBuffers) != 0 {
        return IO, calls;
      }
      st := Success;
    }

    /** serial_ftdi_open: allocate the handle and the libftdi context, claim
        a device, reset it and purge its buffers. Only a fully opened handle
        is handed out, with the blocking timeout and an unset line state. */
    static method Open(handleAlloc: bool, contextAlloc: bool, hw: Hardware)
      returns (st: Status, device: FtdiSerial?, calls: seq<Call>)
      ensures OpenOutcome(st, calls) == OpenSpec(handleAlloc, contextAlloc, hw)
      ensures device != null <==> st == Success
      ensures device != null ==>
        fresh(device) && device.timeout == -1 && device.Unconfigured()
    {
      device := null;
      if !handleAlloc {
        return NoMemory, null, [AllocHandle];
      }
      if !contextAlloc {
        return NoMemory, null, [AllocHandle, FtdiNew, FreeHandle];
      }
      var claimed, hwCalls := ClaimDevice(hw);
      var trace := [AllocHandle, FtdiNew, FtdiInit] + hwCalls;
      if claimed != Success {
        return claimed, null, trace + [FreeHandle];
      }
      // The handle object stands for the memory malloc gave at the start; the
      // C code fills in its defaults before the hardware steps, which no
      // caller can observe, as only a fully opened handle is returned.
      var d := new FtdiSerial;
      d.timeout := -1;
      d.baudrate, d.nbits, d.databits, d.stopbits, d.parity := 0, 0, 0, 0, 0;
      st, device, calls := Success, d, trace;
    }

    /** serial_ftdi_close. A null handle is a successful no-op; a failed
        ftdi_usb_close returns libftdi's code and releases nothing. */
    static method Close(device: FtdiSerial?, hw: Hardware) returns (r: CloseResult, calls: seq<Call>)
      ensures device == null ==> r == Closed(Success) && calls == []
      ensures device != null && hw(UsbClose) < 0 ==> r == RawCode(hw(UsbClose)) && calls == [UsbClose]
      ensures device != null && hw(UsbClose) >= 0 ==>
        r == Closed(Success) && calls == [UsbClose, FtdiFree, FreeHandle]
    {
      if device == null {
        return Closed(Success), [];
      }
      var ret := hw(UsbClose);
      if ret < 0 {
        return RawCode(ret), [UsbClose];
      }
      r, calls := Closed(Success), [UsbClose, FtdiFree, FreeHandle];
    }

    /** serial_ftdi_configure. The stored line state changes only when the
        whole configuration was applied; the baud rate reaches the hardware
        even when a later argument is rejected. */
    static method Configure(device: FtdiSerial?, baudrate: u32, databits: u32, parity: int, stopbits: int, flow: int, hw: Hardware)
      returns (st: Status, calls: seq<Call>)
      modifies device
      ensures device == null ==> st == InvalidArgs && calls == []
      ensures device != null ==>
        LineConfig.ConfigOutcome(st, calls) == LineConfig.Configure(baudrate, databits, parity, stopbits, flow, hw)
      ensures device != null && st == Success ==>
        && device.baudrate == baudrate && device.databits == databits
        && device.stopbits as int == stopbits && device.parity as int == parity
        && device.nbits as int == 1 + databits as int + stopbits + (if parity != ParityNone then 1 else 0)
        && device.timeout == old(device.timeout)
        && device.Configured()
      ensures device != null && st != Success ==> unchanged(device)
      ensures device != null && old(device.Consistent()) ==> device.Consistent()
    {
      if device == null {
        return InvalidArgs, [];
      }
      var baud := SetBaudrate(baudrate);
      calls := [baud];
      if hw(baud) < 0 {
        return IO, calls;
      }
      var bits: BitsType;
      if databits == 7 {
        bits := Bits7;
      } else if databits == 8 {
        bits := Bits8;
      } else {
        return InvalidArgs, calls;
      }
      var ftParity: ParityType;
      if parity == ParityNone {
        ftParity := NoParity;
      } else if parity == ParityEven {
        ftParity := EvenParity;
      } else if parity == ParityOdd {
        ftParity := OddParity;
      } else {
        return InvalidArgs, calls;
      }
      var ftStop: StopBitsType;
      if stopbits == StopBitsOne {
        ftStop := StopBit1;
      } else if stopbits == StopBitsTwo {
        ftStop := StopBit2;
      } else {
        return InvalidArgs, calls;
      }
      var line := SetLineProperty(bits, ftStop, ftParity);
      calls := calls + [line];
      if hw(line) != 0 {
        return IO, calls;
      }
      var fc: FlowCtrl;
      if flow == FlowNone {
        fc := DisableFlowCtrl;
      } else if flow == FlowHardware {
        fc := RtsCtsHs;
      } else if flow == FlowSoftware {
        fc := XonXoffHs;
      } else {
        return InvalidArgs, calls;
      }
      calls := calls + [SetFlowCtrl(fc)];
      if hw(SetFlowCtrl(fc)) < 0 {
        return IO, calls;
      }
      LineConfig.NBitsOfSupportedFrame(databits, parity, stopbits);
      device.baudrate := baudrate;
      device.nbits := LineConfig.NBits(databits, stopbits as u32, parity as u32);
      device.databits := databits;
      device.stopbits := stopbits as u32;
      device.parity := parity as u32;
      st := Success;
    }

    /** serial_ftdi_set_timeout: store the value as given. */
    static method SetTimeout(device: FtdiSerial?, timeout: i32) returns (st: Status)
      modifies device
      ensures device == null ==> st == InvalidArgs
      ensures device != null ==>
        && st == Success && device.timeout == timeout as int
        && device.baudrate == old(device.baudrate) && device.nbits == old(device.nbits)
        && device.databits == old(device.databits) && device.stopbits == old(device.stopbits)
        && device.parity == old(device.parity)
      ensures device != null && old(device.Consistent()) ==> device.Consistent()
    {
      if device == null {
        return InvalidArgs;
      }
      device.timeout := timeout as int;
      st := Success;
    }

    /** serial_ftdi_read, with `start` the clock reading taken before the
        loop, `rx` the ftdi_read_data results and `ticks` the clock readings
        taken after each zero-byte result. */
    static method Read(device: FtdiSerial?, size: nat, start: u32, rx: seq<int>, ticks: seq<u32>) returns (r: IoResult)
      ensures device == null ==> r == Returned(InvalidArgs, None)
      ensures device != null ==> r == Transfer.Read(device.timeout, size, start, rx, ticks)
    {
      if device == null {
        return Returned(InvalidArgs, None);
      }
      var timeout := device.timeout;
      if timeout == -1 {
        timeout := Transfer.BlockingReadTimeout;
      }
      var nbytes: nat := 0;
      var i, j := 0, 0;
      assert rx[0..] == rx && ticks[0..] == ticks;
      while nbytes < size
        invariant 0 <= i <= |rx| && 0 <= j <= |ticks| && nbytes <= size
        invariant Transfer.ReadLoop(timeout, size, start, rx[i..], ticks[j..], nbytes)
                  == Transfer.Read(device.timeout, size, start, rx, ticks)
        decreases |rx| - i
      {
        if i == |rx| {
          return Pending;
        }
        var n := rx[i];
        assert rx[i..][1..] == rx[i + 1..];
        i := i + 1;
        if n < 0 {
          if n == Interrupted {
            continue;
          }
          return Returned(IO, None);
        } else if n == 0 {
          if j == |ticks| {
            return Pending;
          }
          var now := ticks[j];
          assert ticks[j..][1..] == ticks[j + 1..];
          j := j + 1;
          if Transfer.Elapsed(start, now) > timeout {
            return Returned(Timeout, None);
          }
        }
        nbytes := nbytes + Transfer.Moved(n, size - nbytes);
      }
      r := Returned(Success, Some(nbytes));
    }

    /** serial_ftdi_write, with `tx` the ftdi_write_data results. */
    static method Write(device: FtdiSerial?, size: nat, tx: seq<int>) returns (r: IoResult)
      ensures device == null ==> r == Returned(InvalidArgs, None)
      ensures device != null ==> r == Transfer.Write(size, tx)
    {
      if device == null {
        return Returned(InvalidArgs, None);
      }
      var nbytes: nat := 0;
      var i := 0;
      assert tx[0..] == tx;
      while nbytes < size
        invariant 0 <= i <= |tx| && nbytes <= size
        invariant Transfer.WriteLoop(size, tx[i..], nbytes) == Transfer.Write(size, tx)
        decreases |tx| - i
      {
        if i == |tx| {
          return Pending;
        }
        var n := tx[i];
        assert tx[i..][1..] == tx[i + 1..];
        i := i + 1;
        if n < 0 {
          if n == Interrupted {
            continue;
          }
          return Returned(IO, None);
        } else if n == 0 {
          break;
        }
        nbytes := nbytes + Transfer.Moved(n, size - nbytes);
      }
      r := Returned(Success, Some(nbytes));
    }

    /** serial_ftdi_purge. */
    static method Purge(device: FtdiSerial?, queue: int, hw: Hardware) returns (st: Status, calls: seq<Call>)
      ensures device == null ==> st == InvalidArgs && calls == []
      ensures device != null ==> calls == [PurgeCall(queue)]
      ensures device != null ==> (st == IO <==> hw(PurgeCall(queue)) != 0)
      ensures device != null ==> (st == Success <==> hw(PurgeCall(queue)) == 0)
    {
      if device == null {
        return InvalidArgs, [];
      }
      var c := PurgeCall(queue);
      calls := [c];
      st := if hw(c) != 0 then IO else Success;
    }

    /** serial_ftdi_set_break: the stored line fields go to the hardware
        together with the break level, and the operation never reports
        success. On a configured handle the raw fields, read as libftdi's
        enumerations, name the very frame configure applied. */
    static method SetBreak(device: FtdiSerial?, level: u32, hw: Hardware) returns (st: Status, calls: seq<Call>)
      ensures device == null ==> st == InvalidArgs && calls == []
      ensures device != null ==>
        calls == [SetLineProperty2(device.databits, device.stopbits, device.parity, level)]
      ensures device != null ==> (st == IO <==> hw(calls[0]) != 0)
      ensures device != null ==> (st == Unsupported <==> hw(calls[0]) == 0)
      ensures st != Success
      ensures device != null && device.Configured() ==>
        var line := LineConfig.LineCall(device.databits, device.parity as int, device.stopbits as int);
        && calls[0].rawBits == BitsCode(line.bits)
        && calls[0].rawStop == StopBitsCode(line.stop)
        && calls[0].rawParity == ParityCode(line.parity)
    {
      if device == null {
        return InvalidArgs, [];
      }
      var c := SetLineProperty2(device.databits, device.stopbits, device.parity, level);
      calls := [c];
      st := if hw(c) != 0 then IO else Unsupported;
    }

    /** serial_ftdi_set_dtr. */
    static method SetDtr(device: FtdiSerial?, value: u32, hw: Hardware) returns (st: Status, calls: seq<Call>)
      ensures device == null ==> st == InvalidArgs && calls == []
      ensures device != null ==> calls == [Call.SetDtr(value)]
      ensures device != null ==> (st == IO <==> hw(Call.SetDtr(value)) != 0)
      ensures device != null ==> (st == Success <==> hw(Call.SetDtr(value)) == 0)
    {
      if device == null {
        return InvalidArgs, [];
      }
      calls := [Call.SetDtr(value)];
      st := if hw(Call.SetDtr(value)) != 0 then IO else Success;
    }

    /** serial_ftdi_set_rts. */
    static method SetRts(device: FtdiSerial?, level: u32, hw: Hardware) returns (st: Status, calls: seq<Call>)
      ensures device == null ==> st == InvalidArgs && calls == []
      ensures device != null ==> calls == [Call.SetRts(level)]
      ensures device != null ==> (st == IO <==> hw(Call.SetRts(level)) != 0)
      ensures device != null ==> (st == Success <==> hw(Call.SetRts(level)) == 0)
    {
      if device == null {
        return InvalidArgs, [];
      }
      calls := [Call.SetRts(level)];
      st := if hw(Call.SetRts(level)) != 0 then IO else Success;
    }

    /** serial_ftdi_get_transmitted: libftdi cannot tell, so a valid handle
        gets Unsupported. */
    static method GetTransmitted(device: FtdiSerial?) returns (st: Status)
      ensures device == null <==> st == InvalidArgs
      ensures device != null <==> st == Unsupported
    {
      st := if device == null then InvalidArgs else Unsupported;
    }
  }

  /** A caller of the transport: after set_timeout(50), a read from a
      device that stays silent times out, however many polls it takes before
      one reads the clock more than 50 ms after the start, and stores nothing
      in `*actual`. */
  method SilentReadAfterSetTimeout(device: FtdiSerial, size: nat, start: u32, rx: seq<int>, ticks: seq<u32>, k: nat)
      returns (r: IoResult)
    requires size > 0
    requires k < |rx| && k < |ticks|
    requires forall i :: 0 <= i <= k ==> rx[i] == 0
    requires Transfer.Elapsed(start, ticks[k]) > 50
    modifies device
    ensures device.timeout == 50
    ensures r == Returned(Timeout, None)
  {
    var st := FtdiSerial.SetTimeout(device, 50);
    r := FtdiSerial.Read(device, size, start, rx, ticks);
    Transfer.ReadSilentDeviceTimesOut(50, size, start, rx, ticks, 0, k);
  }
}
