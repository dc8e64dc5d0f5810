/** The byte-transfer loops of serial_ftdi_read and serial_ftdi_write, as
    reference definitions over a finite script of ftdi_read_data or
    ftdi_write_data results and of clock readings. A script entry is what
    libftdi returns for one call: LIBUSB_ERROR_INTERRUPTED, another negative
    error code, or a byte count. A count above the number of bytes asked for
    is capped at that number, as libftdi never reports more than it was asked
    to move. */
module Transfer {
  import opened Types

  /** The wait that stands in for a blocking read (timeout -1), in ms. */
  const BlockingReadTimeout := 10000

  /** Bytes accounted for by one transfer result n >= 0 when `remaining`
      bytes were asked for. */
  function Moved(n: int, remaining: nat): (m: nat)
    requires n >= 0
    ensures m <= remaining && m <= n
    ensures n > 0 && remaining > 0 ==> m > 0
  {
    if n <= remaining then n else remaining
  }

  /** Milliseconds between two readings of the msec clock, computed as the
      unsigned int subtraction of the C code (it wraps around). */
  function Elapsed(start: u32, now: u32): nat
  {
    (now as int - start as int) % 0x1_0000_0000
  }

  /** The timeout the read loop compares against: the stored one, except that
      the blocking sentinel -1 becomes BlockingReadTimeout. */
  function Deadline(timeout: int): int
  {
    if timeout == -1 then BlockingReadTimeout else timeout
  }

  /** The read loop from the point where `nbytes` bytes have arrived, given
      the remaining transfer results `rx` and the clock readings `ticks` that
      the loop takes after each zero-byte result. */
  function ReadLoop(deadline: int, size: nat, start: u32, rx: seq<int>, ticks: seq<u32>, nbytes: nat): (r: IoResult)
    decreases |rx|
  {
    if nbytes >= size then Returned(Success, Some(nbytes))
    else if rx == [] then Pending
    else if rx[0] < 0 then
      if rx[0] == Interrupted then ReadLoop(deadline, size, start, rx[1..], ticks, nbytes)
      else Returned(IO, None)
    else if rx[0] == 0 then
      if ticks == [] then Pending
      else if Elapsed(start, ticks[0]) > deadline then Returned(Timeout, None)
      else ReadLoop(deadline, size, start, rx[1..], ticks[1..], nbytes)
    else ReadLoop(deadline, size, start, rx[1..], ticks, nbytes + Moved(rx[0], size - nbytes))
  }

  /** serial_ftdi_read on a handle whose stored timeout is `timeout`, with
      `start` the clock reading taken before the loop. */
  function Read(timeout: int, size: nat, start: u32, rx: seq<int>, ticks: seq<u32>): (r: IoResult)
  {
    ReadLoop(Deadline(timeout), size, start, rx, ticks, 0)
  }

  /** The write loop from the point where `nbytes` bytes have been sent. */
  function WriteLoop(size: nat, tx: seq<int>, nbytes: nat): (r: IoResult)
    decreases |tx|
  {
    if nbytes >= size then Returned(Success, Some(nbytes))
    else if tx == [] then Pending
    else if tx[0] < 0 then
      if tx[0] == Interrupted then WriteLoop(size, tx[1..], nbytes)
      else Returned(IO, None)
    else if tx[0] == 0 then Returned(Success, Some(nbytes))
    else WriteLoop(size, tx[1..], nbytes + Moved(tx[0], size - nbytes))
  }

  /** serial_ftdi_write on a non-null handle. */
  function Write(size: nat, tx: seq<int>): (r: IoResult)
  {
    WriteLoop(size, tx, 0)
  }

  /** A script entry that is neither a count nor a retry. */
  predicate HardError(n: int)
  {
    n < 0 && n != Interrupted
  }

  /** The bytes a script offers before its first zero-byte result or hard
      error, interrupted calls contributing nothing. */
  function Offered(script: seq<int>): nat
    decreases |script|
  {
    if script == [] || script[0] == 0 || HardError(script[0]) then 0
    else if script[0] == Interrupted then Offered(script[1..])
    else script[0] + Offered(script[1..])
  }

  /** All the bytes a script's positive counts offer. */
  function Positive(script: seq<int>): nat
    decreases |script|
  {
    if script == [] then 0
    else (if script[0] > 0 then script[0] else 0) + Positive(script[1..])
  }

  /** The number of zero-byte results in a script. */
  function Zeros(script: seq<int>): nat
    decreases |script|
  {
    if script == [] then 0
    else (if script[0] == 0 then 1 else 0) + Zeros(script[1..])
  }

  // ---------------------------------------------------------------- read

  /** A successful read reports exactly the requested number of bytes. */
  lemma {:induction false} ReadSuccessIsFull(deadline: int, size: nat, start: u32, rx: seq<int>, ticks: seq<u32>, nbytes: nat)
    requires nbytes <= size
    ensures ReadLoop(deadline, size, start, rx, ticks, nbytes).Returned? &&
            ReadLoop(deadline, size, start, rx, ticks, nbytes).status == Success ==>
            ReadLoop(deadline, size, start, rx, ticks, nbytes).actual == Some(size)
    ensures ReadLoop(deadline, size, start, rx, ticks, nbytes).Returned? &&
            ReadLoop(deadline, size, start, rx, ticks, nbytes).status != Success ==>
            ReadLoop(deadline, size, start, rx, ticks, nbytes).actual == None
    ensures ReadLoop(deadline, size, start, rx, ticks, nbytes).Returned? ==>
            ReadLoop(deadline, size, start, rx, ticks, nbytes).status in {Success, IO, Timeout}
    decreases |rx|
  {
    if nbytes < size && rx != [] {
      if rx[0] < 0 {
        ReadSuccessIsFull(deadline, size, start, rx[1..], ticks, nbytes);
      } else if rx[0] == 0 {
        if ticks != [] {
          ReadSuccessIsFull(deadline, size, start, rx[1..], ticks[1..], nbytes);
        }
      } else {
        ReadSuccessIsFull(deadline, size, start, rx[1..], ticks, nbytes + Moved(rx[0], size - nbytes));
      }
    }
  }

  /** A read times out only at a clock reading taken more than `deadline` ms
      after the start, and only after a zero-byte result. */
  lemma {:induction false} ReadTimeoutOnlyPastDeadline(deadline: int, size: nat, start: u32, rx: seq<int>, ticks: seq<u32>, nbytes: nat)
    requires ReadLoop(deadline, size, start, rx, ticks, nbytes) == Returned(Timeout, None)
    ensures exists j :: 0 <= j < |ticks| && Elapsed(start, ticks[j]) > deadline
    ensures 0 in rx
    decreases |rx|
  {
    if rx[0] < 0 {
      ReadTimeoutOnlyPastDeadline(deadline, size, start, rx[1..], ticks, nbytes);
      assert rx == [rx[0]] + rx[1..];
    } else if rx[0] == 0 {
      if Elapsed(start, ticks[0]) <= deadline {
        ReadTimeoutOnlyPastDeadline(deadline, size, start, rx[1..], ticks[1..], nbytes);
        var j :| 0 <= j < |ticks[1..]| && Elapsed(start, ticks[1..][j]) > deadline;
        assert Elapsed(start, ticks[j + 1]) > deadline;
      }
    } else {
      ReadTimeoutOnlyPastDeadline(deadline, size, start, rx[1..], ticks, nbytes + Moved(rx[0], size - nbytes));
      assert rx == [rx[0]] + rx[1..];
    }
  }

  /** A read fails with IO only on a script entry that is a hard error. */
  lemma {:induction false} ReadIOOnlyOnHardError(deadline: int, size: nat, start: u32, rx: seq<int>, ticks: seq<u32>, nbytes: nat)
    requires ReadLoop(deadline, size, start, rx, ticks, nbytes) == Returned(IO, None)
    ensures exists i :: 0 <= i < |rx| && HardError(rx[i])
    decreases |rx|
  {
    if !HardError(rx[0]) {
      var ticks' := if rx[0] == 0 then ticks[1..] else ticks;
      var nbytes' := if rx[0] > 0 then nbytes + Moved(rx[0], size - nbytes) else nbytes;
      ReadIOOnlyOnHardError(deadline, size, start, rx[1..], ticks', nbytes');
      var i :| 0 <= i < |rx[1..]| && HardError(rx[1..][i]);
      assert HardError(rx[i + 1]);
    }
  }

  /** A device that never sends data makes the read time out at the first
      clock reading past the deadline (the read never reports a short
      success). */
  lemma {:induction false} ReadSilentDeviceTimesOut(deadline: int, size: nat, start: u32, rx: seq<int>, ticks: seq<u32>, nbytes: nat, k: nat)
    requires nbytes < size
    requires k < |rx| && k < |ticks|
    requires forall i :: 0 <= i <= k ==> rx[i] == 0
    requires Elapsed(start, ticks[k]) > deadline
    ensures ReadLoop(deadline, size, start, rx, ticks, nbytes) == Returned(Timeout, None)
    decreases k
  {
    if Elapsed(start, ticks[0]) <= deadline {
      assert forall i :: 0 <= i <= k - 1 ==> rx[1..][i] == rx[i + 1];
      ReadSilentDeviceTimesOut(deadline, size, start, rx[1..], ticks[1..], nbytes, k - 1);
    }
  }

  /** A device that delivers the requested bytes with no hard error gives a
      successful read of exactly that size, provided each zero-byte poll
      before the data is complete reads the clock within the deadline. */
  lemma {:induction false} ReadCompletes(deadline: int, size: nat, start: u32, rx: seq<int>, ticks: seq<u32>, nbytes: nat)
    requires nbytes <= size
    requires forall i :: 0 <= i < |rx| ==> !HardError(rx[i])
    requires Zeros(rx) <= |ticks|
    requires forall j :: 0 <= j < Zeros(rx) ==> Elapsed(start, ticks[j]) <= deadline
    requires nbytes + Positive(rx) >= size
    ensures ReadLoop(deadline, size, start, rx, ticks, nbytes) == Returned(Success, Some(size))
    decreases |rx|
  {
    if nbytes < size {
      assert rx != [];
      assert forall i :: 0 <= i < |rx[1..]| ==> rx[1..][i] == rx[i + 1];
      if rx[0] < 0 {
        assert Zeros(rx) == Zeros(rx[1..]);
        ReadCompletes(deadline, size, start, rx[1..], ticks, nbytes);
      } else if rx[0] == 0 {
        assert Zeros(rx) == 1 + Zeros(rx[1..]);
        forall j | 0 <= j < Zeros(rx[1..])
          ensures Elapsed(start, ticks[1..][j]) <= deadline
        {
          assert ticks[1..][j] == ticks[j + 1];
        }
        ReadCompletes(deadline, size, start, rx[1..], ticks[1..], nbytes);
      } else {
        assert Zeros(rx) == Zeros(rx[1..]);
        ReadCompletes(deadline, size, start, rx[1..], ticks, nbytes + Moved(rx[0], size - nbytes));
      }
    }
  }

  /** Under the blocking sentinel -1, a device that delivers the requested
      bytes with no hard error, polled only at readings within 10000 ms of
      the start, gives a successful read of exactly that size. */
  lemma BlockingReadCompletes(size: nat, start: u32, rx: seq<int>, ticks: seq<u32>)
    requires forall i :: 0 <= i < |rx| ==> !HardError(rx[i])
    requires Zeros(rx) <= |ticks|
    requires forall j :: 0 <= j < Zeros(rx) ==> Elapsed(start, ticks[j]) <= BlockingReadTimeout
    requires Positive(rx) >= size
    ensures Read(-1, size, start, rx, ticks) == Returned(Success, Some(size))
  {
    ReadCompletes(Deadline(-1), size, start, rx, ticks, 0);
  }

  /** One pass of the read loop on a result that moves no byte: a hard
      error ends the read with IO, an interrupted call is retried without
      reading the clock, and a zero-byte result reads the clock and times out
      only when strictly more than `deadline` ms have gone by. */
  lemma ReadPollStep(deadline: int, size: nat, start: u32, rx: seq<int>, now: u32, ticks: seq<u32>, nbytes: nat)
    requires nbytes < size
    ensures forall e :: HardError(e) ==>
            ReadLoop(deadline, size, start, [e] + rx, [now] + ticks, nbytes) == Returned(IO, None)
    ensures ReadLoop(deadline, size, start, [Interrupted] + rx, [now] + ticks, nbytes)
            == ReadLoop(deadline, size, start, rx, [now] + ticks, nbytes)
    ensures Elapsed(start, now) > deadline ==>
            ReadLoop(deadline, size, start, [0] + rx, [now] + ticks, nbytes) == Returned(Timeout, None)
    ensures Elapsed(start, now) <= deadline ==>
            ReadLoop(deadline, size, start, [0] + rx, [now] + ticks, nbytes)
            == ReadLoop(deadline, size, start, rx, ticks, nbytes)
  {
    assert ([Interrupted] + rx)[1..] == rx;
    assert ([0] + rx)[1..] == rx;
    assert ([now] + ticks)[1..] == ticks;
  }

  /** The stored timeout -1 waits BlockingReadTimeout ms, any other value is
      used as it is; so a read times out only past that wait. */
  lemma ReadTimeoutUsesDeadline(timeout: int, size: nat, start: u32, rx: seq<int>, ticks: seq<u32>)
    requires Read(timeout, size, start, rx, ticks) == Returned(Timeout, None)
    ensures exists j ::
              0 <= j < |ticks| && Elapsed(start, ticks[j]) > (if timeout == -1 then BlockingReadTimeout else timeout)
  {
    ReadTimeoutOnlyPastDeadline(Deadline(timeout), size, start, rx, ticks, 0);
  }

  /** Only -1 stands for blocking: any other negative timeout expires at the
      first zero-byte result, whatever the clock says. */
  lemma ReadOtherNegativeTimeoutExpires(timeout: int, size: nat, start: u32, rx: seq<int>, now: u32, ticks: seq<u32>)
    requires timeout < -1 && size > 0
    ensures Read(timeout, size, start, [0] + rx, [now] + ticks) == Returned(Timeout, None)
  {
  }

  // --------------------------------------------------------------- write

  /** A write never reports more bytes than requested, nor fewer than it had
      sent, and stores a count exactly when it succeeds. */
  lemma {:induction false} WriteReportsAtMostSize(size: nat, tx: seq<int>, nbytes: nat)
    requires nbytes <= size
    ensures WriteLoop(size, tx, nbytes).Returned? && WriteLoop(size, tx, nbytes).status == Success ==>
            WriteLoop(size, tx, nbytes).actual.Some? &&
            nbytes <= WriteLoop(size, tx, nbytes).actual.value <= size
    ensures WriteLoop(size, tx, nbytes).Returned? && WriteLoop(size, tx, nbytes).status != Success ==>
            WriteLoop(size, tx, nbytes) == Returned(IO, None)
    decreases |tx|
  {
    if nbytes < size && tx != [] && tx[0] != 0 && !HardError(tx[0]) {
      var nbytes' := if tx[0] > 0 then nbytes + Moved(tx[0], size - nbytes) else nbytes;
      WriteReportsAtMostSize(size, tx[1..], nbytes');
    }
  }

  /** A write that reports fewer bytes than requested has met a zero-byte
      transfer. */
  lemma {:induction false} WriteShortMeansEndOfStream(size: nat, tx: seq<int>, nbytes: nat)
    requires nbytes <= size
    requires WriteLoop(size, tx, nbytes).Returned? && WriteLoop(size, tx, nbytes).status == Success
    requires WriteLoop(size, tx, nbytes).actual != Some(size)
    ensures 0 in tx
    decreases |tx|
  {
    if tx[0] != 0 {
      var nbytes' := if tx[0] > 0 then nbytes + Moved(tx[0], size - nbytes) else nbytes;
      WriteShortMeansEndOfStream(size, tx[1..], nbytes');
      assert tx == [tx[0]] + tx[1..];
    }
  }

  /** A write fails with IO only on a script entry that is a hard error. */
  lemma {:induction false} WriteIOOnlyOnHardError(size: nat, tx: seq<int>, nbytes: nat)
    requires WriteLoop(size, tx, nbytes) == Returned(IO, None)
    ensures exists i :: 0 <= i < |tx| && HardError(tx[i])
    decreases |tx|
  {
    if !HardError(tx[0]) {
      var nbytes' := if tx[0] > 0 then nbytes + Moved(tx[0], size - nbytes) else nbytes;
      WriteIOOnlyOnHardError(size, tx[1..], nbytes');
      var i :| 0 <= i < |tx[1..]| && HardError(tx[1..][i]);
      assert HardError(tx[i + 1]);
    }
  }

  /** A write stores what the sink accepted: the bytes offered before the
      first zero-byte transfer, capped at the requested size, provided no
      hard error comes first. */
  lemma {:induction false} WriteReportsAccepted(size: nat, tx: seq<int>, nbytes: nat, k: nat)
    requires nbytes <= size
    requires k < |tx| && tx[k] == 0
    requires forall i :: 0 <= i < k ==> tx[i] > 0 || tx[i] == Interrupted
    ensures WriteLoop(size, tx, nbytes) ==
            Returned(Success, Some(if nbytes + Offered(tx) <= size then nbytes + Offered(tx) else size))
    decreases k
  {
    if nbytes < size && k > 0 {
      assert forall i :: 0 <= i < k - 1 ==> tx[1..][i] == tx[i + 1];
      var nbytes' := if tx[0] > 0 then nbytes + Moved(tx[0], size - nbytes) else nbytes;
      WriteReportsAccepted(size, tx[1..], nbytes', k - 1);
    }
  }

  /** One pass of the write loop: a hard error ends the write with IO, an
      interrupted call is retried, a zero-byte transfer ends it with the
      bytes sent so far, and a count adds the bytes it moved. */
  lemma WriteStep(size: nat, tx: seq<int>, nbytes: nat)
    requires nbytes < size
    ensures forall e :: HardError(e) ==> WriteLoop(size, [e] + tx, nbytes) == Returned(IO, None)
    ensures WriteLoop(size, [Interrupted] + tx, nbytes) == WriteLoop(size, tx, nbytes)
    ensures WriteLoop(size, [0] + tx, nbytes) == Returned(Success, Some(nbytes))
    ensures forall n :: n > 0 ==>
            WriteLoop(size, [n] + tx, nbytes) == WriteLoop(size, tx, nbytes + Moved(n, size - nbytes))
  {
    assert ([Interrupted] + tx)[1..] == tx;
    assert forall n :: ([n] + tx)[1..] == tx;
  }

  /** A sink that accepts the requested bytes with no hard error and no
      zero-byte transfer gives a successful write of exactly that size. */
  lemma {:induction false} WriteCompletes(size: nat, tx: seq<int>, nbytes: nat)
    requires nbytes <= size
    requires forall i :: 0 <= i < |tx| ==> tx[i] > 0 || tx[i] == Interrupted
    requires nbytes + Positive(tx) >= size
    ensures WriteLoop(size, tx, nbytes) == Returned(Success, Some(size))
    decreases |tx|
  {
    if nbytes < size {
      assert tx != [];
      assert forall i :: 0 <= i < |tx[1..]| ==> tx[1..][i] == tx[i + 1];
      var nbytes' := if tx[0] > 0 then nbytes + Moved(tx[0], size - nbytes) else nbytes;
      WriteCompletes(size, tx[1..], nbytes');
    }
  }
}
