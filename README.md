# FTDI serial transport, modelled in Dafny

This project models the FTDI serial transport of Subsurface's dive-computer
download code (`core/serial_ftdi.c`). The transport makes a USB FTDI bridge
chip look like a byte-oriented serial port for libdivecomputer. It finds the
cable by trying FTDI's vendor id with a fixed list of product ids. It maps
the serial line settings onto libftdi's enumerations. It runs read and write
loops over libftdi's transfer calls: reads wait until a deadline, writes stop
at a zero-byte transfer. It also purges the buffers and sets the break, DTR
and RTS lines.

Layout:

- `types.dfy` (module `Types`): the status codes, the C integer widths
  `u32`/`i32`, the libdivecomputer and libftdi enumerations, and `Call`.
  `Call` records one call the transport makes into libftdi or the C
  allocator.
- `line_config.dfy` (module `LineConfig`): the argument checks and the
  hardware calls of `serial_ftdi_configure`, as the reference function
  `Configure`.
- `discovery.dfy` (module `Discovery`): the product-id scan, as the
  reference function `Discover`.
- `transfer.dfy` (module `Transfer`): the read and write loops as recursive
  reference functions, with the lemmas about them.
- `serial_ftdi.dfy` (module `SerialFtdi`): the class `FtdiSerial`. Its fields
  are those of `ftdi_serial_t`: `timeout`, `baudrate`, `nbits`, `databits`,
  `stopbits` and `parity`. Its static methods are the transport's
  operations. Each method takes the handle as `FtdiSerial?`, just as the C
  code takes `void *io`, so the branches for a NULL handle are part of the
  model. Each method is proved against a reference function, or its contract
  states the result outright.

How the hardware is modelled:

- `hw: Call -> int` gives the code libftdi returns for each call. Each
  result is checked the way the source checks it: `ftdi_set_baudrate`,
  `ftdi_setflowctrl` and `ftdi_usb_close` fail when the result is negative;
  `ftdi_usb_open` is first compared with -3 ("device not found") during the
  scan, and the scan's result then fails when it is negative; the result of
  `ftdi_init` is ignored; every other call fails when its result is nonzero.
- Two booleans say whether `malloc` and `ftdi_new` succeed.
- A finite script of `ftdi_read_data` / `ftdi_write_data` results stands for
  the transfers. An entry can be LIBUSB_ERROR_INTERRUPTED (-10), another
  negative code, 0, or a byte count. A count larger than the number of bytes
  asked for is capped at that number.
- The clock is a first reading `start` plus one reading per zero-byte
  result. Readings are arbitrary 32-bit values. The elapsed time wraps like
  the C code's `unsigned int` subtraction.
- A loop that reaches the end of its script returns `Pending`: at that point
  the C call would still be running.
- Every operation except read and write returns the `Call`s it made. This is
  how the model shows which purge primitive each direction uses, that
  closing a NULL handle makes no call, and what each path frees. Read and
  write return no trace: their `ftdi_read_data` / `ftdi_write_data` calls
  and clock readings are the positions of the script they consume.

The enumeration codes come from the libdivecomputer and libusb headers, which
are not part of this model. They are: parity none 0, odd 1, even 2, mark 3,
space 4; stop bits one 0, one-and-a-half 1, two 2; flow control none 0,
hardware 1, software 2; direction input 1, output 2, all 3. libftdi's own
header, also not part of this model, numbers its enumerations as follows:
`BITS_7` 7, `BITS_8` 8; `STOP_BIT_1` 0, `STOP_BIT_15` 1, `STOP_BIT_2` 2;
parity `NONE` 0, `ODD` 1, `EVEN` 2, `MARK` 3, `SPACE` 4.

In these places the code does something a reader may not expect; the model
follows the code:

- A failed `ftdi_usb_close` makes `serial_ftdi_close` return libftdi's raw
  code instead of a status code (`CloseResult.RawCode`). In that case it frees
  neither the libftdi context nor the handle.
- Every failure in `serial_ftdi_open` after `ftdi_new` frees the handle but
  never the libftdi context (`FtdiFree` is never in the trace).
- `serial_ftdi_set_break` reports IO when the hardware call fails, and
  Unsupported only when it succeeds.
- Only the stored timeout -1 means "block" (a 10000 ms wait). Any other
  negative timeout expires at the first zero-byte result.
- Flow control is checked only after the line properties have been sent to
  the hardware. Configure sends the baud rate before it checks any argument.
- `nbits` adds the stop-bit code, which is 0 for one stop bit, rather than
  the number of stop bits. So 8N1 is stored as 9 bits.

## Model

| member | source | states |
|---|---|---|
| `LineConfig.ConfigureOutcomes` | core/serial_ftdi.c:285-368 | The baud rate is always the first hardware call. The result is Success exactly when every argument is supported and each of the three hardware calls succeeds. It is InvalidArgs exactly when the baud rate was accepted and either the data bits/parity/stop bits are unsupported, or the frame was applied and the flow control is unsupported. Every other case is IO. An unsupported frame stops after the baud-rate call. On success the calls are baud rate, then line property, then flow control. |
| `LineConfig.NBitsOfSupportedFrame` | core/serial_ftdi.c:363 | For every accepted frame, the stored `nbits` is exactly 1 + data bits + stop-bit code + 1 if there is parity. The unsigned sum does not wrap, the value lies between 8 and 12, and 8N1 gives 9. |
| `Discovery.DiscoverIsScan` | core/serial_ftdi.c:147-166 | The scan is an `IsScan`: the claims are made in list order, with vendor 0x0403. Every claim but the last returned -3. The result is the last claim's return code. The scan stops before the end of the list only at a result other than -3. |
| `Discovery.DiscoverUnique` | core/serial_ftdi.c:156-166 | Any claim sequence and result that satisfy `IsScan` are exactly what `Discover` gives. |
| `Discovery.DiscoverNotFound` | core/serial_ftdi.c:156-166 | The scan returns -3 if and only if every candidate returned -3. |
| `Discovery.DiscoverFirstPresent` | core/serial_ftdi.c:156-164 | If the first n candidates are missing and candidate n answers, candidate n's result is returned after n + 1 claims, and no later candidate is tried. |
| `Transfer.ReadSuccessIsFull` | core/serial_ftdi.c:404-427 | A read that returns Success stores exactly the requested size in `*actual`. A read that fails stores nothing. A read returns only Success, IO or Timeout. |
| `Transfer.ReadTimeoutOnlyPastDeadline` | core/serial_ftdi.c:411-415 | A Timeout needs a zero-byte result and a clock reading strictly more than the deadline after the start. |
| `Transfer.ReadIOOnlyOnHardError` | core/serial_ftdi.c:406-410 | An IO result needs a negative transfer result other than "interrupted". |
| `Transfer.ReadSilentDeviceTimesOut` | core/serial_ftdi.c:404-417 | A device that returns only zero-byte results makes the read time out at the first clock reading past the deadline. The read never reports a short success. |
| `Transfer.ReadCompletes` | core/serial_ftdi.c:404-427 | If the script holds no hard error, its positive counts add up to at least the requested bytes, and each of its zero-byte polls reads the clock within the deadline, the read succeeds with exactly the requested size. Zero-byte polls and interrupted calls may come anywhere. |
| `Transfer.BlockingReadCompletes` | core/serial_ftdi.c:396-427 | Under the stored timeout -1, a device that delivers the requested bytes with no hard error, polled only at readings within 10000 ms of the start, gives Success with exactly the requested size. |
| `Transfer.ReadPollStep` | core/serial_ftdi.c:405-419 | A hard error the loop reaches ends the read with IO. An interrupted result is retried without reading the clock. A zero-byte result reads the clock: it times out when the elapsed time is strictly greater than the deadline, and otherwise retries. |
| `Transfer.ReadTimeoutUsesDeadline` | core/serial_ftdi.c:396-415 | A read times out only after 10000 ms when the stored timeout is -1, and only after the stored timeout otherwise. |
| `Transfer.ReadOtherNegativeTimeoutExpires` | core/serial_ftdi.c:396-415 | A stored timeout below -1 is not treated as blocking: the first zero-byte result times out. |
| `Transfer.WriteReportsAtMostSize` | core/serial_ftdi.c:437-458 | A successful write stores a count that is at least the bytes already written and at most the requested size. A write that does not succeed is IO and stores nothing. |
| `Transfer.WriteShortMeansEndOfStream` | core/serial_ftdi.c:446-448 | A write can report fewer bytes than requested only after a zero-byte transfer. |
| `Transfer.WriteIOOnlyOnHardError` | core/serial_ftdi.c:440-445 | An IO result needs a negative transfer result other than "interrupted". |
| `Transfer.WriteStep` | core/serial_ftdi.c:439-451 | A hard error the loop reaches ends the write with IO. An interrupted result is retried. A zero-byte transfer ends the write with Success and the bytes sent so far. A positive count adds the bytes it moved. |
| `Transfer.WriteCompletes` | core/serial_ftdi.c:437-458 | If the sink accepts at least the requested bytes with no hard error and no zero-byte transfer, the write succeeds with exactly the requested size. |
| `Transfer.WriteReportsAccepted` | core/serial_ftdi.c:437-458 | Suppose a zero-byte transfer comes after only positive counts and interrupted results. Then the write succeeds and stores the bytes the sink accepted before it, capped at the requested size. |
| `SerialFtdi.ClaimOutcomes` | core/serial_ftdi.c:206-231 | The hardware steps of open give Success exactly when set-interface succeeds, discovery returns a non-negative code, and reset and purge succeed. Every other case is IO. They never free the handle or the context. |
| `SerialFtdi.OpenOutcomes` | core/serial_ftdi.c:172-238 | The result is NoMemory exactly when malloc or ftdi_new fails. It is Success exactly when set-interface succeeds, discovery returns a non-negative code, and reset and purge succeed. Every other case is IO. The libftdi context is never freed. The handle is freed exactly on the failure paths after it was allocated. |
| `SerialFtdi.PurgeCall` | core/serial_ftdi.c:473-493 | Input purges the transmit buffer. Output purges the receive buffer. Every other code, including "all", resets the device. Each of these is an if-and-only-if. |
| `SerialFtdi.FtdiSerial.OpenDevice` | core/serial_ftdi.c:144-167 | The `for` loop over the product ids returns exactly `Discover`'s result and claims. |
| `SerialFtdi.FtdiSerial.ClaimDevice` | core/serial_ftdi.c:206-231 | The status and calls are those of `ClaimSpec`: each step returns IO at the first call libftdi rejects, and the claims are those of `OpenDevice`. |
| `SerialFtdi.FtdiSerial.Open` | core/serial_ftdi.c:172-238 | The status and calls are those of `OpenSpec`, whose outcomes `OpenOutcomes` states. A handle is handed out exactly on Success. The handle is new, has timeout -1 and all line fields 0. |
| `SerialFtdi.FtdiSerial.Close` | core/serial_ftdi.c:243-266 | A NULL handle gives Success with no call. A failed `ftdi_usb_close` returns its raw code and frees nothing. Otherwise the context and then the handle are freed, and the result is Success. |
| `SerialFtdi.FtdiSerial.Configure` | core/serial_ftdi.c:271-369 | A NULL handle gives InvalidArgs. Otherwise the status and calls are `LineConfig.Configure`'s, whose outcomes `ConfigureOutcomes` states. On Success the handle stores the given baud rate, data bits, stop bits and parity, and `nbits` is the raw sum. On any failure the handle is unchanged. The line-state invariant `Consistent` is preserved. |
| `SerialFtdi.FtdiSerial.SetTimeout` | core/serial_ftdi.c:374-386 | A NULL handle gives InvalidArgs. Otherwise the value is stored as given, the line fields do not change, and the result is Success. |
| `SerialFtdi.FtdiSerial.Read` | core/serial_ftdi.c:388-428 | A NULL handle gives InvalidArgs. Otherwise the `while (nbytes < size)` loop returns exactly the reference read loop's result, with the handle's stored timeout. |
| `SerialFtdi.FtdiSerial.Write` | core/serial_ftdi.c:430-459 | A NULL handle gives InvalidArgs. Otherwise the loop returns exactly the reference write loop's result. |
| `SerialFtdi.FtdiSerial.Purge` | core/serial_ftdi.c:461-496 | A NULL handle gives InvalidArgs. Otherwise the one hardware call is `PurgeCall(queue)`. The result is IO exactly when that call fails, and Success otherwise. |
| `SerialFtdi.FtdiSerial.SetBreak` | core/serial_ftdi.c:498-513 | A NULL handle gives InvalidArgs. Otherwise the stored databits, stopbits and parity go to the hardware together with the level. The result is IO when that call fails and Unsupported when it succeeds. It is never Success. On a handle that configure set up, the raw codes, read as libftdi's enumerations, are the data bits, stop bits and parity of the line-property call configure made. |
| `SerialFtdi.FtdiSerial.SetDtr` | core/serial_ftdi.c:515-530 | A NULL handle gives InvalidArgs. Otherwise there is one DTR call, and the result is IO exactly when it fails, Success otherwise. |
| `SerialFtdi.FtdiSerial.SetRts` | core/serial_ftdi.c:532-547 | A NULL handle gives InvalidArgs. Otherwise there is one RTS call, and the result is IO exactly when it fails, Success otherwise. |
| `SerialFtdi.FtdiSerial.GetTransmitted` | core/serial_ftdi.c:92-99 | A NULL handle gives InvalidArgs. Every other handle gives Unsupported. |
| `SerialFtdi.SilentReadAfterSetTimeout` | core/serial_ftdi.c:383-415 | For a caller: after `set_timeout(50)` the handle stores 50, and a read from a device that returns only zero-byte results times out, with nothing stored, however many polls it takes until one reads the clock more than 50 ms after the start. |

## Left out

- `serial_ftdi_get_available` (core/serial_ftdi.c:76-90): it only passes on a field inside libftdi's own context structure.
- `serial_ftdi_sleep` and `serial_ftdi_get_msec`: platform timers. Time is an abstract sequence of clock readings. The 1 ms sleep inside the read loop has no effect in the model, because its result is ignored.
- `ftdi_open` and `dc_custom_open` (core/serial_ftdi.c:549-576): they bind the callback table to the host framework.
- INFO/ERROR logging and `ftdi_get_error_string`: side effects only.
- The `dc_context_t` and `ftdi_context` pointers in the handle: they are foreign state. Memory handling appears only as the `FreeHandle`/`FtdiFree` entries in the traces.
- SerialFtdi.FtdiSerial.Read: it does not model `nbytes` as a 32-bit `unsigned int`, or the truncation of `size - nbytes` to the `int` parameter of `ftdi_read_data`. Sizes of 2^31 bytes or more are outside the model.
- SerialFtdi.FtdiSerial.Write: the same width limits as Read are not modelled.
- Transfer.Moved: the C loops add each result to `nbytes` as it is (core/serial_ftdi.c:419 and 450). The model caps a result at the bytes still asked for, which assumes libftdi never reports more than it was asked to move. `ReadSuccessIsFull`'s "exactly the requested size" and the upper bound of `WriteReportsAtMostSize` rest on that assumption.
- SerialFtdi.FtdiSerial.Read: the comparison of the elapsed time with the timeout is modelled for a 64-bit `long`. Where `long` is 32 bits, a negative timeout converts differently, and that case is not modelled.
- SerialFtdi.FtdiSerial.Read and SerialFtdi.FtdiSerial.Write: a call that would retry forever (interrupted without end) is seen only up to the end of the finite script, as `Pending`.
