/** Values shared by the FTDI serial transport: the status codes it reports,
    the C integer widths it uses, the libdivecomputer enumeration codes it
    receives, the libftdi enumerations it passes on, and the calls it makes
    across its boundary (into libftdi and into the C allocator). */
module Types {

  datatype Option<+T> = None | Some(value: T)

  /** `unsigned int` and `int` of the C source. */
  newtype u32 = x: int | 0 <= x < 0x1_0000_0000
  newtype i32 = x: int | -0x8000_0000 <= x < 0x8000_0000

  /** The dc_status_t codes this transport returns. */
  datatype Status = Success | InvalidArgs | NoMemory | IO | Timeout | Unsupported

  /** dc_parity_t */
  const ParityNone := 0
  const ParityOdd := 1
  const ParityEven := 2
  const ParityMark := 3
  const ParitySpace := 4

  /** dc_stopbits_t */
  const StopBitsOne := 0
  const StopBitsOnePointFive := 1
  const StopBitsTwo := 2

  /** dc_flowcontrol_t */
  const FlowNone := 0
  const FlowHardware := 1
  const FlowSoftware := 2

  /** dc_direction_t */
  const DirectionInput := 1
  const DirectionOutput := 2
  const DirectionAll := 3

  /** LIBUSB_ERROR_INTERRUPTED: a transfer that should simply be retried. */
  const Interrupted := -10

  /** The libftdi line-property enumerations. */
  datatype BitsType = Bits7 | Bits8
  datatype StopBitsType = StopBit1 | StopBit15 | StopBit2
  datatype ParityType = NoParity | OddParity | EvenParity | MarkParity | SpaceParity
  datatype FlowCtrl = DisableFlowCtrl | RtsCtsHs | DtrDsrHs | XonXoffHs

  /** The numbers libftdi gives its line-property enumerations, which is how
      ftdi_set_line_property2 reads the raw codes it is passed. */
  function BitsCode(b: BitsType): u32
  {
    match b
    case Bits7 => 7
    case Bits8 => 8
  }

  function StopBitsCode(s: StopBitsType): u32
  {
    match s
    case StopBit1 => 0
    case StopBit15 => 1
    case StopBit2 => 2
  }

  function ParityCode(p: ParityType): u32
  {
    match p
    case NoParity => 0
    case OddParity => 1
    case EvenParity => 2
    case MarkParity => 3
    case SpaceParity => 4
  }

  /** One call the transport makes across its boundary. The allocator calls
      are kept so that what each path releases can be read off the trace. */
  datatype Call =
    | AllocHandle                       // malloc of the handle
    | FreeHandle                        // free of the handle
    | FtdiNew
    | FtdiInit
    | FtdiFree
    | SetInterfaceAny
    | UsbOpen(vendor: int, product: int)
    | UsbReset
    | PurgeBuffers
    | UsbClose
    | SetBaudrate(baud: u32)
    | SetLineProperty(bits: BitsType, stop: StopBitsType, parity: ParityType)
    | SetFlowCtrl(flow: FlowCtrl)
    | PurgeTxBuffer
    | PurgeRxBuffer
    | SetLineProperty2(rawBits: u32, rawStop: u32, rawParity: u32, level: u32)
    | SetDtr(value: u32)
    | SetRts(level: u32)

  /** The hardware as seen by the transport: the code libftdi returns for
      each call. */
  type Hardware = Call -> int

  /** What a read or write call returns: a status and the value it stores in
      `*actual` (if any), or Pending when the scripted hardware behaviour ran
      out before the call returned. */
  datatype IoResult = Returned(status: Status, actual: Option<nat>) | Pending
}
