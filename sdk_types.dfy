/** Types and constants shared by the whole model: Go errors, plugin API
    result codes, field types, fixed-width integers. */
module SdkTypes {

  datatype Option<+T> = None | Some(value: T)

  datatype Result<+T, +E> = Ok(value: T) | Err(error: E)

  /** A byte of C or Go memory. */
  newtype byte = x: int | 0 <= x < 256

  const Pow32: int := 0x1_0000_0000
  const Pow64: int := 0x1_0000_0000_0000_0000
  const MaxInt64: int := 0x7FFF_FFFF_FFFF_FFFF
  const MinInt64: int := -0x8000_0000_0000_0000
  const MaxUint64: int := 0xFFFF_FFFF_FFFF_FFFF

  predicate IsInt64(x: int) { MinInt64 <= x <= MaxInt64 }
  predicate IsUint32(x: int) { 0 <= x < Pow32 }
  predicate IsUint64(x: int) { 0 <= x < Pow64 }

  /** Two's-complement wrap-around of an int64 arithmetic result. */
  function WrapInt64(x: int): (r: int)
    ensures IsInt64(r)
    ensures (r - x) % Pow64 == 0
    ensures IsInt64(x) ==> r == x
  {
    var m := (x - MinInt64) % Pow64;
    m + MinInt64
  }

  /** Go error values that the core distinguishes. `None` in an
      `Option<GoError>` is Go's nil error. */
  datatype GoError =
    | IoEOF               // io.EOF
    | ErrEOF              // sdk.ErrEOF
    | ErrTimeout          // sdk.ErrTimeout
    | ErrShortBuffer      // io.ErrShortBuffer
    | ErrShortWrite       // io.ErrShortWrite
    | InvalidOffset(offset: int)
    | InvalidWhence(whence: int)
    | InvalidSize(size: int)
    | InvalidDataSize(size: int)
    | NilBuffer                 // pkg/ptr: nil buffer argument
    | InvalidCapacity(cap: int) // pkg/ptr: negative capacity
    | InvalidLength(len: int)   // pkg/ptr: length outside 0..capacity
    | UserError(id: nat)  // any other error produced by plugin code

  // Result codes of the plugin API (sdk.go:46-57).
  const SSPluginSuccess: int := 0
  const SSPluginFailure: int := 1
  const SSPluginTimeout: int := -1
  const SSPluginIllegalInput: int := 3
  const SSPluginNotFound: int := 4
  const SSPluginInputTooSmall: int := 5
  const SSPluginEOF: int := 6
  const SSPluginUnexpectedBlock: int := 7
  const SSPluginVersionMismatch: int := 8
  const SSPluginNotSupported: int := 9

  // Plugin types (sdk.go:60-63).
  const TypeSourcePlugin: nat := 1
  const TypeExtractorPlugin: nat := 2

  // Field types used by extraction (sdk.go:85-86).
  const ParamTypeUint64: nat := 8
  const ParamTypeCharBuf: nat := 9

  // io.Seeker whence values.
  const SeekStart: int := 0
  const SeekCurrent: int := 1
  const SeekEnd: int := 2
}
