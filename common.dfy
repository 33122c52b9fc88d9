/** Shared vocabulary of the Safe proposal core: machine integer ranges,
    bytes, fixed-length hashes and signatures, the error kinds the flow
    can surface, and the zero-address sentinel. */
module Common {

  const MinInt64: int := -0x8000_0000_0000_0000
  const MaxInt64: int := 0x7FFF_FFFF_FFFF_FFFF
  const MaxUint64: int := 0xFFFF_FFFF_FFFF_FFFF

  /** Go's int64. */
  type Int64 = x: int | MinInt64 <= x <= MaxInt64

  /** Go's byte (uint8). */
  type Byte = x: int | 0 <= x < 256

  /** A 32-byte value: a Keccak-256 digest or an EIP-712 struct hash. */
  type Hash = s: seq<Byte> | |s| == 32 witness seq(32, i => 0)

  /** A 65-byte recoverable secp256k1 signature r || s || v. */
  type Signature = s: seq<Byte> | |s| == 65 witness seq(65, i => 0)

  /** The zero-address sentinel used for the gas token and the refund receiver. */
  const ZeroAddress: string := "0x0000000000000000000000000000000000000000"

  /** The Safe operation kind "direct call". */
  const CallOperation: int := 0

  datatype Option<+T> = None | Some(value: T)

  datatype Result<+T, +E> = Ok(value: T) | Err(error: E)

  /** Which of strconv's two error values a failed numeric parse carries. */
  datatype NumErrorCause = ErrSyntax | ErrRange

  /** The errors that reach the caller of the proposal flow. The collaborators
      that are not modelled (HTTP, JSON, struct hashing, key parsing, signing)
      may fail with any of these; the modelled code produces the last two. */
  datatype Error =
    | RemoteUnavailable(detail: string)
    | DecodeError(detail: string)
    | TypedDataError(detail: string)
    | SigningError(detail: string)
    | NumericParseError(num: string, cause: NumErrorCause)
    | Rejected(message: string)
}
