/** The Go value types the core works with. */
module GoTypes {

  const MinInt64: int := -0x8000_0000_0000_0000
  const MaxInt64: int := 0x7fff_ffff_ffff_ffff

  /** Go's `int64`, used for tweet and user ids. No arithmetic is done on ids. */
  type Int64 = x: int | MinInt64 <= x <= MaxInt64

  /** Go's `byte`; downloaded media is an opaque `[]byte`. */
  newtype byte = b: int | 0 <= b < 256
  type Bytes = seq<byte>

  /** A Go `error`. Errors produced by collaborators outside the model are `Cause`s;
      `xerrors.Errorf("<context>: %v", err)` and `xerrors.Errorf("<context>: %w", err)`
      become `Wrapped(context, err)`. */
  datatype Error =
    | Cause(message: string)
    | UnknownTweetType(tweetType: int)
    | Wrapped(context: string, inner: Error)
}
