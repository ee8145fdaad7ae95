/** Go strings and byte slices.

    A Go `string` is an immutable sequence of bytes. The model writes it as a
    Dafny `string` with one character per byte, so every character of a string
    that a Go program can hold is below 256 (`IsByteString`). A `[]byte` is a
    `seq<byte>`. */
module GoText {

  type byte = bv8

  /** Every character stands for one byte. */
  predicate IsByteString(s: string) {
    forall i :: 0 <= i < |s| ==> s[i] as int < 256
  }

  /** The conversion `[]byte(s)`, and the bytes that `fmt`'s `%s` verb writes
      for a string argument. */
  function ToBytes(s: string): (b: seq<byte>)
    ensures |b| == |s|
    ensures forall i :: 0 <= i < |s| && s[i] as int < 256 ==> b[i] as int == s[i] as int
  {
    seq(|s|, i requires 0 <= i < |s| => (s[i] as int % 256) as byte)
  }

  /** The conversion `string(b)`. */
  function FromBytes(b: seq<byte>): (s: string)
    ensures |s| == |b| && IsByteString(s)
    ensures forall i :: 0 <= i < |b| ==> s[i] as int == b[i] as int
  {
    seq(|b|, i requires 0 <= i < |b| => b[i] as int as char)
  }

  /** Converting bytes to a string and back loses nothing. */
  lemma BytesRoundTrip(b: seq<byte>)
    ensures ToBytes(FromBytes(b)) == b
  {
  }

  /** A Go string converted to bytes and back is the same string. */
  lemma StringRoundTrip(s: string)
    requires IsByteString(s)
    ensures FromBytes(ToBytes(s)) == s
  {
  }

  /** Converting bytes to a string converts each part of a concatenation. */
  lemma FromBytesAppend(a: seq<byte>, b: seq<byte>)
    ensures FromBytes(a + b) == FromBytes(a) + FromBytes(b)
  {
  }

  /** `strings.HasPrefix(s, prefix)`. */
  predicate HasPrefix(s: string, prefix: string) {
    |prefix| <= |s| && s[..|prefix|] == prefix
  }
}
