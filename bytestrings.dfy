/** Bytes, byte strings and the small helpers the checker uses on them. */
module ByteStrings {

  /** A byte of the input. It is written as the character with that code, so
      that the checker's literals (`'{'`, `"\\start"`) read as they do in Go. */
  type Byte = c: char | c as int < 256

  /** A Go `[]byte` or `string`: both are compared by contents. */
  type Bytes = seq<Byte>

  datatype Option<+T> = None | Some(value: T)

  /** `bytes.HasPrefix(s, prefix)` */
  predicate HasPrefix(s: Bytes, prefix: Bytes) {
    |prefix| <= |s| && s[..|prefix|] == prefix
  }

  /** The bytes of a token sequence written one after the other. */
  function Concat(tokens: seq<Bytes>): Bytes {
    if tokens == [] then [] else tokens[0] + Concat(tokens[1..])
  }

  /** Every token holds at least one byte. */
  predicate NonEmpty(tokens: seq<Bytes>) {
    forall k :: 0 <= k < |tokens| ==> |tokens[k]| > 0
  }

  function Min(a: nat, b: nat): nat {
    if a <= b then a else b
  }
}
