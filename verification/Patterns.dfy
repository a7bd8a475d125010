/** The full-match patterns that identifiers, commits and digests have to satisfy. */
module Patterns {

  import opened Decimal

  predicate LowerHex(c: char) { Digit(c) || 'a' <= c <= 'f' }

  predicate Alphanumeric(c: char) { Digit(c) || 'a' <= c <= 'z' || 'A' <= c <= 'Z' }

  /** [0-9a-f]{64} */
  predicate Sha256(s: string) { |s| == 64 && forall c | c in s :: LowerHex(c) }

  type HexDigest = s: string | Sha256(s) witness seq(64, _ => '0')

  /** [0-9a-f]{40} or [0-9a-f]{64} */
  predicate Commit(s: string) { (|s| == 40 || |s| == 64) && forall c | c in s :: LowerHex(c) }

  /** An alphanumeric character followed by at most 127 alphanumerics, underscores, dots or hyphens. */
  predicate Identifier(s: string) {
    1 <= |s| <= 128 && Alphanumeric(s[0]) && forall c | c in s[1..] :: Alphanumeric(c) || c in "_.-"
  }

  /** An identifier followed by a fixed extension. */
  predicate Filename(s: string, extension: string) {
    |extension| <= |s| && s[|s| - |extension|..] == extension && Identifier(s[..|s| - |extension|])
  }

  /** An alphanumeric character followed by 2 to 127 characters of an opaque reference. */
  predicate ApprovalReference(s: string) {
    3 <= |s| <= 128 && Alphanumeric(s[0]) && forall c | c in s[1..] :: Alphanumeric(c) || c in ":._/-"
  }

  /** 8 to 500 characters, none of them a control character below U+0020. */
  predicate Reason(s: string) { 8 <= |s| <= 500 && forall c | c in s :: c >= ' ' }
}
