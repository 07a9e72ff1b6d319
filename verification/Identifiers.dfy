/** The character-level validators that the delivery path applies to identifiers.
    A string stands for a Go byte string: one char per byte. */
module Identifiers {

  datatype Option<+T> = None | Some(value: T)

  const MAX_IDENTIFIER_LENGTH := 64

  predicate IsDigit(c: char) { '0' <= c <= '9' }

  predicate IsLower(c: char) { 'a' <= c <= 'z' }

  predicate IsUpper(c: char) { 'A' <= c <= 'Z' }

  predicate IsLowerHex(c: char) { IsDigit(c) || 'a' <= c <= 'f' }

  predicate IsIdentifierChar(c: char) {
    IsDigit(c) || IsLower(c) || IsUpper(c) || c == '.' || c == '_' || c == '-'
  }

  predicate IsErrorCodeChar(c: char) { IsLower(c) || IsDigit(c) || c == '_' }

  /** What a UUID in lower case, of version 1 to 5 and the variant of RFC 4122, has at a position. */
  predicate UUIDCharAt(i: int, c: char) {
    if i == 8 || i == 13 || i == 18 || i == 23 then c == '-'
    else if i == 14 then '1' <= c <= '5'
    else if i == 19 then c == '8' || c == '9' || c == 'a' || c == 'b'
    else IsLowerHex(c)
  }

  /** validBiometricUUID */
  predicate ValidUUID(s: string) {
    |s| == 36 && forall i | 0 <= i < 36 :: UUIDCharAt(i, s[i])
  }

  /** validDeliveryIdentifier: the trimmed form is valid and equals the value itself. */
  predicate ValidIdentifier(s: string) {
    0 < |s| <= MAX_IDENTIFIER_LENGTH && forall i | 0 <= i < |s| :: IsIdentifierChar(s[i])
  }

  /** validBiometricDigest: a lower-case SHA-256 in hexadecimal. */
  predicate ValidDigest(s: string) {
    |s| == 64 && forall i | 0 <= i < |s| :: IsLowerHex(s[i])
  }

  predicate ValidErrorCode(s: string) {
    0 < |s| <= 64 && forall i | 0 <= i < |s| :: IsErrorCodeChar(s[i])
  }
}
