/** ASCII character classes and case mapping used by the name helpers of both crates. */
module Ascii {
  predicate IsUpper(c: char) { 'A' <= c <= 'Z' }
  predicate IsLower(c: char) { 'a' <= c <= 'z' }

  /** ASCII `char::to_lowercase`: upper-case letters map down, everything else is kept. */
  function ToLower(c: char): (r: char)
    ensures IsUpper(c) ==> IsLower(r) && r as int - c as int == 32
    ensures !IsUpper(c) ==> r == c
  {
    if IsUpper(c) then (c as int + 32) as char else c
  }

  /** ASCII `char::to_uppercase`: lower-case letters map up, everything else is kept. */
  function ToUpper(c: char): (r: char)
    ensures IsLower(c) ==> IsUpper(r) && c as int - r as int == 32
    ensures !IsLower(c) ==> r == c
  {
    if IsLower(c) then (c as int - 32) as char else c
  }

  /** Every character of `s` lower-cased, one for one. */
  function LowerAll(s: string): (r: string)
    ensures |r| == |s|
    ensures forall i :: 0 <= i < |s| ==> r[i] == ToLower(s[i])
  {
    if s == [] then [] else [ToLower(s[0])] + LowerAll(s[1..])
  }

  predicate IsAlpha(c: char) { IsUpper(c) || IsLower(c) }
  predicate IsDigit(c: char) { '0' <= c <= '9' }

  /**
   * The ASCII identifiers `proc_macro2::Ident::new` accepts: a non-empty word whose
   * first character is a letter or `_` and whose others are letters, digits or `_`.
   * `Ident::new` also accepts Unicode identifiers (XID_Start followed by
   * XID_Continue characters), which this predicate refuses; it panics on every
   * other string.
   */
  predicate IsIdent(s: string) {
    && |s| > 0
    && (IsAlpha(s[0]) || s[0] == '_')
    && forall i :: 1 <= i < |s| ==> IsAlpha(s[i]) || IsDigit(s[i]) || s[i] == '_'
  }
}
