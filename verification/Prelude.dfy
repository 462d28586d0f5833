/** Failure-free option and result types shared by every module. */
module Prelude {

  datatype Option<+T> = None | Some(value: T)

  datatype Result<+T, +E> = Ok(value: T) | Err(error: E)

  function Max(a: int, b: int): int {
    if a < b then b else a
  }

  function Min(a: int, b: int): int {
    if a < b then a else b
  }

  predicate OccursAt(text: string, part: string, i: int) {
    0 <= i && i + |part| <= |text| && text[i..i + |part|] == part
  }

  /** `part` is a substring of `text`. */
  predicate Occurs(text: string, part: string) {
    exists i :: 0 <= i <= |text| && OccursAt(text, part, i)
  }

  /** Whitespace as `str.strip` understands it. */
  predicate IsBlankChar(c: char) {
    var n := c as int;
    || 0x09 <= n <= 0x0d || 0x1c <= n <= 0x20 || n == 0x85 || n == 0xa0 || n == 0x1680
    || 0x2000 <= n <= 0x200a || n == 0x2028 || n == 0x2029 || n == 0x202f || n == 0x205f || n == 0x3000
  }

  predicate IsBlank(s: string) {
    forall i :: 0 <= i < |s| ==> IsBlankChar(s[i])
  }
}
