/** The few pieces of java.lang the handler relies on. */
module JavaLang {

  /** Java's `int`. */
  newtype int32 = x: int | -0x8000_0000 <= x < 0x8000_0000

  /** `String.trim` removes every leading and trailing character at or below U+0020. */
  predicate IsTrimmed(c: char) {
    c <= ' '
  }

  /** The string without its leading trimmable characters. */
  function TrimLeading(s: string): (r: string)
    ensures |r| <= |s| && r == s[|s| - |r|..]
    ensures forall i :: 0 <= i < |s| - |r| ==> IsTrimmed(s[i])
    ensures r != [] ==> !IsTrimmed(r[0])
  {
    if s != [] && IsTrimmed(s[0]) then TrimLeading(s[1..]) else s
  }

  /** The string without its trailing trimmable characters. */
  function TrimTrailing(s: string): (r: string)
    ensures |r| <= |s| && r == s[..|r|]
    ensures forall i :: |r| <= i < |s| ==> IsTrimmed(s[i])
    ensures r != [] ==> !IsTrimmed(r[|r| - 1])
  {
    if s != [] && IsTrimmed(s[|s| - 1]) then TrimTrailing(s[..|s| - 1]) else s
  }

  /** `s.trim()`: leading characters go first, then trailing ones. */
  function Trim(s: string): string {
    TrimTrailing(TrimLeading(s))
  }

  /** `s.trim().length() == 0`. */
  predicate IsBlank(s: string) {
    |Trim(s)| == 0
  }

  /** A string trims to nothing exactly when every one of its characters is trimmable. */
  lemma BlankIffAllTrimmed(s: string)
    ensures IsBlank(s) <==> forall i :: 0 <= i < |s| ==> IsTrimmed(s[i])
  {
  }
}
