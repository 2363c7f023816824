/**
 * The parts of Go's `strings` package the handlers use: TrimSpace (the
 * blank-path guard of page creation), ToLower (path normalisation) and the
 * store's `begins_with` on the path attribute.
 */
module GoStrings {

  /** Go's unicode.IsSpace: the Latin-1 spaces and the Unicode White_Space characters above them. */
  predicate IsSpace(c: char) {
    || c == '\t' || c == '\n' || c == '\U{B}' || c == '\U{C}' || c == '\r' || c == ' '
    || c == '\U{85}' || c == '\U{A0}' || c == '\U{1680}'
    || ('\U{2000}' <= c <= '\U{200A}')
    || c == '\U{2028}' || c == '\U{2029}' || c == '\U{202F}' || c == '\U{205F}' || c == '\U{3000}'
  }

  /** True when every character of `s` is a space; the empty string is blank. */
  ghost predicate IsBlank(s: string) {
    forall i :: 0 <= i < |s| ==> IsSpace(s[i])
  }

  /** `s` without its leading spaces: the suffix after the longest all-space prefix. */
  function TrimLeftSpace(s: string): (r: string)
    ensures |r| <= |s| && r == s[|s| - |r|..]
    ensures forall i :: 0 <= i < |s| - |r| ==> IsSpace(s[i])
    ensures r == [] || !IsSpace(r[0])
  {
    if s != [] && IsSpace(s[0]) then TrimLeftSpace(s[1..]) else s
  }

  /** `s` without its trailing spaces: the prefix before the longest all-space suffix. */
  function TrimRightSpace(s: string): (r: string)
    ensures |r| <= |s| && r == s[..|r|]
    ensures forall i :: |r| <= i < |s| ==> IsSpace(s[i])
    ensures r == [] || !IsSpace(r[|r| - 1])
  {
    if s != [] && IsSpace(s[|s| - 1]) then TrimRightSpace(s[..|s| - 1]) else s
  }

  /** strings.TrimSpace. */
  function TrimSpace(s: string): string {
    TrimRightSpace(TrimLeftSpace(s))
  }

  /** TrimSpace yields the empty string exactly for blank strings. */
  lemma TrimSpaceEmptyIffBlank(s: string)
    ensures TrimSpace(s) == "" <==> IsBlank(s)
  {
    var l := TrimLeftSpace(s);
    var n := |s| - |l|;
    if !IsBlank(s) {
      var i :| 0 <= i < |s| && !IsSpace(s[i]);
      assert n <= i;
      assert l[i - n] == s[i];
      assert |TrimRightSpace(l)| > i - n;
    }
  }

  /**
   * unicode.ToLower on the upper-case letters of ASCII and Latin-1 (À to Þ,
   * except the multiplication sign); every other character is unchanged.
   */
  function LowerRune(c: char): (r: char)
    ensures !('A' <= r <= 'Z')
    ensures IsSpace(r) <==> IsSpace(c)
  {
    if 'A' <= c <= 'Z' || ('\U{C0}' <= c <= '\U{DE}' && c != '\U{D7}') then
      (c as int + 32) as char
    else
      c
  }

  /** strings.ToLower, rune by rune. */
  function ToLower(s: string): (r: string)
    ensures |r| == |s|
    ensures forall i :: 0 <= i < |s| ==> r[i] == LowerRune(s[i])
  {
    if s == [] then [] else [LowerRune(s[0])] + ToLower(s[1..])
  }

  /** A string that lower-casing leaves as it is. */
  predicate IsLowerCase(s: string) {
    ToLower(s) == s
  }

  /** Lower-casing a lower-cased string changes nothing. */
  lemma {:induction false} ToLowerIdempotent(s: string)
    ensures ToLower(ToLower(s)) == ToLower(s)
    ensures IsLowerCase(ToLower(s))
  {
    if s != [] {
      ToLowerIdempotent(s[1..]);
      assert ToLower(s) == [LowerRune(s[0])] + ToLower(s[1..]);
      assert ToLower(s)[1..] == ToLower(s[1..]);
    }
  }

  /** Lower-casing keeps blankness, so it cannot turn a rejected path into an accepted one. */
  lemma ToLowerKeepsBlank(s: string)
    ensures IsBlank(ToLower(s)) <==> IsBlank(s)
  {
    var r := ToLower(s);
    if IsBlank(r) {
      forall i | 0 <= i < |s| ensures IsSpace(s[i]) {
        assert r[i] == LowerRune(s[i]);
      }
    }
  }

  /** The store's `begins_with(path, prefix)`: a raw prefix test, with no separator added. */
  predicate BeginsWith(s: string, prefix: string) {
    prefix <= s
  }
}
