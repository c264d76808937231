/** Text operations the translation pipeline relies on. */
module Texts {

  /** The code points `str.strip` removes: every Unicode whitespace character. */
  predicate IsSpace(c: char) {
    var n := c as int;
    || 0x9 <= n <= 0xd || 0x1c <= n <= 0x20
    || n == 0x85 || n == 0xa0 || n == 0x1680
    || 0x2000 <= n <= 0x200a || n == 0x2028 || n == 0x2029
    || n == 0x202f || n == 0x205f || n == 0x3000
  }

  function StripLeft(s: string): (r: string) {
    if s != [] && IsSpace(s[0]) then StripLeft(s[1..]) else s
  }

  function StripRight(s: string): (r: string) {
    if s != [] && IsSpace(s[|s| - 1]) then StripRight(s[..|s| - 1]) else s
  }

  function Strip(s: string): (r: string) {
    StripRight(StripLeft(s))
  }

  /** Nothing is left once the text is stripped. */
  predicate Blank(s: string) {
    Strip(s) == []
  }

  lemma {:induction false} StripRightKeepsHead(s: string)
    ensures StripRight(s) != [] ==> s != [] && StripRight(s)[0] == s[0]
  {
    if s != [] && IsSpace(s[|s| - 1]) {
      StripRightKeepsHead(s[..|s| - 1]);
    }
  }

  lemma {:induction false} StripLeftTrimmed(s: string)
    ensures StripLeft(s) != [] ==> !IsSpace(StripLeft(s)[0])
  {
    if s != [] && IsSpace(s[0]) {
      StripLeftTrimmed(s[1..]);
    }
  }

  lemma {:induction false} StripRightTrimmed(s: string)
    ensures var r := StripRight(s); r != [] ==> !IsSpace(r[|r| - 1])
  {
    if s != [] && IsSpace(s[|s| - 1]) {
      StripRightTrimmed(s[..|s| - 1]);
    }
  }

  /** Stripping twice is stripping once, so a cache key computed from stripped text is stable. */
  lemma StripIdempotent(s: string)
    ensures Strip(Strip(s)) == Strip(s)
  {
    var r := Strip(s);
    StripLeftTrimmed(s);
    StripRightKeepsHead(StripLeft(s));
    StripRightTrimmed(StripLeft(s));
    assert StripLeft(r) == r;
  }

  /** Bytes of `s` in UTF-8. */
  function Utf8Length(s: string): nat {
    if s == [] then 0 else
    var n := s[0] as int;
    (if n < 0x80 then 1 else if n < 0x800 then 2 else if n < 0x10000 then 3 else 4) + Utf8Length(s[1..])
  }
}
