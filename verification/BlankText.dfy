/** Which characters trimming removes, and which texts it empties. */
module BlankText {
  import opened Text

  /** White space and line terminators as listed in sections 12.2 and 12.3 of ECMA-262. */
  lemma SpacesAre(c: char)
    ensures IsSpace(c) <==> c as int in [
      0x0009, 0x000A, 0x000B, 0x000C, 0x000D, 0x0020, 0x00A0, 0x1680, 0x2000, 0x2001, 0x2002, 0x2003, 0x2004, 0x2005,
      0x2006, 0x2007, 0x2008, 0x2009, 0x200A, 0x2028, 0x2029, 0x202F, 0x205F, 0x3000, 0xFEFF]
  {
  }

  /** Trimming leaves nothing exactly of blank text. */
  lemma TrimEmptiesBlank(s: string)
    ensures Trim(s) == "" <==> Blank(s)
  {
    StartIsBlank(s);
    EndIsBlank(TrimStart(s));
  }

  lemma {:induction false} StartIsBlank(s: string)
    ensures Blank(TrimStart(s)) <==> Blank(s)
  {
    if s != "" && IsSpace(s[0]) {
      StartIsBlank(s[1..]);
      assert s == [s[0]] + s[1..];
    }
  }

  lemma {:induction false} EndIsBlank(s: string)
    ensures TrimEnd(s) == "" <==> Blank(s)
  {
    if s != "" && IsSpace(s[|s| - 1]) {
      EndIsBlank(s[..|s| - 1]);
      assert s == s[..|s| - 1] + [s[|s| - 1]];
    }
  }
}
