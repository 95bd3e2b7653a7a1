/**
 * The white-space table behind `unicode.IsSpace`, checked against the way
 * Go decides it: a fixed list within Latin-1, the White_Space ranges above.
 */
module WhiteSpace {

  import opened GoStrings

  /** The white space within Latin-1, which `unicode.IsSpace` lists by hand. */
  const Latin1Spaces: seq<char> := ['\t', '\n', '\U{000B}', '\U{000C}', '\r', ' ', '\U{0085}', '\U{00A0}']

  /** The characters above Latin-1 with the Unicode White_Space property. */
  const WideSpaces: seq<char> := [
    '\U{1680}',
    '\U{2000}', '\U{2001}', '\U{2002}', '\U{2003}', '\U{2004}', '\U{2005}',
    '\U{2006}', '\U{2007}', '\U{2008}', '\U{2009}', '\U{200A}',
    '\U{2028}', '\U{2029}', '\U{202F}', '\U{205F}', '\U{3000}']

  /** `IsOneOf` is membership. */
  lemma {:induction false} IsOneOfIff(c: char, cs: seq<char>)
    ensures IsOneOf(c, cs) <==> c in cs
  {
    if cs != [] {
      IsOneOfIff(c, cs[1..]);
      assert cs == [cs[0]] + cs[1..];
    }
  }

  /**
   * `IsSpace` as `unicode.IsSpace` decides it: within Latin-1 by a fixed
   * list of eight characters, above it by the White_Space ranges U+1680,
   * U+2000 to U+200A, U+2028 to U+2029, U+202F, U+205F and U+3000.
   */
  lemma IsSpaceCases(c: char)
    ensures c <= '\U{00FF}' ==>
      (IsSpace(c) <==>
        c == '\t' || c == '\n' || c == '\U{000B}' || c == '\U{000C}' ||
        c == '\r' || c == ' ' || c == '\U{0085}' || c == '\U{00A0}')
    ensures c > '\U{00FF}' ==>
      (IsSpace(c) <==>
        c == '\U{1680}' || ('\U{2000}' <= c <= '\U{200A}') || c == '\U{2028}' || c == '\U{2029}' ||
        c == '\U{202F}' || c == '\U{205F}' || c == '\U{3000}')
  {
    assert SpaceChars == Latin1Spaces + WideSpaces;
    IsOneOfIff(c, SpaceChars);
    Latin1SpacesAre(c);
    WideSpacesAre(c);
  }

  /** The eight Latin-1 white-space characters, one by one. */
  lemma Latin1SpacesAre(c: char)
    ensures c in Latin1Spaces <==>
      c == '\t' || c == '\n' || c == '\U{000B}' || c == '\U{000C}' ||
      c == '\r' || c == ' ' || c == '\U{0085}' || c == '\U{00A0}'
  {
  }

  /** The wide white-space characters as the ranges of the White_Space table. */
  lemma WideSpacesAre(c: char)
    ensures c in WideSpaces <==>
      c == '\U{1680}' || ('\U{2000}' <= c <= '\U{200A}') || c == '\U{2028}' || c == '\U{2029}' ||
      c == '\U{202F}' || c == '\U{205F}' || c == '\U{3000}'
  {
    var range := WideSpaces[1..12];
    assert range == ['\U{2000}', '\U{2001}', '\U{2002}', '\U{2003}', '\U{2004}', '\U{2005}',
      '\U{2006}', '\U{2007}', '\U{2008}', '\U{2009}', '\U{200A}'];
    assert WideSpaces == [WideSpaces[0]] + range + WideSpaces[12..];
  }
}
