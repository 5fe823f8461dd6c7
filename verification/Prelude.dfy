/** Optional values, outcomes and white space, shared by every component of the model. */
module Prelude {

  /** A value that may be absent: the program's nil pointers and comma-ok results. */
  datatype Option<+T> = None | Some(value: T)

  /** A value or an error: the program's (value, error) pairs. */
  datatype Result<+T, +E> = Ok(value: T) | Err(error: E)

  /** White space as the Go library trims it. */
  predicate Space(c: char) {
    var n := c as int;
    || 9 <= n <= 13 || n == 32 || n == 0x85 || n == 0xA0 || n == 0x1680
    || 0x2000 <= n <= 0x200A || n == 0x2028 || n == 0x2029 || n == 0x202F || n == 0x205F || n == 0x3000
  }

  /** Text that trims to nothing. */
  predicate Blank(s: string) {
    forall i :: 0 <= i < |s| ==> Space(s[i])
  }

  /** `part` is found in `text` at position `i`. */
  predicate OccursAt(text: string, part: string, i: int) {
    0 <= i <= |text| - |part| && text[i..i + |part|] == part
  }

  predicate Contains(text: string, part: string) {
    exists i :: 0 <= i <= |text| && OccursAt(text, part, i)
  }

  /** ASCII lower case. */
  function Lower(s: string): (r: string)
    ensures |r| == |s|
  {
    seq(|s|, i requires 0 <= i < |s| => if 'A' <= s[i] <= 'Z' then (s[i] as int + 32) as char else s[i])
  }

  /** To be contained is to stand between two other parts of the text. */
  lemma ContainsLaw(text: string, part: string)
    ensures Contains(text, part) <==> exists before, after :: text == before + part + after
  {
    if Contains(text, part) {
      var i :| 0 <= i <= |text| && OccursAt(text, part, i);
      assert text == text[..i] + part + text[i + |part|..];
    }
    if before, after :| text == before + part + after {
      assert OccursAt(text, part, |before|);
    }
  }

  const CAPITALS := "ABCDEFGHIJKLMNOPQRSTUVWXYZ"
  const SMALL := "abcdefghijklmnopqrstuvwxyz"

  /** Lower case replaces each capital letter by its small one, and nothing else. */
  lemma LowerLaw(s: string, i: nat)
    requires i < |s|
    ensures forall k :: 0 <= k < 26 ==> (s[i] == CAPITALS[k] ==> Lower(s)[i] == SMALL[k])
    ensures s[i] !in CAPITALS ==> Lower(s)[i] == s[i]
  {
    assert |CAPITALS| == 26 && |SMALL| == 26;
    forall k | 0 <= k < 26
      ensures CAPITALS[k] as int == 65 + k && SMALL[k] as int == 97 + k
    {
    }
    if 65 <= s[i] as int <= 90 {
      assert CAPITALS[s[i] as int - 65] == s[i];
    }
  }

  /** A blank, a tab and the line ends are white space; letters, digits and other printable ASCII are not. */
  lemma SpaceLaw(c: char)
    ensures c as int < 128 ==> (Space(c) <==> c in {' ', '\t', '\n', '\U{000B}', '\U{000C}', '\r'})
    ensures c as int >= 128 ==>
              (Space(c) <==> c in {'\U{0085}', '\U{00A0}', '\U{1680}', '\U{2000}', '\U{2001}', '\U{2002}', '\U{2003}',
                                   '\U{2004}', '\U{2005}', '\U{2006}', '\U{2007}', '\U{2008}', '\U{2009}', '\U{200A}',
                                   '\U{2028}', '\U{2029}', '\U{202F}', '\U{205F}', '\U{3000}'})
  {
  }
}
