/** Whole-word search for classifier terms (internal/classifier/features.go). */
module TermSearch {
  import opened Prelude

  predicate WordByte(c: char) { 'a' <= c <= 'z' || '0' <= c <= '9' || c == '_' }

  predicate HasNonWord(term: string) { exists i :: 0 <= i < |term| && !WordByte(term[i]) }

  /** The term occurs at `i` with a non-word character or the edge of the text on both sides. */
  predicate WholeWordAt(text: string, term: string, i: int) {
    && OccursAt(text, term, i)
    && (i == 0 || !WordByte(text[i - 1]))
    && (i + |term| == |text| || !WordByte(text[i + |term|]))
  }

  /** What the search is for: any occurrence of a term with other characters, a whole-word occurrence of any other. */
  predicate Found(text: string, term: string) {
    && term != ""
    && if HasNonWord(term) then Contains(text, term) else exists i :: 0 <= i <= |text| && WholeWordAt(text, term, i)
  }

  /** The first occurrence at or after `start`, or -1: the library search on the rest of the text. */
  method IndexFrom(text: string, term: string, start: nat) returns (idx: int)
    requires start <= |text|
    ensures idx == -1 ==> forall i :: start <= i ==> !OccursAt(text, term, i)
    ensures idx != -1 ==> start <= idx && OccursAt(text, term, idx) && forall i :: start <= i < idx
                                                                                   ==> !OccursAt(text, term, i)
  {
    idx := start;
    while idx <= |text| - |term|
      invariant start <= idx
      invariant forall i :: start <= i < idx ==> !OccursAt(text, term, i)
    {
      if text[idx..idx + |term|] == term {
        return;
      }
      idx := idx + 1;
    }
    idx := -1;
  }

  /** No whole-word occurrence starts inside another occurrence: what precedes it there is a word character. */
  lemma NoneInside(text: string, term: string, idx: int)
    requires OccursAt(text, term, idx) && !HasNonWord(term)
    ensures forall i :: idx < i < idx + |term| ==> !WholeWordAt(text, term, i)
  {
    forall i | idx < i < idx + |term|
      ensures !WholeWordAt(text, term, i)
    {
      assert text[i - 1] == text[idx..idx + |term|][i - 1 - idx];
      assert text[i - 1] == term[i - 1 - idx];
    }
  }

  /** The search jumps past each rejected occurrence by the whole term, and misses nothing. */
  method ContainsTerm(text: string, term: string) returns (found: bool)
    ensures found <==> Found(text, term)
  {
    if term == "" {
      return false;
    }
    if HasNonWord(term) {
      var idx := IndexFrom(text, term, 0);
      return idx != -1;
    }
    var start := 0;
    while true
      invariant 0 <= start <= |text|
      invariant forall i :: 0 <= i < start ==> !WholeWordAt(text, term, i)
      decreases |text| - start
    {
      var idx := IndexFrom(text, term, start);
      if idx == -1 {
        return false;
      }
      var before := idx == 0 || !WordByte(text[idx - 1]);
      var after := idx + |term| == |text| || !WordByte(text[idx + |term|]);
      if before && after {
        assert WholeWordAt(text, term, idx);
        return true;
      }
      NoneInside(text, term, idx);
      start := idx + |term|;
    }
  }

  method ContainsAnyTerm(text: string, terms: seq<string>) returns (found: bool)
    ensures found <==> exists t :: 0 <= t < |terms| && Found(text, terms[t])
  {
    for t := 0 to |terms|
      invariant forall u :: 0 <= u < t ==> !Found(text, terms[u])
    {
      var hit := ContainsTerm(text, terms[t]);
      if hit {
        return true;
      }
    }
    return false;
  }

  /** A word is made of small letters, digits and underscores. */
  lemma WordsSpelled(c: char)
    ensures WordByte(c) <==> c in "abcdefghijklmnopqrstuvwxyz" || c in "0123456789" || c == '_'
  {
    var letters, digits := "abcdefghijklmnopqrstuvwxyz", "0123456789";
    assert forall k :: 0 <= k < 26 ==> letters[k] as int == 97 + k;
    assert forall k :: 0 <= k < 10 ==> digits[k] as int == 48 + k;
    if 'a' <= c <= 'z' {
      assert letters[c as int - 97] == c;
    }
    if '0' <= c <= '9' {
      assert digits[c as int - 48] == c;
    }
  }

  predicate AllWord(term: string) { forall i :: 0 <= i < |term| ==> WordByte(term[i]) }

  /** No word character touches the term from either side. */
  predicate StandsAlone(before: string, after: string) {
    (before == "" || !WordByte(before[|before| - 1])) && (after == "" || !WordByte(after[0]))
  }

  /** A term of word characters is found where it stands alone in the text, any other wherever it stands. */
  lemma FoundSpelled(text: string, term: string)
    ensures Found(text, term) <==>
            term != "" && (exists before, after :: text == before + term + after
                                                   && (AllWord(term) ==> StandsAlone(before, after)))
  {
    hide WordByte;
    assert HasNonWord(term) <==> !AllWord(term);
    ContainsLaw(text, term);
    if AllWord(term) {
      if i :| 0 <= i <= |text| && WholeWordAt(text, term, i) {
        var before, after := text[..i], text[i + |term|..];
        assert text == before + term + after && StandsAlone(before, after);
      }
      if before, after :| text == before + term + after && StandsAlone(before, after) {
        assert WholeWordAt(text, term, |before|);
      }
    }
  }
}
