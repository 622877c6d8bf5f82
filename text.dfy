/** Strings: `String.prototype.toLowerCase` over ASCII letters and
    `String.prototype.includes` as a substring test. */
module Text {

  /** Lower-cases an ASCII capital letter; every other character is left as it is. */
  function LowerChar(c: char): char
  {
    if 'A' <= c <= 'Z' then (c as int + ('a' as int - 'A' as int)) as char else c
  }

  /** The string with every character lower-cased, position by position. */
  function Lower(s: string): (r: string)
    ensures |r| == |s|
    ensures forall i :: 0 <= i < |s| ==> r[i] == LowerChar(s[i])
  {
    if s == [] then [] else [LowerChar(s[0])] + Lower(s[1..])
  }

  /** Lower-casing twice is lower-casing once, so an upper-case query and its lower-case
      form select the same records. */
  lemma LowerIdempotent(s: string)
    ensures Lower(Lower(s)) == Lower(s)
  {
  }

  /** `sub` occurs in `s` starting at position `i`. */
  predicate OccursAt(s: string, sub: string, i: int)
  {
    0 <= i && i + |sub| <= |s| && s[i..i + |sub|] == sub
  }

  /** `s.includes(sub)`: `sub` is a prefix of `s` or of one of its suffixes. The empty
      string is contained in every string, and nothing longer than `s` is. */
  predicate Contains(s: string, sub: string)
    ensures sub == [] ==> Contains(s, sub)
    ensures Contains(s, sub) ==> |sub| <= |s|
  {
    sub <= s || (s != [] && Contains(s[1..], sub))
  }

  /** Where `Contains` holds, `sub` occurs at some position of `s`. */
  lemma {:induction false} ContainsGivesOccurrence(s: string, sub: string) returns (i: int)
    requires Contains(s, sub)
    ensures OccursAt(s, sub, i)
    decreases |s|
  {
    if sub <= s {
      i := 0;
    } else {
      var j := ContainsGivesOccurrence(s[1..], sub);
      assert s[1..][j..j + |sub|] == s[j + 1..j + 1 + |sub|];
      i := j + 1;
    }
  }

  /** An occurrence of `sub` at any position makes `Contains` hold. */
  lemma {:induction false} OccurrenceGivesContains(s: string, sub: string, i: int)
    requires OccursAt(s, sub, i)
    ensures Contains(s, sub)
    decreases i
  {
    if i == 0 {
      assert s[..|sub|] == sub;
    } else {
      assert s[1..][i - 1..i - 1 + |sub|] == s[i..i + |sub|];
      OccurrenceGivesContains(s[1..], sub, i - 1);
    }
  }

  /** `Contains` holds exactly when `sub` occurs at some position of `s`. */
  lemma ContainsIffOccurs(s: string, sub: string)
    ensures Contains(s, sub) <==> exists i :: OccursAt(s, sub, i)
  {
    if Contains(s, sub) {
      var i := ContainsGivesOccurrence(s, sub);
    }
    forall i | OccursAt(s, sub, i)
      ensures Contains(s, sub)
    {
      OccurrenceGivesContains(s, sub, i);
    }
  }

  /** `text.toLowerCase().includes(query.toLowerCase())`. The empty query matches every
      text, and no query longer than the text matches it. */
  predicate MatchesIgnoringCase(text: string, query: string)
    ensures query == "" ==> MatchesIgnoringCase(text, query)
    ensures MatchesIgnoringCase(text, query) ==> |query| <= |text|
  {
    Contains(Lower(text), Lower(query))
  }

  /** The case of the query does not matter: lower-casing it first changes nothing. */
  lemma QueryCaseIrrelevant(text: string, query: string)
    ensures MatchesIgnoringCase(text, Lower(query)) == MatchesIgnoringCase(text, query)
  {
    LowerIdempotent(query);
  }

  /** A worked case: "rio" and "RIO" both match "Copacabana, Rio de Janeiro"; "xyz" does not. */
  lemma CopacabanaExample(place: string, rio: string, upperRio: string, xyz: string)
    requires place == "Copacabana, Rio de Janeiro"
    requires rio == "rio" && upperRio == "RIO" && xyz == "xyz"
    ensures MatchesIgnoringCase(place, rio)
    ensures MatchesIgnoringCase(place, upperRio)
    ensures !MatchesIgnoringCase(place, xyz)
  {
    ExampleMatchesRio(place, rio);
    ExampleMatchesRio(place, upperRio);
    ExampleMissesXyz(place, xyz);
  }

  lemma ExampleMatchesRio(place: string, query: string)
    requires place == "Copacabana, Rio de Janeiro"
    requires query == "rio" || query == "RIO"
    ensures MatchesIgnoringCase(place, query)
  {
    var text, lowered := Lower(place), Lower(query);
    ExampleLowered(place);
    LowerOfQuery(query, "rio");
    ExampleHasRio(text);
    assert Contains(text, lowered);
  }

  lemma ExampleMissesXyz(place: string, query: string)
    requires place == "Copacabana, Rio de Janeiro"
    requires query == "xyz"
    ensures !MatchesIgnoringCase(place, query)
  {
    var text, lowered := Lower(place), Lower(query);
    ExampleLowered(place);
    LowerOfQuery(query, "xyz");
    ExampleLacksXyz(text, lowered);
    assert !Contains(text, lowered);
  }

  lemma ExampleLowered(place: string)
    requires place == "Copacabana, Rio de Janeiro"
    ensures Lower(place) == "copacabana, rio de janeiro"
  {
    LowerOfQuery(place, "copacabana, rio de janeiro");
  }

  lemma ExampleHasRio(text: string)
    requires text == "copacabana, rio de janeiro"
    ensures Contains(text, "rio")
  {
    OccurrenceGivesContains(text, "rio", 12);
  }

  lemma ExampleLacksXyz(text: string, xyz: string)
    requires text == "copacabana, rio de janeiro" && xyz == "xyz"
    ensures !Contains(text, xyz)
  {
    assert 'x' !in text;
    forall i | 0 <= i < |text|
      ensures !OccursAt(text, xyz, i)
    {
      if i + 3 <= |text| {
        assert text[i] == text[i..i + 3][0] && text[i] in text;
      }
    }
    ContainsIffOccurs(text, xyz);
  }

  /** Lower-casing agrees with a given position-by-position lower-casing. */
  lemma LowerOfQuery(q: string, lowered: string)
    requires |q| == |lowered| && forall i :: 0 <= i < |q| ==> LowerChar(q[i]) == lowered[i]
    ensures Lower(q) == lowered
  {
  }
}
