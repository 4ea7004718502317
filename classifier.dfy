/**
 * The chat classifier of server.py: a chat is a study chat when its
 * lower-cased title contains one of a fixed list of keywords as a substring.
 */
module Classifier {

  /** The study keywords, in the order server.py lists them. */
  const StudyKeywords: seq<string> := [
    "uned",
    "psico",
    "psicología",
    "psicologia",
    "pec",
    "tfg",
    "apuntes",
    "asignaturas",
    "social aplicada",
    "alteración",
    "alteracion",
    "desarrollo",
    "lenguaje"
  ]

  /**
   * Lower-casing of one character, as Python's `str.lower` does it for the
   * ASCII capitals and the Latin-1 capitals (U+00C0 to U+00DE, except the
   * multiplication sign U+00D7); every other character is left alone.
   */
  function LowerChar(c: char): char {
    if 'A' <= c <= 'Z' || ('\U{00C0}' <= c <= '\U{00DE}' && c != '\U{00D7}') then
      (c as int + 32) as char
    else
      c
  }

  /** `s.lower()`, character by character. */
  function Lower(s: string): string {
    seq(|s|, i requires 0 <= i < |s| => LowerChar(s[i]))
  }

  /** `k in t` on Python strings: some position of `t` starts a copy of `k`. */
  function Contains(t: string, k: string): bool
    decreases |t|
  {
    (|k| <= |t| && t[..|k|] == k) || (t != [] && Contains(t[1..], k))
  }

  /** `k` occurs in `t` starting at index `i`. */
  ghost predicate OccursAt(t: string, k: string, i: int) {
    0 <= i && i + |k| <= |t| && t[i..i + |k|] == k
  }

  /** `any(k in t for k in ks)`. */
  function AnyKeyword(t: string, ks: seq<string>): bool {
    ks != [] && (Contains(t, ks[0]) || AnyKeyword(t, ks[1..]))
  }

  /** `is_study_chat(title)`. */
  function IsStudyChat(title: string): bool {
    AnyKeyword(Lower(title), StudyKeywords)
  }

  /** The scanning definition of `Contains` finds exactly the occurrences of `k` in `t`. */
  lemma {:induction false} ContainsIff(t: string, k: string)
    ensures Contains(t, k) <==> exists i :: OccursAt(t, k, i)
    decreases |t|
  {
    if |k| <= |t| && t[..|k|] == k {
      assert OccursAt(t, k, 0);
    }
    if t == [] {
      if exists i :: OccursAt(t, k, i) {
        var i :| OccursAt(t, k, i);
        assert |k| == 0 && t[..|k|] == k;
      }
    } else {
      ContainsIff(t[1..], k);
      if exists i :: OccursAt(t[1..], k, i) {
        var i :| OccursAt(t[1..], k, i);
        assert t[1..][i..i + |k|] == t[i + 1..i + 1 + |k|];
        assert OccursAt(t, k, i + 1);
      }
      if exists i :: OccursAt(t, k, i) {
        var i :| OccursAt(t, k, i);
        if i == 0 {
          assert t[..|k|] == k;
        } else {
          assert t[1..][i - 1..i - 1 + |k|] == t[i..i + |k|];
          assert OccursAt(t[1..], k, i - 1);
        }
      }
    }
  }

  /** `any` over the keyword list holds exactly when some keyword is contained. */
  lemma {:induction false} AnyKeywordIff(t: string, ks: seq<string>)
    ensures AnyKeyword(t, ks) <==> exists j :: 0 <= j < |ks| && Contains(t, ks[j])
  {
    if ks != [] {
      AnyKeywordIff(t, ks[1..]);
      if exists j :: 0 <= j < |ks| && Contains(t, ks[j]) {
        var j :| 0 <= j < |ks| && Contains(t, ks[j]);
        if j > 0 {
          assert ks[1..][j - 1] == ks[j];
        }
      }
      if exists j :: 0 <= j < |ks[1..]| && Contains(t, ks[1..][j]) {
        var j :| 0 <= j < |ks[1..]| && Contains(t, ks[1..][j]);
        assert ks[j + 1] == ks[1..][j];
      }
    }
  }

  /**
   * `is_study_chat(title)` is true exactly when some study keyword occurs,
   * as a substring, somewhere in the lower-cased title.
   */
  lemma IsStudyChatIff(title: string)
    ensures IsStudyChat(title) <==>
      exists j, i :: 0 <= j < |StudyKeywords| && OccursAt(Lower(title), StudyKeywords[j], i)
  {
    var t := Lower(title);
    AnyKeywordIff(t, StudyKeywords);
    forall j | 0 <= j < |StudyKeywords| {
      ContainsIff(t, StudyKeywords[j]);
    }
  }

  /** Lower-casing twice is lower-casing once. */
  lemma LowerIdempotent(s: string)
    ensures Lower(Lower(s)) == Lower(s)
  {
    forall i | 0 <= i < |s|
      ensures Lower(Lower(s))[i] == Lower(s)[i]
    {
      var c := s[i];
      assert LowerChar(LowerChar(c)) == LowerChar(c);
    }
  }

  /** Lower-casing works piecewise on a concatenation. */
  lemma LowerAppend(a: string, b: string)
    ensures Lower(a + b) == Lower(a) + Lower(b)
  {
  }

  /** Classification ignores case: a title and its lower-cased form classify alike. */
  lemma IsStudyChatIgnoresCase(title: string)
    ensures IsStudyChat(Lower(title)) == IsStudyChat(title)
  {
    LowerIdempotent(title);
  }

  /**
   * Matching is substring containment, not word matching: a study title stays
   * a study title whatever text surrounds it.
   */
  lemma StudyTitleInContext(before: string, title: string, after: string)
    requires IsStudyChat(title)
    ensures IsStudyChat(before + title + after)
  {
    IsStudyChatIff(title);
    var j, i :| 0 <= j < |StudyKeywords| && OccursAt(Lower(title), StudyKeywords[j], i);
    var k := StudyKeywords[j];
    LowerAppend(before, title);
    LowerAppend(before + title, after);
    var t := Lower(before + title + after);
    assert t == Lower(before) + Lower(title) + Lower(after);
    assert t[|before| + i..|before| + i + |k|] == Lower(title)[i..i + |k|];
    assert OccursAt(t, k, |before| + i);
    IsStudyChatIff(before + title + after);
  }

  /** Every keyword is already in lower case, the accented ones included. */
  lemma KeywordsAreLowerCase()
    ensures forall j :: 0 <= j < |StudyKeywords| ==> Lower(StudyKeywords[j]) == StudyKeywords[j]
  {
  }

  /** Worked case: a keyword inside a longer word matches. */
  lemma WordPartExample()
    ensures IsStudyChat("Dudas pecuniario")
  {
    var a := "Dudas pecuniario";
    assert Lower(a) == "dudas pecuniario";
    assert OccursAt(Lower(a), StudyKeywords[4], 6);
    IsStudyChatIff(a);
  }

  /** Worked case: capitals, the accented one included, are ignored. */
  lemma CaseExample()
    ensures IsStudyChat("PSICOLOGÍA 2024")
  {
    var b := "PSICOLOGÍA 2024";
    assert Lower(b) == "psicología 2024";
    assert OccursAt(Lower(b), StudyKeywords[2], 0);
    IsStudyChatIff(b);
  }

  /** A string lacking one of the characters of `k` cannot contain `k`. */
  lemma MissingCharNotContained(t: string, k: string, c: char)
    requires c in k && c !in t
    ensures !Contains(t, k)
  {
    ContainsIff(t, k);
  }

  /** A title holding none of the keywords is not a study chat. */
  lemma NonStudyExample()
    ensures !IsStudyChat("Familia")
  {
    var t := "familia";
    assert Lower("Familia") == t;
    // for each keyword, one of its characters that "familia" lacks
    var absent := "uppppttssttde";
    forall j | 0 <= j < |StudyKeywords|
      ensures !Contains(t, StudyKeywords[j])
    {
      MissingCharNotContained(t, StudyKeywords[j], absent[j]);
    }
    AnyKeywordIff(t, StudyKeywords);
  }
}
