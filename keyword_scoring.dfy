/**
  The keyword scorer of CVController: 20 points for every keyword of a list
  that occurs, case-insensitively, as a substring of the CV text, capped at
  100; and the relevance score, which runs the same scorer over the skill
  list followed by three role words.
*/
module KeywordScoring {
  import opened PhpStrings
  import opened PhpMath

  const SkillKeywords: seq<string> := ["php", "laravel", "javascript", "html", "css", "mysql"]
  const SoftSkillKeywords: seq<string> := ["teamwork", "communication", "leadership", "problem solving"]
  const EducationKeywords: seq<string> := ["bachelor", "master", "phd", "degree", "university"]
  const RoleKeywords: seq<string> := ["developer", "software", "web"]
  /** `array_merge` of two lists: plain concatenation, nothing is de-duplicated. */
  const RelevantKeywords: seq<string> := SkillKeywords + RoleKeywords

  const KeywordPoints := 20
  const MaxScore := 100

  /** The keyword occurs in the text once both are lower-cased. */
  predicate Matches(text: string, keyword: string) {
    Contains(Lower(text), Lower(keyword))
  }

  /** How many entries of the list match the text; an entry listed twice counts twice. */
  function MatchCount(text: string, keywords: seq<string>): (n: nat)
    ensures n <= |keywords|
    decreases |keywords|
  {
    if keywords == [] then 0
    else MatchCount(text, keywords[..|keywords| - 1]) + (if Matches(text, keywords[|keywords| - 1]) then 1 else 0)
  }

  /** The positions of the list whose keyword matches the text. */
  function MatchedPositions(text: string, keywords: seq<string>): set<nat> {
    set j: nat | j < |keywords| && Matches(text, keywords[j])
  }

  /** The score of a text against a keyword list: a multiple of 20, at most 100 and at most 20 per entry. */
  function Score(text: string, keywords: seq<string>): (r: int)
    ensures 0 <= r <= MaxScore && r % KeywordPoints == 0
    ensures r <= KeywordPoints * |keywords|
  {
    Min(KeywordPoints * MatchCount(text, keywords), MaxScore)
  }

  /** calculateScore: walks the list, adding 20 for every keyword found, then caps at 100. */
  method CalculateScore(text: string, keywords: seq<string>) returns (score: int)
    ensures score == Score(text, keywords)
    ensures 0 <= score <= MaxScore && score % KeywordPoints == 0
  {
    score := 0;
    var lowered := Lower(text);
    for i := 0 to |keywords|
      invariant score == KeywordPoints * MatchCount(text, keywords[..i])
    {
      assert keywords[..i + 1][..i] == keywords[..i];
      if Contains(lowered, Lower(keywords[i])) {
        score := score + KeywordPoints;
      }
    }
    assert keywords[..|keywords|] == keywords;
    score := Min(score, MaxScore);
  }

  /** calculateRelevantExperience: the scorer over the skill list followed by the role words. */
  method CalculateRelevantExperience(text: string) returns (score: int)
    ensures score == Score(text, RelevantKeywords)
    ensures Score(text, SkillKeywords) <= score
  {
    score := CalculateScore(text, SkillKeywords + RoleKeywords);
    RelevanceAtLeastSkill(text);
  }

  /** The recursive count is the number of matching positions. */
  lemma {:induction false} MatchCountIsMatchedPositions(text: string, keywords: seq<string>)
    ensures MatchCount(text, keywords) == |MatchedPositions(text, keywords)|
    decreases |keywords|
  {
    if keywords != [] {
      var n := |keywords| - 1;
      var init := keywords[..n];
      MatchCountIsMatchedPositions(text, init);
      var before := MatchedPositions(text, init);
      var last: set<nat> := if Matches(text, keywords[n]) then {n} else {};
      assert MatchedPositions(text, keywords) == before + last by {
        forall j: nat | j < n
          ensures keywords[j] == init[j]
        {
        }
      }
      assert n !in before;
    }
  }

  /** The score is 20 times the number of matching positions, capped at 100. */
  lemma ScoreIsCappedMatchTotal(text: string, keywords: seq<string>)
    ensures Score(text, keywords) == Min(KeywordPoints * |MatchedPositions(text, keywords)|, MaxScore)
  {
    MatchCountIsMatchedPositions(text, keywords);
  }

  /** Counting over a concatenated list adds the counts of the two parts. */
  lemma {:induction false} MatchCountAppend(text: string, a: seq<string>, b: seq<string>)
    ensures MatchCount(text, a + b) == MatchCount(text, a) + MatchCount(text, b)
    decreases |b|
  {
    if b == [] {
      assert a + b == a;
    } else {
      var n := |b| - 1;
      MatchCountAppend(text, a, b[..n]);
      assert (a + b)[..|a + b| - 1] == a + b[..n];
    }
  }

  /** Appending keywords to a list never lowers its score. */
  lemma ScoreGrowsWithList(text: string, a: seq<string>, b: seq<string>)
    ensures Score(text, a) <= Score(text, a + b)
  {
    MatchCountAppend(text, a, b);
  }

  /** The relevance score is never below the skill score. */
  lemma RelevanceAtLeastSkill(text: string)
    ensures Score(text, SkillKeywords) <= Score(text, RelevantKeywords)
  {
    ScoreGrowsWithList(text, SkillKeywords, RoleKeywords);
  }

  /** The empty text scores 0 exactly when no entry of the list is the empty string. */
  lemma {:induction false} EmptyTextScore(keywords: seq<string>)
    ensures Score("", keywords) == 0 <==> forall j :: 0 <= j < |keywords| ==> keywords[j] != ""
    decreases |keywords|
  {
    if keywords != [] {
      var n := |keywords| - 1;
      var init := keywords[..n];
      EmptyTextScore(init);
      MatchCountAppend("", init, [keywords[n]]);
      assert init + [keywords[n]] == keywords;
      ContainsInEmpty(Lower(keywords[n]));
      assert Lower("") == "";
      forall j | 0 <= j < n
        ensures init[j] == keywords[j]
      {
      }
    }
  }

  /** No fixed list of the controller holds the empty string, so the empty text scores 0 against each. */
  lemma FixedListsScoreZeroOnEmptyText()
    ensures Score("", SkillKeywords) == 0
    ensures Score("", SoftSkillKeywords) == 0
    ensures Score("", EducationKeywords) == 0
    ensures Score("", RelevantKeywords) == 0
  {
    EmptyTextScore(SkillKeywords);
    EmptyTextScore(SoftSkillKeywords);
    EmptyTextScore(EducationKeywords);
    EmptyTextScore(RelevantKeywords);
  }

  /** The concatenated relevance list happens to hold no keyword twice. */
  lemma RelevantKeywordsDistinct()
    ensures forall i, j :: 0 <= i < j < |RelevantKeywords| ==> RelevantKeywords[i] != RelevantKeywords[j]
  {
  }

  /** Counting over a list that starts with k. */
  lemma MatchCountCons(text: string, k: string, keywords: seq<string>)
    ensures MatchCount(text, [k] + keywords) == (if Matches(text, k) then 1 else 0) + MatchCount(text, keywords)
  {
    MatchCountAppend(text, [k], keywords);
    assert [k][..0] == [];
  }

  /** The skill list's count is the sum over its six keywords. */
  lemma SkillMatchCount(text: string)
    ensures MatchCount(text, SkillKeywords) ==
      (if Matches(text, "php") then 1 else 0) + (if Matches(text, "laravel") then 1 else 0) +
      (if Matches(text, "javascript") then 1 else 0) + (if Matches(text, "html") then 1 else 0) +
      (if Matches(text, "css") then 1 else 0) + (if Matches(text, "mysql") then 1 else 0)
  {
    var l6: seq<string> := ["mysql"];
    var l5 := ["css"] + l6;
    var l4 := ["html"] + l5;
    var l3 := ["javascript"] + l4;
    var l2 := ["laravel"] + l3;
    MatchCountCons(text, "mysql", []);
    assert ["mysql"] + [] == l6;
    MatchCountCons(text, "css", l6);
    MatchCountCons(text, "html", l5);
    MatchCountCons(text, "javascript", l4);
    MatchCountCons(text, "laravel", l3);
    MatchCountCons(text, "php", l2);
    assert ["php"] + l2 == SkillKeywords;
  }

  /** The role words' count is the sum over its three keywords. */
  lemma RoleMatchCount(text: string)
    ensures MatchCount(text, RoleKeywords) ==
      (if Matches(text, "developer") then 1 else 0) + (if Matches(text, "software") then 1 else 0) +
      (if Matches(text, "web") then 1 else 0)
  {
    var l3: seq<string> := ["web"];
    var l2 := ["software"] + l3;
    MatchCountCons(text, "web", []);
    assert ["web"] + [] == l3;
    MatchCountCons(text, "software", l3);
    MatchCountCons(text, "developer", l2);
    assert ["developer"] + l2 == RoleKeywords;
  }

  const ThreeSkillsText := "PHP, Laravel, JavaScript"

  const ThreeSkillsLowered := "php, laravel, javascript"

  lemma ThreeSkillsLowerCase()
    ensures Lower(ThreeSkillsText) == ThreeSkillsLowered
  {
  }

  /** The nine keywords the example is scored against are lower-case already. */
  lemma ExampleKeywordsLowerCase()
    ensures Lower("php") == "php" && Lower("laravel") == "laravel" && Lower("javascript") == "javascript"
    ensures Lower("html") == "html" && Lower("css") == "css" && Lower("mysql") == "mysql"
    ensures Lower("developer") == "developer" && Lower("software") == "software" && Lower("web") == "web"
  {
  }

  /** The lower-cased example text holds php, laravel and javascript. */
  lemma ThreeSkillsFound()
    ensures Contains(ThreeSkillsLowered, "php") && Contains(ThreeSkillsLowered, "laravel")
    ensures Contains(ThreeSkillsLowered, "javascript")
  {
    ContainsWhereOccurs(ThreeSkillsLowered, "php", 0);
    ContainsWhereOccurs(ThreeSkillsLowered, "laravel", 5);
    ContainsWhereOccurs(ThreeSkillsLowered, "javascript", 14);
  }

  /** The lower-cased example text holds none of html, css, mysql. */
  lemma NoHtml()
    ensures !Contains(ThreeSkillsLowered, "html")
  {
    NotContainedWithoutOpeningPair(ThreeSkillsLowered, "html");
  }

  lemma NoCss()
    ensures !Contains(ThreeSkillsLowered, "css")
  {
    NotContainedWithoutOpeningPair(ThreeSkillsLowered, "css");
  }

  lemma NoMysql()
    ensures !Contains(ThreeSkillsLowered, "mysql")
  {
    NotContainedWithoutOpeningPair(ThreeSkillsLowered, "mysql");
  }

  /** The lower-cased example text holds none of the role words. */
  lemma NoDeveloper()
    ensures !Contains(ThreeSkillsLowered, "developer")
  {
    NotContainedWithoutOpeningPair(ThreeSkillsLowered, "developer");
  }

  lemma NoSoftware()
    ensures !Contains(ThreeSkillsLowered, "software")
  {
    NotContainedWithoutOpeningPair(ThreeSkillsLowered, "software");
  }

  lemma NoWeb()
    ensures !Contains(ThreeSkillsLowered, "web")
  {
    NotContainedWithoutOpeningPair(ThreeSkillsLowered, "web");
  }

  /** A text naming PHP, Laravel and JavaScript and no other skill scores 60 on skills. */
  lemma ThreeSkillsExample()
    ensures Score(ThreeSkillsText, SkillKeywords) == 60
  {
    ThreeSkillsLowerCase();
    ExampleKeywordsLowerCase();
    ThreeSkillsFound();
    NoHtml();
    NoCss();
    NoMysql();
    SkillMatchCount(ThreeSkillsText);
    assert Matches(ThreeSkillsText, "php") && Matches(ThreeSkillsText, "laravel") && Matches(ThreeSkillsText, "javascript");
    assert !Matches(ThreeSkillsText, "html") && !Matches(ThreeSkillsText, "css") && !Matches(ThreeSkillsText, "mysql");
    assert MatchCount(ThreeSkillsText, SkillKeywords) == 3;
  }

  /** The same text names no role word either, so its relevance score is 60 too. */
  lemma ThreeSkillsRelevance()
    ensures Score(ThreeSkillsText, RelevantKeywords) == 60
  {
    ThreeSkillsExample();
    ThreeSkillsLowerCase();
    ExampleKeywordsLowerCase();
    NoDeveloper();
    NoSoftware();
    NoWeb();
    RoleMatchCount(ThreeSkillsText);
    assert !Matches(ThreeSkillsText, "developer") && !Matches(ThreeSkillsText, "software") && !Matches(ThreeSkillsText, "web");
    assert MatchCount(ThreeSkillsText, RoleKeywords) == 0;
    MatchCountAppend(ThreeSkillsText, SkillKeywords, RoleKeywords);
  }
}
