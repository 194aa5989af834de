/**
  The analysis part of CVController::store: the guard against text that
  trims to nothing (or to "0", which PHP's `empty` also treats as empty),
  then the summary, the experience estimate and the four keyword scores, then
  the record with its fit score.

  The upload, the PDF parser and the HTTP call are outside the model: the
  extracted text, the summarization response and the two pattern searches
  over the text arrive as inputs, and so does the current year.
*/
module Pipeline {
  import opened Wrappers
  import opened PhpStrings
  import opened KeywordScoring
  import opened ExperienceEstimator
  import opened Summarizer
  import opened CVModel

  /** The values store computes from one extracted text. */
  datatype Analysis = Analysis(
    summary: string,
    experienceYears: int,
    skillScore: int,
    softSkills: int,
    educationScore: int,
    relevantExperience: int)

  /**
    What store makes of one text: an analysis, or the exception raised for
    empty text. The exceptions the HTTP client and the database write can
    raise are not part of this model.
  */
  datatype Outcome = Analyzed(analysis: Analysis) | EmptyExtraction

  /** The ranges the analysis values always fall in. */
  predicate WellFormed(a: Analysis) {
    0 <= a.experienceYears <= MaxYears &&
    InScoreRange(a.skillScore) && a.skillScore % KeywordPoints == 0 &&
    InScoreRange(a.softSkills) && a.softSkills % KeywordPoints == 0 &&
    InScoreRange(a.educationScore) && a.educationScore % KeywordPoints == 0 &&
    InScoreRange(a.relevantExperience) && a.relevantExperience % KeywordPoints == 0 &&
    a.skillScore <= a.relevantExperience
  }

  /** The text store refuses before anything is scored: blank text, or text that trims to "0". */
  predicate Rejected(text: string): (r: bool)
    ensures r <==> (forall k :: 0 <= k < |text| ==> IsTrimmable(text[k])) || Trim(text) == "0"
  {
    PhpEmpty(Trim(text))
  }

  /**
    store, lines 47 to 57: refuse empty text, otherwise compute the summary,
    the years and the four scores, each from the same text.
  */
  method Store(text: string, response: SummaryResponse, dates: seq<DateMatch>, explicit: Option<nat>, currentYear: int)
    returns (outcome: Outcome)
    ensures outcome == EmptyExtraction <==> Rejected(text)
    ensures outcome.Analyzed? ==> outcome.analysis == Analysis(
      SummaryOf(response),
      ExperienceYears(dates, explicit, currentYear),
      Score(text, SkillKeywords),
      Score(text, SoftSkillKeywords),
      Score(text, EducationKeywords),
      Score(text, RelevantKeywords))
    ensures outcome.Analyzed? ==> WellFormed(outcome.analysis)
  {
    if PhpEmpty(Trim(text)) {
      return EmptyExtraction;
    }
    var summary := SummaryOf(response);
    var experienceYears := CalculateExperienceYears(dates, explicit, currentYear);
    var skillScore := CalculateScore(text, SkillKeywords);
    var softSkills := CalculateScore(text, SoftSkillKeywords);
    var educationScore := CalculateScore(text, EducationKeywords);
    var relevantExperience := CalculateRelevantExperience(text);
    outcome := Analyzed(Analysis(summary, experienceYears, skillScore, softSkills, educationScore, relevantExperience));
  }

  /**
    store, lines 47 to 70: the analysis, then CV::create with the file name and
    path, then calculateFitScore. No record is made for a refused text.
  */
  method StoreAndRate(name: string, path: string, text: string, response: SummaryResponse,
                      dates: seq<DateMatch>, explicit: Option<nat>, currentYear: int)
    returns (cv: CV?)
    ensures cv == null <==> Rejected(text)
    ensures cv != null ==> fresh(cv) && cv.name == name && cv.path == path
    ensures cv != null ==> Analysis(cv.summary, cv.experienceYears, cv.skillScore, cv.softSkills,
                                    cv.educationScore, cv.relevantExperience) == Analysis(
      SummaryOf(response),
      ExperienceYears(dates, explicit, currentYear),
      Score(text, SkillKeywords),
      Score(text, SoftSkillKeywords),
      Score(text, EducationKeywords),
      Score(text, RelevantKeywords))
    ensures cv != null ==> WellFormed(Analysis(cv.summary, cv.experienceYears, cv.skillScore,
                                               cv.softSkills, cv.educationScore, cv.relevantExperience))
    ensures cv != null ==> cv.fitScore == Some(cv.ExpectedFitScore()) && InScoreRange(cv.ExpectedFitScore())
    ensures cv != null ==> cv.ExpectedFitScore() % 5 == 0
  {
    var outcome := Store(text, response, dates, explicit, currentYear);
    if outcome.EmptyExtraction? {
      return null;
    }
    var a := outcome.analysis;
    cv := new CV(name, path, a.summary, a.experienceYears, a.skillScore, a.softSkills, a.educationScore, a.relevantExperience);
    cv.CalculateFitScore();
    FitScoreInRange(a.skillScore, a.softSkills, a.educationScore, a.relevantExperience);
    FitScoreExactOnMultiplesOf20(a.skillScore, a.softSkills, a.educationScore, a.relevantExperience);
  }

  /** Text made only of whitespace (or nothing) is refused. */
  lemma BlankTextRejected(text: string)
    requires forall k :: 0 <= k < |text| ==> IsTrimmable(text[k])
    ensures Rejected(text)
  {
  }

  /** A lone "0" among whitespace is refused too, since PHP's empty("0") holds. */
  lemma ZeroTextRejected(before: string, after: string)
    requires forall k :: 0 <= k < |before| ==> IsTrimmable(before[k])
    requires forall k :: 0 <= k < |after| ==> IsTrimmable(after[k])
    ensures Trim(before + "0" + after) == "0"
    ensures Rejected(before + "0" + after)
  {
    var s := before + "0" + after;
    var r := Trim(s);
    var n := |before|;
    assert s[n] == '0';
    assert r != [];
    var i, j :| TrimmedSlice(s, r, i, j);
    assert i == n by {
      assert r[0] == s[i];
    }
    assert j == n + 1 by {
      assert r[|r| - 1] == s[j - 1];
    }
    assert r == [s[n]];
  }

  /**
    A text is analyzed exactly when it holds a character trim does not strip
    and does not trim to a lone "0".
  */
  lemma ContentfulTextAnalyzed(text: string)
    ensures !Rejected(text) <==> (exists k :: 0 <= k < |text| && !IsTrimmable(text[k])) && Trim(text) != "0"
  {
  }
}
