/**
  The CV record (app/Models/CV.php) and its fit score: the mean of the four
  sub-scores, rounded by PHP's `round`, which sends halves away from zero.
*/
module CVModel {
  import opened Wrappers

  /**
    round(s / 4) in PHP: the integer nearest to s/4, a tie (s/4 ending in .5)
    going away from zero.
  */
  function RoundQuarter(s: int): (r: int)
    ensures -2 <= 4 * r - s <= 2
    ensures 4 * r - s == 2 ==> s > 0
    ensures 4 * r - s == -2 ==> s < 0
  {
    if s >= 0 then (s + 2) / 4 else -((2 - s) / 4)
  }

  /** The three facts of RoundQuarter's contract leave no choice. */
  lemma RoundQuarterUnique(s: int, r': int)
    requires -2 <= 4 * r' - s <= 2
    requires 4 * r' - s == 2 ==> s > 0
    requires 4 * r' - s == -2 ==> s < 0
    ensures r' == RoundQuarter(s)
  {
  }

  /** The fit score of four sub-scores: their mean rounded to the nearest integer, halves away from zero. */
  function FitScore(skill: int, softSkills: int, education: int, relevantExperience: int): (r: int)
    ensures -2 <= 4 * r - (skill + softSkills + education + relevantExperience) <= 2
    ensures 4 * r - (skill + softSkills + education + relevantExperience) == 2 ==> skill + softSkills + education + relevantExperience > 0
    ensures 4 * r - (skill + softSkills + education + relevantExperience) == -2 ==> skill + softSkills + education + relevantExperience < 0
  {
    RoundQuarter(skill + softSkills + education + relevantExperience)
  }

  predicate InScoreRange(x: int) {
    0 <= x <= 100
  }

  /** Sub-scores in [0, 100] give a fit score in [0, 100]. */
  lemma FitScoreInRange(skill: int, softSkills: int, education: int, relevantExperience: int)
    requires InScoreRange(skill) && InScoreRange(softSkills) && InScoreRange(education) && InScoreRange(relevantExperience)
    ensures InScoreRange(FitScore(skill, softSkills, education, relevantExperience))
  {
  }

  /** Sub-scores that are multiples of 20 have a sum divisible by 4: the mean is exact and a multiple of 5. */
  lemma FitScoreExactOnMultiplesOf20(skill: int, softSkills: int, education: int, relevantExperience: int)
    requires skill % 20 == 0 && softSkills % 20 == 0 && education % 20 == 0 && relevantExperience % 20 == 0
    ensures 4 * FitScore(skill, softSkills, education, relevantExperience) == skill + softSkills + education + relevantExperience
    ensures FitScore(skill, softSkills, education, relevantExperience) % 5 == 0
  {
  }

  /** Four equal sub-scores give that score: (100, 100, 100, 100) gives 100 and (0, 0, 0, 0) gives 0. */
  lemma FitScoreOfEqualScores(x: int)
    ensures FitScore(x, x, x, x) == x
  {
  }

  /** (20, 40, 60, 80) gives round(200 / 4) = 50. */
  lemma FitScoreMixedExample()
    ensures FitScore(20, 40, 60, 80) == 50
  {
  }

  /** A stored CV analysis. The fit score is null until calculateFitScore runs. */
  class CV {
    var name: string
    var path: string
    var summary: string
    var experienceYears: int
    var skillScore: int
    var softSkills: int
    var educationScore: int
    var relevantExperience: int
    var fitScore: Option<int>

    /** CV::create with the eight fillable attributes the controller passes; fit_score is left unset. */
    constructor (name: string, path: string, summary: string, experienceYears: int,
                 skillScore: int, softSkills: int, educationScore: int, relevantExperience: int)
      ensures this.name == name && this.path == path && this.summary == summary
      ensures this.experienceYears == experienceYears
      ensures this.skillScore == skillScore && this.softSkills == softSkills
      ensures this.educationScore == educationScore && this.relevantExperience == relevantExperience
      ensures fitScore == None
    {
      this.name := name;
      this.path := path;
      this.summary := summary;
      this.experienceYears := experienceYears;
      this.skillScore := skillScore;
      this.softSkills := softSkills;
      this.educationScore := educationScore;
      this.relevantExperience := relevantExperience;
      fitScore := None;
    }

    /** The fit score the current sub-scores call for. */
    function ExpectedFitScore(): int
      reads this
    {
      FitScore(skillScore, softSkills, educationScore, relevantExperience)
    }

    /** calculateFitScore: sets fit_score from the four sub-scores and touches nothing else. */
    method CalculateFitScore()
      modifies this`fitScore
      ensures fitScore == Some(ExpectedFitScore())
      ensures unchanged(this`name, this`path, this`summary, this`experienceYears)
      ensures unchanged(this`skillScore, this`softSkills, this`educationScore, this`relevantExperience)
    {
      fitScore := Some(RoundQuarter(skillScore + softSkills + educationScore + relevantExperience));
    }
  }

  /** A second calculateFitScore right after the first leaves the fit score as it was. */
  method CalculateFitScoreTwice(cv: CV) returns (first: Option<int>, second: Option<int>)
    modifies cv
    ensures first == second == cv.fitScore == Some(cv.ExpectedFitScore())
  {
    cv.CalculateFitScore();
    first := cv.fitScore;
    cv.CalculateFitScore();
    second := cv.fitScore;
  }
}
