/** The student entity of the Spring back end: the fields loaded from the
    dataset and its two derived risk helpers. */
module StudentEntity {
  import opened Wrappers
  import Text
  import opened RiskLabels

  const UNKNOWN_LABEL := "Unknown"

  /** One row of the students table. The database's generated surrogate key is
      not modelled; `studentId` is the business key, unique across the table. */
  datatype Student = Student(
    studentId: string,
    district: string,
    attendanceRate: real,
    examScore: real,
    socioEconomicStatus: string,
    transportAllowanceUsed: bool,
    migrationIndicator: int,
    gender: string,
    socialCategory: string,
    dropoutRisk: string,
    riskProbability: Option<real>,
    riskScore: Option<real>,
    predictedLabel: Option<string>)
  {
    /** The level implied by the stored risk numbers: "Unknown" unless both are
        present, and then bucketed from the probability alone. */
    function CalculateRiskLevel(): (level: string)
      ensures riskProbability.None? || riskScore.None? ==> level == UNKNOWN_LABEL
      ensures riskProbability.Some? && riskScore.Some? ==>
        (level == HIGH_LABEL <==> riskProbability.value >= 70.0) &&
        (level == MODERATE_LABEL <==> 50.0 <= riskProbability.value < 70.0) &&
        (level == LOW_LABEL <==> riskProbability.value < 50.0)
    {
      if riskProbability.None? || riskScore.None? then UNKNOWN_LABEL
      else
        var score := riskProbability.value;
        if score >= 70.0 then HIGH_LABEL
        else if score >= 50.0 then MODERATE_LABEL
        else LOW_LABEL
    }

    /** High risk by label (any letter case) or by a stored probability of at least 70. */
    predicate IsHighRisk()
    {
      IsHighLabel(dropoutRisk) ||
      (riskProbability.Some? && riskProbability.value >= 70.0)
    }
  }

  /** The label test: the lower-cased label is "high". */
  predicate IsHighLabel(risk: string) {
    Text.Lower(risk) == "high"
  }

  /** The label test is the case-insensitive comparison with "High". */
  lemma HighLabelIsEqualsIgnoreCase(risk: string)
    ensures IsHighLabel(risk) <==> Text.EqualsIgnoreCase(HIGH_LABEL, risk)
  {
    assert Text.Lower(HIGH_LABEL) == "high";
  }

  /** The level never looks at the stored risk score beyond its presence. */
  lemma RiskLevelIgnoresScore(s: Student, score: real)
    requires s.riskScore.Some?
    ensures s.(riskScore := Some(score)).CalculateRiskLevel() == s.CalculateRiskLevel()
  {
  }

  /** A "High" label makes a student high risk whatever the probability says. */
  lemma HighLabelIsHighRisk(s: Student)
    requires Text.EqualsIgnoreCase(HIGH_LABEL, s.dropoutRisk)
    ensures s.IsHighRisk()
  {
    HighLabelIsEqualsIgnoreCase(s.dropoutRisk);
  }

  /** High risk exactly when the label is "High" ignoring case or a present
      probability reaches 70. */
  lemma IsHighRiskIff(s: Student)
    ensures s.IsHighRisk() <==> (Text.EqualsIgnoreCase(HIGH_LABEL, s.dropoutRisk)
                                 || (s.riskProbability.Some? && s.riskProbability.value >= 70.0))
  {
    HighLabelIsEqualsIgnoreCase(s.dropoutRisk);
  }

  /** The label test is case-insensitive: "HIGH" and "high" count as High. */
  lemma HighLabelAnyCase(s: Student)
    requires s.dropoutRisk == "HIGH" || s.dropoutRisk == "high"
    ensures s.IsHighRisk()
  {
    assert Text.Lower(s.dropoutRisk) == "high";
  }

  /** Without a probability, only the label can make a student high risk. */
  lemma NoProbabilityNeedsLabel(s: Student)
    requires s.riskProbability.None?
    ensures s.IsHighRisk() <==> Text.EqualsIgnoreCase(HIGH_LABEL, s.dropoutRisk)
  {
    HighLabelIsEqualsIgnoreCase(s.dropoutRisk);
  }

  /** A computed level of "High" always agrees with the high-risk test. */
  lemma HighLevelImpliesHighRisk(s: Student)
    requires s.CalculateRiskLevel() == HIGH_LABEL
    ensures s.IsHighRisk()
  {
    assert UNKNOWN_LABEL != HIGH_LABEL;
  }
}
