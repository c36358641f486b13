/** The seven-factor dropout-risk scorer of the Spring back end. Each factor
    contributes fixed points according to its own table; the total is bucketed
    into a level at 70 and 50, and every firing factor but a medium
    socio-economic status leaves a reason, in factor order. */
module RiskPrediction {
  import opened Wrappers
  import opened Reasons
  import Text
  import opened StudentEntity
  import opened RiskLabels

  const HIGH_RISK_THRESHOLD: real := 70.0
  const MODERATE_RISK_THRESHOLD: real := 50.0

  /** The seven inputs echoed back with an assessment. */
  datatype StudentDetails = StudentDetails(
    attendanceRate: real,
    examScore: real,
    socioEconomicStatus: string,
    transportAllowanceUsed: bool,
    migrationIndicator: int,
    gender: string,
    socialCategory: string)

  /** The assessment returned for one student; probability and score carry the same value. */
  datatype RiskScore = RiskScore(
    studentId: string,
    riskLevel: string,
    riskProbability: real,
    riskScore: real,
    reasons: seq<Reason>,
    district: string,
    studentDetails: StudentDetails)

  // The seven factor tables.

  function AttendancePoints(rate: real): real {
    if rate < 60.0 then 30.0 else if rate < 75.0 then 15.0 else 0.0
  }

  function ExamPoints(score: real): real {
    if score < 45.0 then 25.0 else if score < 65.0 then 12.0 else 0.0
  }

  function SocioEconomicPoints(status: string): real {
    if IsLowStatus(status) then 15.0
    else if IsMediumStatus(status) then 7.0
    else 0.0
  }

  /** The points of a one-bucket factor. */
  function FlagPoints(fires: bool, points: real): real {
    if fires then points else 0.0
  }

  function TransportPoints(used: bool): real {
    FlagPoints(!used, 10.0)
  }

  function MigrationPoints(indicator: int): real {
    FlagPoints(indicator == 1, 10.0)
  }

  function GenderPoints(gender: string): real {
    FlagPoints(IsFemale(gender), 5.0)
  }

  // The categorical tests compare the lower-cased input with the lower-cased
  // literal; the lemmas LowStatusIsEqualsIgnoreCase and the three after it show
  // this is the case-insensitive comparison against the literal itself.

  predicate IsLowStatus(status: string) {
    Text.Lower(status) == "low"
  }

  predicate IsMediumStatus(status: string) {
    Text.Lower(status) == "medium"
  }

  predicate IsFemale(gender: string) {
    Text.Lower(gender) == "female"
  }

  predicate IsStOrSc(category: string) {
    Text.Lower(category) == "st" || Text.Lower(category) == "sc"
  }

  function CategoryPoints(category: string): real {
    FlagPoints(IsStOrSc(category), 5.0)
  }

  /** The total: the seven contributions added independently, never below 0 nor above 100. */
  function Score(s: Student): (total: real)
    ensures 0.0 <= total <= 100.0
  {
    AttendancePoints(s.attendanceRate) + ExamPoints(s.examScore)
    + SocioEconomicPoints(s.socioEconomicStatus) + TransportPoints(s.transportAllowanceUsed)
    + MigrationPoints(s.migrationIndicator) + GenderPoints(s.gender)
    + CategoryPoints(s.socialCategory)
  }

  // The reason each factor leaves, in the same order.

  function AttendanceReasons(rate: real): seq<Reason> {
    if rate < 60.0 then [LowAttendance(rate)]
    else if rate < 75.0 then [ModerateAttendance(rate)]
    else []
  }

  function ExamReasons(score: real): seq<Reason> {
    if score < 45.0 then [BelowAverageExam(score)]
    else if score < 65.0 then [AverageExam(score)]
    else []
  }

  /** Only a low status leaves a reason; a medium one adds its points silently. */
  function SocioEconomicReasons(status: string): seq<Reason> {
    FlagReasons(IsLowStatus(status), LowSocioEconomicStatus)
  }

  /** The reason of a one-bucket factor. */
  function FlagReasons(fires: bool, reason: Reason): seq<Reason> {
    if fires then [reason] else []
  }

  function ReasonsFor(s: Student): (reasons: seq<Reason>)
    ensures |reasons| <= 7
  {
    AttendanceReasons(s.attendanceRate)
    + ExamReasons(s.examScore)
    + SocioEconomicReasons(s.socioEconomicStatus)
    + FlagReasons(!s.transportAllowanceUsed, TransportNotUtilized)
    + FlagReasons(s.migrationIndicator == 1, SeasonalMigrantFamily)
    + FlagReasons(IsFemale(s.gender), FemaleStudent)
    + FlagReasons(IsStOrSc(s.socialCategory), SocialCategory("ST/SC"))
  }

  /** Buckets a score: lower edges inclusive. */
  function DetermineRiskLevel(score: real): (level: string)
    ensures level == HIGH_LABEL <==> score >= 70.0
    ensures level == MODERATE_LABEL <==> 50.0 <= score < 70.0
    ensures level == LOW_LABEL <==> score < 50.0
  {
    if score >= HIGH_RISK_THRESHOLD then HIGH_LABEL
    else if score >= MODERATE_RISK_THRESHOLD then MODERATE_LABEL
    else LOW_LABEL
  }

  /** Position of a level on the Low < Moderate < High scale. */
  function LevelRank(level: string): int {
    if level == HIGH_LABEL then 2 else if level == MODERATE_LABEL then 1 else 0
  }

  /** The assessment `CalculateRiskScore` must produce. */
  function Assessment(s: Student): (r: RiskScore)
    ensures r.studentId == s.studentId && r.district == s.district
    ensures 0.0 <= r.riskScore <= 100.0 && r.riskProbability == r.riskScore
    ensures r.riskLevel == HIGH_LABEL <==> r.riskScore >= 70.0
    ensures r.riskLevel == MODERATE_LABEL <==> 50.0 <= r.riskScore < 70.0
    ensures r.riskLevel == LOW_LABEL <==> r.riskScore < 50.0
    ensures |r.reasons| <= 7
  {
    var score := Score(s);
    RiskScore(s.studentId, DetermineRiskLevel(score), score, score, ReasonsFor(s), s.district,
      StudentDetails(s.attendanceRate, s.examScore, s.socioEconomicStatus, s.transportAllowanceUsed,
                     s.migrationIndicator, s.gender, s.socialCategory))
  }

  /** Accumulates the score and the reasons factor by factor, in the order of the tables. */
  method CalculateRiskScore(s: Student) returns (result: RiskScore)
    ensures result == Assessment(s)
    ensures result.riskProbability == result.riskScore
    ensures result.studentId == s.studentId && result.district == s.district
  {
    var reasons: seq<Reason> := [];
    var riskScore := 0.0;
    riskScore, reasons := AddAttendance(s.attendanceRate, riskScore, reasons);
    riskScore, reasons := AddExam(s.examScore, riskScore, reasons);
    riskScore, reasons := AddSocioEconomic(s.socioEconomicStatus, riskScore, reasons);
    riskScore, reasons := AddFlag(!s.transportAllowanceUsed, 10.0, TransportNotUtilized, riskScore, reasons);
    riskScore, reasons := AddFlag(s.migrationIndicator == 1, 10.0, SeasonalMigrantFamily, riskScore, reasons);
    riskScore, reasons := AddFlag(IsFemale(s.gender), 5.0, FemaleStudent, riskScore, reasons);
    riskScore, reasons := AddFlag(IsStOrSc(s.socialCategory), 5.0, SocialCategory("ST/SC"), riskScore, reasons);
    assert [] + AttendanceReasons(s.attendanceRate) == AttendanceReasons(s.attendanceRate);
    var riskLevel := DetermineRiskLevel(riskScore);
    var details := StudentDetails(s.attendanceRate, s.examScore, s.socioEconomicStatus,
      s.transportAllowanceUsed, s.migrationIndicator, s.gender, s.socialCategory);
    result := RiskScore(s.studentId, riskLevel, riskScore, riskScore, reasons, s.district, details);
  }

  /** The attendance block: 30 points below 60, 15 below 75. */
  method AddAttendance(rate: real, score: real, reasons: seq<Reason>) returns (score': real, reasons': seq<Reason>)
    ensures score' == score + AttendancePoints(rate)
    ensures reasons' == reasons + AttendanceReasons(rate)
  {
    score', reasons' := score, reasons;
    if rate < 60.0 {
      score' := score' + 30.0;
      reasons' := reasons' + [LowAttendance(rate)];
    } else if rate < 75.0 {
      score' := score' + 15.0;
      reasons' := reasons' + [ModerateAttendance(rate)];
    }
  }

  /** The exam block: 25 points below 45, 12 below 65. */
  method AddExam(exam: real, score: real, reasons: seq<Reason>) returns (score': real, reasons': seq<Reason>)
    ensures score' == score + ExamPoints(exam)
    ensures reasons' == reasons + ExamReasons(exam)
  {
    score', reasons' := score, reasons;
    if exam < 45.0 {
      score' := score' + 25.0;
      reasons' := reasons' + [BelowAverageExam(exam)];
    } else if exam < 65.0 {
      score' := score' + 12.0;
      reasons' := reasons' + [AverageExam(exam)];
    }
  }

  /** The socio-economic block: a low status adds 15 points and a reason, a medium one 7 points only. */
  method AddSocioEconomic(status: string, score: real, reasons: seq<Reason>) returns (score': real, reasons': seq<Reason>)
    ensures score' == score + SocioEconomicPoints(status)
    ensures reasons' == reasons + SocioEconomicReasons(status)
  {
    score', reasons' := score, reasons;
    if IsLowStatus(status) {
      score' := score' + 15.0;
      reasons' := reasons' + [LowSocioEconomicStatus];
    } else if IsMediumStatus(status) {
      score' := score' + 7.0;
    }
  }

  /** A one-bucket block: when the condition holds, its points and its reason are added. */
  method AddFlag(fires: bool, points: real, reason: Reason, score: real, reasons: seq<Reason>)
    returns (score': real, reasons': seq<Reason>)
    ensures score' == score + FlagPoints(fires, points)
    ensures reasons' == reasons + FlagReasons(fires, reason)
  {
    score', reasons' := score, reasons;
    if fires {
      score' := score' + points;
      reasons' := reasons' + [reason];
    }
  }

  /** High risk exactly when the assessment's level is "High". */
  predicate IsHighRisk(s: Student) {
    Assessment(s).riskLevel == HIGH_LABEL
  }

  function GetHighRiskThreshold(): (t: real)
    ensures t == 70.0
  {
    HIGH_RISK_THRESHOLD
  }

  function GetModerateRiskThreshold(): (t: real)
    ensures t == 50.0
  {
    MODERATE_RISK_THRESHOLD
  }

  // Properties of the scorer.

  // Each categorical test is a case-insensitive comparison with the source's literal.

  lemma LowStatusIsEqualsIgnoreCase(x: string)
    ensures IsLowStatus(x) <==> Text.EqualsIgnoreCase("Low", x)
  {
    assert Text.Lower("Low") == "low";
  }

  lemma MediumStatusIsEqualsIgnoreCase(x: string)
    ensures IsMediumStatus(x) <==> Text.EqualsIgnoreCase("Medium", x)
  {
    assert Text.Lower("Medium") == "medium";
  }

  lemma FemaleIsEqualsIgnoreCase(x: string)
    ensures IsFemale(x) <==> Text.EqualsIgnoreCase("Female", x)
  {
    assert Text.Lower("Female") == "female";
  }

  lemma StOrScIsEqualsIgnoreCase(x: string)
    ensures IsStOrSc(x) <==> Text.EqualsIgnoreCase("ST", x) || Text.EqualsIgnoreCase("SC", x)
  {
    assert Text.Lower("ST") == "st";
    assert Text.Lower("SC") == "sc";
  }

  /** The score is 100 exactly when every factor sits in its top bucket. */
  lemma ScoreMaximum(s: Student)
    ensures Score(s) == 100.0 <==>
      s.attendanceRate < 60.0 && s.examScore < 45.0
      && IsLowStatus(s.socioEconomicStatus)
      && !s.transportAllowanceUsed && s.migrationIndicator == 1
      && IsFemale(s.gender) && IsStOrSc(s.socialCategory)
  {
  }

  /** The level never drops as the score rises. */
  lemma LevelMonotone(a: real, b: real)
    requires a <= b
    ensures LevelRank(DetermineRiskLevel(a)) <= LevelRank(DetermineRiskLevel(b))
  {
  }

  /** Lowering the attendance rate, all else fixed, never lowers the score. */
  lemma ScoreMonotoneInAttendance(s: Student, lower: real)
    requires lower <= s.attendanceRate
    ensures Score(s.(attendanceRate := lower)) >= Score(s)
  {
  }

  /** Lowering the exam score, all else fixed, never lowers the score. */
  lemma ScoreMonotoneInExam(s: Student, lower: real)
    requires lower <= s.examScore
    ensures Score(s.(examScore := lower)) >= Score(s)
  {
  }

  /** No reason is given exactly when the score is 0 or 7, the latter being a
      medium socio-economic status, the one factor that adds points silently. */
  lemma NoReasonsIff(s: Student)
    ensures ReasonsFor(s) == [] <==> Score(s) == 0.0 || Score(s) == 7.0
  {
    var ses := SocioEconomicPoints(s.socioEconomicStatus);
    assert ses == 0.0 || ses == 7.0 || ses == 15.0;
    assert ses == 15.0 <==> IsLowStatus(s.socioEconomicStatus);
  }

  /** The low-status reason appears exactly when the status is "Low" in any case. */
  lemma LowStatusReasonIff(s: Student)
    ensures LowSocioEconomicStatus in ReasonsFor(s) <==> IsLowStatus(s.socioEconomicStatus)
  {
    var r := ReasonsFor(s);
    var a := AttendanceReasons(s.attendanceRate) + ExamReasons(s.examScore);
    var t := FlagReasons(!s.transportAllowanceUsed, TransportNotUtilized)
      + FlagReasons(s.migrationIndicator == 1, SeasonalMigrantFamily)
      + FlagReasons(IsFemale(s.gender), FemaleStudent)
      + FlagReasons(IsStOrSc(s.socialCategory), SocialCategory("ST/SC"));
    assert r == a + SocioEconomicReasons(s.socioEconomicStatus) + t;
    assert LowSocioEconomicStatus !in a && LowSocioEconomicStatus !in t;
  }

  /** A medium socio-economic status adds 7 points and no reason. */
  lemma MediumStatusIsSilent(s: Student)
    requires IsMediumStatus(s.socioEconomicStatus)
    ensures SocioEconomicPoints(s.socioEconomicStatus) == 7.0
    ensures LowSocioEconomicStatus !in ReasonsFor(s)
  {
    LowStatusReasonIff(s);
  }

  /** The service-level high-risk test agrees with the score threshold. */
  lemma IsHighRiskIffScore(s: Student)
    ensures IsHighRisk(s) <==> Score(s) >= 70.0
  {
  }
}
