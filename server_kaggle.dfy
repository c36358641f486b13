/** The prototype server over the Kaggle dataset: at start-up every record
    gets a risk entry (reasons, a probability drawn in its label's band, and
    recommendations); the handlers filter those entries by a threshold,
    count a district's records, and append to an in-memory intervention log. */
module ServerKaggle {
  import opened Wrappers
  import opened SeqUtil
  import opened Reasons
  import opened Dataset
  import opened RiskLabels

  // Reasons.

  function AttendanceReasons(rate: real): seq<Reason> {
    if rate < 60.0 then [LowAttendance(rate)] else if rate < 75.0 then [ModerateAttendance(rate)] else []
  }

  function ExamReasons(score: real): seq<Reason> {
    if score < 45.0 then [BelowAverageExam(score)] else if score < 65.0 then [AverageExam(score)] else []
  }

  function When(fires: bool, reason: Reason): seq<Reason> {
    if fires then [reason] else []
  }

  predicate IsScOrSt(category: string) {
    category == "SC" || category == "ST"
  }

  predicate FemaleAtHighRisk(s: DatasetRecord) {
    s.gender == "Female" && s.dropoutRisk == HIGH_LABEL
  }

  predicate CategoryAtHighRisk(s: DatasetRecord) {
    IsScOrSt(s.socialCategory) && s.dropoutRisk == HIGH_LABEL
  }

  /** The reasons every firing factor contributes, in the order they are checked;
      the gender and category reasons only for a record labelled High. */
  function FactorReasons(s: DatasetRecord): seq<Reason> {
    AttendanceReasons(s.attendanceRate)
    + ExamReasons(s.examScore)
    + When(s.socioEconomicStatus == LOW_STATUS, LowSocioEconomicStatus)
    + When(!s.transportAllowanceUsed, TransportNotUtilized)
    + When(s.migrationIndicator, SeasonalMigrantFamily)
    + When(s.previousGradeFailures > 0, PreviousFailures(s.previousGradeFailures))
    + When(FemaleAtHighRisk(s), FemaleStudent)
    + When(CategoryAtHighRisk(s), SocialCategory(s.socialCategory))
  }

  /** The reasons of a record: its factors, or the good-performance reason when none fires. */
  function KaggleReasons(s: DatasetRecord): seq<Reason> {
    var factors := FactorReasons(s);
    if factors == [] then [GoodPerformance] else factors
  }

  /** The start-up reasons loop body: one push per firing factor, then the fallback. */
  method BuildReasons(s: DatasetRecord) returns (reasons: seq<Reason>)
    ensures reasons == KaggleReasons(s)
  {
    reasons := [];
    if s.attendanceRate < 60.0 {
      reasons := reasons + [LowAttendance(s.attendanceRate)];
    } else if s.attendanceRate < 75.0 {
      reasons := reasons + [ModerateAttendance(s.attendanceRate)];
    }
    if s.examScore < 45.0 {
      reasons := reasons + [BelowAverageExam(s.examScore)];
    } else if s.examScore < 65.0 {
      reasons := reasons + [AverageExam(s.examScore)];
    }
    assert reasons == AttendanceReasons(s.attendanceRate) + ExamReasons(s.examScore);
    reasons := Push(reasons, s.socioEconomicStatus == LOW_STATUS, LowSocioEconomicStatus);
    reasons := Push(reasons, !s.transportAllowanceUsed, TransportNotUtilized);
    reasons := Push(reasons, s.migrationIndicator, SeasonalMigrantFamily);
    reasons := Push(reasons, s.previousGradeFailures > 0, PreviousFailures(s.previousGradeFailures));
    reasons := Push(reasons, FemaleAtHighRisk(s), FemaleStudent);
    reasons := Push(reasons, CategoryAtHighRisk(s), SocialCategory(s.socialCategory));
    assert reasons == FactorReasons(s);
    if |reasons| == 0 {
      reasons := reasons + [GoodPerformance];
    }
  }

  /** `if (fires) reasons.push(reason)`. */
  method Push(reasons: seq<Reason>, fires: bool, reason: Reason) returns (reasons': seq<Reason>)
    ensures reasons' == reasons + When(fires, reason)
  {
    reasons' := reasons;
    if fires {
      reasons' := reasons' + [reason];
    }
  }

  /** The list is never empty, and it is the fallback alone exactly when no factor fires. */
  lemma ReasonsNeverEmpty(s: DatasetRecord)
    ensures |KaggleReasons(s)| >= 1
    ensures KaggleReasons(s) == [GoodPerformance] <==> FactorReasons(s) == []
  {
    if FactorReasons(s) != [] {
      assert GoodPerformance !in FactorReasons(s);
    }
  }

  /** Every reason given is justified by the record: an attendance or exam
      reason carries the record's own rate or score, in the band that reason
      names, and the gender and category reasons only appear for a record
      labelled High. */
  lemma ReasonsJustified(s: DatasetRecord)
    ensures forall x :: x in KaggleReasons(s) ==> Justified(s, x)
  {
    forall x | x in KaggleReasons(s) ensures Justified(s, x) {
      if x != GoodPerformance {
        assert || x in AttendanceReasons(s.attendanceRate) || x in ExamReasons(s.examScore)
               || x in When(s.socioEconomicStatus == LOW_STATUS, LowSocioEconomicStatus)
               || x in When(!s.transportAllowanceUsed, TransportNotUtilized)
               || x in When(s.migrationIndicator, SeasonalMigrantFamily)
               || x in When(s.previousGradeFailures > 0, PreviousFailures(s.previousGradeFailures))
               || x in When(FemaleAtHighRisk(s), FemaleStudent)
               || x in When(CategoryAtHighRisk(s), SocialCategory(s.socialCategory));
      }
    }
  }

  /** What a reason in a record's list says about that record. */
  ghost predicate Justified(s: DatasetRecord, x: Reason) {
    && (x.LowAttendance? ==> x == LowAttendance(s.attendanceRate) && s.attendanceRate < 60.0)
    && (x.ModerateAttendance? ==> x == ModerateAttendance(s.attendanceRate) && 60.0 <= s.attendanceRate < 75.0)
    && (x.BelowAverageExam? ==> x == BelowAverageExam(s.examScore) && s.examScore < 45.0)
    && (x.AverageExam? ==> x == AverageExam(s.examScore) && 45.0 <= s.examScore < 65.0)
    && (x.SocialCategory? ==> x == SocialCategory(s.socialCategory) && IsScOrSt(s.socialCategory))
    && (x == FemaleStudent ==> s.gender == "Female")
    && (x == FemaleStudent || x.SocialCategory? ==> s.dropoutRisk == HIGH_LABEL)
  }

  /** At most one attendance reason and at most one exam reason appear. */
  lemma ReasonsExclusive(s: DatasetRecord)
    ensures forall x, y :: x in KaggleReasons(s) && y in KaggleReasons(s) && x.LowAttendance? ==> !y.ModerateAttendance?
    ensures forall x, y :: x in KaggleReasons(s) && y in KaggleReasons(s) && x.BelowAverageExam? ==> !y.AverageExam?
  {
    ReasonsJustified(s);
  }

  /** The gender and category reasons appear only for a record labelled High. */
  lemma HighOnlyDemographics(s: DatasetRecord)
    requires FemaleStudent in KaggleReasons(s) || exists c :: SocialCategory(c) in KaggleReasons(s)
    ensures s.dropoutRisk == HIGH_LABEL
  {
    ReasonsJustified(s);
  }

  // Probability and recommendations.

  /** `Math.round`: the nearest integer, halves rounded up. */
  function JsRound(x: real): int {
    (x + 0.5).Floor
  }

  /** The rounded probability for a draw of `Math.random()` in [0, 1): within 75-95
      for High, 45-70 for Moderate and 5-30 otherwise. */
  function Probability(risk: string, draw: real): (p: int)
    requires 0.0 <= draw < 1.0
    ensures risk == HIGH_LABEL ==> 75 <= p <= 95
    ensures risk == MODERATE_LABEL ==> 45 <= p <= 70
    ensures risk != HIGH_LABEL && risk != MODERATE_LABEL ==> 5 <= p <= 30
  {
    if risk == HIGH_LABEL then JsRound(75.0 + draw * 20.0)
    else if risk == MODERATE_LABEL then JsRound(45.0 + draw * 25.0)
    else JsRound(5.0 + draw * 25.0)
  }

  function Recommendations(risk: string): (r: seq<string>)
    ensures |r| == if risk == HIGH_LABEL then 4 else if risk == MODERATE_LABEL then 2 else 1
  {
    if risk == HIGH_LABEL then
      ["Immediate parent-teacher meeting", "Provide transport support", "Enroll in remedial classes",
       "Connect with community volunteers"]
    else if risk == MODERATE_LABEL then ["Monitor closely", "Provide academic support"]
    else ["Continue regular monitoring"]
  }

  datatype RiskEntry = RiskEntry(risk: string, probability: int, district: string, grade: int,
                                 reasons: seq<Reason>, recommendations: seq<string>)

  function EntryFor(s: DatasetRecord, draw: real): RiskEntry
    requires 0.0 <= draw < 1.0
  {
    RiskEntry(s.dropoutRisk, Probability(s.dropoutRisk, draw), s.district, s.grade, KaggleReasons(s),
      Recommendations(s.dropoutRisk))
  }

  ghost predicate ValidDraws(draws: seq<real>) {
    forall i :: 0 <= i < |draws| ==> 0.0 <= draws[i] < 1.0
  }

  /** The entries keyed by student id; a later record with the same id replaces an earlier one. */
  function RiskScoresOf(students: seq<DatasetRecord>, draws: seq<real>): map<string, RiskEntry>
    requires |draws| == |students| && ValidDraws(draws)
  {
    if students == [] then map[]
    else
      var n := |students| - 1;
      RiskScoresOf(students[..n], draws[..n])[students[n].studentId := EntryFor(students[n], draws[n])]
  }

  /** The start-up loop, with `draws[i]` the random draw for record `i`. */
  method BuildRiskScores(students: seq<DatasetRecord>, draws: seq<real>) returns (riskScores: map<string, RiskEntry>)
    requires |draws| == |students| && ValidDraws(draws)
    ensures riskScores == RiskScoresOf(students, draws)
  {
    riskScores := map[];
    for i := 0 to |students|
      invariant riskScores == RiskScoresOf(students[..i], draws[..i])
    {
      assert students[..i + 1][..i] == students[..i];
      assert draws[..i + 1][..i] == draws[..i];
      var s := students[i];
      var reasons := BuildReasons(s);
      var probability := Probability(s.dropoutRisk, draws[i]);
      riskScores := riskScores[s.studentId := RiskEntry(s.dropoutRisk, probability, s.district, s.grade,
        reasons, Recommendations(s.dropoutRisk))];
    }
    assert students[..|students|] == students;
    assert draws[..|draws|] == draws;
  }

  /** Every record's id has an entry, and nothing else does. */
  lemma {:induction false} RiskScoresKeys(students: seq<DatasetRecord>, draws: seq<real>)
    requires |draws| == |students| && ValidDraws(draws)
    ensures forall id :: id in RiskScoresOf(students, draws) <==> exists i :: 0 <= i < |students| && students[i].studentId == id
  {
    if students != [] {
      var n := |students| - 1;
      RiskScoresKeys(students[..n], draws[..n]);
      assert forall i :: 0 <= i < n ==> students[..n][i] == students[i];
    }
  }

  /** With distinct ids, each record's entry is built from that record and its own draw. */
  lemma {:induction false} RiskScoresOfUnique(students: seq<DatasetRecord>, draws: seq<real>, i: int)
    requires |draws| == |students| && ValidDraws(draws)
    requires forall a, b :: 0 <= a < b < |students| ==> students[a].studentId != students[b].studentId
    requires 0 <= i < |students|
    ensures students[i].studentId in RiskScoresOf(students, draws)
    ensures RiskScoresOf(students, draws)[students[i].studentId] == EntryFor(students[i], draws[i])
  {
    var n := |students| - 1;
    if i < n {
      RiskScoresOfUnique(students[..n], draws[..n], i);
    }
  }

  // The at-risk handler.

  /** `parseInt(query) || 50`: an unparsable query or 0 gives 50. */
  function ThresholdOf(query: Option<int>): (t: int)
    ensures query.None? || query == Some(0) ==> t == 50
    ensures query.Some? && query.value != 0 ==> t == query.value
  {
    match query
    case None => 50
    case Some(n) => if n != 0 then n else 50
  }

  datatype AtRiskView = AtRiskView(id: string, name: string, district: string, grade: int,
                                   risk: string, probability: int, reasons: seq<Reason>)

  datatype AtRiskResponse = AtRiskResponse(total: int, threshold: int, students: seq<AtRiskView>)

  predicate Qualifies(riskScores: map<string, RiskEntry>, threshold: int, s: DatasetRecord) {
    s.studentId in riskScores && riskScores[s.studentId].probability >= threshold
  }

  function View(s: DatasetRecord, riskScores: map<string, RiskEntry>): AtRiskView
    requires s.studentId in riskScores
  {
    var e := riskScores[s.studentId];
    AtRiskView(s.studentId, "Student " + s.studentId, s.district, s.grade, e.risk, e.probability, e.reasons)
  }

  /** The records whose entry reaches the threshold, in dataset order, with the count of them. */
  function AtRisk(students: seq<DatasetRecord>, riskScores: map<string, RiskEntry>, query: Option<int>): (r: AtRiskResponse)
    ensures r.total == |r.students| && r.threshold == ThresholdOf(query)
    ensures forall i :: 0 <= i < |r.students| ==> r.students[i].probability >= r.threshold
    ensures |r.students| <= |students|
  {
    var threshold := ThresholdOf(query);
    var kept := Filter(students, (s: DatasetRecord) => Qualifies(riskScores, threshold, s));
    var views := ViewsOf(kept, riskScores);
    AtRiskResponse(|views|, threshold, views)
  }

  /** `kept.map(...)`: one view per record, in the same order. */
  function ViewsOf(kept: seq<DatasetRecord>, riskScores: map<string, RiskEntry>): (r: seq<AtRiskView>)
    requires forall i :: 0 <= i < |kept| ==> kept[i].studentId in riskScores
    ensures |r| == |kept|
    ensures forall i :: 0 <= i < |kept| ==> r[i] == View(kept[i], riskScores)
  {
    if kept == [] then []
    else ViewsOf(kept[..|kept| - 1], riskScores) + [View(kept[|kept| - 1], riskScores)]
  }

  /** Appending a record to the dataset appends its view to the list when it
      qualifies and leaves the list unchanged otherwise: the list follows dataset
      order and holds each qualifying record once per occurrence. */
  lemma AtRiskSnoc(students: seq<DatasetRecord>, riskScores: map<string, RiskEntry>, query: Option<int>, s: DatasetRecord)
    ensures AtRisk(students + [s], riskScores, query).students
      == AtRisk(students, riskScores, query).students
         + (if Qualifies(riskScores, ThresholdOf(query), s) then [View(s, riskScores)] else [])
  {
    var p := (x: DatasetRecord) => Qualifies(riskScores, ThresholdOf(query), x);
    var kept := Filter(students, p);
    FilterSnoc(students, s, p);
    if p(s) {
      assert Filter(students + [s], p) == kept + [s];
      assert (kept + [s])[..|kept|] == kept;
    } else {
      assert Filter(students + [s], p) == kept;
    }
  }

  /** A record is listed exactly when its entry reaches the threshold. */
  lemma AtRiskMembership(students: seq<DatasetRecord>, riskScores: map<string, RiskEntry>, query: Option<int>, s: DatasetRecord)
    requires s in students
    ensures Qualifies(riskScores, ThresholdOf(query), s) ==> View(s, riskScores) in AtRisk(students, riskScores, query).students
    ensures (exists i :: 0 <= i < |AtRisk(students, riskScores, query).students|
               && AtRisk(students, riskScores, query).students[i].id == s.studentId)
            ==> Qualifies(riskScores, ThresholdOf(query), s)
  {
    var threshold := ThresholdOf(query);
    var p := (x: DatasetRecord) => Qualifies(riskScores, threshold, x);
    var kept := Filter(students, p);
    var views := AtRisk(students, riskScores, query).students;
    assert |views| == |kept| && forall i :: 0 <= i < |kept| ==> views[i] == View(kept[i], riskScores);
    if Qualifies(riskScores, threshold, s) {
      var k :| 0 <= k < |students| && students[k] == s;
      assert s in kept;
      var j :| 0 <= j < |kept| && kept[j] == s;
      assert views[j] == View(s, riskScores);
    }
    if exists i :: 0 <= i < |views| && views[i].id == s.studentId {
      var i :| 0 <= i < |views| && views[i].id == s.studentId;
      assert p(kept[i]) && kept[i].studentId == s.studentId;
    }
  }

  // The district handler.

  datatype DistrictResult =
    | DistrictNotFound
    | DistrictReport(district: string, totalStudents: int, highRisk: int, moderateRisk: int, lowRisk: int,
                     averageAttendance: int, interventionsActive: int)

  function AttendanceSum(rows: seq<DatasetRecord>): real {
    if rows == [] then 0.0 else AttendanceSum(rows[..|rows| - 1]) + rows[|rows| - 1].attendanceRate
  }

  /** A district with no records is not found; otherwise its counts, the rounded mean
      attendance, and 70% of the High count rounded down as active interventions. */
  function DistrictStats(students: seq<DatasetRecord>, name: string): (r: DistrictResult)
    ensures r.DistrictNotFound? <==> forall i :: 0 <= i < |students| ==> students[i].district != name
    ensures r.DistrictReport? ==> r.totalStudents == |RowsIn(students, name)| && r.totalStudents > 0
    ensures r.DistrictReport? ==> (r.highRisk == LabelCount(RowsIn(students, name), HIGH_LABEL)
      && r.moderateRisk == LabelCount(RowsIn(students, name), MODERATE_LABEL)
      && r.lowRisk == LabelCount(RowsIn(students, name), LOW_LABEL))
  {
    var rows := RowsIn(students, name);
    if |rows| == 0 then
      assert forall i :: 0 <= i < |students| ==> students[i].district != name by {
        forall i | 0 <= i < |students| ensures students[i].district != name {
          assert students[i] in students;
        }
      }
      DistrictNotFound
    else
      assert rows[0] in students;
      var high := LabelCount(rows, HIGH_LABEL);
      DistrictReport(name, |rows|, high, LabelCount(rows, MODERATE_LABEL), LabelCount(rows, LOW_LABEL),
        JsRound(AttendanceSum(rows) / |rows| as real), (high as real * 0.7).Floor)
  }

  /** The three label counts of a found district never exceed its total. */
  lemma DistrictCountsBounded(students: seq<DatasetRecord>, name: string)
    requires DistrictStats(students, name).DistrictReport?
    ensures var r := DistrictStats(students, name); r.highRisk + r.moderateRisk + r.lowRisk <= r.totalStudents
    ensures var r := DistrictStats(students, name); 0 <= r.interventionsActive <= r.highRisk
  {
    var rows := RowsIn(students, name);
    CountDisjoint3(rows, (r: DatasetRecord) => r.dropoutRisk == HIGH_LABEL, (r: DatasetRecord) => r.dropoutRisk == MODERATE_LABEL,
      (r: DatasetRecord) => r.dropoutRisk == LOW_LABEL);
  }

  // The intervention log.

  datatype LoggedIntervention = LoggedIntervention(id: int, studentId: Option<string>, interventionType: Option<string>,
                                                   description: Option<string>, date: string, timestamp: int)

  /** The in-memory log: the i-th entry (from 0) has id i + 1. */
  class InterventionLog {
    var entries: seq<LoggedIntervention>

    ghost predicate Valid()
      reads this
    {
      forall i :: 0 <= i < |entries| ==> entries[i].id == i + 1
    }

    constructor ()
      ensures entries == [] && Valid()
    {
      entries := [];
    }

    /** Appends an entry with the next id; an absent or empty date becomes `now`. */
    method Log(studentId: Option<string>, interventionType: Option<string>, description: Option<string>,
               date: Option<string>, now: string, timestamp: int) returns (entry: LoggedIntervention)
      requires Valid()
      modifies this
      ensures Valid()
      ensures entries == old(entries) + [entry]
      ensures entry.id == |old(entries)| + 1
      ensures entry.date == if date.Some? && date.value != "" then date.value else now
      ensures entry.studentId == studentId && entry.interventionType == interventionType
        && entry.description == description && entry.timestamp == timestamp
    {
      var d := if date.Some? && date.value != "" then date.value else now;
      entry := LoggedIntervention(|entries| + 1, studentId, interventionType, description, d, timestamp);
      entries := entries + [entry];
    }
  }

  /** The risk handler: the entry of a known id, otherwise "Student not found". */
  function StudentRisk(riskScores: map<string, RiskEntry>, id: string): (r: Result<RiskEntry, string>)
    ensures r.Ok? <==> id in riskScores
    ensures r.Ok? ==> r.value == riskScores[id]
    ensures r.Err? ==> r.error == "Student not found"
  {
    if id in riskScores then Ok(riskScores[id]) else Err("Student not found")
  }
}
