/** The generic Kaggle mapping: each row of a frame becomes a student record
    with the seven risk factors, inferred from whichever of several known
    column layouts the frame has, then scored and labelled. A row whose cells
    cannot be converted is skipped. */
module KaggleIntegration {
  import opened Wrappers
  import opened Frame
  import opened Dataset
  import Text

  /** The attendance columns, in the order they are tried. */
  const ATTENDANCE_COLUMNS: seq<string> := ["absences", "Absences", "absence_days", "Class"]
  /** The exam-score columns, in the order they are tried. */
  const SCORE_COLUMNS: seq<string> := ["G1", "G2", "G3", "grade", "Grade", "marks", "Marks"]

  /** Python truthiness of a number: zero is replaced by the default. */
  function OrIfZero(v: real, default: real): (r: real)
    ensures v != 0.0 ==> r == v
    ensures v == 0.0 ==> r == default
  {
    if v != 0.0 then v else default
  }

  // Text tests on a cell. The text of a number (digits, sign, point,
  // exponent) contains none of the letters these tests look for.

  predicate UpperHasF(c: Cell) {
    c.Str? && Text.Contains(Text.Upper(c.s), "F")
  }

  predicate UpperIs(c: Cell, t: string) {
    c.Str? && Text.Upper(c.s) == t
  }

  predicate LowerHas(c: Cell, t: string) {
    c.Str? && Text.Contains(Text.Lower(c.s), t)
  }

  /** The grade column, or grades 8, 9, 10 in turn by row. */
  function GradeOf(idx: nat, row: Row): (r: Option<int>)
    ensures "grade" !in row ==> r.Some? && 8 <= r.value <= 10
    ensures "grade" in row ==> r == AsInt(row["grade"])
  {
    if "grade" in row then AsInt(row["grade"]) else Some(8 + idx % 3)
  }

  /** The age column, or ages 13 to 16 in turn by row. */
  function AgeOf(idx: nat, row: Row): (r: Option<int>)
    ensures "age" !in row ==> r.Some? && 13 <= r.value <= 16
    ensures "age" in row ==> r == AsInt(row["age"])
  {
    if "age" in row then AsInt(row["age"]) else Some(13 + idx % 4)
  }

  /** "Female" when the upper-cased gender text contains an F; without a
      gender column, even rows are female. */
  function GenderOf(idx: nat, row: Row): (g: string)
    ensures g == "Female" || g == "Male"
    ensures "gender" !in row && "Gender" !in row ==> (g == "Female" <==> idx % 2 == 0)
  {
    if "gender" in row || "Gender" in row then
      var col := if "gender" in row then "gender" else "Gender";
      if UpperHasF(row[col]) then "Female" else "Male"
    else if idx % 2 == 0 then "Female" else "Male"
  }

  /** Attendance for a performance class: H 95, M 75, anything else 50. */
  function ClassAttendance(c: Cell): real {
    if UpperIs(c, "H") then 95.0 else if UpperIs(c, "M") then 75.0 else 50.0
  }

  /** Attendance from absence days over a 180-day year, floored at 0 (`max(0, ...)`). */
  function AbsenceAttendance(absences: real): (rate: real)
    ensures 0.0 <= rate <= 100.0 || absences < 0.0
    ensures absences >= 180.0 ==> rate == 0.0
  {
    var rate := 100.0 - absences / 180.0 * 100.0;
    if rate > 0.0 then rate else 0.0
  }

  /** The rounded attendance rate, or `None` when the chosen column's cell does not convert. */
  function AttendanceOf(row: Row): (r: Option<real>)
    ensures r.None? <==> (FirstPresent(row, ATTENDANCE_COLUMNS).Some?
                          && FirstPresent(row, ATTENDANCE_COLUMNS).value != "Class"
                          && AsReal(row[FirstPresent(row, ATTENDANCE_COLUMNS).value]).None?)
    ensures FirstPresent(row, ATTENDANCE_COLUMNS).None? ==> r == Some(75.0)
  {
    Round1Exact(750);
    match FirstPresent(row, ATTENDANCE_COLUMNS)
    case None => Some(Round1(75.0))
    case Some(col) =>
      if col == "Class" then Some(Round1(ClassAttendance(row[col])))
      else
        match AsReal(row[col])
        case None => None
        case Some(a) => Some(Round1(OrIfZero(AbsenceAttendance(a), 75.0)))
  }

  /** A score above 20 is already a percentage; otherwise it is on the 0-20 scale. */
  function ScaledScore(v: real): (score: real)
    ensures v > 20.0 ==> score == v
    ensures v <= 20.0 ==> score == v * 5.0
  {
    if v > 20.0 then v else v / 20.0 * 100.0
  }

  function ExamOf(row: Row): (r: Option<real>)
    ensures r.None? <==> (FirstPresent(row, SCORE_COLUMNS).Some?
                          && AsReal(row[FirstPresent(row, SCORE_COLUMNS).value]).None?)
    ensures FirstPresent(row, SCORE_COLUMNS).None? ==> r == Some(70.0)
  {
    Round1Exact(700);
    match FirstPresent(row, SCORE_COLUMNS)
    case None => Some(Round1(70.0))
    case Some(col) =>
      match AsReal(row[col])
      case None => None
      case Some(v) => Some(Round1(OrIfZero(ScaledScore(v), 70.0)))
  }

  /** Status from the mean parental education level. */
  function EducationStatus(parentEdu: real): (status: string)
    ensures status == HIGH_STATUS <==> parentEdu > 3.0
    ensures status == MEDIUM_STATUS <==> 1.5 < parentEdu <= 3.0
    ensures status == LOW_STATUS <==> parentEdu <= 1.5
  {
    if parentEdu > 3.0 then HIGH_STATUS else if parentEdu > 1.5 then MEDIUM_STATUS else LOW_STATUS
  }


  /** Status inferred from the rounded attendance and exam score. */
  function InferredStatus(attendance: real, exam: real): (status: string)
    ensures status == HIGH_STATUS <==> attendance > 85.0 && exam > 75.0
    ensures status == MEDIUM_STATUS <==> !(attendance > 85.0 && exam > 75.0) && attendance > 70.0 && exam > 60.0
    ensures status == LOW_STATUS <==> !(attendance > 70.0 && exam > 60.0)
  {
    if attendance > 85.0 && exam > 75.0 then HIGH_STATUS
    else if attendance > 70.0 && exam > 60.0 then MEDIUM_STATUS
    else LOW_STATUS
  }

  /** The parents' education levels first, then the satisfaction survey, else
      the inference from attendance and exam; `None` only when an education
      cell does not convert. */
  function StatusOf(row: Row, attendance: real, exam: real): (r: Option<string>)
    ensures r.None? <==> "Medu" in row && "Fedu" in row && (AsReal(row["Medu"]).None? || AsReal(row["Fedu"]).None?)
    ensures r.Some? ==> r.value in [HIGH_STATUS, MEDIUM_STATUS, LOW_STATUS]
    ensures !("Medu" in row && "Fedu" in row) && "ParentschoolSatisfaction" in row ==> r.Some? && r.value != LOW_STATUS
  {
    if "Medu" in row && "Fedu" in row then
      match (AsReal(row["Medu"]), AsReal(row["Fedu"]))
      case (Some(m), Some(f)) => Some(EducationStatus((m + f) / 2.0))
      case _ => None
    else if "ParentschoolSatisfaction" in row then
      Some(if LowerHas(row["ParentschoolSatisfaction"], "good") then HIGH_STATUS else MEDIUM_STATUS)
    else Some(InferredStatus(attendance, exam))
  }

  /** Allowance from a travel time above 2, from "under" in the absence-days
      text, or else from attendance above 70. */
  function TransportOf(row: Row, attendance: real): (r: Option<bool>)
    ensures r.None? <==> "traveltime" in row && AsReal(row["traveltime"]).None?
    ensures "traveltime" !in row && "StudentAbsenceDays" !in row ==> r == Some(attendance > 70.0)
  {
    if "traveltime" in row then
      match AsReal(row["traveltime"])
      case None => None
      case Some(t) => Some(t > 2.0)
    else if "StudentAbsenceDays" in row then Some(LowerHas(row["StudentAbsenceDays"], "under"))
    else Some(attendance > 70.0)
  }

  /** Migration from a rural address, or else from low attendance with a low status. */
  function MigrationOf(row: Row, attendance: real, status: string): bool {
    if "address" in row then UpperIs(row["address"], "R")
    else attendance < 60.0 && status == LOW_STATUS
  }

  function FailuresOf(row: Row): (r: Option<int>)
    ensures "failures" !in row ==> r == Some(0)
    ensures "failures" in row ==> r == AsInt(row["failures"])
  {
    if "failures" in row then AsInt(row["failures"]) else Some(0)
  }

  /** The record of row `idx` before it is labelled, or `None` when the row is skipped. */
  function MappedFields(idx: nat, row: Row): (r: Option<DatasetRecord>)
    ensures r.Some? ==> IdentifiedBy(r.value, idx)
  {
    var grade, age, attendance, exam, failures := GradeOf(idx, row), AgeOf(idx, row), AttendanceOf(row), ExamOf(row), FailuresOf(row);
    if grade.None? || age.None? || attendance.None? || exam.None? || failures.None? then None
    else
      var status := StatusOf(row, attendance.value, exam.value);
      if status.None? then None
      else
        var transport := TransportOf(row, attendance.value);
        if transport.None? then None
        else
          Some(DatasetRecord(StudentIdFor(idx), DistrictFor(idx), grade.value, age.value, GenderOf(idx, row),
            attendance.value, exam.value, status.value, transport.value,
            MigrationOf(row, attendance.value, status.value), SocialCategoryFor(idx), failures.value, ""))
  }

  /** The labelled record of row `idx`, or `None` when the row raises. */
  function MapRow(idx: nat, row: Row): Option<DatasetRecord> {
    match MappedFields(idx, row)
    case None => None
    case Some(r) => Some(Labelled(r))
  }

  /** The row loop: each row is mapped, scored point by point, labelled and
      appended; a row that fails is skipped. */
  method MapKaggleToApFormat(rows: seq<Row>) returns (students: seq<DatasetRecord>)
    ensures students == MapIndexed(rows, MapRow)
    ensures |students| <= |rows|
  {
    students := [];
    for idx := 0 to |rows|
      invariant students == MapIndexed(rows[..idx], MapRow)
    {
      assert rows[..idx + 1][..idx] == rows[..idx];
      var fields := MappedFields(idx, rows[idx]);
      if fields.Some? {
        var riskScore := AccumulateRiskPoints(fields.value);
        students := students + [fields.value.(dropoutRisk := ClassifyRisk(riskScore))];
      }
    }
    assert rows[..|rows|] == rows;
  }

  // Properties of the mapping.

  /** A kept record carries the identity of its row and the label its points give. */
  lemma MapRowLabelled(idx: nat, row: Row)
    ensures MapRow(idx, row).Some? ==> IdentifiedBy(MapRow(idx, row).value, idx)
    ensures MapRow(idx, row).Some? ==> MapRow(idx, row).value.dropoutRisk == ClassifyRisk(RiskPoints(MapRow(idx, row).value))
  {
  }

  /** Every mapped record is labelled High, Moderate or Low from its own points,
      and no two mapped records share a student id. */
  lemma {:induction false} MappedStudents(rows: seq<Row>)
    ensures forall i :: 0 <= i < |MapIndexed(rows, MapRow)| ==>
      MapIndexed(rows, MapRow)[i].dropoutRisk == ClassifyRisk(RiskPoints(MapIndexed(rows, MapRow)[i]))
    ensures forall i :: 0 <= i < |MapIndexed(rows, MapRow)| ==> WellLabelled(MapIndexed(rows, MapRow)[i])
    ensures forall i, j :: 0 <= i < j < |MapIndexed(rows, MapRow)| ==>
      MapIndexed(rows, MapRow)[i].studentId != MapIndexed(rows, MapRow)[j].studentId
  {
    forall idx: nat, row: Row
      ensures MapRow(idx, row).Some? ==> IdentifiedBy(MapRow(idx, row).value, idx)
      ensures MapRow(idx, row).Some? ==> MapRow(idx, row).value.dropoutRisk == ClassifyRisk(RiskPoints(MapRow(idx, row).value))
    {
      MapRowLabelled(idx, row);
    }
    MapIndexedAll(rows, MapRow, (r: DatasetRecord) => r.dropoutRisk == ClassifyRisk(RiskPoints(r)));
    MapIndexedIdsDistinct(rows, MapRow);
  }

  /** Without parental columns the status follows attendance and exam: High
      above 85 and 75, Medium above 70 and 60, Low otherwise. */
  lemma InferredStatusBuckets(idx: nat, row: Row)
    requires !("Medu" in row && "Fedu" in row) && "ParentschoolSatisfaction" !in row
    requires MapRow(idx, row).Some?
    ensures var r := MapRow(idx, row).value;
      && (r.socioEconomicStatus == HIGH_STATUS <==> r.attendanceRate > 85.0 && r.examScore > 75.0)
      && (r.socioEconomicStatus == MEDIUM_STATUS <==>
            !(r.attendanceRate > 85.0 && r.examScore > 75.0) && r.attendanceRate > 70.0 && r.examScore > 60.0)
      && (r.socioEconomicStatus == LOW_STATUS <==> !(r.attendanceRate > 70.0 && r.examScore > 60.0))
  {
  }

  /** Without an address column, migration holds exactly for attendance below 60 with a Low status. */
  lemma InferredMigration(idx: nat, row: Row)
    requires "address" !in row
    requires MapRow(idx, row).Some?
    ensures var r := MapRow(idx, row).value;
      r.migrationIndicator <==> r.attendanceRate < 60.0 && r.socioEconomicStatus == LOW_STATUS
  {
  }

  /** The allowance comes from a travel time above 2, else from "under" in the
      absence-days text, else from the rounded attendance above 70; migration
      from a rural address, else from the inference above. */
  lemma FactorSources(idx: nat, row: Row)
    requires MapRow(idx, row).Some?
    ensures var r := MapRow(idx, row).value;
      && ("traveltime" in row ==> (AsReal(row["traveltime"]).Some?
                                   && (r.transportAllowanceUsed <==> AsReal(row["traveltime"]).value > 2.0)))
      && ("traveltime" !in row && "StudentAbsenceDays" in row ==>
            (r.transportAllowanceUsed <==> LowerHas(row["StudentAbsenceDays"], "under")))
      && ("traveltime" !in row && "StudentAbsenceDays" !in row ==> (r.transportAllowanceUsed <==> r.attendanceRate > 70.0))
      && ("address" in row ==> (r.migrationIndicator <==> UpperIs(row["address"], "R")))
  {
  }

  /** 180 or more absences floor the rate at 0, which counts as missing and becomes 75. */
  lemma FullAbsenceReadsAsDefault(row: Row)
    requires "absences" in row && row["absences"].Num? && row["absences"].x >= 180.0
    ensures AttendanceOf(row) == Some(Round1(75.0))
  {
    assert FirstPresent(row, ATTENDANCE_COLUMNS) == Some("absences");
  }

  /** A zero score counts as missing and becomes 70. */
  lemma ZeroScoreReadsAsDefault(row: Row)
    requires "G1" in row && row["G1"] == Num(0.0)
    ensures ExamOf(row) == Some(Round1(70.0))
  {
    assert FirstPresent(row, SCORE_COLUMNS) == Some("G1");
  }

  /** A frame with none of the optional columns is never skipped. */
  lemma BareRowKept(idx: nat, row: Row)
    requires row == map[]
    ensures MapRow(idx, row).Some?
    ensures MapRow(idx, row).value.attendanceRate == 75.0 && MapRow(idx, row).value.examScore == 70.0
  {
    Round1Exact(750);
    Round1Exact(700);
  }

  /** A cell that does not convert in the chosen score column skips the row. */
  lemma UnreadableScoreSkips(idx: nat, row: Row)
    requires "G1" in row && AsReal(row["G1"]).None?
    ensures MapRow(idx, row).None?
  {
    assert FirstPresent(row, SCORE_COLUMNS) == Some("G1");
  }
}
