/** The higher-education Kaggle mapping: attendance from the second-semester
    curricular units, exam score from the semester grades, status from the
    parents' qualifications, and the remaining factors from scholarship,
    displacement and debt columns, with attendance and exam clamped before
    rounding. A row whose cells cannot be converted is skipped. */
module ProcessKaggle {
  import opened Wrappers
  import opened Frame
  import opened Dataset

  const ENROLLED := "Curricular units 2nd sem (enrolled)"
  const EVALUATIONS := "Curricular units 2nd sem (evaluations)"
  const APPROVED := "Curricular units 2nd sem (approved)"
  const GRADE_2ND := "Curricular units 2nd sem (grade)"
  const GRADE_1ST := "Curricular units 1st sem (grade)"
  const AGE := "Age at enrollment"
  const GENDER := "Gender"
  const MOTHER_QUALIFICATION := "Mother's qualification"
  const FATHER_QUALIFICATION := "Father's qualification"
  const SCHOLARSHIP := "Scholarship holder"
  const TUITION := "Tuition fees up to date"
  const DISPLACED := "Displaced"
  const NACIONALITY := "Nacionality"
  const DEBTOR := "Debtor"
  const SPECIAL_NEEDS := "Educational special needs"


  function Min(a: real, b: real): real {
    if b < a then b else a
  }

  /** The age column, or ages 13 to 16 in turn by row. */
  function AgeOf(idx: nat, row: Row): (r: Option<int>)
    ensures AGE !in row ==> r.Some? && 13 <= r.value <= 16
    ensures AGE in row ==> r == AsInt(row[AGE])
  {
    if AGE in row then AsInt(row[AGE]) else Some(13 + idx % 4)
  }

  /** Gender code 0 is female; without the column, even rows are female. */
  function GenderOf(idx: nat, row: Row): (g: string)
    ensures g == "Female" || g == "Male"
    ensures GENDER in row ==> (g == "Female" <==> IsNumber(row[GENDER], 0.0))
    ensures GENDER !in row ==> (g == "Female" <==> idx % 2 == 0)
  {
    if GENDER in row then (if IsNumber(row[GENDER], 0.0) then "Female" else "Male")
    else if idx % 2 == 0 then "Female" else "Male"
  }

  /** Evaluations over enrolled units as a percentage capped at 100, or 75
      without enrolled units; then scaled by `0.7 + 0.3 * approved/evaluated`
      when an approved column is present and something was evaluated. `None`
      when a cell does not convert, and when the approved column is present
      but the enrolled and evaluated counts were never read. */
  function RawAttendance(row: Row): Option<real> {
    var counted := ENROLLED in row && EVALUATIONS in row;
    var enrolled := if counted then AsReal(row[ENROLLED]) else None;
    var evaluated := if counted then AsReal(row[EVALUATIONS]) else None;
    if counted && (enrolled.None? || evaluated.None?) then None
    else
      var pct := if counted && enrolled.value > 0.0 then Min(100.0, evaluated.value / enrolled.value * 100.0) else 75.0;
      if APPROVED !in row then Some(pct)
      else
        match AsReal(row[APPROVED])
        case None => None
        case Some(approved) =>
          if !counted then None
          else if evaluated.value > 0.0 then Some(pct * (0.7 + 0.3 * (approved / evaluated.value)))
          else Some(pct)
  }

  /** The raw percentage clamped to [30, 98] and rounded to one decimal. */
  function AttendanceOf(row: Row): (r: Option<real>)
    ensures r.None? <==> RawAttendance(row).None?
    ensures r.Some? ==> 30.0 <= r.value <= 98.0
  {
    match RawAttendance(row)
    case None => None
    case Some(pct) =>
      ClampRoundBounds(pct, 30, 98);
      Some(Round1(Clamp(pct, 30.0, 98.0)))
  }

  /** A 0-20 grade as a percentage, capped at 100: second semester first, then first, else 70. */
  function RawExam(row: Row): (r: Option<real>)
    ensures GRADE_2ND !in row && GRADE_1ST !in row ==> r == Some(70.0)
    ensures GRADE_2ND in row ==> (r.None? <==> AsReal(row[GRADE_2ND]).None?)
    ensures GRADE_2ND !in row && GRADE_1ST in row ==> (r.None? <==> AsReal(row[GRADE_1ST]).None?)
    ensures r.Some? ==> r.value <= 100.0
  {
    var col := if GRADE_2ND in row then Some(GRADE_2ND) else if GRADE_1ST in row then Some(GRADE_1ST) else None;
    match col
    case None => Some(70.0)
    case Some(c) =>
      match AsReal(row[c])
      case None => None
      case Some(g) => Some(Min(100.0, g / 20.0 * 100.0))
  }

  /** The raw score clamped to [25, 100] and rounded to one decimal. */
  function ExamOf(row: Row): (r: Option<real>)
    ensures r.None? <==> RawExam(row).None?
    ensures r.Some? ==> 25.0 <= r.value <= 100.0
  {
    match RawExam(row)
    case None => None
    case Some(e) =>
      ClampRoundBounds(e, 25, 100);
      Some(Round1(Clamp(e, 25.0, 100.0)))
  }

  /** A parent's qualification code, 1 when the column is absent. */
  function QualificationOf(row: Row, col: string): Option<real> {
    if col in row then AsReal(row[col]) else Some(1.0)
  }

  /** Status from the mean qualification code: High above 20, Medium above 10, else Low. */
  function QualificationStatus(avg: real): (status: string)
    ensures status == HIGH_STATUS <==> avg > 20.0
    ensures status == MEDIUM_STATUS <==> 10.0 < avg <= 20.0
    ensures status == LOW_STATUS <==> avg <= 10.0
  {
    if avg > 20.0 then HIGH_STATUS else if avg > 10.0 then MEDIUM_STATUS else LOW_STATUS
  }

  /** The status of the mean of both parents' codes; `None` when a present code does not convert. */
  function StatusOf(row: Row): (r: Option<string>)
    ensures r.None? <==> (MOTHER_QUALIFICATION in row && AsReal(row[MOTHER_QUALIFICATION]).None?)
                         || (FATHER_QUALIFICATION in row && AsReal(row[FATHER_QUALIFICATION]).None?)
    ensures r.Some? ==> r.value in [HIGH_STATUS, MEDIUM_STATUS, LOW_STATUS]
  {
    match (QualificationOf(row, MOTHER_QUALIFICATION), QualificationOf(row, FATHER_QUALIFICATION))
    case (Some(m), Some(f)) => Some(QualificationStatus((m + f) / 2.0))
    case _ => None
  }

  function TransportOf(row: Row, attendance: real): bool {
    if SCHOLARSHIP in row then IsNumber(row[SCHOLARSHIP], 1.0)
    else if TUITION in row then IsNumber(row[TUITION], 1.0)
    else attendance > 70.0
  }

  function MigrationOf(row: Row, attendance: real): bool {
    if DISPLACED in row then IsNumber(row[DISPLACED], 1.0)
    else if NACIONALITY in row then !IsNumber(row[NACIONALITY], 1.0)
    else attendance < 60.0
  }

  /** One failure for a debtor or a student with special needs, else none. */
  function FailuresOf(row: Row): (failures: int)
    ensures failures == 0 || failures == 1
  {
    if DEBTOR in row && IsNumber(row[DEBTOR], 1.0) then 1
    else if SPECIAL_NEEDS in row && IsNumber(row[SPECIAL_NEEDS], 1.0) then 1
    else 0
  }

  /** The record of row `idx` before it is labelled, or `None` when the row is skipped. */
  function MappedFields(idx: nat, row: Row): (r: Option<DatasetRecord>)
    ensures r.Some? ==> IdentifiedBy(r.value, idx)
  {
    var age, attendance, exam, status := AgeOf(idx, row), AttendanceOf(row), ExamOf(row), StatusOf(row);
    if age.None? || attendance.None? || exam.None? || status.None? then None
    else
      Some(DatasetRecord(StudentIdFor(idx), DistrictFor(idx), 8 + idx % 3, age.value, GenderOf(idx, row),
        attendance.value, exam.value, status.value, TransportOf(row, attendance.value),
        MigrationOf(row, attendance.value), SocialCategoryFor(idx), FailuresOf(row), ""))
  }

  function MapRow(idx: nat, row: Row): Option<DatasetRecord> {
    match MappedFields(idx, row)
    case None => None
    case Some(r) => Some(Labelled(r))
  }

  /** The row loop: each row is mapped, scored point by point, labelled and
      appended; a row that fails is skipped. */
  method ProcessRows(rows: seq<Row>) returns (students: seq<DatasetRecord>)
    ensures students == MapIndexed(rows, MapRow)
    ensures |students| <= |rows|
  {
    students := [];
    for idx := 0 to |rows|
      invariant students == MapIndexed(rows[..idx], MapRow)
    {
      assert rows[..idx + 1][..idx] == rows[..idx];
      var fields := MappedFields(idx, rows[idx]);
      if fields.Some? {
        var riskScore := AccumulateRiskPoints(fields.value);
        students := students + [fields.value.(dropoutRisk := ClassifyRisk(riskScore))];
      }
    }
    assert rows[..|rows|] == rows;
  }

  // Properties of the mapping.

  /** What every processed record satisfies: attendance in [30, 98], exam in
      [25, 100], failures 0 or 1, points in [0, 12], and the label its points give. */
  ghost predicate Processed(r: DatasetRecord) {
    && 30.0 <= r.attendanceRate <= 98.0
    && 25.0 <= r.examScore <= 100.0
    && (r.previousGradeFailures == 0 || r.previousGradeFailures == 1)
    && 0 <= RiskPoints(r) <= 12
    && r.dropoutRisk == ClassifyRisk(RiskPoints(r))
  }

  lemma MapRowProcessed(idx: nat, row: Row)
    ensures MapRow(idx, row).Some? ==> Processed(MapRow(idx, row).value)
    ensures MapRow(idx, row).Some? ==> IdentifiedBy(MapRow(idx, row).value, idx)
  {
  }

  /** Every processed record satisfies `Processed`, and no two share a student id. */
  lemma {:induction false} ProcessedStudents(rows: seq<Row>)
    ensures forall i :: 0 <= i < |MapIndexed(rows, MapRow)| ==> Processed(MapIndexed(rows, MapRow)[i])
    ensures forall i :: 0 <= i < |MapIndexed(rows, MapRow)| ==> WellLabelled(MapIndexed(rows, MapRow)[i])
    ensures forall i, j :: 0 <= i < j < |MapIndexed(rows, MapRow)| ==>
      MapIndexed(rows, MapRow)[i].studentId != MapIndexed(rows, MapRow)[j].studentId
  {
    forall idx: nat, row: Row
      ensures MapRow(idx, row).Some? ==> Processed(MapRow(idx, row).value)
      ensures MapRow(idx, row).Some? ==> IdentifiedBy(MapRow(idx, row).value, idx)
    {
      MapRowProcessed(idx, row);
    }
    MapIndexedAll(rows, MapRow, (r: DatasetRecord) => Processed(r));
    MapIndexedIdsDistinct(rows, MapRow);
  }

  /** An approved column without the enrolled and evaluated columns leaves
      the evaluated count unread, so every such row is skipped. */
  lemma ApprovedWithoutCountsSkips(idx: nat, row: Row)
    requires APPROVED in row && !(ENROLLED in row && EVALUATIONS in row)
    ensures MapRow(idx, row).None?
  {
  }

  /** Without qualification columns both codes are 1, so the status is Low. */
  lemma MissingQualificationsAreLow(row: Row)
    requires MOTHER_QUALIFICATION !in row && FATHER_QUALIFICATION !in row
    ensures StatusOf(row) == Some(LOW_STATUS)
  {
  }

  /** With enrolled units but nothing evaluated the ratio is 0, the approval
      factor is not applied (whatever the approved count), and the clamp raises
      the attendance to its floor of 30. */
  lemma NothingEvaluatedFloorsAttendance(row: Row)
    requires ENROLLED in row && EVALUATIONS in row
    requires AsReal(row[ENROLLED]).Some? && AsReal(row[ENROLLED]).value > 0.0
    requires AsReal(row[EVALUATIONS]) == Some(0.0)
    requires APPROVED in row ==> AsReal(row[APPROVED]).Some?
    ensures RawAttendance(row) == Some(0.0)
    ensures AttendanceOf(row) == Some(30.0)
  {
    Round1Exact(300);
  }

  /** The allowance comes from the scholarship column, else the tuition column,
      else the rounded attendance above 70; migration from the displaced column,
      else a nationality other than 1, else the rounded attendance below 60. */
  lemma FactorSources(idx: nat, row: Row)
    requires MapRow(idx, row).Some?
    ensures var r := MapRow(idx, row).value;
      && (SCHOLARSHIP in row ==> (r.transportAllowanceUsed <==> IsNumber(row[SCHOLARSHIP], 1.0)))
      && (SCHOLARSHIP !in row && TUITION in row ==> (r.transportAllowanceUsed <==> IsNumber(row[TUITION], 1.0)))
      && (SCHOLARSHIP !in row && TUITION !in row ==> (r.transportAllowanceUsed <==> r.attendanceRate > 70.0))
      && (DISPLACED in row ==> (r.migrationIndicator <==> IsNumber(row[DISPLACED], 1.0)))
      && (DISPLACED !in row && NACIONALITY in row ==> (r.migrationIndicator <==> !IsNumber(row[NACIONALITY], 1.0)))
      && (DISPLACED !in row && NACIONALITY !in row ==> (r.migrationIndicator <==> r.attendanceRate < 60.0))
  {
  }
}
