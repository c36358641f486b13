/** What the two preprocessing scripts share: the record they write, the
    index-based identity fields, the integer risk points with their
    classification, rounding to one decimal, and the statistics pass over the
    produced records. */
module Dataset {
  import opened Wrappers
  import opened SeqUtil
  import Text
  import opened RiskLabels

  const DISTRICTS: seq<string> := ["Visakhapatnam", "Vijayawada", "Guntur", "Tirupati", "Kakinada"]
  const SOCIAL_CATEGORIES: seq<string> := ["SC", "ST", "OBC", "General"]

  /** The socio-economic status values both scripts write. */
  const HIGH_STATUS := "High"
  const MEDIUM_STATUS := "Medium"
  const LOW_STATUS := "Low"

  /** One produced student record. */
  datatype DatasetRecord = DatasetRecord(
    studentId: string,
    district: string,
    grade: int,
    age: int,
    gender: string,
    attendanceRate: real,
    examScore: real,
    socioEconomicStatus: string,
    transportAllowanceUsed: bool,
    migrationIndicator: bool,
    socialCategory: string,
    previousGradeFailures: int,
    dropoutRisk: string)

  // Identity fields by row index.

  /** "KG" followed by the 1-based row number, zero-filled to at least four digits. */
  function StudentIdFor(idx: nat): (id: string)
    ensures |id| >= 6 && id[..2] == "KG"
  {
    Text.ParseZeroFill(Text.Decimal(idx + 1), 4);
    "KG" + Text.ZeroFill(Text.Decimal(idx + 1), 4)
  }

  /** The digits after "KG" denote the 1-based row number, so distinct rows get distinct ids. */
  lemma {:induction false} StudentIdRoundTrip(idx: nat)
    ensures Text.AllDigits(StudentIdFor(idx)[2..])
    ensures Text.AllDigits(StudentIdFor(idx)[2..]) && Text.ParseDecimal(StudentIdFor(idx)[2..]) == idx + 1
  {
    var digits := Text.Decimal(idx + 1);
    Text.ParseZeroFill(digits, 4);
    Text.ParseDecimalRoundTrip(idx + 1);
    assert StudentIdFor(idx)[2..] == Text.ZeroFill(digits, 4);
  }

  lemma StudentIdInjective(i: nat, j: nat)
    requires i != j
    ensures StudentIdFor(i) != StudentIdFor(j)
  {
    StudentIdRoundTrip(i);
    StudentIdRoundTrip(j);
  }

  /** First rows get the four-digit ids with zeros in front. */
  lemma FirstStudentId()
    ensures StudentIdFor(0) == "KG0001"
  {
    assert Text.Decimal(1) == "1";
    assert Text.Zeros(3) == "000";
  }

  /** Ids are exactly six characters long for the first 9999 rows; from row
      number 10000 on the number outgrows the zero fill. */
  lemma FourDigitIds(idx: nat)
    ensures |StudentIdFor(idx)| == 6 <==> idx < 9999
  {
    Text.DecimalLength(idx + 1, 4);
    Text.ParseZeroFill(Text.Decimal(idx + 1), 4);
    assert Text.Pow10(4) == 10000;
  }

  function DistrictFor(idx: nat): (d: string)
    ensures d in DISTRICTS
  {
    DISTRICTS[idx % |DISTRICTS|]
  }

  function SocialCategoryFor(idx: nat): (c: string)
    ensures c in SOCIAL_CATEGORIES
  {
    SOCIAL_CATEGORIES[idx % |SOCIAL_CATEGORIES|]
  }

  /** Districts repeat every five rows and categories every four. */
  lemma IdentityCycles(idx: nat)
    ensures DistrictFor(idx + 5) == DistrictFor(idx)
    ensures SocialCategoryFor(idx + 4) == SocialCategoryFor(idx)
    ensures SocialCategoryFor(idx) == (if idx % 4 == 0 then "SC" else if idx % 4 == 1 then "ST"
                                       else if idx % 4 == 2 then "OBC" else "General")
  {
  }

  // Risk points and classification.

  function AttendanceRiskPoints(rate: real): int {
    if rate < 60.0 then 3 else if rate < 75.0 then 1 else 0
  }

  function ExamRiskPoints(score: real): int {
    if score < 45.0 then 3 else if score < 65.0 then 1 else 0
  }

  /** The points of a record: attendance 3/1, exam 3/1, a "Low" status 2, no
      transport allowance 1, migration 2, plus any positive failure count. */
  function RiskPoints(r: DatasetRecord): (points: int)
    ensures points >= 0
    ensures r.previousGradeFailures <= 0 ==> points <= 11
    ensures points <= 11 + (if r.previousGradeFailures > 0 then r.previousGradeFailures else 0)
  {
    AttendanceRiskPoints(r.attendanceRate) + ExamRiskPoints(r.examScore)
    + (if r.socioEconomicStatus == LOW_STATUS then 2 else 0)
    + (if !r.transportAllowanceUsed then 1 else 0)
    + (if r.migrationIndicator then 2 else 0)
    + (if r.previousGradeFailures > 0 then r.previousGradeFailures else 0)
  }

  /** The scripts' accumulation of the points, one `+=` per factor. */
  method AccumulateRiskPoints(r: DatasetRecord) returns (riskScore: int)
    ensures riskScore == RiskPoints(r)
  {
    riskScore := 0;
    if r.attendanceRate < 60.0 {
      riskScore := riskScore + 3;
    } else if r.attendanceRate < 75.0 {
      riskScore := riskScore + 1;
    }
    if r.examScore < 45.0 {
      riskScore := riskScore + 3;
    } else if r.examScore < 65.0 {
      riskScore := riskScore + 1;
    }
    if r.socioEconomicStatus == LOW_STATUS {
      riskScore := riskScore + 2;
    }
    if !r.transportAllowanceUsed {
      riskScore := riskScore + 1;
    }
    if r.migrationIndicator {
      riskScore := riskScore + 2;
    }
    if r.previousGradeFailures > 0 {
      riskScore := riskScore + r.previousGradeFailures;
    }
  }

  function ClassifyRisk(points: int): (risk: string)
    ensures risk == HIGH_LABEL <==> points >= 6
    ensures risk == MODERATE_LABEL <==> 3 <= points < 6
    ensures risk == LOW_LABEL <==> points < 3
  {
    if points >= 6 then HIGH_LABEL else if points >= 3 then MODERATE_LABEL else LOW_LABEL
  }

  /** More points never give a lower label. */
  lemma ClassifyMonotone(a: int, b: int)
    requires a <= b
    ensures LabelRank(ClassifyRisk(a)) <= LabelRank(ClassifyRisk(b))
  {
  }

  function LabelRank(risk: string): int {
    if risk == HIGH_LABEL then 2 else if risk == MODERATE_LABEL then 1 else 0
  }

  /** The record labelled by its own points; nothing but the label changes. */
  function Labelled(r: DatasetRecord): (l: DatasetRecord)
    ensures l.dropoutRisk == ClassifyRisk(RiskPoints(l))
    ensures l.(dropoutRisk := r.dropoutRisk) == r
  {
    r.(dropoutRisk := ClassifyRisk(RiskPoints(r)))
  }

  /** Labelling an already labelled record changes nothing. */
  lemma LabelledIdempotent(r: DatasetRecord)
    ensures Labelled(Labelled(r)) == Labelled(r)
  {
  }

  // The row loop: a row whose mapping fails is skipped.

  /** A record carries the identity fields of row `idx`. */
  predicate IdentifiedBy(r: DatasetRecord, idx: nat) {
    r.studentId == StudentIdFor(idx) && r.district == DistrictFor(idx) && r.socialCategory == SocialCategoryFor(idx)
  }

  /** The mapped rows, in input order, each row mapped with its 0-based index. */
  function MapIndexed<R>(rows: seq<R>, f: (nat, R) -> Option<DatasetRecord>): (out: seq<DatasetRecord>)
    ensures |out| <= |rows|
  {
    if rows == [] then []
    else
      var init := MapIndexed(rows[..|rows| - 1], f);
      match f(|rows| - 1, rows[|rows| - 1])
      case None => init
      case Some(r) => init + [r]
  }

  /** Every kept record satisfies what the mapping promises of each record it produces. */
  lemma {:induction false} MapIndexedAll<R>(rows: seq<R>, f: (nat, R) -> Option<DatasetRecord>, p: DatasetRecord -> bool)
    requires forall idx, row :: f(idx, row).Some? ==> p(f(idx, row).value)
    ensures forall i :: 0 <= i < |MapIndexed(rows, f)| ==> p(MapIndexed(rows, f)[i])
  {
    if rows != [] {
      MapIndexedAll(rows[..|rows| - 1], f, p);
    }
  }

  /** Every kept record comes from a row at or before the end. */
  lemma {:induction false} MapIndexedSources<R>(rows: seq<R>, f: (nat, R) -> Option<DatasetRecord>)
    requires forall idx, row :: f(idx, row).Some? ==> IdentifiedBy(f(idx, row).value, idx)
    ensures forall i :: 0 <= i < |MapIndexed(rows, f)| ==>
      exists k :: 0 <= k < |rows| && MapIndexed(rows, f)[i].studentId == StudentIdFor(k)
  {
    if rows != [] {
      var init := rows[..|rows| - 1];
      MapIndexedSources(init, f);
      var prev := MapIndexed(init, f);
      assert forall i :: 0 <= i < |prev| ==> exists k :: 0 <= k < |rows| && prev[i].studentId == StudentIdFor(k) by {
        forall i | 0 <= i < |prev|
          ensures exists k :: 0 <= k < |rows| && prev[i].studentId == StudentIdFor(k)
        {
          var k :| 0 <= k < |init| && prev[i].studentId == StudentIdFor(k);
        }
      }
      var last := |rows| - 1;
      match f(last, rows[last])
      case None =>
        assert MapIndexed(rows, f) == prev;
      case Some(r) =>
        var out := MapIndexed(rows, f);
        assert out == prev + [r];
        assert out[|prev|].studentId == StudentIdFor(last);
        assert forall i :: 0 <= i < |prev| ==> out[i] == prev[i];
        assert IdentifiedBy(r, last);
        assert exists k :: 0 <= k < |rows| && out[|prev|].studentId == StudentIdFor(k);
        assert forall i :: 0 <= i < |out| ==> exists k :: 0 <= k < |rows| && out[i].studentId == StudentIdFor(k);
    } else {
      assert MapIndexed(rows, f) == [];
    }
  }

  /** When the mapping stamps each record with its row's identity, no two kept records share an id. */
  lemma {:induction false} MapIndexedIdsDistinct<R>(rows: seq<R>, f: (nat, R) -> Option<DatasetRecord>)
    requires forall idx, row :: f(idx, row).Some? ==> IdentifiedBy(f(idx, row).value, idx)
    ensures forall i, j :: 0 <= i < j < |MapIndexed(rows, f)| ==>
      MapIndexed(rows, f)[i].studentId != MapIndexed(rows, f)[j].studentId
  {
    if rows != [] {
      var init := rows[..|rows| - 1];
      MapIndexedIdsDistinct(init, f);
      MapIndexedSources(init, f);
      var prev := MapIndexed(init, f);
      var last := |rows| - 1;
      match f(last, rows[last])
      case None =>
      case Some(r) =>
        forall i | 0 <= i < |prev|
          ensures prev[i].studentId != r.studentId
        {
          var k :| 0 <= k < |init| && prev[i].studentId == StudentIdFor(k);
          StudentIdInjective(k, last);
        }
    }
  }

  // Rounding to one decimal place, ties to even, on exact values.

  function RoundedTenths(x: real): int {
    var y := x * 10.0;
    var f := y.Floor;
    var d := y - f as real;
    if d > 0.5 then f + 1
    else if d < 0.5 then f
    else if f % 2 == 0 then f
    else f + 1
  }

  function Round1(x: real): real {
    RoundedTenths(x) as real / 10.0
  }

  /** Rounding moves a value by at most half a tenth. */
  lemma Round1Error(x: real)
    ensures -0.05 <= Round1(x) - x <= 0.05
  {
    var y := x * 10.0;
    var n := RoundedTenths(x);
    assert -0.5 <= n as real - y <= 0.5;
  }

  /** Rounding preserves order. */
  lemma Round1Monotone(x: real, y: real)
    requires x <= y
    ensures Round1(x) <= Round1(y)
  {
    assert (x * 10.0).Floor <= (y * 10.0).Floor;
    assert RoundedTenths(x) <= RoundedTenths(y);
  }

  /** A value with one decimal place is left as it is. */
  lemma Round1Exact(k: int)
    ensures Round1(k as real / 10.0) == k as real / 10.0
  {
    assert (k as real / 10.0) * 10.0 == k as real;
  }

  /** A value clamped to [lo, hi] stays in [lo, hi] after rounding, when both bounds are whole numbers. */
  lemma ClampRoundBounds(x: real, lo: int, hi: int)
    requires lo <= hi
    ensures lo as real <= Round1(Clamp(x, lo as real, hi as real)) <= hi as real
  {
    var c := Clamp(x, lo as real, hi as real);
    Round1Monotone(lo as real, c);
    Round1Monotone(c, hi as real);
    Round1Exact(lo * 10);
    Round1Exact(hi * 10);
    assert (lo * 10) as real / 10.0 == lo as real;
    assert (hi * 10) as real / 10.0 == hi as real;
  }

  /** `max(lo, min(hi, x))`. */
  function Clamp(x: real, lo: real, hi: real): (c: real)
    requires lo <= hi
    ensures lo <= c <= hi
    ensures lo <= x <= hi ==> c == x
  {
    if x < lo then lo else if x > hi then hi else x
  }

  // The statistics pass.

  datatype DistrictTally = DistrictTally(total: int, highRisk: int, moderateRisk: int, lowRisk: int)

  predicate WellLabelled(r: DatasetRecord) {
    r.dropoutRisk == HIGH_LABEL || r.dropoutRisk == MODERATE_LABEL || r.dropoutRisk == LOW_LABEL
  }

  predicate InDistrict(r: DatasetRecord, d: string) {
    r.district == d
  }

  function DistrictsOf(students: seq<DatasetRecord>): (ds: seq<string>)
    ensures |ds| == |students|
    ensures forall i :: 0 <= i < |ds| ==> ds[i] == students[i].district
  {
    if students == [] then [] else DistrictsOf(students[..|students| - 1]) + [students[|students| - 1].district]
  }

  /** A tally with one more record carrying `risk`. */
  function Bump(t: DistrictTally, risk: string): DistrictTally {
    DistrictTally(t.total + 1,
      t.highRisk + (if risk == HIGH_LABEL then 1 else 0),
      t.moderateRisk + (if risk == MODERATE_LABEL then 1 else 0),
      t.lowRisk + (if risk == LOW_LABEL then 1 else 0))
  }

  /** A district's tally, record by record. */
  function TallyOf(students: seq<DatasetRecord>, d: string): DistrictTally {
    if students == [] then DistrictTally(0, 0, 0, 0)
    else
      var t := TallyOf(students[..|students| - 1], d);
      var s := students[|students| - 1];
      if s.district == d then Bump(t, s.dropoutRisk) else t
  }

  /** The district's records, in order. */
  function RowsIn(students: seq<DatasetRecord>, d: string): seq<DatasetRecord> {
    Filter(students, (r: DatasetRecord) => InDistrict(r, d))
  }

  /** The number of records carrying `risk`. */
  function LabelCount(students: seq<DatasetRecord>, risk: string): nat {
    Count(students, (r: DatasetRecord) => r.dropoutRisk == risk)
  }

  lemma RowsInSnoc(students: seq<DatasetRecord>, s: DatasetRecord, d: string)
    ensures RowsIn(students + [s], d) == RowsIn(students, d) + (if s.district == d then [s] else [])
  {
    FilterSnoc(students, s, (r: DatasetRecord) => InDistrict(r, d));
  }

  lemma LabelCountSnoc(students: seq<DatasetRecord>, s: DatasetRecord, risk: string)
    ensures LabelCount(students + [s], risk) == LabelCount(students, risk) + (if s.dropoutRisk == risk then 1 else 0)
  {
    CountSnoc(students, s, (r: DatasetRecord) => r.dropoutRisk == risk);
  }

  /** A tally counts the district's records, and within them each label. */
  lemma {:induction false} TallyOfCounts(students: seq<DatasetRecord>, d: string)
    ensures TallyOf(students, d) == DistrictTally(|RowsIn(students, d)|,
      LabelCount(RowsIn(students, d), HIGH_LABEL), LabelCount(RowsIn(students, d), MODERATE_LABEL), LabelCount(RowsIn(students, d), LOW_LABEL))
  {
    if students == [] {
      assert RowsIn(students, d) == [];
    } else {
      var init, s := students[..|students| - 1], students[|students| - 1];
      assert students == init + [s];
      TallyOfCounts(init, d);
      RowsInSnoc(init, s, d);
      if s.district == d {
        var rows := RowsIn(init, d);
        LabelCountSnoc(rows, s, HIGH_LABEL);
        LabelCountSnoc(rows, s, MODERATE_LABEL);
        LabelCountSnoc(rows, s, LOW_LABEL);
      } else {
        assert RowsIn(students, d) == RowsIn(init, d);
        assert TallyOf(students, d) == TallyOf(init, d);
      }
    }
  }

  /** For well-labelled records the three label counters add up to the number of records. */
  lemma {:induction false} LabelCountsAddUp(students: seq<DatasetRecord>)
    requires forall i :: 0 <= i < |students| ==> WellLabelled(students[i])
    ensures LabelCount(students, HIGH_LABEL) + LabelCount(students, MODERATE_LABEL) + LabelCount(students, LOW_LABEL) == |students|
  {
    if students != [] {
      var init, s := students[..|students| - 1], students[|students| - 1];
      assert students == init + [s];
      LabelCountsAddUp(init);
      LabelCountSnoc(init, s, HIGH_LABEL);
      LabelCountSnoc(init, s, MODERATE_LABEL);
      LabelCountSnoc(init, s, LOW_LABEL);
    }
  }

  /** For well-labelled records the three label counts add up to the total. */
  lemma {:induction false} TallyAddsUp(students: seq<DatasetRecord>, d: string)
    requires forall i :: 0 <= i < |students| ==> WellLabelled(students[i])
    ensures var t := TallyOf(students, d); t.highRisk + t.moderateRisk + t.lowRisk == t.total
  {
    if students != [] {
      TallyAddsUp(students[..|students| - 1], d);
    }
  }

  /** Sum of the totals of the listed districts. */
  function SumTotals(keys: seq<string>, stats: map<string, DistrictTally>): int
    requires forall k :: k in keys ==> k in stats
  {
    if keys == [] then 0
    else SumTotals(keys[..|keys| - 1], stats) + stats[keys[|keys| - 1]].total
  }

  /** `districts` lists the districts of `prefix` in order of first
      appearance, `stats` holds exactly their tallies, and the totals add up
      to the number of records. */
  ghost predicate DistrictsTallied(prefix: seq<DatasetRecord>, stats: map<string, DistrictTally>, districts: seq<string>) {
    && districts == Dedup(DistrictsOf(prefix))
    && (forall d :: d in stats <==> d in districts)
    && (forall d :: d in stats ==> stats[d] == TallyOf(prefix, d))
    && SumTotals(districts, stats) == |prefix|
  }

  /** `counts` holds one counter per label, each the number of records of `prefix` with that label. */
  ghost predicate LabelsCounted(prefix: seq<DatasetRecord>, counts: map<string, int>) {
    && counts.Keys == {HIGH_LABEL, MODERATE_LABEL, LOW_LABEL}
    && forall k :: k in counts ==> counts[k] == LabelCount(prefix, k)
  }

  /** Counting one more record keeps the label counters in step. */
  lemma LabelsCountedStep(prefix: seq<DatasetRecord>, s: DatasetRecord, counts: map<string, int>, counts': map<string, int>)
    requires LabelsCounted(prefix, counts)
    requires counts'.Keys == counts.Keys
    requires forall k :: k in counts ==> counts'[k] == counts[k] + (if k == s.dropoutRisk then 1 else 0)
    ensures LabelsCounted(prefix + [s], counts')
  {
    forall k {
      LabelCountSnoc(prefix, s, k);
    }
  }

  /** One pass over the records: a counter per label, and per district (in
      order of first appearance) its total and its per-label counts. */
  method TallyStatistics(students: seq<DatasetRecord>)
    returns (riskCounts: map<string, int>, districtStats: map<string, DistrictTally>, districts: seq<string>)
    requires forall i :: 0 <= i < |students| ==> WellLabelled(students[i])
    ensures riskCounts.Keys == {HIGH_LABEL, MODERATE_LABEL, LOW_LABEL}
    ensures riskCounts[HIGH_LABEL] == LabelCount(students, HIGH_LABEL)
    ensures riskCounts[MODERATE_LABEL] == LabelCount(students, MODERATE_LABEL)
    ensures riskCounts[LOW_LABEL] == LabelCount(students, LOW_LABEL)
    ensures districts == Dedup(DistrictsOf(students))
    ensures forall d :: d in districtStats <==> d in districts
    ensures forall d :: d in districtStats ==> districtStats[d] == TallyOf(students, d)
    ensures SumTotals(districts, districtStats) == |students|
  {
    riskCounts := map[HIGH_LABEL := 0, MODERATE_LABEL := 0, LOW_LABEL := 0];
    districtStats := map[];
    districts := [];
    var i := 0;
    while i < |students|
      invariant 0 <= i <= |students|
      invariant LabelsCounted(students[..i], riskCounts)
      invariant DistrictsTallied(students[..i], districtStats, districts)
    {
      var s := students[i];
      assert students[..i + 1] == students[..i] + [s];
      assert WellLabelled(s);
      ghost var counts0 := riskCounts;
      riskCounts := CountLabel(riskCounts, s.dropoutRisk);
      LabelsCountedStep(students[..i], s, counts0, riskCounts);
      ghost var stats0, districts0 := districtStats, districts;
      districtStats, districts := CountInDistrict(districtStats, districts, s);
      DistrictsTalliedStep(students[..i], s, stats0, districts0, districtStats, districts);
      i := i + 1;
    }
    assert students[..i] == students;
  }

  /** The per-label counter: the record's label gains one, the others stay. */
  method CountLabel(counts: map<string, int>, risk: string) returns (counts': map<string, int>)
    requires counts.Keys == {HIGH_LABEL, MODERATE_LABEL, LOW_LABEL}
    requires risk in counts
    ensures counts'.Keys == counts.Keys
    ensures forall k :: k in counts ==> counts'[k] == counts[k] + (if k == risk then 1 else 0)
  {
    counts' := counts[risk := counts[risk] + 1];
  }

  /** Counting one more record keeps the district tallies in step. */
  lemma {:induction false} DistrictsTalliedStep(prefix: seq<DatasetRecord>, s: DatasetRecord,
      stats: map<string, DistrictTally>, districts: seq<string>,
      stats': map<string, DistrictTally>, districts': seq<string>)
    requires DistrictsTallied(prefix, stats, districts)
    requires districts' == if s.district in districts then districts else districts + [s.district]
    requires stats' == stats[s.district := Bump(if s.district in stats then stats[s.district] else DistrictTally(0, 0, 0, 0), s.dropoutRisk)]
    requires SumTotals(districts', stats') == SumTotals(districts, stats) + 1
    ensures DistrictsTallied(prefix + [s], stats', districts')
  {
    var whole := prefix + [s];
    assert whole[..|whole| - 1] == prefix;
    DistrictOrderStep(prefix, s);
    forall d | d in stats'
      ensures stats'[d] == TallyOf(whole, d)
    {
      assert TallyOf(whole, d) == if d == s.district then Bump(TallyOf(prefix, d), s.dropoutRisk) else TallyOf(prefix, d);
      if d != s.district {
        assert stats'[d] == stats[d];
      } else if d in stats {
        assert stats'[d] == Bump(stats[d], s.dropoutRisk);
      } else {
        assert stats'[d] == Bump(DistrictTally(0, 0, 0, 0), s.dropoutRisk);
        assert d !in DistrictsOf(prefix);
        TallyOfAbsent(prefix, d);
      }
    }
  }

  /** A district that no record names has the empty tally. */
  lemma {:induction false} TallyOfAbsent(students: seq<DatasetRecord>, d: string)
    requires d !in DistrictsOf(students)
    ensures TallyOf(students, d) == DistrictTally(0, 0, 0, 0)
  {
    if students != [] {
      var init := students[..|students| - 1];
      var ds := DistrictsOf(students);
      assert ds[..|ds| - 1] == DistrictsOf(init);
      TallyOfAbsent(init, d);
    }
  }

  /** The per-district part of one step: a district seen for the first time
      is appended with an empty tally, then its tally counts the record. */
  method CountInDistrict(stats: map<string, DistrictTally>, districts: seq<string>, s: DatasetRecord)
    returns (stats': map<string, DistrictTally>, districts': seq<string>)
    requires forall d :: d in stats <==> d in districts
    requires NoDuplicates(districts)
    ensures districts' == if s.district in districts then districts else districts + [s.district]
    ensures stats' == stats[s.district := Bump(if s.district in stats then stats[s.district] else DistrictTally(0, 0, 0, 0), s.dropoutRisk)]
    ensures SumTotals(districts', stats') == SumTotals(districts, stats) + 1
  {
    stats', districts' := stats, districts;
    var d := s.district;
    if d !in stats' {
      FreshDistrict(stats', districts', d);
      stats' := stats'[d := DistrictTally(0, 0, 0, 0)];
      districts' := districts' + [d];
    }
    var t := CountRecord(stats'[d], s.dropoutRisk);
    SumTotalsUpdate(districts', stats', d, t);
    stats' := stats'[d := t];
  }

  /** Counting one record in a district's tally: its total, and the counter
      named after the record's label. */
  method CountRecord(t: DistrictTally, risk: string) returns (t': DistrictTally)
    ensures t' == Bump(t, risk)
  {
    t' := t.(total := t.total + 1);
    if risk == HIGH_LABEL {
      t' := t'.(highRisk := t'.highRisk + 1);
    } else if risk == MODERATE_LABEL {
      t' := t'.(moderateRisk := t'.moderateRisk + 1);
    } else if risk == LOW_LABEL {
      t' := t'.(lowRisk := t'.lowRisk + 1);
    }
  }

  lemma {:induction false} DistrictOrderStep(prefix: seq<DatasetRecord>, s: DatasetRecord)
    ensures DistrictsOf(prefix + [s]) == DistrictsOf(prefix) + [s.district]
    ensures Dedup(DistrictsOf(prefix + [s])) ==
      if s.district in DistrictsOf(prefix) then Dedup(DistrictsOf(prefix)) else Dedup(DistrictsOf(prefix)) + [s.district]
    ensures s.district in DistrictsOf(prefix) <==> s.district in Dedup(DistrictsOf(prefix))
  {
    var whole := prefix + [s];
    assert whole[..|whole| - 1] == prefix;
    var ds := DistrictsOf(whole);
    assert ds[..|ds| - 1] == DistrictsOf(prefix);
  }

  /** Listing a district not yet seen, with an empty tally, keeps the
      listing duplicate-free, in step with the map, and the sum unchanged. */
  lemma FreshDistrict(stats: map<string, DistrictTally>, districts: seq<string>, d: string)
    requires forall k :: k in stats <==> k in districts
    requires NoDuplicates(districts)
    requires d !in stats
    ensures NoDuplicates(districts + [d])
    ensures forall k :: k in stats[d := DistrictTally(0, 0, 0, 0)] <==> k in districts + [d]
    ensures SumTotals(districts + [d], stats[d := DistrictTally(0, 0, 0, 0)]) == SumTotals(districts, stats)
  {
    SumTotalsFresh(districts, stats, d, DistrictTally(0, 0, 0, 0));
    var ds := districts + [d];
    assert forall k :: 0 <= k < |districts| ==> ds[k] == districts[k] && districts[k] != d;
  }

  /** Adding a district not yet listed adds its total to the sum. */
  lemma {:induction false} SumTotalsFresh(keys: seq<string>, stats: map<string, DistrictTally>, k: string, t: DistrictTally)
    requires forall x :: x in keys ==> x in stats
    requires k !in stats
    ensures SumTotals(keys + [k], stats[k := t]) == SumTotals(keys, stats) + t.total
  {
    SumTotalsFrame(keys, stats, stats[k := t]);
    assert (keys + [k])[..|keys|] == keys;
  }

  /** The sum only reads the listed districts' tallies. */
  lemma {:induction false} SumTotalsFrame(keys: seq<string>, a: map<string, DistrictTally>, b: map<string, DistrictTally>)
    requires forall x :: x in keys ==> x in a && x in b && a[x] == b[x]
    ensures SumTotals(keys, a) == SumTotals(keys, b)
  {
    if keys != [] {
      SumTotalsFrame(keys[..|keys| - 1], a, b);
    }
  }

  /** Replacing the tally of a district listed once changes the sum by the change in its total. */
  lemma {:induction false} SumTotalsUpdate(keys: seq<string>, stats: map<string, DistrictTally>, k: string, t: DistrictTally)
    requires forall x :: x in keys ==> x in stats
    requires NoDuplicates(keys)
    requires k in keys
    ensures SumTotals(keys, stats[k := t]) == SumTotals(keys, stats) - stats[k].total + t.total
  {
    var init, last := keys[..|keys| - 1], keys[|keys| - 1];
    assert forall i, j :: 0 <= i < j < |init| ==> init[i] == keys[i] && init[j] == keys[j];
    if last == k {
      assert forall i :: 0 <= i < |init| ==> init[i] != last;
      SumTotalsFrame(init, stats, stats[k := t]);
    } else {
      assert k in init by {
        var i :| 0 <= i < |keys| && keys[i] == k;
        assert i < |keys| - 1;
        assert init[i] == k;
      }
      SumTotalsUpdate(init, stats, k, t);
    }
  }
}
