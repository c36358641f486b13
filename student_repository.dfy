/** The declared queries of the student store, read as functions over the
    stored rows in storage order. */
module StudentRepository {
  import opened Wrappers
  import opened SeqUtil
  import opened StudentEntity
  import opened RiskLabels

  /** `studentId` is a unique column: no two stored rows share one. */
  ghost predicate UniqueStudentIds(students: seq<Student>) {
    forall i, j :: 0 <= i < |students| && 0 <= j < |students| && i != j ==>
      students[i].studentId != students[j].studentId
  }

  /** The row with the given business key, if any. */
  function FindByStudentId(students: seq<Student>, id: string): (r: Option<Student>)
    ensures r.Some? ==> r.value in students && r.value.studentId == id
    ensures r.None? <==> forall i :: 0 <= i < |students| ==> students[i].studentId != id
  {
    if students == [] then None
    else if students[0].studentId == id then Some(students[0])
    else FindByStudentId(students[1..], id)
  }

  /** With unique keys, the lookup finds exactly the row that carries the key. */
  lemma {:induction false} FindByStudentIdUnique(students: seq<Student>, s: Student)
    requires UniqueStudentIds(students)
    requires s in students
    ensures FindByStudentId(students, s.studentId) == Some(s)
  {
    if students[0] != s {
      assert s in students[1..];
      assert UniqueStudentIds(students[1..]) by {
        forall i, j | 0 <= i < |students| - 1 && 0 <= j < |students| - 1 && i != j
          ensures students[1..][i].studentId != students[1..][j].studentId
        {
          assert students[1..][i] == students[i + 1] && students[1..][j] == students[j + 1];
        }
      }
      var k :| 0 <= k < |students| && students[k] == s;
      assert students[0].studentId != s.studentId;
      FindByStudentIdUnique(students[1..], s);
    }
  }

  function FindByDistrict(students: seq<Student>, district: string): (r: seq<Student>)
    ensures forall x :: x in r <==> x in students && x.district == district
  {
    Filter(students, (x: Student) => x.district == district)
  }

  function FindByDropoutRisk(students: seq<Student>, risk: string): (r: seq<Student>)
    ensures forall x :: x in r <==> x in students && x.dropoutRisk == risk
  {
    Filter(students, (x: Student) => x.dropoutRisk == risk)
  }

  /** The at-risk test of the custom query: labelled "High", or a probability at
      least the threshold; a missing probability never meets the threshold. */
  predicate AtRisk(x: Student, threshold: real) {
    x.dropoutRisk == HIGH_LABEL || (x.riskProbability.Some? && x.riskProbability.value >= threshold)
  }

  function FindHighRiskStudents(students: seq<Student>, threshold: real): (r: seq<Student>)
    ensures forall x :: x in r <==> x in students && AtRisk(x, threshold)
  {
    Filter(students, (x: Student) => AtRisk(x, threshold))
  }

  /** Every "High" row is returned whatever the threshold; a row without a
      probability is returned only when labelled "High". */
  lemma HighRiskQueryCases(students: seq<Student>, threshold: real, x: Student)
    requires x in students
    ensures x.dropoutRisk == HIGH_LABEL ==> x in FindHighRiskStudents(students, threshold)
    ensures x.riskProbability.Some? && x.riskProbability.value >= threshold ==>
      x in FindHighRiskStudents(students, threshold)
    ensures x.dropoutRisk != HIGH_LABEL && x.riskProbability.None? ==>
      x !in FindHighRiskStudents(students, threshold)
  {
  }

  function FindByDistrictAndDropoutRisk(students: seq<Student>, district: string, risk: string): (r: seq<Student>)
    ensures r == Filter(FindByDistrict(students, district), (x: Student) => x.dropoutRisk == risk)
    ensures r == Filter(FindByDropoutRisk(students, risk), (x: Student) => x.district == district)
  {
    var both := (x: Student) => x.district == district && x.dropoutRisk == risk;
    FilterConjunction(students, (x: Student) => x.district == district,
      (x: Student) => x.dropoutRisk == risk, both);
    FilterConjunction(students, (x: Student) => x.dropoutRisk == risk,
      (x: Student) => x.district == district, both);
    Filter(students, both)
  }

  function CountByDistrict(students: seq<Student>, district: string): (n: nat)
    ensures n == |FindByDistrict(students, district)|
  {
    CountIsFilterLength(students, (x: Student) => x.district == district);
    Count(students, (x: Student) => x.district == district)
  }

  function CountByDropoutRisk(students: seq<Student>, risk: string): (n: nat)
    ensures n == |FindByDropoutRisk(students, risk)|
  {
    CountIsFilterLength(students, (x: Student) => x.dropoutRisk == risk);
    Count(students, (x: Student) => x.dropoutRisk == risk)
  }

  /** The sort key of the probability query; rows without a probability never reach the sort. */
  function ProbabilityKey(x: Student): real {
    x.riskProbability.GetOr(0.0)
  }

  predicate ProbabilityAtLeast(x: Student, threshold: real) {
    x.riskProbability.Some? && x.riskProbability.value >= threshold
  }

  /** The rows whose probability reaches the threshold, highest probability first. */
  function FindByRiskProbabilityAtLeastDesc(students: seq<Student>, threshold: real): (r: seq<Student>)
    ensures multiset(r) == multiset(Filter(students, (x: Student) => ProbabilityAtLeast(x, threshold)))
    ensures forall x :: x in r <==> x in students && ProbabilityAtLeast(x, threshold)
    ensures SortedDesc(r, ProbabilityKey)
  {
    var kept := Filter(students, (x: Student) => ProbabilityAtLeast(x, threshold));
    var r := SortDesc(kept, ProbabilityKey);
    assert forall x :: x in r <==> x in kept by {
      forall x ensures x in r <==> x in kept {
        assert x in r <==> x in multiset(r);
        assert x in kept <==> x in multiset(kept);
      }
    }
    r
  }

  // The AVG aggregate skips missing scores and is absent when none remain.

  predicate HasScore(x: Student) {
    x.riskScore.Some?
  }

  function ScoreSum(students: seq<Student>): real {
    if students == [] then 0.0
    else ScoreSum(students[..|students| - 1]) + students[|students| - 1].riskScore.GetOr(0.0)
  }

  function AverageRiskScoreByDistrict(students: seq<Student>, district: string): (r: Option<real>)
    ensures r.None? <==> forall x :: x in students && x.district == district ==> x.riskScore.None?
  {
    var rows := FindByDistrict(students, district);
    CountIsFilterLength(rows, HasScore);
    var n := Count(rows, HasScore);
    if n == 0 then
      assert Filter(rows, HasScore) == [];
      None
    else
      assert Filter(rows, HasScore)[0] in rows;
      Some(ScoreSum(rows) / n as real)
  }

  /** The mean lies between the least and the largest score of the district. */
  lemma {:induction false} AverageWithinBounds(students: seq<Student>, district: string, lo: real, hi: real)
    requires forall x :: x in students && x.district == district && x.riskScore.Some? ==>
      lo <= x.riskScore.value <= hi
    requires AverageRiskScoreByDistrict(students, district).Some?
    ensures lo <= AverageRiskScoreByDistrict(students, district).value <= hi
  {
    CountIsFilterLength(FindByDistrict(students, district), HasScore);
    DistrictScoresBounded(students, district, lo, hi);
    MeanOfBounded(FindByDistrict(students, district), lo, hi);
  }

  /** The mean of scores that all lie in [lo, hi] lies in [lo, hi]. */
  lemma {:induction false} MeanOfBounded(rows: seq<Student>, lo: real, hi: real)
    requires forall i :: 0 <= i < |rows| && rows[i].riskScore.Some? ==> lo <= rows[i].riskScore.value <= hi
    requires Count(rows, HasScore) > 0
    ensures lo <= ScoreSum(rows) / Count(rows, HasScore) as real <= hi
  {
    ScoreSumBounds(rows, lo, hi);
    ScaleIsProduct(Count(rows, HasScore), lo);
    ScaleIsProduct(Count(rows, HasScore), hi);
    MeanBounds(ScoreSum(rows), Count(rows, HasScore) as real, lo, hi);
  }

  lemma DistrictScoresBounded(students: seq<Student>, district: string, lo: real, hi: real)
    requires forall x :: x in students && x.district == district && x.riskScore.Some? ==>
      lo <= x.riskScore.value <= hi
    ensures var rows := FindByDistrict(students, district);
      forall i :: 0 <= i < |rows| && rows[i].riskScore.Some? ==> lo <= rows[i].riskScore.value <= hi
  {
    var rows := FindByDistrict(students, district);
    forall i | 0 <= i < |rows| && rows[i].riskScore.Some?
      ensures lo <= rows[i].riskScore.value <= hi
    {
      assert rows[i] in rows;
    }
  }

  lemma ScoreSumSnoc(rows: seq<Student>, x: Student)
    ensures ScoreSum(rows + [x]) == ScoreSum(rows) + x.riskScore.GetOr(0.0)
  {
    assert (rows + [x])[..|rows|] == rows;
  }

  /** AVG skips NULL: the scores summed are those of the rows that have one. */
  lemma {:induction false} ScoreSumIgnoresNull(rows: seq<Student>)
    ensures ScoreSum(rows) == ScoreSum(Filter(rows, HasScore))
  {
    if rows != [] {
      var init, x := rows[..|rows| - 1], rows[|rows| - 1];
      assert rows == init + [x];
      var kept := Filter(init, HasScore);
      ScoreSumIgnoresNull(init);
      FilterSnoc(init, x, HasScore);
      if HasScore(x) {
        ScoreSumSnoc(kept, x);
        assert Filter(rows, HasScore) == kept + [x];
        assert ScoreSum(Filter(rows, HasScore)) == ScoreSum(kept) + x.riskScore.value;
      } else {
        assert Filter(rows, HasScore) == kept;
      }
    }
  }

  /** A present average is the sum of the district's non-NULL scores divided by the
      number of them: NULL scores neither add to the sum nor to the count. */
  lemma AverageIsMean(students: seq<Student>, district: string)
    requires AverageRiskScoreByDistrict(students, district).Some?
    ensures var scored := Filter(FindByDistrict(students, district), HasScore);
      |scored| > 0
      && (forall x :: x in scored <==> x in students && x.district == district && x.riskScore.Some?)
      && AverageRiskScoreByDistrict(students, district).value == ScoreSum(scored) / |scored| as real
  {
    var rows := FindByDistrict(students, district);
    CountIsFilterLength(rows, HasScore);
    ScoreSumIgnoresNull(rows);
    FilterMembers(rows, HasScore);
  }

  /** `n` copies of `v` added up; keeps the bound proofs free of products. */
  function Scale(n: nat, v: real): real {
    if n == 0 then 0.0 else Scale(n - 1, v) + v
  }

  lemma {:induction false} ScaleIsProduct(n: nat, v: real)
    ensures Scale(n, v) == n as real * v
  {
    if n > 0 {
      ScaleIsProduct(n - 1, v);
    }
  }

  /** The sum of the scores lies between count * lo and count * hi. */
  lemma {:induction false} ScoreSumBounds(rows: seq<Student>, lo: real, hi: real)
    requires forall i :: 0 <= i < |rows| && rows[i].riskScore.Some? ==> lo <= rows[i].riskScore.value <= hi
    ensures Scale(Count(rows, HasScore), lo) <= ScoreSum(rows) <= Scale(Count(rows, HasScore), hi)
  {
    if rows != [] {
      ScoreSumBounds(rows[..|rows| - 1], lo, hi);
    }
  }

  function Districts(students: seq<Student>): (r: seq<string>)
    ensures |r| == |students|
    ensures forall i :: 0 <= i < |r| ==> r[i] == students[i].district
  {
    if students == [] then [] else [students[0].district] + Districts(students[1..])
  }

  /** Each district of a stored row, once. */
  function FindAllDistricts(students: seq<Student>): (r: seq<string>)
    ensures NoDuplicates(r)
    ensures forall d :: d in r <==> exists x :: x in students && x.district == d
  {
    var all := Districts(students);
    var r := Dedup(all);
    assert forall d :: d in all <==> exists x :: x in students && x.district == d by {
      forall d ensures d in all <==> exists x :: x in students && x.district == d {
        if d in all {
          var i :| 0 <= i < |all| && all[i] == d;
          assert students[i] in students;
        }
        if exists x :: x in students && x.district == d {
          var x :| x in students && x.district == d;
          var i :| 0 <= i < |students| && students[i] == x;
          assert all[i] == d;
        }
      }
    }
    r
  }
}
