/** The declared queries of the intervention store, read as functions over the
    stored rows in storage order. */
module InterventionRepository {
  import opened Wrappers
  import opened SeqUtil
  import opened InterventionEntity

  /** The generated keys: increasing in storage order, hence unique. */
  ghost predicate IncreasingIds(rows: seq<InterventionRecord>) {
    forall i, j :: 0 <= i < j < |rows| ==> rows[i].id < rows[j].id
  }

  function DateKey(r: InterventionRecord): real {
    r.interventionDate as real
  }

  function FindById(rows: seq<InterventionRecord>, id: int): (r: Option<InterventionRecord>)
    ensures r.Some? ==> r.value in rows && r.value.id == id
    ensures r.None? <==> forall i :: 0 <= i < |rows| ==> rows[i].id != id
  {
    if rows == [] then None
    else if rows[0].id == id then Some(rows[0])
    else FindById(rows[1..], id)
  }

  /** With increasing keys, the lookup by key finds exactly the row that carries it. */
  lemma {:induction false} FindByIdUnique(rows: seq<InterventionRecord>, k: int)
    requires IncreasingIds(rows)
    requires 0 <= k < |rows|
    ensures FindById(rows, rows[k].id) == Some(rows[k])
  {
    if k > 0 {
      assert rows[0].id < rows[k].id;
      assert rows[1..][k - 1] == rows[k];
      FindByIdUnique(rows[1..], k - 1);
    }
  }

  function FindByStudentId(rows: seq<InterventionRecord>, studentId: string): (r: seq<InterventionRecord>)
    ensures forall x :: x in r <==> x in rows && x.studentId == studentId
  {
    Filter(rows, (x: InterventionRecord) => x.studentId == studentId)
  }

  /** The student's interventions, latest date first: the same rows as the unordered query. */
  function FindByStudentIdOrderByInterventionDateDesc(rows: seq<InterventionRecord>, studentId: string)
    : (r: seq<InterventionRecord>)
    ensures multiset(r) == multiset(FindByStudentId(rows, studentId))
    ensures forall x :: x in r <==> x in rows && x.studentId == studentId
    ensures SortedDesc(r, DateKey)
  {
    var r := SortDesc(FindByStudentId(rows, studentId), DateKey);
    assert forall x :: x in r <==> x in multiset(r);
    assert forall x :: x in FindByStudentId(rows, studentId) <==> x in multiset(FindByStudentId(rows, studentId));
    r
  }

  function FindByDistrict(rows: seq<InterventionRecord>, district: string): (r: seq<InterventionRecord>)
    ensures forall x :: x in r <==> x in rows && x.district == Some(district)
  {
    Filter(rows, (x: InterventionRecord) => x.district == Some(district))
  }

  function FindByStatus(rows: seq<InterventionRecord>, status: string): (r: seq<InterventionRecord>)
    ensures forall x :: x in r <==> x in rows && x.status == status
  {
    Filter(rows, (x: InterventionRecord) => x.status == status)
  }

  /** Every stored row, latest date first. */
  function FindRecentInterventions(rows: seq<InterventionRecord>): (r: seq<InterventionRecord>)
    ensures multiset(r) == multiset(rows)
    ensures SortedDesc(r, DateKey)
  {
    SortDesc(rows, DateKey)
  }

  /** The rows dated within [startDate, endDate], both ends included. */
  function FindByDateRange(rows: seq<InterventionRecord>, startDate: int, endDate: int): (r: seq<InterventionRecord>)
    ensures forall x :: x in r <==> x in rows && startDate <= x.interventionDate <= endDate
  {
    Filter(rows, (x: InterventionRecord) => startDate <= x.interventionDate <= endDate)
  }

  function CountByDistrict(rows: seq<InterventionRecord>, district: string): (n: nat)
    ensures n == |FindByDistrict(rows, district)|
  {
    CountIsFilterLength(rows, (x: InterventionRecord) => x.district == Some(district));
    Count(rows, (x: InterventionRecord) => x.district == Some(district))
  }

  function CountByStatus(rows: seq<InterventionRecord>, status: string): (n: nat)
    ensures n == |FindByStatus(rows, status)|
  {
    CountIsFilterLength(rows, (x: InterventionRecord) => x.status == status);
    Count(rows, (x: InterventionRecord) => x.status == status)
  }
}
