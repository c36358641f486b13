/** The intervention entity of the Spring back end: a mutable object whose
    persistence callbacks fill defaults and timestamps, and the row it becomes
    once stored. Times are instants on an integer clock supplied by the caller. */
module InterventionEntity {
  import opened Wrappers
  import Text

  const PENDING_STATUS := "pending"
  const DEFAULT_TYPE := "Counseling"

  /** A stored intervention row; every column the callbacks fill is present. */
  datatype InterventionRecord = InterventionRecord(
    id: int,
    studentId: string,
    interventionType: string,
    description: Option<string>,
    actionedBy: Option<string>,
    district: Option<string>,
    riskScore: Option<real>,
    status: string,
    interventionDate: int,
    createdAt: int,
    updatedAt: int)

  /** The student id constraint: present and not blank. */
  predicate ValidStudentId(id: Option<string>) {
    id.Some? && Text.NotBlank(id.value)
  }

  /** The type kept by the creation callback: the default replaces only a missing or empty type. */
  function DefaultedType(t: Option<string>): (r: string)
    ensures t.Some? && t.value != "" ==> r == t.value
    ensures t.None? || t.value == "" ==> r == DEFAULT_TYPE
  {
    if t.None? || t.value == "" then DEFAULT_TYPE else t.value
  }

  /** Defaulting twice changes nothing more than defaulting once, and the result is never empty. */
  lemma DefaultedTypeIdempotent(t: Option<string>)
    ensures DefaultedType(Some(DefaultedType(t))) == DefaultedType(t)
    ensures DefaultedType(t) != ""
  {
  }

  /** A whitespace-only type is not empty, so it is kept as supplied: only
      emptiness is tested, not blankness. */
  lemma WhitespaceTypeKept(t: string)
    requires t != "" && !Text.NotBlank(t)
    ensures DefaultedType(Some(t)) == t
    ensures DefaultedType(Some(t)) != DEFAULT_TYPE
  {
    assert DEFAULT_TYPE[0] > ' ';
  }

  /** Missing, empty and whitespace-only ids all violate the constraint; any visible character meets it. */
  lemma StudentIdConstraintCases(id: string)
    ensures !ValidStudentId(None)
    ensures !ValidStudentId(Some(""))
    ensures !ValidStudentId(Some("  "))
    ensures |id| > 0 && id[0] > ' ' ==> ValidStudentId(Some(id))
  {
  }

  class Intervention {
    var studentId: Option<string>
    var interventionType: Option<string>
    var description: Option<string>
    var actionedBy: Option<string>
    var district: Option<string>
    var riskScore: Option<real>
    var status: string
    var interventionDate: Option<int>
    var createdAt: Option<int>
    var updatedAt: Option<int>

    /** A fresh intervention: every column empty except the status, which starts pending. */
    constructor ()
      ensures studentId.None? && interventionType.None? && description.None? && actionedBy.None?
      ensures district.None? && riskScore.None?
      ensures interventionDate.None? && createdAt.None? && updatedAt.None?
      ensures status == PENDING_STATUS
    {
      studentId, interventionType, description, actionedBy := None, None, None, None;
      district, riskScore := None, None;
      status := PENDING_STATUS;
      interventionDate, createdAt, updatedAt := None, None, None;
    }

    /** The creation callback: both timestamps become `now`, a missing date
        becomes `now`, a missing or empty type becomes the default, and no other
        field changes. */
    method OnCreate(now: int)
      modifies this
      ensures createdAt == Some(now) && updatedAt == Some(now)
      ensures interventionDate == if old(interventionDate).None? then Some(now) else old(interventionDate)
      ensures interventionType.Some? && interventionType.value == DefaultedType(old(interventionType))
      ensures studentId == old(studentId) && description == old(description) && actionedBy == old(actionedBy)
      ensures district == old(district) && riskScore == old(riskScore) && status == old(status)
    {
      createdAt := Some(now);
      updatedAt := Some(now);
      if interventionDate.None? {
        interventionDate := Some(now);
      }
      if interventionType.None? || interventionType.value == "" {
        interventionType := Some(DEFAULT_TYPE);
      }
    }

    /** The update callback: only the update time moves. */
    method OnUpdate(now: int)
      modifies this
      ensures updatedAt == Some(now)
      ensures createdAt == old(createdAt) && interventionDate == old(interventionDate)
      ensures interventionType == old(interventionType) && studentId == old(studentId)
      ensures description == old(description) && actionedBy == old(actionedBy)
      ensures district == old(district) && riskScore == old(riskScore) && status == old(status)
    {
      updatedAt := Some(now);
    }

    /** Everything a stored row needs: a valid student id and the columns the creation callback fills. */
    predicate Persistable()
      reads this
    {
      ValidStudentId(studentId) && interventionType.Some? && interventionDate.Some?
      && createdAt.Some? && updatedAt.Some?
    }

    /** The row stored for this object under the generated key `id`. */
    function Row(id: int): (r: InterventionRecord)
      reads this
      requires Persistable()
      ensures r.id == id && Some(r.studentId) == studentId && Some(r.interventionType) == interventionType
      ensures r.description == description && r.actionedBy == actionedBy
      ensures r.district == district && r.riskScore == riskScore && r.status == status
      ensures Some(r.interventionDate) == interventionDate && Some(r.createdAt) == createdAt
      ensures Some(r.updatedAt) == updatedAt
    {
      InterventionRecord(id, studentId.value, interventionType.value, description, actionedBy,
        district, riskScore, status, interventionDate.value, createdAt.value, updatedAt.value)
    }
  }
}
