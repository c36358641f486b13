/** The dashboard component: the at-risk list last received from the server,
    narrowed to the selected district, the four counters shown above it, and
    the intervention form whose contents become a request to the server. */
module Dashboard {
  import opened Wrappers
  import opened SeqUtil
  import Text
  import opened RiskLabels

  const ALL := "all"

  datatype Student = Student(id: string, risk: string, probability: real, district: string, grade: int,
                             reasons: seq<string>, recommendations: seq<string>)

  datatype InterventionRequest = InterventionRequest(studentId: string, action: string, actionedBy: string,
                                                     timestamp: string)

  /** The students shown for a district choice: all of them for "all", otherwise
      those of that district in the order received. */
  function Visible(all: seq<Student>, district: string): (r: seq<Student>)
    ensures district == ALL ==> r == all
    ensures district != ALL ==> forall s :: s in r <==> s in all && s.district == district
  {
    if district == ALL then all else Filter(all, (s: Student) => s.district == district)
  }

  /** Order is kept: a student appended to the list is shown after every student
      shown before, exactly when it is shown at all. */
  lemma VisibleSnoc(all: seq<Student>, s: Student, district: string)
    ensures Visible(all + [s], district) == Visible(all, district) + (if district == ALL || s.district == district then [s] else [])
  {
    if district != ALL {
      FilterSnoc(all, s, (x: Student) => x.district == district);
    }
  }

  function LabelCount(students: seq<Student>, risk: string): nat {
    Count(students, (s: Student) => s.risk == risk)
  }

  /** A label is counted once, so the three counters never exceed the total. */
  lemma {:induction false} LabelCountsBounded(students: seq<Student>)
    ensures LabelCount(students, HIGH_LABEL) + LabelCount(students, MODERATE_LABEL) + LabelCount(students, LOW_LABEL) <= |students|
  {
    CountDisjoint3(students, (s: Student) => s.risk == HIGH_LABEL, (s: Student) => s.risk == MODERATE_LABEL,
      (s: Student) => s.risk == LOW_LABEL);
  }

  /** `risk.toLowerCase() + '-risk'`. */
  function GetRiskClass(risk: string): (r: string)
    ensures |r| == |risk| + 5 && r[|risk|..] == "-risk"
    ensures forall i :: 0 <= i < |risk| ==> r[i] == Text.LowerChar(risk[i])
  {
    Text.Lower(risk) + "-risk"
  }

  /** `'risk-badge ' + risk.toLowerCase()`. */
  function GetRiskBadgeClass(risk: string): (r: string)
    ensures |r| == |risk| + 11 && r[..11] == "risk-badge "
    ensures forall i :: 0 <= i < |risk| ==> r[11 + i] == Text.LowerChar(risk[i])
  {
    "risk-badge " + Text.Lower(risk)
  }

  /** Both class names ignore case: two labels get the same class exactly when they
      are equal ignoring case. */
  lemma RiskClassesIgnoreCase(a: string, b: string)
    ensures GetRiskClass(a) == GetRiskClass(b) <==> Text.EqualsIgnoreCase(a, b)
    ensures GetRiskBadgeClass(a) == GetRiskBadgeClass(b) <==> Text.EqualsIgnoreCase(a, b)
  {
    if GetRiskClass(a) == GetRiskClass(b) {
      assert Text.Lower(a) == GetRiskClass(a)[..|a|];
      assert Text.Lower(b) == GetRiskClass(b)[..|b|];
    }
    if GetRiskBadgeClass(a) == GetRiskBadgeClass(b) {
      assert Text.Lower(a) == GetRiskBadgeClass(a)[11..];
      assert Text.Lower(b) == GetRiskBadgeClass(b)[11..];
    }
  }

  /** The request the form sends, or `None` when the student id or the action is empty;
      an empty officer is sent as "Teacher". */
  function RequestFor(studentId: string, action: string, officer: string, now: string): (r: Option<InterventionRequest>)
    ensures r.None? <==> studentId == "" || action == ""
    ensures r.Some? ==> r.value.studentId == studentId && r.value.action == action && r.value.timestamp == now
    ensures r.Some? ==> r.value.actionedBy == if officer == "" then "Teacher" else officer
  {
    if studentId == "" || action == "" then None
    else Some(InterventionRequest(studentId, action, if officer != "" then officer else "Teacher", now))
  }

  class AppComponent {
    var totalStudents: int
    var highRiskCount: int
    var moderateRiskCount: int
    var lowRiskCount: int
    var selectedDistrict: string
    var selectedThreshold: int
    var allStudents: seq<Student>
    var filteredStudents: seq<Student>
    var interventionStudentId: string
    var interventionAction: string
    var interventionOfficer: string

    /** The counters agree with the shown list. */
    ghost predicate Consistent()
      reads this
    {
      && filteredStudents == Visible(allStudents, selectedDistrict)
      && totalStudents == |filteredStudents|
      && highRiskCount == LabelCount(filteredStudents, HIGH_LABEL)
      && moderateRiskCount == LabelCount(filteredStudents, MODERATE_LABEL)
      && lowRiskCount == LabelCount(filteredStudents, LOW_LABEL)
    }

    constructor ()
      ensures Consistent()
      ensures selectedDistrict == ALL && selectedThreshold == 50
      ensures allStudents == [] && totalStudents == 0
      ensures interventionStudentId == "" && interventionAction == "" && interventionOfficer == ""
    {
      totalStudents, highRiskCount, moderateRiskCount, lowRiskCount := 0, 0, 0, 0;
      selectedDistrict, selectedThreshold := ALL, 50;
      allStudents, filteredStudents := [], [];
      interventionStudentId, interventionAction, interventionOfficer := "", "", "";
    }

    /** Recomputes the shown list from the received one and the district choice. */
    method FilterStudents()
      modifies this
      ensures filteredStudents == Visible(allStudents, selectedDistrict)
      ensures allStudents == old(allStudents) && selectedDistrict == old(selectedDistrict)
      ensures totalStudents == old(totalStudents) && highRiskCount == old(highRiskCount)
      ensures moderateRiskCount == old(moderateRiskCount) && lowRiskCount == old(lowRiskCount)
      ensures selectedThreshold == old(selectedThreshold)
      ensures interventionStudentId == old(interventionStudentId) && interventionAction == old(interventionAction)
      ensures interventionOfficer == old(interventionOfficer)
    {
      if selectedDistrict == ALL {
        filteredStudents := allStudents;
      } else {
        var district := selectedDistrict;
        filteredStudents := Filter(allStudents, (s: Student) => s.district == district);
      }
    }

    /** Recomputes the four counters from the shown list. */
    method UpdateStatistics()
      modifies this
      ensures totalStudents == |filteredStudents|
      ensures highRiskCount == LabelCount(filteredStudents, HIGH_LABEL)
      ensures moderateRiskCount == LabelCount(filteredStudents, MODERATE_LABEL)
      ensures lowRiskCount == LabelCount(filteredStudents, LOW_LABEL)
      ensures highRiskCount + moderateRiskCount + lowRiskCount <= totalStudents
      ensures allStudents == old(allStudents) && filteredStudents == old(filteredStudents)
      ensures selectedDistrict == old(selectedDistrict) && selectedThreshold == old(selectedThreshold)
      ensures interventionStudentId == old(interventionStudentId) && interventionAction == old(interventionAction)
      ensures interventionOfficer == old(interventionOfficer)
    {
      totalStudents := |filteredStudents|;
      highRiskCount := LabelCount(filteredStudents, HIGH_LABEL);
      moderateRiskCount := LabelCount(filteredStudents, MODERATE_LABEL);
      lowRiskCount := LabelCount(filteredStudents, LOW_LABEL);
      LabelCountsBounded(filteredStudents);
    }

    /** A new district choice re-derives the shown list and the counters; the received list is kept. */
    method OnDistrictChange()
      modifies this
      ensures Consistent()
      ensures allStudents == old(allStudents) && selectedDistrict == old(selectedDistrict)
      ensures selectedThreshold == old(selectedThreshold)
      ensures interventionStudentId == old(interventionStudentId) && interventionAction == old(interventionAction)
      ensures interventionOfficer == old(interventionOfficer)
    {
      FilterStudents();
      UpdateStatistics();
    }

    /** The at-risk list arrived: it replaces the received list, then the shown list and counters follow. */
    method OnStudentsLoaded(students: seq<Student>)
      modifies this
      ensures Consistent()
      ensures allStudents == students && selectedDistrict == old(selectedDistrict)
      ensures selectedThreshold == old(selectedThreshold)
      ensures interventionStudentId == old(interventionStudentId) && interventionAction == old(interventionAction)
      ensures interventionOfficer == old(interventionOfficer)
    {
      allStudents := students;
      FilterStudents();
      UpdateStatistics();
    }

    /** Prefills the form for a student with a parent meeting. */
    method QuickIntervention(studentId: string)
      modifies this
      ensures interventionStudentId == studentId && interventionAction == "Parent meeting scheduled"
      ensures interventionOfficer == old(interventionOfficer)
      ensures allStudents == old(allStudents) && filteredStudents == old(filteredStudents)
      ensures selectedDistrict == old(selectedDistrict) && selectedThreshold == old(selectedThreshold)
      ensures totalStudents == old(totalStudents) && highRiskCount == old(highRiskCount)
      ensures moderateRiskCount == old(moderateRiskCount) && lowRiskCount == old(lowRiskCount)
    {
      interventionStudentId := studentId;
      interventionAction := "Parent meeting scheduled";
    }

    /** The request built from the form, if it passes validation; `now` is the clock. */
    method LogIntervention(now: string) returns (request: Option<InterventionRequest>)
      ensures request == RequestFor(interventionStudentId, interventionAction, interventionOfficer, now)
      ensures request.None? <==> interventionStudentId == "" || interventionAction == ""
    {
      if interventionStudentId == "" || interventionAction == "" {
        return None;
      }
      var actionedBy := if interventionOfficer != "" then interventionOfficer else "Teacher";
      request := Some(InterventionRequest(interventionStudentId, interventionAction, actionedBy, now));
    }

    /** The server accepted the intervention: the student id and action are cleared, the officer kept. */
    method OnInterventionRecorded()
      modifies this
      ensures interventionStudentId == "" && interventionAction == ""
      ensures interventionOfficer == old(interventionOfficer)
      ensures allStudents == old(allStudents) && filteredStudents == old(filteredStudents)
      ensures selectedDistrict == old(selectedDistrict) && selectedThreshold == old(selectedThreshold)
      ensures totalStudents == old(totalStudents) && highRiskCount == old(highRiskCount)
      ensures moderateRiskCount == old(moderateRiskCount) && lowRiskCount == old(lowRiskCount)
    {
      interventionStudentId := "";
      interventionAction := "";
    }
  }

  /** After a successful log the form is cleared, so logging again sends nothing
      until the id and the action are entered anew. */
  method ClearedFormSendsNothing(c: AppComponent, now: string) returns (request: Option<InterventionRequest>)
    modifies c
    ensures request.None?
    ensures c.interventionStudentId == "" && c.interventionAction == ""
    ensures c.interventionOfficer == old(c.interventionOfficer)
  {
    c.OnInterventionRecorded();
    request := c.LogIntervention(now);
  }
}
