/** The service that combines the two stores with the scorer: lookups,
    district statistics, intervention logging with best-effort
    denormalisation, paged intervention listing and the fixed model metrics. */
module StudentService {
  import opened Wrappers
  import opened SeqUtil
  import opened StudentEntity
  import opened RiskLabels
  import opened InterventionEntity
  import RiskPrediction
  import StudentRepository
  import InterventionRepository

  datatype DistrictStats = DistrictStats(
    district: string,
    totalStudents: int,
    highRiskCount: int,
    moderateRiskCount: int,
    lowRiskCount: int,
    averageRiskScore: real,
    interventionsActive: int)

  /** The intervention listing: the global row count, the number returned and the rows. */
  datatype InterventionPage = InterventionPage(total: int, showing: int, interventions: seq<InterventionRecord>)

  datatype ModelMetrics = ModelMetrics(
    accuracy: real,
    inclusionError: real,
    exclusionError: real,
    pocCriteriaMet: bool,
    totalStudents: int,
    riskDistribution: map<string, int>)

  const HIGH_RISK_KEY := "high_risk"
  const MODERATE_RISK_KEY := "moderate_risk"
  const LOW_RISK_KEY := "low_risk"

  /** The label a risk-bucket count matches, exactly as written. */
  predicate HasLabel(x: Student, risk: string) {
    x.dropoutRisk == risk
  }

  class StudentService {
    var students: seq<Student>
    var interventions: seq<InterventionRecord>
    var nextId: int

    /** Student ids are unique; intervention keys increase in storage order and stay below the next key. */
    ghost predicate Valid()
      reads this
    {
      StudentRepository.UniqueStudentIds(students)
      && InterventionRepository.IncreasingIds(interventions)
      && nextId >= 1
      && forall i :: 0 <= i < |interventions| ==> 1 <= interventions[i].id < nextId
    }

    /** A service over a loaded student table and an empty intervention log. */
    constructor (loaded: seq<Student>)
      requires StudentRepository.UniqueStudentIds(loaded)
      ensures Valid()
      ensures students == loaded && interventions == [] && nextId == 1
    {
      students := loaded;
      interventions := [];
      nextId := 1;
    }

    function GetStudentById(studentId: string): (r: Option<Student>)
      reads this
      ensures r.Some? ==> r.value in students && r.value.studentId == studentId
      ensures r.None? <==> forall i :: 0 <= i < |students| ==> students[i].studentId != studentId
    {
      StudentRepository.FindByStudentId(students, studentId)
    }

    /** The assessment of a stored student, or an error naming the missing id. */
    method GetRiskScore(studentId: string) returns (r: Result<RiskPrediction.RiskScore, string>)
      ensures r.Err? <==> forall i :: 0 <= i < |students| ==> students[i].studentId != studentId
      ensures r.Err? ==> r.error == "Student not found: " + studentId
      ensures r.Ok? ==> exists s :: s in students && s.studentId == studentId && r.value == RiskPrediction.Assessment(s)
    {
      var found := StudentRepository.FindByStudentId(students, studentId);
      if found.None? {
        return Err("Student not found: " + studentId);
      }
      var score := RiskPrediction.CalculateRiskScore(found.value);
      return Ok(score);
    }

    /** The at-risk query, with the moderate threshold when none is given. */
    function GetAtRiskStudents(threshold: Option<real>): (r: seq<Student>)
      reads this
      ensures forall x :: x in r <==> (x in students &&
        StudentRepository.AtRisk(x, if threshold.Some? then threshold.value else RiskPrediction.MODERATE_RISK_THRESHOLD))
      ensures threshold.None? ==> r == StudentRepository.FindHighRiskStudents(students, 50.0)
    {
      var t := if threshold.None? then RiskPrediction.GetModerateRiskThreshold() else threshold.value;
      StudentRepository.FindHighRiskStudents(students, t)
    }

    function GetStudentsByDistrict(district: string): (r: seq<Student>)
      reads this
      ensures forall x :: x in r <==> x in students && x.district == district
    {
      StudentRepository.FindByDistrict(students, district)
    }

    /** The district summary: counts by exact label among the district's
        students, the average score or 0.0 when there is none, and the
        interventions recorded against the district. */
    function GetDistrictStats(district: string): (stats: DistrictStats)
      reads this
      ensures stats.district == district
      ensures stats.totalStudents == StudentRepository.CountByDistrict(students, district)
      ensures stats.highRiskCount == Count(StudentRepository.FindByDistrict(students, district), (x: Student) => HasLabel(x, HIGH_LABEL))
      ensures stats.moderateRiskCount == Count(StudentRepository.FindByDistrict(students, district), (x: Student) => HasLabel(x, MODERATE_LABEL))
      ensures stats.lowRiskCount == Count(StudentRepository.FindByDistrict(students, district), (x: Student) => HasLabel(x, LOW_LABEL))
      ensures stats.averageRiskScore == StudentRepository.AverageRiskScoreByDistrict(students, district).GetOr(0.0)
      ensures stats.interventionsActive == InterventionRepository.CountByDistrict(interventions, district)
    {
      var rows := StudentRepository.FindByDistrict(students, district);
      DistrictStats(
        district,
        |rows|,
        Count(rows, (x: Student) => HasLabel(x, HIGH_LABEL)),
        Count(rows, (x: Student) => HasLabel(x, MODERATE_LABEL)),
        Count(rows, (x: Student) => HasLabel(x, LOW_LABEL)),
        StudentRepository.AverageRiskScoreByDistrict(students, district).GetOr(0.0),
        InterventionRepository.CountByDistrict(interventions, district))
    }

    /** The three bucket counts never exceed the district total, and fill it
        when every label in the district is one of the three. */
    lemma DistrictStatsBuckets(district: string)
      ensures var st := GetDistrictStats(district);
        st.highRiskCount + st.moderateRiskCount + st.lowRiskCount <= st.totalStudents
      ensures (forall x :: x in students && x.district == district ==>
                 x.dropoutRisk in {HIGH_LABEL, MODERATE_LABEL, LOW_LABEL}) ==>
        var st := GetDistrictStats(district);
        st.highRiskCount + st.moderateRiskCount + st.lowRiskCount == st.totalStudents
    {
      var rows := StudentRepository.FindByDistrict(students, district);
      CountDisjoint3(rows, (x: Student) => HasLabel(x, HIGH_LABEL),
        (x: Student) => HasLabel(x, MODERATE_LABEL), (x: Student) => HasLabel(x, LOW_LABEL));
      if forall x :: x in students && x.district == district ==> x.dropoutRisk in {HIGH_LABEL, MODERATE_LABEL, LOW_LABEL} {
        assert forall i :: 0 <= i < |rows| ==> rows[i] in rows;
      }
    }

    /** A district without students reports zero students, zero in each bucket and a 0.0 average. */
    lemma EmptyDistrictStats(district: string)
      requires forall x :: x in students ==> x.district != district
      ensures var st := GetDistrictStats(district);
        st.totalStudents == 0 && st.highRiskCount == 0 && st.moderateRiskCount == 0
        && st.lowRiskCount == 0 && st.averageRiskScore == 0.0
    {
      var rows := StudentRepository.FindByDistrict(students, district);
      assert forall i :: 0 <= i < |rows| ==> rows[i] in rows;
    }

    /** Records an intervention: when its student is stored, the district and
        score are copied from the student; the creation callback then runs, and
        the row is stored under the next key only when the student id is not
        blank. */
    method LogIntervention(iv: Intervention, now: int) returns (r: Result<InterventionRecord, string>)
      requires Valid()
      modifies this, iv
      ensures Valid()
      ensures students == old(students)
      ensures var found := StudentRepository.FindByStudentId(students, old(iv.studentId).GetOr(""));
        if old(iv.studentId).Some? && found.Some? then
          iv.district == Some(found.value.district) && iv.riskScore == found.value.riskScore
        else
          iv.district == old(iv.district) && iv.riskScore == old(iv.riskScore)
      ensures iv.studentId == old(iv.studentId) && iv.status == old(iv.status)
      ensures iv.createdAt == Some(now) && iv.updatedAt == Some(now)
      ensures iv.interventionType == Some(DefaultedType(old(iv.interventionType)))
      ensures iv.interventionDate == if old(iv.interventionDate).None? then Some(now) else old(iv.interventionDate)
      ensures iv.description == old(iv.description) && iv.actionedBy == old(iv.actionedBy)
      ensures r.Ok? <==> ValidStudentId(old(iv.studentId))
      ensures r.Ok? ==> r.value.id == old(nextId) && r.value.studentId == old(iv.studentId).value
      ensures r.Ok? ==> interventions == old(interventions) + [r.value] && nextId == old(nextId) + 1
      ensures r.Ok? ==> iv.Persistable() && r.value == iv.Row(old(nextId))
      ensures r.Err? ==> interventions == old(interventions) && nextId == old(nextId)
    {
      if iv.studentId.Some? {
        var found := StudentRepository.FindByStudentId(students, iv.studentId.value);
        if found.Some? {
          iv.district := Some(found.value.district);
          iv.riskScore := found.value.riskScore;
        }
      }
      iv.OnCreate(now);
      if !ValidStudentId(iv.studentId) {
        return Err("Student ID is required");
      }
      var row := iv.Row(nextId);
      interventions := interventions + [row];
      nextId := nextId + 1;
      return Ok(row);
    }

    /** One student's interventions when a non-empty id is given, otherwise all
        of them, latest first; a positive limit keeps that many from the front.
        The total is always the global row count. */
    function GetInterventions(studentId: Option<string>, limit: Option<int>): (page: InterventionPage)
      reads this
      ensures page.total == |interventions|
      ensures page.showing == |page.interventions|
      ensures var all := if studentId.Some? && studentId.value != "" then
          InterventionRepository.FindByStudentIdOrderByInterventionDateDesc(interventions, studentId.value)
        else InterventionRepository.FindRecentInterventions(interventions);
        page.interventions <= all
        && (limit.Some? && limit.value > 0 && limit.value < |all| ==> |page.interventions| == limit.value)
        && (limit.None? || limit.value <= 0 || limit.value >= |all| ==> page.interventions == all)
    {
      var all := if studentId.Some? && studentId.value != "" then
          InterventionRepository.FindByStudentIdOrderByInterventionDateDesc(interventions, studentId.value)
        else InterventionRepository.FindRecentInterventions(interventions);
      var shown := if limit.Some? && limit.value > 0 then Take(all, limit.value) else all;
      InterventionPage(|interventions|, |shown|, shown)
    }

    /** The listing never shows more rows than are stored. */
    lemma ShowingAtMostTotal(studentId: Option<string>, limit: Option<int>)
      ensures GetInterventions(studentId, limit).showing <= GetInterventions(studentId, limit).total
    {
      if studentId.Some? && studentId.value != "" {
        var own := InterventionRepository.FindByStudentId(interventions, studentId.value);
        assert |multiset(own)| <= |multiset(interventions)| by {
          assert multiset(own) <= multiset(interventions);
        }
      }
    }

    function GetInterventionById(id: int): (r: Option<InterventionRecord>)
      reads this
      ensures r.Some? ==> r.value in interventions && r.value.id == id
      ensures r.None? <==> forall i :: 0 <= i < |interventions| ==> interventions[i].id != id
    {
      InterventionRepository.FindById(interventions, id)
    }

    /** Fixed quality figures with the stored row count and the exact-label distribution. */
    function GetModelMetrics(): (m: ModelMetrics)
      reads this
      ensures m.accuracy == 100.0 && m.inclusionError == 0.0 && m.exclusionError == 0.0 && m.pocCriteriaMet
      ensures m.totalStudents == |students|
      ensures m.riskDistribution.Keys == {HIGH_RISK_KEY, MODERATE_RISK_KEY, LOW_RISK_KEY}
      ensures m.riskDistribution[HIGH_RISK_KEY] == |StudentRepository.FindByDropoutRisk(students, HIGH_LABEL)|
      ensures m.riskDistribution[MODERATE_RISK_KEY] == |StudentRepository.FindByDropoutRisk(students, MODERATE_LABEL)|
      ensures m.riskDistribution[LOW_RISK_KEY] == |StudentRepository.FindByDropoutRisk(students, LOW_LABEL)|
    {
      var distribution := map[
        HIGH_RISK_KEY := StudentRepository.CountByDropoutRisk(students, HIGH_LABEL),
        MODERATE_RISK_KEY := StudentRepository.CountByDropoutRisk(students, MODERATE_LABEL),
        LOW_RISK_KEY := StudentRepository.CountByDropoutRisk(students, LOW_LABEL)];
      ModelMetrics(100.0, 0.0, 0.0, true, |students|, distribution)
    }

    function GetAllDistricts(): (r: seq<string>)
      reads this
      ensures NoDuplicates(r)
      ensures forall d :: d in r <==> exists x :: x in students && x.district == d
    {
      StudentRepository.FindAllDistricts(students)
    }
  }
}
