/** The original prototype server over a fixed table of four risk entries:
    the risk of one student (with a Low fallback for an unknown id), the
    entries at or above a probability threshold sorted by probability, the
    statistics of one district, and the echo of a logged intervention. */
module ServerOriginal {
  import opened Wrappers
  import opened SeqUtil
  import Text
  import opened RiskLabels


  /** A risk entry; the fallback entry has neither district nor grade. */
  datatype Entry = Entry(risk: string, probability: int, district: Option<string>, grade: Option<int>,
                         reasons: seq<string>, recommendations: seq<string>)

  /** The table in its insertion order, which is the order `Object.entries` and `Object.values` visit it. */
  const RISK_SCORES: seq<(string, Entry)> := [
    ("ST001", Entry(HIGH_LABEL, 95, Some("Visakhapatnam"), Some(9),
      ["Low attendance (45%)", "Below-average exam scores (35)", "Low socio-economic status",
       "Transport allowance not utilized", "Seasonal migrant family", "Female student (higher dropout risk)",
       "Belongs to ST/SC category"],
      ["Immediate parent-teacher meeting", "Provide transport support", "Enroll in remedial classes",
       "Connect with community volunteers"])),
    ("ST002", Entry(LOW_LABEL, 12, Some("Guntur"), Some(10),
      ["Excellent attendance (92%)", "Strong academic performance"], ["Continue monitoring"])),
    ("ST003", Entry(HIGH_LABEL, 88, Some("Visakhapatnam"), Some(9),
      ["Very low attendance (38%)", "Poor exam performance (28)", "Migrant family background"],
      ["Urgent intervention required", "Home visit by school counselor", "Financial assistance assessment"])),
    ("ST005", Entry(MODERATE_LABEL, 65, Some("Krishna"), Some(10),
      ["Moderate attendance (50%)", "Below-average scores (42)", "Low socio-economic background"],
      ["Weekly progress monitoring", "Peer tutoring program", "Check transport allowance status"]))
  ]

  const FALLBACK := Entry(LOW_LABEL, 10, None, None, ["No major issues"], ["Continue regular monitoring"])

  // The risk handler.

  predicate HasKey(table: seq<(string, Entry)>, id: string) {
    exists i :: 0 <= i < |table| && table[i].0 == id
  }

  /** The entry stored under `id`: the first pair with that key. */
  function Lookup(table: seq<(string, Entry)>, id: string): (r: Option<Entry>)
    ensures r.Some? <==> HasKey(table, id)
    ensures r.Some? ==> (id, r.value) in table
  {
    if table == [] then None
    else if table[0].0 == id then Some(table[0].1)
    else
      var rest := Lookup(table[1..], id);
      assert HasKey(table[1..], id) ==> HasKey(table, id) by {
        if HasKey(table[1..], id) {
          var i :| 0 <= i < |table[1..]| && table[1..][i].0 == id;
          assert table[i + 1].0 == id;
        }
      }
      assert HasKey(table, id) && table[0].0 != id ==> HasKey(table[1..], id) by {
        if HasKey(table, id) && table[0].0 != id {
          var i :| 0 <= i < |table| && table[i].0 == id;
          assert i > 0 && table[1..][i - 1].0 == id;
        }
      }
      rest
  }

  /** The entry of a known id; any other id gets the Low fallback with probability 10, never an error. */
  function StudentRisk(table: seq<(string, Entry)>, id: string): (r: Entry)
    ensures HasKey(table, id) ==> (id, r) in table
    ensures !HasKey(table, id) ==> r == FALLBACK && r.risk == LOW_LABEL && r.probability == 10
  {
    Lookup(table, id).GetOr(FALLBACK)
  }

  /** The ids of the table are distinct, so a known id has exactly one entry. */
  lemma KnownIdsDistinct()
    ensures forall i, j :: 0 <= i < j < |RISK_SCORES| ==> RISK_SCORES[i].0 != RISK_SCORES[j].0
  {
  }

  /** Any id other than the four in the table, ST004 among them, is answered
      with the fallback. */
  lemma MissingIdFallsBack(id: string)
    requires id != "ST001" && id != "ST002" && id != "ST003" && id != "ST005"
    ensures StudentRisk(RISK_SCORES, id) == FALLBACK
  {
    assert !HasKey(RISK_SCORES, id) by {
      forall i | 0 <= i < |RISK_SCORES| ensures RISK_SCORES[i].0 != id {
        assert RISK_SCORES[i].0 in ["ST001", "ST002", "ST003", "ST005"];
      }
    }
  }

  // The at-risk handler.

  /** `req.query.threshold || 50`: an absent or empty query gives the number 50; any
      other text is kept as text and echoed back as sent. */
  datatype Threshold = Number(n: int) | Text(s: string)

  function ThresholdOf(query: Option<string>): (t: Threshold)
    ensures t.Number? <==> query.None? || query.value == ""
    ensures t.Number? ==> t.n == 50
    ensures t.Text? ==> query == Some(t.s)
  {
    if query.None? || query.value == "" then Number(50) else Text(query.value)
  }

  /** `probability >= threshold`: a text threshold compares as the number its digits
      spell, and a text that is not a number compares false. */
  predicate Reaches(probability: int, t: Threshold) {
    match t
    case Number(n) => probability >= n
    case Text(s) => |s| > 0 && Text.AllDigits(s) && probability >= Text.ParseDecimal(s)
  }

  /** An entry with its id: `{ id, ...data }`. */
  datatype AtRiskView = AtRiskView(id: string, entry: Entry)

  datatype AtRiskResponse = AtRiskResponse(count: int, threshold: Threshold, students: seq<AtRiskView>)

  function ViewOf(p: (string, Entry)): AtRiskView {
    AtRiskView(p.0, p.1)
  }

  function Probability(v: AtRiskView): real {
    v.entry.probability as real
  }

  /** The views of the pairs that reach the threshold, in table order. */
  function Qualifying(table: seq<(string, Entry)>, t: Threshold): (r: seq<AtRiskView>)
    ensures forall v :: v in r <==> (v.id, v.entry) in table && Reaches(v.entry.probability, t)
    ensures |r| <= |table|
  {
    if table == [] then []
    else
      var rest := Qualifying(table[1..], t);
      assert forall p :: p in table <==> p == table[0] || p in table[1..];
      if Reaches(table[0].1.probability, t) then [ViewOf(table[0])] + rest else rest
  }

  /** When no entry reaches the threshold, nothing qualifies. */
  lemma {:induction false} QualifyingNone(table: seq<(string, Entry)>, t: Threshold)
    requires forall i :: 0 <= i < |table| ==> !Reaches(table[i].1.probability, t)
    ensures Qualifying(table, t) == []
  {
    if table != [] {
      QualifyingNone(table[1..], t);
    }
  }

  /** The entries reaching the threshold, by non-increasing probability, with their count. */
  function AtRisk(table: seq<(string, Entry)>, query: Option<string>): (r: AtRiskResponse)
    ensures r.count == |r.students| && r.threshold == ThresholdOf(query)
    ensures forall v :: v in r.students <==> (v.id, v.entry) in table && Reaches(v.entry.probability, r.threshold)
    ensures SortedDesc(r.students, Probability)
    ensures multiset(r.students) == multiset(Qualifying(table, ThresholdOf(query)))
  {
    var t := ThresholdOf(query);
    var kept := Qualifying(table, t);
    var sorted := SortDesc(kept, Probability);
    assert forall v :: v in sorted <==> v in kept by {
      forall v ensures v in sorted <==> v in kept {
        assert v in sorted <==> v in multiset(sorted);
        assert v in kept <==> v in multiset(kept);
      }
    }
    AtRiskResponse(|sorted|, t, sorted)
  }

  /** The query "0" is a non-empty text, so it is not replaced by 50: every entry
      with a non-negative probability is listed. */
  lemma ZeroQueryListsAll(table: seq<(string, Entry)>, p: (string, Entry))
    requires p in table && p.1.probability >= 0
    ensures ViewOf(p) in AtRisk(table, Some("0")).students
  {
    assert Text.ParseDecimal("0") == 0;
  }

  /** With text thresholds read as numbers only when they are digit runs, a
      query that is not a run of digits compares false against every
      probability: nothing is listed. */
  lemma NonNumericQueryListsNone(table: seq<(string, Entry)>, query: string)
    requires query != "" && !Text.AllDigits(query)
    ensures AtRisk(table, Some(query)).count == 0
  {
    QualifyingNone(table, Text(query));
  }

  // The district handler.

  datatype DistrictStatsView = DistrictStatsView(district: string, totalStudents: int, highRisk: int,
                                                 moderateRisk: int, lowRisk: int, averageRiskProbability: real)

  function Values(table: seq<(string, Entry)>): (r: seq<Entry>)
    ensures |r| == |table|
    ensures forall i :: 0 <= i < |table| ==> r[i] == table[i].1
  {
    if table == [] then [] else [table[0].1] + Values(table[1..])
  }

  function InDistrict(e: Entry, name: string): bool {
    e.district == Some(name)
  }

  function ProbabilitySum(rows: seq<Entry>): int {
    if rows == [] then 0 else ProbabilitySum(rows[..|rows| - 1]) + rows[|rows| - 1].probability
  }

  /** The entries of the table in the district. */
  function RowsIn(table: seq<(string, Entry)>, name: string): seq<Entry> {
    Filter(Values(table), (e: Entry) => InDistrict(e, name))
  }

  function LabelCount(rows: seq<Entry>, risk: string): nat {
    Count(rows, (e: Entry) => e.risk == risk)
  }

  /** The mean probability of the rows; `0 / 0` is NaN, which `|| 0` turns into 0. */
  function Mean(rows: seq<Entry>): real {
    if rows == [] then 0.0 else ProbabilitySum(rows) as real / |rows| as real
  }

  /** The mean of percentages is a percentage. */
  lemma MeanIsPercentage(rows: seq<Entry>)
    requires forall i :: 0 <= i < |rows| ==> 0 <= rows[i].probability <= 100
    ensures 0.0 <= Mean(rows) <= 100.0
  {
    if rows != [] {
      ProbabilitySumBounds(rows);
      MeanBounds(ProbabilitySum(rows) as real, |rows| as real, 0.0, 100.0);
    }
  }

  /** The counts over the entries in the district and their mean probability. */
  function DistrictStats(table: seq<(string, Entry)>, name: string): (r: DistrictStatsView)
    ensures r.totalStudents == |RowsIn(table, name)|
    ensures r.totalStudents == 0 <==> forall i :: 0 <= i < |table| ==> table[i].1.district != Some(name)
    ensures r.highRisk == LabelCount(RowsIn(table, name), HIGH_LABEL)
    ensures r.moderateRisk == LabelCount(RowsIn(table, name), MODERATE_LABEL)
    ensures r.lowRisk == LabelCount(RowsIn(table, name), LOW_LABEL)
    ensures r.averageRiskProbability == Mean(RowsIn(table, name))
  {
    var values := Values(table);
    var rows := RowsIn(table, name);
    if |rows| == 0 then
      assert forall i :: 0 <= i < |table| ==> table[i].1.district != Some(name) by {
        forall i | 0 <= i < |table| ensures table[i].1.district != Some(name) {
          assert values[i] in values;
        }
      }
      DistrictStatsView(name, 0, LabelCount(rows, HIGH_LABEL), LabelCount(rows, MODERATE_LABEL), LabelCount(rows, LOW_LABEL), Mean(rows))
    else
      assert rows[0] in values;
      DistrictStatsView(name, |rows|, LabelCount(rows, HIGH_LABEL), LabelCount(rows, MODERATE_LABEL), LabelCount(rows, LOW_LABEL), Mean(rows))
  }

  /** Every probability of the table lies in [0, 100]. */
  ghost predicate Percentages(table: seq<(string, Entry)>) {
    forall i :: 0 <= i < |table| ==> 0 <= table[i].1.probability <= 100
  }

  /** The fixed table holds percentages. */
  lemma RiskScoresArePercentages()
    ensures Percentages(RISK_SCORES)
  {
  }

  /** The label counts never exceed the total. */
  lemma DistrictCountsBounded(table: seq<(string, Entry)>, name: string)
    ensures var r := DistrictStats(table, name); r.highRisk + r.moderateRisk + r.lowRisk <= r.totalStudents
  {
    CountDisjoint3(RowsIn(table, name), (e: Entry) => e.risk == HIGH_LABEL, (e: Entry) => e.risk == MODERATE_LABEL,
      (e: Entry) => e.risk == LOW_LABEL);
  }

  /** Over a table of percentages the district's average lies within [0, 100]. */
  lemma DistrictAverageBounded(table: seq<(string, Entry)>, name: string)
    requires Percentages(table)
    ensures 0.0 <= DistrictStats(table, name).averageRiskProbability <= 100.0
  {
    RowsInPercentages(table, name);
    MeanIsPercentage(RowsIn(table, name));
  }

  /** The entries of a district of a percentage table are percentages. */
  lemma RowsInPercentages(table: seq<(string, Entry)>, name: string)
    requires Percentages(table)
    ensures forall i :: 0 <= i < |RowsIn(table, name)| ==> 0 <= RowsIn(table, name)[i].probability <= 100
  {
    var values := Values(table);
    forall i | 0 <= i < |RowsIn(table, name)| ensures 0 <= RowsIn(table, name)[i].probability <= 100 {
      var e := RowsIn(table, name)[i];
      assert e in values;
      var k :| 0 <= k < |values| && values[k] == e;
    }
  }

  lemma {:induction false} ProbabilitySumBounds(rows: seq<Entry>)
    requires forall i :: 0 <= i < |rows| ==> 0 <= rows[i].probability <= 100
    ensures 0 <= ProbabilitySum(rows) <= 100 * |rows|
  {
    if rows != [] {
      ProbabilitySumBounds(rows[..|rows| - 1]);
    }
  }

  // The intervention handler.

  datatype InterventionRecord = InterventionRecord(studentId: Option<string>, action: Option<string>,
                                                   actionedBy: string, timestamp: string, status: string)

  datatype InterventionResponse = InterventionResponse(status: string, intervention: InterventionRecord, message: string)

  /** `value || fallback` on a body field: an absent or empty text falls back. */
  function OrDefault(value: Option<string>, fallback: string): (r: string)
    ensures value.Some? && value.value != "" ==> r == value.value
    ensures value.None? || value.value == "" ==> r == fallback
  {
    if value.Some? && value.value != "" then value.value else fallback
  }

  /** The echoed intervention: the officer, else "Teacher"; the given timestamp, else `now`; always "logged". */
  function LogIntervention(studentId: Option<string>, action: Option<string>, actionedBy: Option<string>,
                           timestamp: Option<string>, now: string): (r: InterventionResponse)
    ensures r.status == "success" && r.intervention.status == "logged"
    ensures r.intervention.studentId == studentId && r.intervention.action == action
    ensures r.intervention.actionedBy == OrDefault(actionedBy, "Teacher")
    ensures r.intervention.timestamp == OrDefault(timestamp, now)
  {
    InterventionResponse("success",
      InterventionRecord(studentId, action, OrDefault(actionedBy, "Teacher"), OrDefault(timestamp, now), "logged"),
      "Intervention recorded successfully. Community and parents will be notified.")
  }

  /** Without an officer the intervention is recorded as actioned by "Teacher". */
  lemma AnonymousInterventionByTeacher(studentId: Option<string>, action: Option<string>, timestamp: Option<string>, now: string)
    ensures LogIntervention(studentId, action, None, timestamp, now).intervention.actionedBy == "Teacher"
    ensures LogIntervention(studentId, action, Some(""), timestamp, now).intervention.actionedBy == "Teacher"
  {
  }
}
