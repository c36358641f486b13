# Dropout early-warning system: a verified model

The system flags school students at risk of dropping out. This project models its core in Dafny:

- **Risk scoring.** The Spring Boot service scores seven factors: attendance, exam score, socio-economic status, transport allowance, migration, gender and social category. The total lies between 0 and 100. A score of 70 or more is High, 50 or more is Moderate, anything lower is Low, and each factor that fires adds a reason.
- **Entities.** The `Student` and `Intervention` entities. A student's level is derived from its stored probability. Intervention creation stamps the clock and fills in defaults.
- **Repositories.** Both repositories are modelled as queries over sequences of rows.
- **Service.** The aggregations of `StudentService`: district statistics, paged intervention lists, model metrics and the district list.
- **Dataset preparation.** The two Kaggle scripts turn rows of a data frame into labelled student records:
  - `kaggle_integration.py` reads school-performance columns;
  - `process_kaggle_data.py` reads higher-education curricular-unit columns.

  Both relabel each record from a 0–12 point count and summarise the result by label and district. Python's `x or default`, `int()` truncation and `round(x, 1)` are written out explicitly.
- **Node servers.**
  - `server_kaggle.js` builds reasons, probabilities and recommendations from the dataset. It answers the student, at-risk, district and intervention endpoints.
  - `server_original.js` serves a fixed four-entry table. Its threshold stays a string, with JavaScript's string-to-number comparison semantics.
- **Dashboard.** The Angular dashboard component: district filtering, counters, CSS class names and the intervention form.

The modules are:

| module | file |
|---|---|
| `Wrappers` (Option, Result) | `wrappers.dfy` |
| `Text` (ASCII case, digits) | `text.dfy` |
| `SeqUtil` (filter, count, stable descending sort, dedup) | `seq_util.dfy` |
| `Reasons` | `reasons.dfy` |
| `RiskLabels` (the High, Moderate and Low labels) | `labels.dfy` |
| `Frame` (data-frame rows and cells) | `frame.dfy` |
| `StudentEntity` | `student.dfy` |
| `RiskPrediction` | `risk_prediction.dfy` |
| `StudentRepository` | `student_repository.dfy` |
| `InterventionEntity` | `intervention.dfy` |
| `InterventionRepository` | `intervention_repository.dfy` |
| `StudentService` | `student_service.dfy` |
| `Dataset` (records, ids, labelling, summary) | `dataset.dfy` |
| `KaggleIntegration` | `kaggle_integration.dfy` |
| `ProcessKaggle` | `process_kaggle.dfy` |
| `ServerKaggle` | `server_kaggle.dfy` |
| `ServerOriginal` | `server_original.dfy` |
| `Dashboard` | `dashboard.dfy` |

The model follows the code's own form:

- **Imperative code becomes methods.**
  - The loops that accumulate a score, map rows or tally a summary are methods with loop invariants. Each is proved equal to a specification function.
  - Objects whose fields change are classes: the JPA entity, the service and its stored intervention list, the Node intervention log and the Angular component. Their methods state the whole new state.
- **Pure code becomes functions.** Checks and queries are functions with named results, and lemmas prove the promised properties separately.
- **Environment values become parameters.** The clock, `Math.random()` and the loaded dataset are parameters.

## Model

| member | source | states |
|---|---|---|
| Text.Lower | ai-dashboard/src/app/app.component.ts:154 | same length, each ASCII capital replaced by its small letter and every other character kept |
| Text.Upper | kaggle_integration.py:140 | same length, each ASCII small letter replaced by its capital |
| Text.Decimal | kaggle_integration.py:131 | the decimal rendering of a natural number is a non-empty run of digits (its parse back is ParseDecimalRoundTrip) |
| Text.ParseDecimalRoundTrip | kaggle_integration.py:131 | parsing the decimal rendering of `n` gives back `n` |
| Text.ParseZeroFill | kaggle_integration.py:131 | zero-filling to a width yields that width (or the input when longer), stays all digits and parses to the same number |
| Text.DecimalLength | kaggle_integration.py:131 | a number has at most k digits exactly when it is below 10^k |
| Text.NotBlankIsTrimmedNonEmpty | springboot-backend/src/main/java/com/apithackathon/dropout/model/Intervention.java:29-31 | NotBlank, the not-blank constraint on the student id, holds exactly when the text trimmed of characters at or below U+0020 is non-empty |
| Frame.Trunc | kaggle_integration.py:133-134 | Python's `int()` on a float: rounds toward zero (one formula for each sign) |
| Frame.AsReal | kaggle_integration.py:145-161 | a numeric cell reads as its value; a text cell reads only when it is a non-empty run of digits, otherwise the conversion fails |
| Frame.AsInt | kaggle_integration.py:133-134 | a numeric cell reads as its truncation; a text cell reads only when it is a non-empty run of digits |
| Frame.FirstPresent | kaggle_integration.py:146-159 | the first candidate column present in the row, and `None` exactly when none is present |
| StudentEntity.Student.CalculateRiskLevel | springboot-backend/src/main/java/com/apithackathon/dropout/model/Student.java:88-96 | "Unknown" when the probability or the score is missing; otherwise High exactly when probability >= 70, Moderate exactly when 50 <= probability < 70, Low exactly when below 50 |
| StudentEntity.HighLabelIsEqualsIgnoreCase | springboot-backend/src/main/java/com/apithackathon/dropout/model/Student.java:101-104 | the label test of isHighRisk is the case-insensitive comparison with "High" |
| StudentEntity.RiskLevelIgnoresScore | springboot-backend/src/main/java/com/apithackathon/dropout/model/Student.java:88-96 | once a score is present its value does not change the level; only the probability decides |
| StudentEntity.HighLabelIsHighRisk | springboot-backend/src/main/java/com/apithackathon/dropout/model/Student.java:101-104 | a label equal to "High" ignoring case makes the student high risk whatever the probability |
| StudentEntity.IsHighRiskIff | springboot-backend/src/main/java/com/apithackathon/dropout/model/Student.java:101-104 | Student.IsHighRisk holds exactly when the label equals "High" ignoring case or a present probability is at least 70 |
| StudentEntity.HighLabelAnyCase | springboot-backend/src/main/java/com/apithackathon/dropout/model/Student.java:101-104 | a worked instance of IsHighRiskIff: the labels "HIGH" and "high" both make the student high risk |
| StudentEntity.NoProbabilityNeedsLabel | springboot-backend/src/main/java/com/apithackathon/dropout/model/Student.java:101-104 | without a probability, high risk holds exactly when the label is "High" ignoring case |
| StudentEntity.HighLevelImpliesHighRisk | springboot-backend/src/main/java/com/apithackathon/dropout/model/Student.java:88-104 | a student whose computed level is High is reported high risk |
| RiskPrediction.Score | springboot-backend/src/main/java/com/apithackathon/dropout/service/RiskPredictionService.java:23-76 | the sum of the seven factor contributions lies in [0, 100] |
| RiskPrediction.ReasonsFor | springboot-backend/src/main/java/com/apithackathon/dropout/service/RiskPredictionService.java:23-76 | at most one reason per factor, so at most seven |
| RiskPrediction.DetermineRiskLevel | springboot-backend/src/main/java/com/apithackathon/dropout/service/RiskPredictionService.java:108-116 | High exactly when score >= 70, Moderate exactly when 50 <= score < 70, Low exactly when score < 50 |
| RiskPrediction.CalculateRiskScore | springboot-backend/src/main/java/com/apithackathon/dropout/service/RiskPredictionService.java:23-103 | the factor-by-factor accumulation equals the assessment: the seven-factor score, the reasons in table order, the level of that score, probability equal to the score, and the student's id, district and factor details |
| RiskPrediction.Assessment | springboot-backend/src/main/java/com/apithackathon/dropout/service/RiskPredictionService.java:78-102 | the assessment carries the student's id and district, a score in [0, 100] equal to the probability, the level High exactly from 70, Moderate exactly in [50, 70), Low exactly below 50, and at most seven reasons |
| RiskPrediction.AddAttendance | springboot-backend/src/main/java/com/apithackathon/dropout/service/RiskPredictionService.java:27-34 | adds 30 and a low-attendance reason below 60, 15 and a moderate reason below 75, nothing otherwise |
| RiskPrediction.AddExam | springboot-backend/src/main/java/com/apithackathon/dropout/service/RiskPredictionService.java:36-43 | adds 25 and a below-average reason below 45, 12 and an average reason below 65, nothing otherwise |
| RiskPrediction.AddSocioEconomic | springboot-backend/src/main/java/com/apithackathon/dropout/service/RiskPredictionService.java:45-51 | adds 15 and a reason for a Low status, 7 and no reason for Medium, nothing otherwise (both ignoring case) |
| RiskPrediction.AddFlag | springboot-backend/src/main/java/com/apithackathon/dropout/service/RiskPredictionService.java:53-76 | a one-bucket factor (transport, migration, gender, category) adds its points and its reason exactly when it fires |
| RiskPrediction.GetHighRiskThreshold | springboot-backend/src/main/java/com/apithackathon/dropout/service/RiskPredictionService.java:129-131 | the high-risk threshold is 70 |
| RiskPrediction.GetModerateRiskThreshold | springboot-backend/src/main/java/com/apithackathon/dropout/service/RiskPredictionService.java:133-135 | the moderate-risk threshold is 50 |
| RiskPrediction.LowStatusIsEqualsIgnoreCase | springboot-backend/src/main/java/com/apithackathon/dropout/service/RiskPredictionService.java:46 | the Low status test is the case-insensitive comparison with "Low" |
| RiskPrediction.MediumStatusIsEqualsIgnoreCase | springboot-backend/src/main/java/com/apithackathon/dropout/service/RiskPredictionService.java:49 | the Medium status test is the case-insensitive comparison with "Medium" |
| RiskPrediction.FemaleIsEqualsIgnoreCase | springboot-backend/src/main/java/com/apithackathon/dropout/service/RiskPredictionService.java:66 | the gender test is the case-insensitive comparison with "Female" |
| RiskPrediction.StOrScIsEqualsIgnoreCase | springboot-backend/src/main/java/com/apithackathon/dropout/service/RiskPredictionService.java:72-73 | the category test is the case-insensitive comparison with "ST" or "SC" |
| RiskPrediction.ScoreMaximum | springboot-backend/src/main/java/com/apithackathon/dropout/service/RiskPredictionService.java:23-76 | the score is 100 exactly when every factor is in its worst bucket |
| RiskPrediction.LevelMonotone | springboot-backend/src/main/java/com/apithackathon/dropout/service/RiskPredictionService.java:108-116 | a higher score never gives a lower level |
| RiskPrediction.ScoreMonotoneInAttendance | springboot-backend/src/main/java/com/apithackathon/dropout/service/RiskPredictionService.java:27-34 | lowering attendance never lowers the score |
| RiskPrediction.ScoreMonotoneInExam | springboot-backend/src/main/java/com/apithackathon/dropout/service/RiskPredictionService.java:36-43 | lowering the exam score never lowers the score |
| RiskPrediction.NoReasonsIff | springboot-backend/src/main/java/com/apithackathon/dropout/service/RiskPredictionService.java:23-76 | the reason list is empty exactly when the score is 0 or 7 (only a Medium status scored) |
| RiskPrediction.LowStatusReasonIff | springboot-backend/src/main/java/com/apithackathon/dropout/service/RiskPredictionService.java:45-51 | the socio-economic reason appears exactly when the status is Low |
| RiskPrediction.MediumStatusIsSilent | springboot-backend/src/main/java/com/apithackathon/dropout/service/RiskPredictionService.java:49-51 | a Medium status adds 7 points but no reason |
| RiskPrediction.IsHighRiskIffScore | springboot-backend/src/main/java/com/apithackathon/dropout/service/RiskPredictionService.java:121-124 | RiskPrediction.IsHighRisk (the service's isHighRisk) holds exactly when the score reaches 70 |
| InterventionEntity.DefaultedType | springboot-backend/src/main/java/com/apithackathon/dropout/model/Intervention.java:67-69 | a present non-empty type is kept; a missing or empty one becomes "Counseling" |
| InterventionEntity.DefaultedTypeIdempotent | springboot-backend/src/main/java/com/apithackathon/dropout/model/Intervention.java:67-69 | defaulting twice is defaulting once, and the result is never empty |
| InterventionEntity.WhitespaceTypeKept | springboot-backend/src/main/java/com/apithackathon/dropout/model/Intervention.java:67-69 | every non-empty type made only of characters at or below U+0020 is kept as given and not replaced by "Counseling", since only emptiness is tested |
| InterventionEntity.StudentIdConstraintCases | springboot-backend/src/main/java/com/apithackathon/dropout/model/Intervention.java:29-31 | a missing, empty or blank student id violates the not-blank constraint; one starting with a visible character satisfies it |
| InterventionEntity.Intervention.constructor | springboot-backend/src/main/java/com/apithackathon/dropout/model/Intervention.java:48-49 | a new intervention has every field unset and status "pending" |
| InterventionEntity.Intervention.OnCreate | springboot-backend/src/main/java/com/apithackathon/dropout/model/Intervention.java:60-70 | creation stamps createdAt and updatedAt with the clock, sets the date only when unset, defaults the type, and changes nothing else |
| InterventionEntity.Intervention.OnUpdate | springboot-backend/src/main/java/com/apithackathon/dropout/model/Intervention.java:72-75 | an update stamps only updatedAt |
| InterventionEntity.Intervention.Row | springboot-backend/src/main/java/com/apithackathon/dropout/model/Intervention.java:25-58 | the stored row carries exactly the object's fields under the given id |
| StudentRepository.FindByStudentId | springboot-backend/src/main/java/com/apithackathon/dropout/repository/StudentRepository.java:21 | returns a stored student with that id, and `None` exactly when no stored student has it |
| StudentRepository.FindByStudentIdUnique | springboot-backend/src/main/java/com/apithackathon/dropout/repository/StudentRepository.java:21 | with unique ids (the column is unique) the lookup of a stored student's id returns that student |
| StudentRepository.FindByDistrict | springboot-backend/src/main/java/com/apithackathon/dropout/repository/StudentRepository.java:26 | exactly the stored students of the district |
| StudentRepository.FindByDropoutRisk | springboot-backend/src/main/java/com/apithackathon/dropout/repository/StudentRepository.java:31 | exactly the stored students with that label |
| StudentRepository.FindHighRiskStudents | springboot-backend/src/main/java/com/apithackathon/dropout/repository/StudentRepository.java:36-37 | exactly the stored students labelled High or with probability at least the threshold |
| StudentRepository.HighRiskQueryCases | springboot-backend/src/main/java/com/apithackathon/dropout/repository/StudentRepository.java:36-37 | a High label or a probability reaching the threshold puts a student in the query; without either (and no probability) it is left out |
| StudentRepository.FindByDistrictAndDropoutRisk | springboot-backend/src/main/java/com/apithackathon/dropout/repository/StudentRepository.java:42 | filtering by district then label equals filtering by label then district |
| StudentRepository.CountByDistrict | springboot-backend/src/main/java/com/apithackathon/dropout/repository/StudentRepository.java:47 | the count is the size of the district query |
| StudentRepository.CountByDropoutRisk | springboot-backend/src/main/java/com/apithackathon/dropout/repository/StudentRepository.java:52 | the count is the size of the label query |
| StudentRepository.FindByRiskProbabilityAtLeastDesc | springboot-backend/src/main/java/com/apithackathon/dropout/repository/StudentRepository.java:57-58 | a permutation of the students whose probability reaches the threshold, sorted by probability descending |
| StudentRepository.AverageRiskScoreByDistrict | springboot-backend/src/main/java/com/apithackathon/dropout/repository/StudentRepository.java:63-64 | `None` (SQL NULL) exactly when no student of the district has a score |
| StudentRepository.AverageIsMean | springboot-backend/src/main/java/com/apithackathon/dropout/repository/StudentRepository.java:63-64 | when present, the average equals the sum of the district's non-NULL scores divided by their number, the scored rows being exactly the district's students with a score (SQL AVG ignores NULLs) |
| StudentRepository.AverageWithinBounds | springboot-backend/src/main/java/com/apithackathon/dropout/repository/StudentRepository.java:63-64 | when every score of the district lies in [lo, hi], so does the average |
| StudentRepository.FindAllDistricts | springboot-backend/src/main/java/com/apithackathon/dropout/repository/StudentRepository.java:69-70 | no district twice, and a district appears exactly when some student belongs to it |
| InterventionRepository.FindById | springboot-backend/src/main/java/com/apithackathon/dropout/repository/InterventionRepository.java:16 | returns a stored row with that id, and `None` exactly when no stored row has it |
| InterventionRepository.FindByIdUnique | springboot-backend/src/main/java/com/apithackathon/dropout/repository/InterventionRepository.java:16 | with increasing generated ids the lookup of a stored row's id returns that row |
| InterventionRepository.FindByStudentId | springboot-backend/src/main/java/com/apithackathon/dropout/repository/InterventionRepository.java:21 | exactly the rows of the student |
| InterventionRepository.FindByStudentIdOrderByInterventionDateDesc | springboot-backend/src/main/java/com/apithackathon/dropout/repository/InterventionRepository.java:26 | a permutation of the student's rows sorted by date descending |
| InterventionRepository.FindByDistrict | springboot-backend/src/main/java/com/apithackathon/dropout/repository/InterventionRepository.java:31 | exactly the rows of the district |
| InterventionRepository.FindByStatus | springboot-backend/src/main/java/com/apithackathon/dropout/repository/InterventionRepository.java:36 | exactly the rows with that status |
| InterventionRepository.FindRecentInterventions | springboot-backend/src/main/java/com/apithackathon/dropout/repository/InterventionRepository.java:41-42 | a permutation of all rows sorted by date descending |
| InterventionRepository.FindByDateRange | springboot-backend/src/main/java/com/apithackathon/dropout/repository/InterventionRepository.java:47-49 | exactly the rows dated within the inclusive range |
| InterventionRepository.CountByDistrict | springboot-backend/src/main/java/com/apithackathon/dropout/repository/InterventionRepository.java:54 | the count is the size of the district query |
| InterventionRepository.CountByStatus | springboot-backend/src/main/java/com/apithackathon/dropout/repository/InterventionRepository.java:59 | the count is the size of the status query |
| StudentService.StudentService.GetStudentById | springboot-backend/src/main/java/com/apithackathon/dropout/service/StudentService.java:105-107 | a stored student with that id, `None` exactly when there is none |
| StudentService.StudentService.GetRiskScore | springboot-backend/src/main/java/com/apithackathon/dropout/service/StudentService.java:112-117 | an error "Student not found: <id>" exactly when no student has the id, otherwise the risk assessment of that student |
| StudentService.StudentService.GetAtRiskStudents | springboot-backend/src/main/java/com/apithackathon/dropout/service/StudentService.java:122-127 | students labelled High or reaching the threshold; with no threshold given, the threshold is 50 |
| StudentService.StudentService.GetStudentsByDistrict | springboot-backend/src/main/java/com/apithackathon/dropout/service/StudentService.java:133-135 | exactly the students of the district |
| StudentService.StudentService.GetDistrictStats | springboot-backend/src/main/java/com/apithackathon/dropout/service/StudentService.java:141-169 | total, the three label counts (exact, case-sensitive match), the average score (0 when there is none) and the district's intervention count |
| StudentService.StudentService.DistrictStatsBuckets | springboot-backend/src/main/java/com/apithackathon/dropout/service/StudentService.java:144-161 | the label counts never exceed the total, and add up to it when every label is High, Moderate or Low |
| StudentService.StudentService.EmptyDistrictStats | springboot-backend/src/main/java/com/apithackathon/dropout/service/StudentService.java:141-169 | an unknown district reports zero students, zero counts and average 0 |
| StudentService.StudentService.LogIntervention | springboot-backend/src/main/java/com/apithackathon/dropout/service/StudentService.java:175-184 | an intervention with a blank student id is refused and nothing is stored. The object is always stamped with the clock: its type becomes the defaulted type ("Counseling" for a missing or empty one), a missing date becomes the clock, and description and author are kept. When the student is stored its district and score are copied. A valid intervention is given the next id and its row, built from those fields, is appended |
| StudentService.StudentService.GetInterventions | springboot-backend/src/main/java/com/apithackathon/dropout/service/StudentService.java:189-210 | total is the number stored, showing the number returned; the list is the student's rows or the recent ones, cut to the limit |
| StudentService.StudentService.ShowingAtMostTotal | springboot-backend/src/main/java/com/apithackathon/dropout/service/StudentService.java:204-207 | the page never shows more than the total |
| StudentService.StudentService.GetInterventionById | springboot-backend/src/main/java/com/apithackathon/dropout/service/StudentService.java:215-217 | a stored row with that id, `None` exactly when there is none |
| StudentService.StudentService.GetModelMetrics | springboot-backend/src/main/java/com/apithackathon/dropout/service/StudentService.java:222-242 | the fixed accuracy figures, the total, and the per-label counts keyed high_risk, moderate_risk, low_risk |
| StudentService.StudentService.GetAllDistricts | springboot-backend/src/main/java/com/apithackathon/dropout/service/StudentService.java:247-249 | no district twice, and exactly the districts of the stored students |
| Dataset.StudentIdFor | kaggle_integration.py:131 | ids are "KG" followed by at least four digits |
| Dataset.StudentIdRoundTrip | kaggle_integration.py:131 | the digits after "KG" parse back to the row index plus one |
| Dataset.StudentIdInjective | kaggle_integration.py:131 | different rows get different ids |
| Dataset.FourDigitIds | kaggle_integration.py:131 | ids are exactly six characters long exactly for the first 9999 rows; row number 10000 and later get five or more digits |
| Dataset.FirstStudentId | kaggle_integration.py:131 | a worked instance: row 0 is KG0001 |
| Dataset.DistrictFor | kaggle_integration.py:125-132 | the district is one of the five listed districts |
| Dataset.SocialCategoryFor | kaggle_integration.py:219-228 | the category is one of SC, ST, OBC, General |
| Dataset.IdentityCycles | kaggle_integration.py:219-228 | districts repeat every 5 rows and categories every 4, SC and ST on rows 0 and 1 of each cycle |
| Dataset.RiskPoints | kaggle_integration.py:238-260 | the points are at least 0 and at most 11 plus the failure count |
| Dataset.AccumulateRiskPoints | kaggle_integration.py:238-260 | the point-by-point accumulation equals RiskPoints |
| Dataset.ClassifyRisk | kaggle_integration.py:262-268 | High exactly when points >= 6, Moderate exactly for 3 to 5, Low exactly below 3 |
| Dataset.ClassifyMonotone | kaggle_integration.py:262-268 | more points never give a lower label |
| Dataset.Labelled | kaggle_integration.py:238-268 | only the label changes, and it is the label of the record's own points |
| Dataset.LabelledIdempotent | kaggle_integration.py:238-268 | labelling a labelled record changes nothing |
| Dataset.MapIndexed | kaggle_integration.py:270-274 | the loop keeps or skips each row, so it never yields more records than rows |
| Dataset.MapIndexedIdsDistinct | kaggle_integration.py:127-131 | records built from different rows carry different ids |
| Dataset.Round1Error | kaggle_integration.py:161 | rounding to one decimal moves a value by at most 0.05 |
| Dataset.Round1Monotone | kaggle_integration.py:161 | rounding preserves order |
| Dataset.Round1Exact | kaggle_integration.py:161 | a value with one decimal is unchanged by rounding |
| Dataset.Clamp | process_kaggle_data.py:60 | the result lies in [lo, hi] and equals the input when the input already does |
| Dataset.ClampRoundBounds | process_kaggle_data.py:60 | clamping then rounding stays inside integer bounds |
| Dataset.TallyOfCounts | process_kaggle_data.py:169-177 | a district's tally is its number of records and its three label counts |
| Dataset.LabelCountsAddUp | process_kaggle_data.py:165-170 | for labelled records the three label counts add up to the number of records |
| Dataset.TallyAddsUp | process_kaggle_data.py:172-177 | for labelled records a district's three counts add up to its total |
| Dataset.TallyStatistics | process_kaggle_data.py:165-177 | the summary loop: label counts per label, districts in first-appearance order without repeats, each district's tally, and district totals that add up to the record count (the same summary is kaggle_integration.py lines 283-295) |
| Dataset.CountLabel | process_kaggle_data.py:170 | one record adds one to its own label's count and leaves the others |
| Dataset.CountInDistrict | process_kaggle_data.py:172-177 | one record creates its district's entry on first sight, bumps it, and adds one to the total of totals |
| Dataset.CountRecord | process_kaggle_data.py:176-177 | one record adds one to its district's total and to its label's count |
| KaggleIntegration.OrIfZero | kaggle_integration.py:161 | Python's `x or default` on a number: the default replaces only zero |
| KaggleIntegration.GradeOf | kaggle_integration.py:133 | the grade cell converted with `int()`, or without the column 8, 9 or 10 by row |
| KaggleIntegration.AgeOf | kaggle_integration.py:134 | the age cell converted with `int()`, or without the column 13 to 16 by row |
| KaggleIntegration.GenderOf | kaggle_integration.py:137-143 | always "Female" or "Male"; without a gender column, Female exactly on even rows |
| KaggleIntegration.AttendanceOf | kaggle_integration.py:145-161 | fails exactly when the first present attendance column is not Class and its cell does not convert; with no attendance column the rate is 75 |
| KaggleIntegration.ExamOf | kaggle_integration.py:163-175 | fails exactly when the first present score column's cell does not convert; with no score column the score is 70 |
| KaggleIntegration.EducationStatus | kaggle_integration.py:178-180 | High exactly above 3, Medium exactly in (1.5, 3], Low exactly at or below 1.5 |
| KaggleIntegration.InferredStatus | kaggle_integration.py:184-191 | High exactly when attendance > 85 and exam > 75, Medium exactly when not High but attendance > 70 and exam > 60, Low exactly otherwise |
| KaggleIntegration.StatusOf | kaggle_integration.py:177-191 | fails exactly when both education columns are present and one does not convert; always High, Medium or Low; whenever Medu and Fedu are not both present, a satisfaction column gives High or Medium, never Low |
| KaggleIntegration.TransportOf | kaggle_integration.py:193-201 | fails exactly when the travel-time cell does not convert; without travel-time and absence-days columns, the allowance is attendance above 70 |
| KaggleIntegration.FailuresOf | kaggle_integration.py:233-236 | the failures cell converted with `int()`, or 0 without the column |
| KaggleIntegration.AbsenceAttendance | kaggle_integration.py:153-156 | attendance from absences lies in [0, 100] for non-negative absences and is 0 from 180 absences on |
| KaggleIntegration.ScaledScore | kaggle_integration.py:169-172 | a grade up to 20 is scaled by 5, a larger value is kept |
| KaggleIntegration.MappedFields | kaggle_integration.py:130-236 | a mapped row carries the id, district and category of its index |
| KaggleIntegration.MapKaggleToApFormat | kaggle_integration.py:124-277 | the row loop equals the indexed map of the row mapping, skipping failed rows |
| KaggleIntegration.MapRowLabelled | kaggle_integration.py:238-270 | MapRow: a mapped record carries its index's identity and the label of its own points |
| KaggleIntegration.MappedStudents | kaggle_integration.py:124-277 | every output record comes from its row, is well labelled, and no two share an id |
| KaggleIntegration.InferredStatusBuckets | kaggle_integration.py:184-191 | without parent columns the status is High exactly when attendance > 85 and exam > 75, Medium exactly when not High but attendance > 70 and exam > 60, Low exactly otherwise |
| KaggleIntegration.InferredMigration | kaggle_integration.py:207-212 | MigrationOf: without an address column migration holds exactly when attendance is below 60 and the status is Low |
| KaggleIntegration.FactorSources | kaggle_integration.py:193-212 | TransportOf and MigrationOf in a mapped record: the allowance is travel time above 2, else "under" in the absence-days text, else rounded attendance above 70; migration is a rural address when the column exists |
| KaggleIntegration.FullAbsenceReadsAsDefault | kaggle_integration.py:150-161 | 180 or more absences give 0, which `or 75` turns into 75 |
| KaggleIntegration.ZeroScoreReadsAsDefault | kaggle_integration.py:163-175 | a zero G1 grade becomes 0, which `or 70` turns into 70 |
| KaggleIntegration.BareRowKept | kaggle_integration.py:145-175 | a row with no columns is kept with attendance 75 and exam 70 |
| KaggleIntegration.UnreadableScoreSkips | kaggle_integration.py:163-175 | a G1 cell that is not a number makes the conversion fail, so the row is skipped |
| ProcessKaggle.QualificationStatus | process_kaggle_data.py:81-86 | High exactly above 20, Medium exactly in (10, 20], Low exactly at or below 10 |
| ProcessKaggle.AgeOf | process_kaggle_data.py:32 | the age cell converted with `int()`, or without the column 13 to 16 by row |
| ProcessKaggle.GenderOf | process_kaggle_data.py:35-39 | always "Female" or "Male"; Female exactly for gender code 0, or without the column exactly on even rows |
| ProcessKaggle.AttendanceOf | process_kaggle_data.py:41-60 | fails exactly when the raw percentage fails; otherwise lies in [30, 98] |
| ProcessKaggle.RawExam | process_kaggle_data.py:62-71 | the second-semester grade, else the first, else 70; fails exactly when the chosen cell does not convert; never above 100 |
| ProcessKaggle.ExamOf | process_kaggle_data.py:62-73 | fails exactly when the raw score fails; otherwise lies in [25, 100] |
| ProcessKaggle.StatusOf | process_kaggle_data.py:75-86 | fails exactly when a present qualification cell does not convert; otherwise High, Medium or Low |
| ProcessKaggle.FactorSources | process_kaggle_data.py:88-103 | TransportOf and MigrationOf in a processed record: the allowance comes from the scholarship column, else tuition, else rounded attendance above 70; migration from the displaced column, else a nationality other than 1, else rounded attendance below 60 |
| ProcessKaggle.FailuresOf | process_kaggle_data.py:116-122 | failures are 0 or 1 |
| ProcessKaggle.MappedFields | process_kaggle_data.py:25-122 | a mapped row carries the id, district and category of its index |
| ProcessKaggle.ProcessRows | process_kaggle_data.py:25-161 | the row loop equals the indexed map of the row mapping, never longer than the input |
| ProcessKaggle.MapRowProcessed | process_kaggle_data.py:60-155 | MapRow: a processed record has attendance in [30, 98], exam in [25, 100], failures 0 or 1, points in [0, 12] and the label of its points |
| ProcessKaggle.ProcessedStudents | process_kaggle_data.py:25-161 | every output record is processed and well labelled, and no two share an id |
| ProcessKaggle.ApprovedWithoutCountsSkips | process_kaggle_data.py:43-58 | an approved column without enrolled and evaluated columns uses an unset count, so the row is skipped |
| ProcessKaggle.MissingQualificationsAreLow | process_kaggle_data.py:76-86 | without qualification columns both codes are 1, so the status is Low |
| ProcessKaggle.NothingEvaluatedFloorsAttendance | process_kaggle_data.py:43-60 | for every row with enrolled units and zero evaluations, whatever its approved count, the ratio is 0, the approval factor is skipped and the clamp raises attendance to 30 |
| ServerKaggle.BuildReasons | server_kaggle.js:32-72 | the pushed reasons equal the factor reasons in source order, or the single good-performance reason when none fired |
| ServerKaggle.Push | server_kaggle.js:46-68 | a reason is appended exactly when its condition holds |
| ServerKaggle.ReasonsNeverEmpty | server_kaggle.js:70-72 | KaggleReasons: every student has at least one reason; the good-performance reason alone exactly when no factor fired |
| ServerKaggle.ReasonsJustified | server_kaggle.js:34-68 | every reason is backed by the record: attendance and exam reasons carry the record's value in their band, the category reason its SC or ST category, the demographic reasons a High label |
| ServerKaggle.ReasonsExclusive | server_kaggle.js:34-44 | low and moderate attendance never appear together, nor below-average and average exam |
| ServerKaggle.HighOnlyDemographics | server_kaggle.js:58-68 | a gender or category reason implies a High label |
| ServerKaggle.Probability | server_kaggle.js:74-86 | High gives 75 to 95, Moderate 45 to 70, Low 5 to 30, for any draw in [0, 1) |
| ServerKaggle.Recommendations | server_kaggle.js:90-92 | four recommendations for High, two for Moderate, one otherwise |
| ServerKaggle.BuildRiskScores | server_kaggle.js:30-94 | the loop equals the map built from all students and their draws |
| ServerKaggle.RiskScoresKeys | server_kaggle.js:84-93 | RiskScoresOf: the keys are exactly the students' ids |
| ServerKaggle.RiskScoresOfUnique | server_kaggle.js:84-93 | with unique ids each student's entry is the one built from that student and its draw |
| ServerKaggle.ThresholdOf | server_kaggle.js:115 | `parseInt(q) \|\| 50`: a missing, unparseable or zero threshold is 50, any other number is kept |
| ServerKaggle.AtRisk | server_kaggle.js:117-139 | every listed entry reaches the threshold, the total is the list length, the echoed threshold is the parsed one (order and multiplicity: AtRiskSnoc) |
| ServerKaggle.AtRiskMembership | server_kaggle.js:117-133 | a student is listed exactly when its entry reaches the threshold |
| ServerKaggle.AtRiskSnoc | server_kaggle.js:117-133 | appending a record to the dataset appends its view when it qualifies and changes nothing otherwise: the list is in dataset order, one view per qualifying record |
| ServerKaggle.DistrictStats | server_kaggle.js:143-164 | not found exactly when no student is in the district; otherwise the district's total (positive) and its label counts |
| ServerKaggle.DistrictCountsBounded | server_kaggle.js:155-160 | the label counts never exceed the total, and the interventions reported never exceed the High count |
| ServerKaggle.InterventionLog.constructor | server_kaggle.js:167 | the log starts empty |
| ServerKaggle.InterventionLog.Log | server_kaggle.js:168-186 | appends one entry with id one past the log length, the given fields, and the given date or the clock when none |
| ServerKaggle.StudentRisk | server_kaggle.js:99-111 | the stored entry exactly when the id is known, otherwise "Student not found" |
| ServerOriginal.Lookup | server_original.js:80 | found exactly when the table has the id, and then the table's pair |
| ServerOriginal.StudentRisk | server_original.js:78-89 | a known id gets its table entry; an unknown one the Low, 10% fallback |
| ServerOriginal.KnownIdsDistinct | server_original.js:13-75 | the table has no repeated id |
| ServerOriginal.MissingIdFallsBack | server_original.js:80-85 | every id other than ST001, ST002, ST003 and ST005 (so ST004 too) gets the fallback |
| ServerOriginal.ThresholdOf | server_original.js:110 | `q \|\| 50`: a missing or empty query is the number 50; any other query stays the string that was sent |
| ServerOriginal.Qualifying | server_original.js:111-113 | exactly the table entries whose probability reaches the threshold |
| ServerOriginal.QualifyingNone | server_original.js:111-112 | when no entry reaches the threshold, nothing qualifies |
| ServerOriginal.AtRisk | server_original.js:109-121 | count is the list length, the threshold is echoed, an entry is listed exactly when it reaches the threshold, the list is a permutation of the qualifying entries in table order (same multiplicities), sorted by probability descending |
| ServerOriginal.ZeroQueryListsAll | server_original.js:110-112 | the query "0" lists every table entry, since the string is truthy and compares as 0 |
| ServerOriginal.NonNumericQueryListsNone | server_original.js:110-112 | in the model, where a text threshold compares as a number only when it is a run of digits, a non-empty query that is not a digit run lists nothing (JavaScript's ToNumber also accepts forms such as "50.5", "-1" or "1e1"; see Left out) |
| ServerOriginal.DistrictStats | server_original.js:92-106 | the district's total and label counts, zero total exactly when no entry is in the district, and the average is the mean probability of its entries (0 when there are none, as `0/0 \|\| 0` gives) |
| ServerOriginal.MeanIsPercentage | server_original.js:102 | the mean of probabilities in [0, 100] lies in [0, 100] |
| ServerOriginal.RiskScoresArePercentages | server_original.js:13-75 | every probability in the table lies in [0, 100] |
| ServerOriginal.DistrictCountsBounded | server_original.js:94-101 | the label counts never exceed the total |
| ServerOriginal.DistrictAverageBounded | server_original.js:94-103 | over a table of percentages the district average lies in [0, 100] |
| ServerOriginal.OrDefault | server_original.js:126-132 | JavaScript `x \|\| d` on a string: the default replaces only a missing or empty value |
| ServerOriginal.LogIntervention | server_original.js:124-142 | status success, the intervention logged with the given id and action, officer defaulting to Teacher and timestamp to the clock |
| ServerOriginal.AnonymousInterventionByTeacher | server_original.js:129 | a missing or empty officer is recorded as Teacher |
| Dashboard.Visible | ai-dashboard/src/app/app.component.ts:75-83 | "all" shows every received student; any other choice shows exactly the students of that district |
| Dashboard.VisibleSnoc | ai-dashboard/src/app/app.component.ts:75-83 | the shown list keeps the received order |
| Dashboard.LabelCountsBounded | ai-dashboard/src/app/app.component.ts:85-90 | the three counters never exceed the total |
| Dashboard.GetRiskClass | ai-dashboard/src/app/app.component.ts:153-155 | the lower-cased label followed by "-risk" |
| Dashboard.GetRiskBadgeClass | ai-dashboard/src/app/app.component.ts:157-159 | "risk-badge " followed by the lower-cased label |
| Dashboard.RiskClassesIgnoreCase | ai-dashboard/src/app/app.component.ts:153-159 | two labels get the same class exactly when they are equal ignoring case |
| Dashboard.RequestFor | ai-dashboard/src/app/app.component.ts:123-134 | no request exactly when the student id or the action is empty; otherwise the form's fields, the clock, and Teacher for an empty officer |
| Dashboard.AppComponent.constructor | ai-dashboard/src/app/app.component.ts:17-37 | the initial state: district "all", threshold 50, empty lists, zero counters, an empty form |
| Dashboard.AppComponent.FilterStudents | ai-dashboard/src/app/app.component.ts:75-83 | the shown list becomes Visible of the received list and district; nothing else changes |
| Dashboard.AppComponent.UpdateStatistics | ai-dashboard/src/app/app.component.ts:85-90 | the counters become the size and label counts of the shown list, and never exceed the total |
| Dashboard.AppComponent.OnDistrictChange | ai-dashboard/src/app/app.component.ts:92-95 | after a district change the shown list and counters agree with the received list |
| Dashboard.AppComponent.OnStudentsLoaded | ai-dashboard/src/app/app.component.ts:50-56 | a received list replaces the old one and the shown list and counters follow it |
| Dashboard.AppComponent.QuickIntervention | ai-dashboard/src/app/app.component.ts:118-121 | prefills the student id and the parent-meeting action, nothing else |
| Dashboard.AppComponent.LogIntervention | ai-dashboard/src/app/app.component.ts:123-134 | the request sent is RequestFor the form, none exactly when the id or action is empty |
| Dashboard.AppComponent.OnInterventionRecorded | ai-dashboard/src/app/app.component.ts:143-145 | clears the student id and action, keeps everything else |
| Dashboard.ClearedFormSendsNothing | ai-dashboard/src/app/app.component.ts:123-145 | after the success callback OnInterventionRecorded, the component's LogIntervention returns no request: student id and action are empty, the officer is kept |

## Left out

- I/O: HTTP routing, status codes and JSON serialisation in both servers and the Spring controller; reading and writing CSV and JSON files; log and print output. The handlers are functions from their inputs to the response body.
- `StudentService.loadKaggleDataset`, the start-up JSON load, is not modelled. The service is constructed from an already loaded student list with unique ids.
- Caching annotations, transactions and JPA merge semantics are not modelled. Saving is appending a row with the next generated id. Generated ids are assumed increasing.
- SQL ordering among equal keys and collation are not modelled. The descending repository queries are a stable sort, and string equality is exact.
- `model.py`, `api.service.ts`, `student.model.ts`, the LEAP endpoints of `server_kaggle.js` and the dashboard's `onThresholdChange`, `loadModelMetrics` and `viewStudent` are not part of this model.
- The texts of alerts and messages in the dashboard, and the HTTP subscriptions, are not modelled. `Dashboard.AppComponent.LogIntervention` returns the request it would post, and `OnInterventionRecorded` models the success callback.
- Reason texts are a datatype carrying the rendered value (`LowAttendance(rate)`), not the formatted string. Number formatting inside the texts is not modelled.
- Case conversion covers ASCII letters only. Java's, Python's and JavaScript's full Unicode case mapping is not modelled.
- Frame cells are numbers or strings. A string converts only when it is a non-empty run of decimal digits. Signs, decimal points, exponents, whitespace and NaN cells are not modelled.
- Frame.Trunc: Python's `int()` on a float is modelled; integer overflow is not.
- Arithmetic is on exact reals. Float rounding errors in `round(x, 1)`, in percentages and in means are not modelled. JavaScript's `Math.round` is floor of x + 0.5.
- Dataset.MapIndexed: the data-frame index is taken to be 0..n-1; a frame with another index is not modelled.
- In kaggle_integration.py the plain `float(row[col])` branch of the attendance loop (lines 157-158) cannot be taken, because every candidate except Class contains "absence". The model has no such branch.
- The `parent_occupation` and `distance_to_school_km` fields the scripts write are never scored, so the records do not carry them.
- ServerKaggle.Probability takes the draw of `Math.random()` as a parameter in [0, 1).
- ServerKaggle.ThresholdOf takes the result of `parseInt` as its input (`None` for NaN). The parsing itself is not modelled: `parseInt` reads a leading run of digits, so "12abc" gives 12, "7.9" gives 7, " 8" gives 8 and "0x10" gives 16.
- ServerKaggle.DistrictStats: the result carries `averageAttendance` and `interventionsActive`, but the contract does not state the rounded mean attendance. `interventionsActive` is stated only as bounded by the High count (DistrictCountsBounded), not as floor(0.7 * High).
- ServerKaggle.StudentRisk returns the stored entry; the `studentId` the endpoint echoes beside it is not part of the result.
- ServerOriginal.StudentRisk: the lookup is over the table's own keys; JavaScript object-prototype keys such as "constructor" are not modelled.
- ServerKaggle.StudentRisk and ServerKaggle.AtRisk: `riskScores` is a map of the stored ids only. A JavaScript object also answers inherited keys such as "constructor" or "__proto__" with a truthy value; a request for such an id, or a record carrying one, is not modelled.
- ServerOriginal.AtRisk and the other handlers take the table as a parameter. The server passes `RISK_SCORES`, and the lemmas about the concrete table are stated on it.
- ServerOriginal.ThresholdOf: a threshold string compares as a number only when it is a run of digits; other numeric syntaxes compare as NaN in the model.
- Request bodies are typed: only string (or missing) values are modelled for the JSON fields.
- InterventionEntity.Intervention.OnCreate: one clock reading `now` stands for the three `LocalDateTime.now()` calls, so the model has `createdAt == updatedAt` (and equal to a defaulted `interventionDate`), which separate readings of the Java clock need not give.
- The Student fields declared `nullable = false` (id, district, attendance rate, exam score, socio-economic status, transport, migration, gender, social category) are modelled as always present. A row with one of them null, on which the Java scoring would throw a NullPointerException when unboxing, is not modelled.
