/** The human-readable risk factors that the scorers attach to a student.
    Where the source renders a number into the text (the attendance rate, the
    exam score, a failure count, a category name) the constructor carries
    that value instead of the formatted string. */
module Reasons {

  datatype Reason =
    | LowAttendance(rate: real)          // "Low attendance (<rate>%)"
    | ModerateAttendance(rate: real)     // "Moderate attendance (<rate>%)"
    | BelowAverageExam(score: real)      // "Below-average exam scores (<score>)"
    | AverageExam(score: real)           // "Average exam scores (<score>)"
    | LowSocioEconomicStatus             // "Low socio-economic status"
    | TransportNotUtilized               // "Transport allowance not utilized"
    | SeasonalMigrantFamily              // "Seasonal migrant family"
    | PreviousFailures(count: int)       // "<count> previous failure(s)"
    | FemaleStudent                      // "Female student (higher dropout risk)"
    | SocialCategory(category: string)   // "Belongs to <category> category"
    | GoodPerformance                    // "Good attendance and academic performance"
}
