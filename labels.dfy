/** The three risk labels. The Spring entity, both preprocessing scripts, both
    servers and the dashboard write and compare the same three words. */
module RiskLabels {
  const HIGH_LABEL := "High"
  const MODERATE_LABEL := "Moderate"
  const LOW_LABEL := "Low"
}
