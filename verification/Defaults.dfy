/** The settings the extension ships with meet the conditions of the theorems. */
module Defaults {
  import opened Admission
  import opened Forgetting
  import opened WriteOnce
  import PduQueue

  const DEFAULTS := Options(
    enabled := true,
    perSourceRate := 50.0, perSourceBurst := 100,
    globalRate := 500.0, globalBurst := 1000,
    whoIsRate := 2.0, whoIsBurst := 5,
    writeRate := 5.0, writeBurst := 10,
    floodViolations := 20, maxSources := 1024,
    floodWindow := 10.0, blockDuration := 60.0, duplicateWindow := 5.0, sourceTtl := 300.0, logInterval := 60.0,
    allowed := [], denied := [])

  /** By default forgetting is invisible as long as no five minutes see more than 1024 sources, and writes run at most
      once per window, with or without a queue. */
  lemma DefaultsAreSafe()
    ensures ValidOptions(DEFAULTS) && OutlivesPenalties(DEFAULTS)
    ensures RingSuffices(DEFAULTS, 0) && RingSuffices(DEFAULTS, PduQueue.CAPACITY)
  {
  }
}
