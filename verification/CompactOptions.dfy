/** Settings of the compaction strategies. */
module CompactOptions {

  datatype SMConfig = SMConfig(minTokens: int, minTextBlockMessages: int, maxTokens: int)

  datatype Options = Options(
    timeBasedGap: real,
    timeBasedKeep: int,
    disableTimeBased: bool,
    window: int,
    pctOverride: real,
    thresholdOverride: int,
    blockingOverride: int,
    disableCompact: bool,
    disableAutoCompact: bool,
    sessionMemory: SMConfig,
    enableSM: bool)

  const DEFAULT_GAP := 10.0
  const DEFAULT_KEEP := 3

  function Max(a: int, b: int): int {
    if a >= b then a else b
  }

  function Min(a: int, b: int): int {
    if a <= b then a else b
  }
}
