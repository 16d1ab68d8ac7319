/** Timestamp strategies of the CAN acquisition channel: the strategy enumeration,
    the parser from its configuration spelling, and the rule that picks the
    timestamp a received frame is tagged with. */
module CanTimestamp {

  /** Milliseconds since the epoch (a uint64 in the source; the width is not modelled). */
  type Timestamp = nat

  /** Which clock a received frame is tagged with. */
  datatype CanTimestampType =
    | KernelSoftwareTimestamp  // the default and the best option in most scenarios
    | KernelHardwareTimestamp  // not necessarily epoch-aligned
    | PollingTime              // the time the reader observed the frame

  /** The strategy a channel uses unless its constructor is told otherwise. */
  const DEFAULT_TIMESTAMP_TYPE: CanTimestampType := KernelSoftwareTimestamp

  /** The one spelling the parser accepts for each strategy. */
  function Spelling(t: CanTimestampType): string
  {
    match t
    case KernelSoftwareTimestamp => "Software"
    case KernelHardwareTimestamp => "Hardware"
    case PollingTime => "Polling"
  }

  /** Parses a strategy name. The source writes the strategy through an
      out-parameter and returns whether it did; here the out-parameter's value on
      entry is `out` and the pair returned is (success, out-parameter on exit). */
  function StringToCanTimestampType(timestampType: string, out: CanTimestampType): (r: (bool, CanTimestampType))
    ensures r.0 <==> exists t: CanTimestampType :: Spelling(t) == timestampType
    ensures r.0 ==> Spelling(r.1) == timestampType
    ensures !r.0 ==> r.1 == out
  {
    if timestampType == "Software" then
      assert Spelling(KernelSoftwareTimestamp) == timestampType;
      (true, KernelSoftwareTimestamp)
    else if timestampType == "Hardware" then
      assert Spelling(KernelHardwareTimestamp) == timestampType;
      (true, KernelHardwareTimestamp)
    else if timestampType == "Polling" then
      assert Spelling(PollingTime) == timestampType;
      (true, PollingTime)
    else
      (false, out)
  }

  /** Every strategy is reached by parsing its spelling, whatever the out-parameter held. */
  lemma ParseSpelling(t: CanTimestampType, out: CanTimestampType)
    ensures StringToCanTimestampType(Spelling(t), out) == (true, t)
  {
  }

  /** Distinct strategies have distinct spellings, so the parser is injective on what it accepts. */
  lemma SpellingInjective(t1: CanTimestampType, t2: CanTimestampType)
    ensures Spelling(t1) == Spelling(t2) ==> t1 == t2
  {
  }

  /** The three accepted strings, and the fact that the result does not depend on the
      out-parameter's value on entry when the string is accepted. */
  lemma ParserSamples(out: CanTimestampType)
    ensures StringToCanTimestampType("Software", out) == (true, KernelSoftwareTimestamp)
    ensures StringToCanTimestampType("Hardware", out) == (true, KernelHardwareTimestamp)
    ensures StringToCanTimestampType("Polling", out) == (true, PollingTime)
    ensures StringToCanTimestampType("software", out) == (false, out)
    ensures StringToCanTimestampType("", out) == (false, out)
  {
  }

  /** The kernel or loop clock a strategy reads, before the fallback applies. */
  function StrategySource(strategy: CanTimestampType, software: Timestamp, hardware: Timestamp, polling: Timestamp): Timestamp
  {
    match strategy
    case KernelSoftwareTimestamp => software
    case KernelHardwareTimestamp => hardware
    case PollingTime => polling
  }

  /** The timestamp a frame is tagged with: the selected clock's value, except that
      a selected value of 0 (absent) falls back to the polling time. */
  function ResolveTimestamp(strategy: CanTimestampType, software: Timestamp, hardware: Timestamp, polling: Timestamp): (t: Timestamp)
    ensures strategy == PollingTime ==> t == polling
    ensures strategy == KernelSoftwareTimestamp ==> t == (if software != 0 then software else polling)
    ensures strategy == KernelHardwareTimestamp ==> t == (if hardware != 0 then hardware else polling)
    ensures t == 0 ==> polling == 0
    ensures t == software || t == hardware || t == polling
  {
    var selected := StrategySource(strategy, software, hardware, polling);
    if selected == 0 then polling else selected
  }

  /** The resolved timestamp is never the zero sentinel while the polling clock is running. */
  lemma ResolvedNeverZero(strategy: CanTimestampType, software: Timestamp, hardware: Timestamp, polling: Timestamp)
    requires polling > 0
    ensures ResolveTimestamp(strategy, software, hardware, polling) > 0
  {
  }
}
