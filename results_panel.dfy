/**
 * The severity indicator of the result card: three bars, of which the
 * first `n` are lit, `n` depending on the looked-up record.
 */
module ResultsPanel {
  import opened Interactions

  /** The inner expression `severe ? 3 : moderate ? 2 : 1`. */
  function SeverityLevel(s: Severity): nat
  {
    match s
    case Severe => 3
    case Moderate => 2
    case Mild => 1
    case Negligible => 1
  }

  /**
   * Whether bar `level` (1, 2 or 3) is drawn in the severity colour: for a
   * `null` result only the first bar, otherwise every bar up to the
   * severity's level.
   */
  predicate BarLit(result: Option<Interaction>, level: int)
  {
    match result
    case None => level == 1
    case Some(r) => level <= SeverityLevel(r.severity)
  }

  /** How many of the three bars are lit; the lit ones are always the leading ones. */
  function LitBars(result: Option<Interaction>): (n: nat)
    ensures 1 <= n <= 3
    ensures forall level :: 1 <= level <= 3 ==> (BarLit(result, level) <==> level <= n)
  {
    (if BarLit(result, 1) then 1 else 0)
    + (if BarLit(result, 2) then 1 else 0)
    + (if BarLit(result, 3) then 1 else 0)
  }

  /** Severe lights three bars, moderate two, mild, `none` and a `null` result one. */
  lemma LitBarsBySeverity(result: Option<Interaction>)
    ensures result.None? ==> LitBars(result) == 1
    ensures result.Some? ==>
      LitBars(result) == match result.value.severity
        case Severe => 3
        case Moderate => 2
        case Mild => 1
        case Negligible => 1
  {
  }

  /** The order of severities: none, mild, moderate, severe. */
  function Rank(s: Severity): nat
  {
    match s
    case Negligible => 0
    case Mild => 1
    case Moderate => 2
    case Severe => 3
  }

  /** A more severe record never lights fewer bars. */
  lemma LitBarsMonotone(a: Interaction, b: Interaction)
    requires Rank(a.severity) <= Rank(b.severity)
    ensures LitBars(Some(a)) <= LitBars(Some(b))
  {
  }
}
