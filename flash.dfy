/** The flash rule for a text field. Elapsed time is a whole number of
    milliseconds since the dashboard started; the program's interval of
    0.25 s is 250 ms. */
module Flash {

  const FlashIntervalMs: nat := 250
  const FlashPeriodMs: nat := 2 * FlashIntervalMs

  /** Text is drawn when it does not flash, or when the number of whole
      intervals elapsed is even; equivalently, during the first half of
      every 500 ms period. */
  predicate TextVisible(flash: bool, elapsedMs: nat)
    ensures TextVisible(flash, elapsedMs) <==> !flash || elapsedMs % FlashPeriodMs < FlashIntervalMs
  {
    !flash || (elapsedMs / FlashIntervalMs) % 2 == 0
  }

  /** Visibility repeats every 500 ms. */
  lemma VisiblePeriodic(flash: bool, elapsedMs: nat)
    ensures TextVisible(flash, elapsedMs + FlashPeriodMs) == TextVisible(flash, elapsedMs)
  {
  }

  /** Within period k a flashing text is shown for exactly the first 250 ms. */
  lemma VisibleInPeriod(k: nat, offset: nat)
    requires offset < FlashPeriodMs
    ensures TextVisible(true, k * FlashPeriodMs + offset) <==> offset < FlashIntervalMs
  {
  }

  /** A text that does not flash is drawn at every instant. */
  lemma SteadyAlwaysVisible(elapsedMs: nat)
    ensures TextVisible(false, elapsedMs)
  {
  }

  /** Sample instants: 0 and 100 ms shown, 300 and 400 ms hidden, 500 and
      600 ms shown again. */
  lemma FlashSamples()
    ensures TextVisible(true, 0) && TextVisible(true, 100)
    ensures !TextVisible(true, 300) && !TextVisible(true, 400)
    ensures TextVisible(true, 500) && TextVisible(true, 600)
  {
  }
}
