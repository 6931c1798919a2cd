/** The activation contract of core/model.go and the two adapters the runtime registers. */
module Adapters {
  import opened Wrappers
  import opened Model

  datatype VerifyResult = VerifyResult(confirmed: bool, reason: Note)

  /** An adapter as the controller sees it. `activates` tells whether it implements ActivationAdapter at all. */
  datatype Adapter = Adapter(
    activates: bool,
    canActivate: QuotaWindow -> bool,
    verify: (Baseline, QuotaWindow) -> VerifyResult)
  {
    predicate Can(w: QuotaWindow) { activates && canActivate(w) }

    /** Every confirmation leaves the reset where the baseline has it, or comes with one more than `skew` later. */
    ghost predicate Tidy(skew: Duration) {
      forall b, w :: verify(b, w).confirmed ==> TidyReset(b, w, skew)
    }
  }

  /** The reset read is the baseline's, or past it by more than the skew. */
  predicate TidyReset(b: Baseline, w: QuotaWindow, skew: Duration) {
    w.resetAt == b.resetAt || w.resetAt > b.resetAt + skew
  }

  /** strings.ToLower(strings.TrimSpace(bucketID)) is the provider-independent part and is taken as done. */
  function AntigravityGroup(bucketId: string): string {
    if bucketId == "gemini-5h" || bucketId == "gemini-weekly" then "antigravity-gemini"
    else if bucketId == "3p-5h" || bucketId == "3p-weekly" then "antigravity-third-party"
    else ""
  }

  predicate AntigravityCanActivate(w: QuotaWindow) {
    var group := AntigravityGroup(w.bucketId);
    group != "" && w.activationGroup == group && (w.windowDuration == 5 * HOUR || w.windowDuration == 7 * 24 * HOUR)
  }

  function AntigravityVerify(before: Baseline, after: QuotaWindow): VerifyResult {
    if after.resetAt > before.resetAt + 2 * MINUTE then
      VerifyResult(true, Reason("new Antigravity quota window confirmed"))
    else
      VerifyResult(false, Reason("Antigravity window has not rolled after activation"))
  }

  predicate CodexCanActivate(w: QuotaWindow) {
    && w.scope == "main"
    && w.windowDuration > 0
    && (w.windowDuration == 5 * HOUR || 7 * 24 * HOUR <= w.windowDuration <= 32 * 24 * HOUR)
  }

  function CodexVerify(before: Baseline, after: QuotaWindow): VerifyResult {
    if after.resetAt > before.resetAt + 2 * MINUTE && !after.lazyHint then
      VerifyResult(true, Reason("new Codex quota window confirmed"))
    else if before.usedPercent.Some? && after.usedPercent.Some? && before.usedPercent.value > 0.0
            && after.usedPercent.value == 0.0 && !after.lazyHint then
      VerifyResult(true, Reason("Codex activation inferred from usage reset"))
    else
      VerifyResult(false, Reason("Codex window has not rolled after activation"))
  }

  const ANTIGRAVITY := Adapter(true, AntigravityCanActivate, AntigravityVerify)
  const CODEX := Adapter(true, CodexCanActivate, CodexVerify)

  /** Antigravity is tidy exactly when the configured skew is within its own two minutes. */
  lemma AntigravityTidyIff(skew: Duration)
    ensures ANTIGRAVITY.Tidy(skew) <==> skew <= 2 * MINUTE
  {
    if skew > 2 * MINUTE {
      var b := Baseline(1, HOUR, None, 1, CycleId(InstanceKey("", "", ""), "b", 1));
      var w := QuotaWindow("", "", "b", "", "", None, 1 + skew, HOUR, 1, "", false, true);
      assert ANTIGRAVITY.verify(b, w).confirmed;
      assert !TidyReset(b, w, skew);
    }
  }

  /** The evidence Codex takes from usage alone. */
  predicate UsageReset(b: Baseline, w: QuotaWindow) {
    b.usedPercent.Some? && w.usedPercent.Some? && b.usedPercent.value > 0.0 && w.usedPercent.value == 0.0
  }

  // ----- what is confirmed -----

  /** Codex confirms every reset past two minutes of a window in use, and so past any skew of at least that. */
  lemma CodexConfirmsRollover(b: Baseline, w: QuotaWindow, skew: Duration)
    requires skew >= 2 * MINUTE && !w.lazyHint && w.resetAt > b.resetAt + skew
    ensures CODEX.verify(b, w).confirmed
  {
  }

  /** It confirms no lazy window, and nothing from usage that one of the two reads left out. */
  lemma CodexConfirmsNeither(b: Baseline, w: QuotaWindow)
    requires w.lazyHint || (w.resetAt <= b.resetAt + 2 * MINUTE && (b.usedPercent.None? || w.usedPercent.None?))
    ensures !CODEX.verify(b, w).confirmed
  {
  }

  // ----- what is capable -----

  /** The four buckets Antigravity activates, in two groups that share their quota. */
  lemma AntigravityBuckets(w: QuotaWindow)
    ensures ANTIGRAVITY.Can(w) <==>
            && (w.windowDuration == 5 * HOUR || w.windowDuration == 168 * HOUR)
            && (|| (w.activationGroup == "antigravity-gemini" && w.bucketId in {"gemini-5h", "gemini-weekly"})
                || (w.activationGroup == "antigravity-third-party" && w.bucketId in {"3p-5h", "3p-weekly"}))
  {
  }

  /** Codex activates main windows of five hours, or of a week to 32 days. */
  lemma CodexWindows(w: QuotaWindow)
    ensures CODEX.Can(w) <==>
            w.scope == "main" && (w.windowDuration == 5 * HOUR || 168 * HOUR <= w.windowDuration <= 768 * HOUR)
  {
  }

  // ----- what is tidy -----

  /**
   An untidy Codex confirmation is one taken from usage while the reset moved, but not past the skew. The tidy ones are
   every reset more than two minutes later, and usage falling with the reset unmoved or past the skew.
   */
  lemma CodexUntidyIff(b: Baseline, w: QuotaWindow, skew: Duration)
    requires 0 <= skew <= 2 * MINUTE
    ensures CODEX.verify(b, w).confirmed && !TidyReset(b, w, skew)
       <==> !w.lazyHint && UsageReset(b, w) && w.resetAt != b.resetAt && w.resetAt <= b.resetAt + skew
    ensures CODEX.verify(b, w).confirmed && TidyReset(b, w, skew)
       <==> && !w.lazyHint
            && (w.resetAt > b.resetAt + 2 * MINUTE
                || (UsageReset(b, w) && (w.resetAt == b.resetAt || w.resetAt > b.resetAt + skew)))
  {
  }

  /** So Codex is tidy for no skew. */
  lemma CodexNeverTidy(skew: Duration)
    requires skew >= 0
    ensures !CODEX.Tidy(skew)
  {
    var b := Baseline(2, HOUR, Some(90.0), 1, CycleId(InstanceKey("", "", ""), "b", 2));
    var w := QuotaWindow("", "", "b", "", "main", Some(0.0), 1, HOUR, 1, "", false, true);
    assert CODEX.verify(b, w).confirmed;
    assert !TidyReset(b, w, skew);
  }
}
