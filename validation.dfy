/**
 * The checks `saveTokenTracker` runs on an edited tracker before it calls
 * the save endpoint. They run in a fixed order and stop at the first failure.
 */
module AlertValidation {
  import opened Wrappers
  import opened Tokens

  /** The tracking type that compares against the suggested price; every other type uses the floor price. */
  const SuggestedPriceType: string := "Suggested Price"

  /** The outcome of the checks: accepted, or the first check that failed. */
  datatype Verdict =
    | Accepted
    | MissingTrackingType   // "Missing tracking type"
    | AboveBelowCurrent     // "Cannot set 'above' lower than current value"
    | BelowAboveCurrent     // "Cannot set 'below' higher than current value"
    | ActiveWithoutRange    // "Must have at least one range set for an active alert"

  /** JavaScript truthiness of an optional string: present and not empty. */
  predicate Truthy(s: Option<string>) {
    s.Some? && s.value != ""
  }

  /** The price the tracking type watches, if the token has it. */
  function WatchedPrice(t: TokenTracker): Option<real> {
    if t.token.None? then None
    else if t.tokenTrackerType == Some(SuggestedPriceType) then t.token.value.suggestedPrice
    else t.token.value.floorPrice
  }

  /** The current value the bounds are checked against; a missing price counts as 0. */
  function CurrentValue(t: TokenTracker): (v: real)
    ensures t.token.None? ==> v == 0.0
    ensures t.token.Some? && t.tokenTrackerType == Some(SuggestedPriceType) ==>
      v == t.token.value.suggestedPrice.GetOr(0.0)
    ensures t.token.Some? && t.tokenTrackerType != Some(SuggestedPriceType) ==>
      v == t.token.value.floorPrice.GetOr(0.0)
  {
    WatchedPrice(t).GetOr(0.0)
  }

  /** An `above` bound, when set, is not already undercut by the current value. */
  predicate AboveRespected(t: TokenTracker) {
    t.above.Some? ==> t.above.value >= CurrentValue(t)
  }

  /** A `below` bound, when set, is not already exceeded by the current value. */
  predicate BelowRespected(t: TokenTracker) {
    t.below.Some? ==> t.below.value <= CurrentValue(t)
  }

  /** An active alert has at least one bound. */
  predicate RangeIfActive(t: TokenTracker) {
    t.active ==> t.above.Some? || t.below.Some?
  }

  /**
   * The validation chain. A comparison with an unset bound is false in
   * JavaScript (`undefined < x`), so an unset bound never fails its check.
   */
  function Validate(t: TokenTracker): (v: Verdict)
    ensures v == Accepted <==>
      Truthy(t.tokenTrackerType) && AboveRespected(t) && BelowRespected(t) && RangeIfActive(t)
  {
    var current := CurrentValue(t);
    if !Truthy(t.tokenTrackerType) then MissingTrackingType
    else if t.above.Some? && t.above.value < current then AboveBelowCurrent
    else if t.below.Some? && t.below.value > current then BelowAboveCurrent
    else if t.active && t.above.None? && t.below.None? then ActiveWithoutRange
    else Accepted
  }

  /** Each rejection names the first failing check: every earlier check passed and its own failed. */
  lemma ValidationOrder(t: TokenTracker)
    ensures Validate(t) == MissingTrackingType <==> !Truthy(t.tokenTrackerType)
    ensures Validate(t) == AboveBelowCurrent <==>
      Truthy(t.tokenTrackerType) && !AboveRespected(t)
    ensures Validate(t) == BelowAboveCurrent <==>
      Truthy(t.tokenTrackerType) && AboveRespected(t) && !BelowRespected(t)
    ensures Validate(t) == ActiveWithoutRange <==>
      Truthy(t.tokenTrackerType) && AboveRespected(t) && BelowRespected(t) && !RangeIfActive(t)
  {
  }

  /** An unset bound never causes its comparison check to reject. */
  lemma UnsetBoundNeverRejects(t: TokenTracker)
    ensures t.above.None? ==> Validate(t) != AboveBelowCurrent
    ensures t.below.None? ==> Validate(t) != BelowAboveCurrent
  {
  }

  /** An accepted alert's bounds bracket the current value, so `below <= above` when both are set. */
  lemma AcceptedBracketsCurrent(t: TokenTracker)
    requires Validate(t) == Accepted
    ensures t.above.Some? ==> CurrentValue(t) <= t.above.value
    ensures t.below.Some? ==> t.below.value <= CurrentValue(t)
    ensures t.above.Some? && t.below.Some? ==> t.below.value <= t.above.value
  {
  }

  /** A tracker whose suggested price is 2 and floor price 1: `above` 1 is rejected, `above` 2.5 accepted. */
  lemma SuggestedPriceScenario(t: TokenTracker)
    requires t.token.Some? && t.token.value.suggestedPrice == Some(2.0) && t.token.value.floorPrice == Some(1.0)
    requires t.tokenTrackerType == Some(SuggestedPriceType) && t.below.None?
    ensures Validate(t.(above := Some(1.0))) == AboveBelowCurrent
    ensures Validate(t.(above := Some(2.5))) == Accepted
  {
  }

  /** An active "Floor Price" alert with neither bound is rejected. */
  lemma ActiveFloorAlertWithoutRange(t: TokenTracker)
    requires t.active && t.tokenTrackerType == Some("Floor Price")
    requires t.above.None? && t.below.None?
    ensures Validate(t) == ActiveWithoutRange
  {
  }
}
