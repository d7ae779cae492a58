/** The pure part of the KPA scaler: the bounds clamp and the scale decision
    that Scale carries out once it has read the target's current replica count. */
module ScaleDecision {
  import opened Wrappers

  /** Go's int32: the type of replica counts and of the desired-scale suggestion. */
  newtype int32 = x: int | -0x8000_0000 <= x < 0x8000_0000

  /** The desired-scale sentinel meaning "no metrics collected yet". */
  const ScaleUnknown: int32 := -1

  /** A time.Duration; the model compares and passes durations but never computes with them. */
  type Duration = int

  /** The part of the autoscaler configuration the scaler reads. */
  datatype Config = Config(scaleToZeroIdlePeriod: Duration, scaleToZeroGracePeriod: Duration)

  /** The three values of the PodAutoscaler's Active condition: Unknown, True, False. */
  datatype Activation = Activating | Active | Inactive

  /** The PodAutoscaler status as the scaler sees it. The two time predicates read the
      clock and the condition's transition time, so they are given as functions of the period. */
  datatype Status = Status(
    activation: Activation,
    canMarkInactive: Duration -> bool,
    canScaleToZero: Duration -> bool)

  /** What Scale reads of a PodAutoscaler: whether its controlling owner is a Revision,
      whether its scale target's API version parses, its status and its scale bounds. */
  datatype PodAutoscaler = PodAutoscaler(
    ownedByRevision: bool,
    apiVersionParses: bool,
    status: Status,
    minScale: int32,
    maxScale: int32)

  /** The precondition applyBounds documents: 0 <= min, and min <= max unless max is 0 (no upper bound). */
  predicate ValidBounds(min: int32, max: int32) {
    0 <= min && (max == 0 || min <= max)
  }

  /** applyBounds(min, max)(x), uncurried. */
  function ApplyBounds(min: int32, max: int32, x: int32): (r: int32)
    ensures ValidBounds(min, max) ==> min <= r && (max != 0 ==> r <= max)
    ensures min <= x && (max == 0 || x <= max) ==> r == x
    ensures x < min ==> r == min
    ensures min <= x && max != 0 && x > max ==> r == max
    ensures r == x || r == min || r == max
  {
    if x < min then min
    else if max != 0 && x > max then max
    else x
  }

  lemma ApplyBoundsIdempotent(min: int32, max: int32, x: int32)
    requires ValidBounds(min, max)
    ensures ApplyBounds(min, max, ApplyBounds(min, max, x)) == ApplyBounds(min, max, x)
  {
  }

  lemma ApplyBoundsMonotone(min: int32, max: int32, x: int32, y: int32)
    requires ValidBounds(min, max)
    requires x <= y
    ensures ApplyBounds(min, max, x) <= ApplyBounds(min, max, y)
  {
  }

  /** Clamping the scale-from-zero value 1 never yields 0, whatever the bounds. */
  lemma ApplyBoundsOfOneIsNotZero(min: int32, max: int32)
    ensures ApplyBounds(min, max, 1) != 0
  {
  }

  /** The worked examples of the clamp: bounds [1, 10] and an unbounded maximum. */
  lemma ApplyBoundsExamples()
    ensures ApplyBounds(1, 10, 0) == 1
    ensures ApplyBounds(1, 10, 5) == 5
    ensures ApplyBounds(1, 10, 20) == 10
    ensures ApplyBounds(0, 0, 1000) == 1000
  {
  }

  /** The outcome of one Scale call after the current scale has been read:
      return a value without updating, update the scale sub-resource to a value
      and return it, or dereference a config that was never installed. */
  datatype Decision = Report(scale: int32) | Push(scale: int32) | NilConfig

  /** d leaves the target at n, updating exactly when n differs from the current scale. */
  predicate AppliesScale(d: Decision, n: int32, currentScale: int32) {
    if n == currentScale then d == Report(n) else d == Push(n)
  }

  /** Scale from zero, the unknown passthrough, the clamp and the no-op check. */
  function Settle(pa: PodAutoscaler, desiredScale: int32, currentScale: int32): (d: Decision)
    ensures d != NilConfig
    ensures currentScale == 0 && desiredScale == ScaleUnknown ==>
              AppliesScale(d, ApplyBounds(pa.minScale, pa.maxScale, 1), currentScale)
    ensures desiredScale < 0 && !(currentScale == 0 && desiredScale == ScaleUnknown) ==>
              d == Report(desiredScale)
    ensures desiredScale >= 0 ==>
              AppliesScale(d, ApplyBounds(pa.minScale, pa.maxScale, desiredScale), currentScale)
  {
    var desired := if currentScale == 0 && desiredScale == ScaleUnknown then 1 else desiredScale;
    if desired < 0 then Report(desired)
    else
      var newScale := ApplyBounds(pa.minScale, pa.maxScale, desired);
      if newScale == currentScale then Report(newScale) else Push(newScale)
  }

  /** The whole decision of Scale for a Revision-owned PodAutoscaler whose scale
      sub-resource reads currentScale, with config the snapshot of the config cell. */
  function Decide(pa: PodAutoscaler, desiredScale: int32, config: Option<Config>, currentScale: int32): (d: Decision)
    // Active and idle for the idle period: return 0 and leave marking inactive to the reconciler.
    ensures (desiredScale == 0 && pa.status.activation == Active && config.Some?
             && pa.status.canMarkInactive(config.value.scaleToZeroIdlePeriod)) ==> d == Report(0)
    // Active and not yet idle for the idle period: go to exactly one replica, clamped.
    ensures (desiredScale == 0 && pa.status.activation == Active && config.Some?
             && !pa.status.canMarkInactive(config.value.scaleToZeroIdlePeriod)) ==>
              AppliesScale(d, ApplyBounds(pa.minScale, pa.maxScale, 1), currentScale)
    // Inactive within the grace period: return 0 without updating.
    ensures (desiredScale == 0 && pa.status.activation == Inactive && config.Some?
             && !pa.status.canScaleToZero(config.value.scaleToZeroGracePeriod)) ==> d == Report(0)
    // Inactive past the grace period: actually scale to zero, clamped.
    ensures (desiredScale == 0 && pa.status.activation == Inactive && config.Some?
             && pa.status.canScaleToZero(config.value.scaleToZeroGracePeriod)) ==>
              AppliesScale(d, ApplyBounds(pa.minScale, pa.maxScale, 0), currentScale)
    // Activating: never scale to zero; defer, unless the target is at zero.
    ensures desiredScale == 0 && pa.status.activation == Activating && currentScale != 0 ==>
              d == Report(ScaleUnknown)
    ensures (((desiredScale == 0 && pa.status.activation == Activating) || desiredScale == ScaleUnknown)
             && currentScale == 0) ==> d == Push(ApplyBounds(pa.minScale, pa.maxScale, 1))
    // Other negative suggestions pass through without an update.
    ensures desiredScale < 0 && !(desiredScale == ScaleUnknown && currentScale == 0) ==>
              d == Report(desiredScale)
    // A positive suggestion is clamped and applied.
    ensures desiredScale > 0 ==>
              AppliesScale(d, ApplyBounds(pa.minScale, pa.maxScale, desiredScale), currentScale)
    // Only the scale-to-zero gate reads the config.
    ensures d == NilConfig <==>
              desiredScale == 0 && pa.status.activation != Activating && config.None?
    ensures d.Push? ==> d.scale != currentScale
  {
    if desiredScale == 0 then
      match pa.status.activation
      case Activating => Settle(pa, ScaleUnknown, currentScale)
      case Active =>
        if config.None? then NilConfig
        else if pa.status.canMarkInactive(config.value.scaleToZeroIdlePeriod) then Report(desiredScale)
        else Settle(pa, 1, currentScale)
      case Inactive =>
        if config.None? then NilConfig
        else if !pa.status.canScaleToZero(config.value.scaleToZeroGracePeriod) then Report(desiredScale)
        else Settle(pa, desiredScale, currentScale)
    else
      Settle(pa, desiredScale, currentScale)
  }

  /** An Inactive target within its grace period is treated like an Active target
      past its idle period: both return 0 without an update. */
  lemma InactiveInGraceMatchesActiveIdle(active: PodAutoscaler, inactive: PodAutoscaler, config: Config, currentScale: int32)
    requires active.status.activation == Active
    requires active.status.canMarkInactive(config.scaleToZeroIdlePeriod)
    requires inactive.status.activation == Inactive
    requires !inactive.status.canScaleToZero(config.scaleToZeroGracePeriod)
    ensures Decide(active, 0, Some(config), currentScale) == Decide(inactive, 0, Some(config), currentScale) == Report(0)
  {
  }

  const Minute: Duration := 60_000_000_000

  /** An Active target with no bounds, a 5-minute idle period and three replicas: active
      for 6 minutes it returns 0 without an update; active for 1 minute it updates to 1. */
  lemma ActiveIdlePeriodScenarios()
    ensures var config := Config(5 * Minute, 0);
            var activeFor6 := PodAutoscaler(true, true, Status(Active, p => p <= 6 * Minute, p => false), 0, 0);
            var activeFor1 := PodAutoscaler(true, true, Status(Active, p => p <= 1 * Minute, p => false), 0, 0);
            Decide(activeFor6, 0, Some(config), 3) == Report(0)
            && Decide(activeFor1, 0, Some(config), 3) == Push(1)
  {
  }

  /** With sane bounds, the scaler only ever updates to zero replicas when a zero
      suggestion reaches an Inactive target whose grace period has elapsed and whose minimum is 0. */
  lemma ScaleToZeroOnlyAfterGracePeriod(pa: PodAutoscaler, desiredScale: int32, config: Option<Config>, currentScale: int32)
    requires ValidBounds(pa.minScale, pa.maxScale)
    requires Decide(pa, desiredScale, config, currentScale) == Push(0)
    ensures desiredScale == 0 && pa.status.activation == Inactive && pa.minScale == 0
    ensures config.Some? && pa.status.canScaleToZero(config.value.scaleToZeroGracePeriod)
  {
  }

  /** With sane bounds, every update lies within them. */
  lemma UpdatesRespectBounds(pa: PodAutoscaler, desiredScale: int32, config: Option<Config>, currentScale: int32)
    requires ValidBounds(pa.minScale, pa.maxScale)
    requires Decide(pa, desiredScale, config, currentScale).Push?
    ensures var n := Decide(pa, desiredScale, config, currentScale).scale;
            0 <= pa.minScale <= n && (pa.maxScale != 0 ==> n <= pa.maxScale)
  {
  }

  /** The replica count the target has after one Scale call whose update, if any, succeeds. */
  function ReplicasAfter(pa: PodAutoscaler, desiredScale: int32, config: Option<Config>, currentScale: int32): int32 {
    match Decide(pa, desiredScale, config, currentScale)
    case Push(n) => n
    case _ => currentScale
  }

  /** A second reconciliation with the same status, suggestion and config issues no update. */
  lemma DecisionIsStable(pa: PodAutoscaler, desiredScale: int32, config: Option<Config>, currentScale: int32)
    ensures !Decide(pa, desiredScale, config, ReplicasAfter(pa, desiredScale, config, currentScale)).Push?
  {
  }

  /** The replica count after n reconciliations that all see the same status, suggestion and config. */
  function ReplicasAfterRounds(pa: PodAutoscaler, desiredScale: int32, config: Option<Config>, currentScale: int32, n: nat): int32
    decreases n
  {
    if n == 0 then currentScale
    else ReplicasAfterRounds(pa, desiredScale, config, ReplicasAfter(pa, desiredScale, config, currentScale), n - 1)
  }

  /** Repeated reconciliation converges after the first round: unchanged inputs
      cause at most one update, however often the target is reconciled. */
  lemma {:induction false} ConvergesAfterOneRound(pa: PodAutoscaler, desiredScale: int32, config: Option<Config>, currentScale: int32, n: nat)
    ensures ReplicasAfterRounds(pa, desiredScale, config, currentScale, n + 1) == ReplicasAfter(pa, desiredScale, config, currentScale)
    decreases n
  {
    if n > 0 {
      var next := ReplicasAfter(pa, desiredScale, config, currentScale);
      DecisionIsStable(pa, desiredScale, config, currentScale);
      assert ReplicasAfter(pa, desiredScale, config, next) == next;
      ConvergesAfterOneRound(pa, desiredScale, config, next, n - 1);
    }
  }
}
