/**
 * The progress-bar helpers: `showProgress`, `updateProgress` (clamp to
 * 0..100, then round), `hideProgress`, the `simulateProgress` loop and
 * `completeProgress`. Numbers are exact reals: `(i / 20) * 100` is exactly
 * `5 * i` here, which is also what `Math.round` yields for the
 * floating-point result at every tick.
 */
module Progress {
  import opened AppState
  import opened AppReducer
  import opened ReducerProperties
  import opened Store

  /** The simulation's `steps`. */
  const Steps: nat := 20

  /** How long `completeProgress` keeps 100% on screen before hiding the bar. */
  const HideDelayMs: real := 500.0

  function Min(a: int, b: int): int {
    if a <= b then a else b
  }

  /** JavaScript `Math.round`: the nearest integer, a half rounded up. */
  function JsRound(x: real): (r: int)
    ensures r as real - 0.5 <= x < r as real + 0.5
  {
    (x + 0.5).Floor
  }

  /** `Math.min(100, Math.max(0, p))`. */
  function Clamp(p: real): (c: real)
    ensures 0.0 <= c <= 100.0
    ensures 0.0 <= p <= 100.0 ==> c == p
    ensures p < 0.0 ==> c == 0.0
    ensures p > 100.0 ==> c == 100.0
  {
    if p < 0.0 then 0.0 else if p > 100.0 then 100.0 else p
  }

  /** The value `updateProgress(p)` dispatches. */
  function ProgressValue(p: real): int {
    JsRound(Clamp(p))
  }

  /** `updateProgress` always dispatches a percentage, the one nearest the clamped input. */
  lemma ProgressValueIsNearestPercent(p: real)
    ensures 0 <= ProgressValue(p) <= 100
    ensures ProgressValue(p) as real - 0.5 <= Clamp(p) < ProgressValue(p) as real + 0.5
  {
  }

  /** A whole percentage passes through `updateProgress` unchanged. */
  lemma ProgressValueOfPercent(n: int)
    requires 0 <= n <= 100
    ensures ProgressValue(n as real) == n
  {
  }

  /** `updateProgress` never reorders two inputs. */
  lemma ProgressValueMonotone(p: real, q: real)
    requires p <= q
    ensures ProgressValue(p) <= ProgressValue(q)
  {
  }

  /** `Math.min(95, Math.round((i / steps) * 100))`: the value computed at tick `i`. */
  function SimulatedRaw(i: nat): int {
    Min(95, JsRound((i as real / Steps as real) * 100.0))
  }

  /** What tick `i` of the simulation dispatches: its raw value passed through `updateProgress`. */
  function SimulatedValue(i: nat): int {
    ProgressValue(SimulatedRaw(i) as real)
  }

  /** Tick `i` dispatches `min(95, 5 * i)`. */
  lemma SimulatedValueIsFiveSteps(i: nat)
    ensures SimulatedValue(i) == Min(95, 5 * i)
  {
    assert (i as real / Steps as real) * 100.0 == (5 * i) as real;
    assert JsRound((5 * i) as real) == 5 * i;
    ProgressValueOfPercent(Min(95, 5 * i));
  }

  /** The simulated values start at 0, never decrease and never pass 95; the last two ticks both show 95. */
  lemma SimulatedValuesShape()
    ensures SimulatedValue(0) == 0
    ensures SimulatedValue(Steps - 1) == 95 && SimulatedValue(Steps) == 95
    ensures forall i :: 0 <= i ==> SimulatedValue(i) <= 95
    ensures forall i, j :: 0 <= i <= j ==> SimulatedValue(i) <= SimulatedValue(j)
  {
    forall i | 0 <= i ensures SimulatedValue(i) == Min(95, 5 * i) {
      SimulatedValueIsFiveSteps(i);
    }
  }

  /** Effects of tick `i`: one update, then a sleep of `duration / steps` unless it is the last tick. */
  function Tick(i: nat, duration: real): seq<Effect> {
    [Dispatched(UpdateProgress(SimulatedValue(i)))] + (if i < Steps then [Slept(duration / Steps as real)] else [])
  }

  /** Effects of ticks `lo` up to, not including, `hi`. */
  function Ticks(lo: nat, hi: nat, duration: real): seq<Effect>
    decreases hi - lo
  {
    if lo >= hi then [] else Tick(lo, duration) + Ticks(lo + 1, hi, duration)
  }

  /** What `simulateProgress(message, variant, duration)` does when nothing interrupts it. */
  function SimulationTrace(message: string, variant: ProgressVariant, duration: real): seq<Effect> {
    [Dispatched(ShowProgress(message, variant))] + Ticks(0, Steps + 1, duration)
  }

  /** What `completeProgress()` does: 100%, then a hide scheduled half a second later. */
  const CompletionTrace: seq<Effect> := [Dispatched(UpdateProgress(100)), Scheduled(Timer(HideDelayMs, HideProgressJob))]

  /** One more tick at the end of a run of ticks. */
  lemma {:induction false} TicksSnoc(lo: nat, hi: nat, duration: real)
    requires lo <= hi
    ensures Ticks(lo, hi + 1, duration) == Ticks(lo, hi, duration) + Tick(hi, duration)
    decreases hi - lo
  {
    if lo < hi {
      TicksSnoc(lo + 1, hi, duration);
    }
  }

  /** The only action of a tick is its update. */
  lemma TickActions(i: nat, duration: real)
    ensures ActionsOf(Tick(i, duration)) == [UpdateProgress(SimulatedValue(i))]
  {
    var tail := if i < Steps then [Slept(duration / Steps as real)] else [];
    ActionsOfConcat([Dispatched(UpdateProgress(SimulatedValue(i)))], tail);
    SingleDispatch(UpdateProgress(SimulatedValue(i)));
  }

  /** Ticks `a..c` are ticks `a..b` followed by ticks `b..c`. */
  lemma {:induction false} TicksSplit(a: nat, b: nat, c: nat, duration: real)
    requires a <= b <= c
    ensures Ticks(a, c, duration) == Ticks(a, b, duration) + Ticks(b, c, duration)
    decreases b as int - a as int
  {
    if a < b {
      TicksSplit(a + 1, b, c, duration);
    }
  }

  /** The actions of ticks `lo..hi` are the update of tick `lo` followed by the actions of the later ticks. */
  lemma TicksActionsUnfold(lo: nat, hi: nat, duration: real)
    requires lo < hi
    ensures ActionsOf(Ticks(lo, hi, duration))
         == [UpdateProgress(SimulatedValue(lo))] + ActionsOf(Ticks(lo + 1, hi, duration))
  {
    ActionsOfConcat(Tick(lo, duration), Ticks(lo + 1, hi, duration));
    TickActions(lo, duration);
  }

  /** The updates ticks `lo..hi` dispatch, in order. */
  function Updates(lo: nat, hi: nat): (r: seq<Action>)
    ensures |r| == if lo <= hi then hi - lo else 0
    decreases hi - lo
  {
    if lo >= hi then [] else [UpdateProgress(SimulatedValue(lo))] + Updates(lo + 1, hi)
  }

  /** Update `k` of ticks `lo..hi` is tick `lo + k`'s value. */
  lemma {:induction false} UpdatesAt(lo: nat, hi: nat, k: nat)
    requires lo + k < hi
    ensures Updates(lo, hi)[k] == UpdateProgress(SimulatedValue(lo + k))
    decreases k
  {
    if k > 0 {
      UpdatesAt(lo + 1, hi, k - 1);
    }
  }

  /** The actions of ticks `lo..hi` are exactly the updates of those ticks, in order. */
  lemma {:induction false} TicksActions(lo: nat, hi: nat, duration: real)
    requires lo <= hi
    ensures ActionsOf(Ticks(lo, hi, duration)) == Updates(lo, hi)
    ensures |ActionsOf(Ticks(lo, hi, duration))| == hi - lo
    ensures forall k :: 0 <= k < hi - lo ==>
              ActionsOf(Ticks(lo, hi, duration))[k] == UpdateProgress(SimulatedValue(lo + k))
    decreases hi - lo
  {
    if lo < hi {
      TicksActions(lo + 1, hi, duration);
      TicksActionsUnfold(lo, hi, duration);
    }
    forall k | 0 <= k < hi - lo
      ensures Updates(lo, hi)[k] == UpdateProgress(SimulatedValue(lo + k))
    {
      UpdatesAt(lo, hi, k);
    }
  }

  /** The sleeps of a log, in order. */
  function SleepsOf(effects: seq<Effect>): seq<real> {
    if effects == [] then []
    else (if effects[0].Slept? then [effects[0].ms] else []) + SleepsOf(effects[1..])
  }

  /** Taking the sleeps of a log commutes with concatenation. */
  lemma {:induction false} SleepsOfConcat(a: seq<Effect>, b: seq<Effect>)
    ensures SleepsOf(a + b) == SleepsOf(a) + SleepsOf(b)
    decreases |a|
  {
    if a == [] {
      assert a + b == b;
    } else {
      assert (a + b)[0] == a[0];
      assert (a + b)[1..] == a[1..] + b;
      SleepsOfConcat(a[1..], b);
    }
  }

  /** Ticks `lo..hi` sleep once per tick before the last one, each time for `duration / steps`. */
  lemma {:induction false} TicksSleeps(lo: nat, hi: nat, duration: real)
    requires lo <= hi <= Steps + 1
    ensures |SleepsOf(Ticks(lo, hi, duration))| == (if hi <= Steps then hi - lo else if lo <= Steps then Steps - lo else 0)
    ensures forall k :: 0 <= k < |SleepsOf(Ticks(lo, hi, duration))| ==>
              SleepsOf(Ticks(lo, hi, duration))[k] == duration / Steps as real
    decreases hi - lo
  {
    if lo < hi {
      TicksSleeps(lo + 1, hi, duration);
      SleepsOfConcat(Tick(lo, duration), Ticks(lo + 1, hi, duration));
      var tail := if lo < Steps then [Slept(duration / Steps as real)] else [];
      SleepsOfConcat([Dispatched(UpdateProgress(SimulatedValue(lo)))], tail);
    }
  }

  /**
   * The simulated actions: SHOW first, then exactly 21 updates
   * `min(95, 5 * i)` for i = 0..20.
   */
  lemma SimulationActions(message: string, variant: ProgressVariant, duration: real)
    ensures var actions := ActionsOf(SimulationTrace(message, variant, duration));
      && |actions| == Steps + 2
      && actions[0] == ShowProgress(message, variant)
      && forall i :: 0 <= i <= Steps ==> actions[i + 1] == UpdateProgress(Min(95, 5 * i))
  {
    var head := [Dispatched(ShowProgress(message, variant))];
    var ticks := Ticks(0, Steps + 1, duration);
    ActionsOfConcat(head, ticks);
    TicksActions(0, Steps + 1, duration);
    forall i | 0 <= i <= Steps ensures SimulatedValue(i) == Min(95, 5 * i) {
      SimulatedValueIsFiveSteps(i);
    }
  }

  /** The simulation sleeps exactly 20 times, each for `duration / 20`. */
  lemma SimulationSleeps(message: string, variant: ProgressVariant, duration: real)
    ensures var sleeps := SleepsOf(SimulationTrace(message, variant, duration));
      && |sleeps| == Steps
      && forall k :: 0 <= k < |sleeps| ==> sleeps[k] == duration / Steps as real
  {
    var head := [Dispatched(ShowProgress(message, variant))];
    var ticks := Ticks(0, Steps + 1, duration);
    SleepsOfConcat(head, ticks);
    TicksSleeps(0, Steps + 1, duration);
  }

  /** The last effect of the simulation is the final update to 95, not a sleep. */
  lemma SimulationEndsWithUpdate(message: string, variant: ProgressVariant, duration: real)
    ensures SimulationTrace(message, variant, duration)[|SimulationTrace(message, variant, duration)| - 1]
         == Dispatched(UpdateProgress(95))
  {
    TicksSnoc(0, Steps, duration);
    SimulatedValueIsFiveSteps(Steps);
  }

  /** Replaying ticks `lo..hi` is replaying the update of tick `lo` and then ticks `lo + 1..hi`. */
  lemma RunFirstTick(s: AppState, lo: nat, hi: nat, duration: real)
    requires lo < hi
    ensures Run(s, ActionsOf(Ticks(lo, hi, duration)))
         == Run(Step(s, UpdateProgress(SimulatedValue(lo))), ActionsOf(Ticks(lo + 1, hi, duration)))
  {
    var u := UpdateProgress(SimulatedValue(lo));
    var rest := Ticks(lo + 1, hi, duration);
    ActionsOfConcat(Tick(lo, duration), rest);
    TickActions(lo, duration);
    RunConcat(s, [u], ActionsOf(rest));
    RunSingle(s, u);
  }

  /** Replaying ticks `lo..hi` (at least one) sets the progress to the last tick's value and changes nothing else. */
  lemma {:induction false} RunTicks(s: AppState, lo: nat, hi: nat, duration: real)
    requires lo < hi
    ensures var r := Run(s, ActionsOf(Ticks(lo, hi, duration)));
              r.ui.progressBar == s.ui.progressBar.(progress := SimulatedValue(hi - 1)) && OnlyProgressChanged(s, r)
    decreases hi - lo
  {
    var s1 := Step(s, UpdateProgress(SimulatedValue(lo)));
    RunFirstTick(s, lo, hi, duration);
    UpdateProgressOnlyValue(s, SimulatedValue(lo));
    if lo + 1 < hi {
      RunTicks(s1, lo + 1, hi, duration);
    } else {
      assert Ticks(lo + 1, hi, duration) == [];
    }
  }

  /** After an uninterrupted simulation the bar is visible at 95% with the simulation's message and variant, and nothing else changed. */
  lemma SimulationEndsAt95(s: AppState, message: string, variant: ProgressVariant, duration: real)
    ensures var r := Run(s, ActionsOf(SimulationTrace(message, variant, duration)));
              r.ui.progressBar == ProgressState(true, 95, message, variant) && OnlyProgressChanged(s, r)
  {
    var head := [Dispatched(ShowProgress(message, variant))];
    RunEffects(s, head, Ticks(0, Steps + 1, duration));
    SingleDispatch(ShowProgress(message, variant));
    RunSingle(s, ShowProgress(message, variant));
    RunTicks(Step(s, ShowProgress(message, variant)), 0, Steps + 1, duration);
    SimulatedValueIsFiveSteps(Steps);
  }

  // ---------------------------------------------------------------------
  // The hook's operations on the store

  /** `showProgress(message, variant = 'default')`. */
  method ShowProgressOp(store: AppStore, message: string, variant: ProgressVariant := DefaultVariant)
    modifies store
    ensures store.log == old(store.log) + [Dispatched(ShowProgress(message, variant))]
    ensures store.state == Step(old(store.state), ShowProgress(message, variant))
    ensures store.timers == old(store.timers)
  {
    store.Dispatch(ShowProgress(message, variant));
  }

  /** `updateProgress(p)`: dispatches the clamped, rounded value. */
  method UpdateProgressOp(store: AppStore, p: real)
    modifies store
    ensures store.log == old(store.log) + [Dispatched(UpdateProgress(ProgressValue(p)))]
    ensures store.state == Step(old(store.state), UpdateProgress(ProgressValue(p)))
    ensures store.timers == old(store.timers)
  {
    var rounded := JsRound(Clamp(p));
    store.Dispatch(UpdateProgress(rounded));
  }

  /** `hideProgress()`: HIDE_PROGRESS and nothing else. */
  method HideProgressOp(store: AppStore)
    modifies store
    ensures store.log == old(store.log) + [Dispatched(HideProgress)]
    ensures store.state == Step(old(store.state), HideProgress)
    ensures store.timers == old(store.timers)
  {
    store.Dispatch(HideProgress);
  }

  /** Iterations `lo` up to, not including, `hi` of the simulation's `for` loop. */
  method SimulateTicks(store: AppStore, lo: nat, hi: nat, duration: real)
    requires lo <= hi <= Steps + 1
    modifies store
    ensures store.log == old(store.log) + Ticks(lo, hi, duration)
    ensures store.state == Run(old(store.state), ActionsOf(Ticks(lo, hi, duration)))
    ensures store.timers == old(store.timers)
  {
    ghost var s0, log0 := store.state, store.log;
    var i := lo;
    while i < hi
      invariant lo <= i <= hi
      invariant store.log == log0 + Ticks(lo, i, duration)
      invariant store.state == Run(s0, ActionsOf(Ticks(lo, i, duration)))
      invariant store.timers == old(store.timers)
    {
      ghost var before := store.state;
      SimulateTick(store, i, duration);
      TicksSnoc(lo, i, duration);
      AppendAssoc(log0, Ticks(lo, i, duration), Tick(i, duration));
      RunEffects(s0, Ticks(lo, i, duration), Tick(i, duration));
      TickActions(i, duration);
      RunSingle(before, UpdateProgress(SimulatedValue(i)));
      i := i + 1;
    }
  }

  /** One iteration of the simulation's `for` loop: the rounded, capped percentage, then a sleep unless it is the last. */
  method SimulateTick(store: AppStore, i: nat, duration: real)
    modifies store
    ensures store.log == old(store.log) + Tick(i, duration)
    ensures store.state == Step(old(store.state), UpdateProgress(SimulatedValue(i)))
    ensures store.timers == old(store.timers)
  {
    var progress := Min(95, JsRound((i as real / Steps as real) * 100.0));
    UpdateProgressOp(store, progress as real);
    if i < Steps {
      store.Sleep(duration / Steps as real);
    }
  }

  /** `simulateProgress(message, variant, duration = 3000)` run to its end without interruption. */
  method SimulateProgress(store: AppStore, message: string, variant: ProgressVariant, duration: real := 3000.0)
    modifies store
    ensures store.log == old(store.log) + SimulationTrace(message, variant, duration)
    ensures store.state == Run(old(store.state), ActionsOf(SimulationTrace(message, variant, duration)))
    ensures store.timers == old(store.timers)
  {
    ShowProgressOp(store, message, variant);
    SimulateTicks(store, 0, Steps + 1, duration);
    AppendAssoc(old(store.log), [Dispatched(ShowProgress(message, variant))], Ticks(0, Steps + 1, duration));
    RunEffects(old(store.state), [Dispatched(ShowProgress(message, variant))], Ticks(0, Steps + 1, duration));
    SingleDispatch(ShowProgress(message, variant));
    RunSingle(old(store.state), ShowProgress(message, variant));
  }

  /** `completeProgress()`: 100% now, the hide queued for half a second later. */
  method CompleteProgress(store: AppStore)
    modifies store
    ensures store.log == old(store.log) + CompletionTrace
    ensures store.state == Step(old(store.state), UpdateProgress(100))
    ensures store.timers == old(store.timers) + [Timer(HideDelayMs, HideProgressJob)]
  {
    UpdateProgressOp(store, 100.0);
    store.SetTimeout(Timer(HideDelayMs, HideProgressJob));
  }

  /** Completing shows 100% while the hide is pending; running the hide leaves 100% hidden. */
  lemma CompletionThenHide(s: AppState)
    ensures Step(s, UpdateProgress(100)).ui.progressBar == s.ui.progressBar.(progress := 100)
    ensures Step(Step(s, UpdateProgress(100)), HideProgress).ui.progressBar == s.ui.progressBar.(progress := 100, isVisible := false)
    ensures ProgressValue(100.0) == 100
  {
  }
}
