/**
 * The shape every backend-calling hook shares: dispatch a start action,
 * start `simulateProgress` without awaiting it, send the request, and
 * handle the reply.
 *
 * The simulation and the request then run side by side. The reply is
 * taken to arrive after `ticksBeforeReply` of the simulation's sleeps have
 * ended (at most all 20 of them). The ticks before the reply are in the
 * hook's log. The rest of the simulation waits on a sleep that has not
 * ended yet, so it is queued as a `ResumeProgressJob`.
 */
module HookFlow {
  import opened Common
  import opened Text
  import opened AppState
  import opened AppReducer
  import opened ReducerProperties
  import opened Store
  import opened Progress

  /** How a backend call ended, as far as a hook can tell. */
  datatype Outcome<T> =
    | Ok(value: T)              // `response.ok` and the body parsed
    | HttpError(status: int)    // `!response.ok`
    | Failed(reason: string)    // `fetch` rejected, or the body was not JSON

  /** How the promise a hook returns settles. */
  datatype Settled<T> = Resolved(value: T) | Rejected(reason: string)

  /** The message of the error a failed call makes the hook rethrow. */
  function ThrownBy<T>(o: Outcome<T>): string
    requires !o.Ok?
  {
    if o.HttpError? then "HTTP error! status: " + IntString(o.status) else o.reason
  }

  /** How many of the simulation's ticks have run by the time the reply arrives: the first, plus one per ended sleep. */
  function TicksBefore(ticksBeforeReply: nat): (k: nat)
    ensures 1 <= k <= Steps + 1
  {
    Min(ticksBeforeReply, Steps) + 1
  }

  /** What a hook does before it sends its request: the start action, the bar shown, and the simulation's first tick. */
  function Opening(start: Action, message: string, variant: ProgressVariant, duration: real): seq<Effect> {
    [Dispatched(start), Dispatched(ShowProgress(message, variant))] + Ticks(0, 1, duration)
  }

  /** Everything a hook does up to the reply. */
  function Prelude(start: Action, message: string, variant: ProgressVariant, duration: real,
                   request: Request, ticksBeforeReply: nat): seq<Effect>
  {
    Opening(start, message, variant, duration) + [Fetched(request)] + Ticks(1, TicksBefore(ticksBeforeReply), duration)
  }

  /** The simulation's remainder, queued when the reply arrives before it ends. */
  function Remainder(duration: real, ticksBeforeReply: nat): seq<Timer> {
    if TicksBefore(ticksBeforeReply) <= Steps
    then [Timer(duration / Steps as real, ResumeProgressJob(TicksBefore(ticksBeforeReply), duration))]
    else []
  }

  /** The start action, `showProgress`, and the first iteration of the simulation, which then waits on its first sleep. */
  method Open(store: AppStore, start: Action, message: string, variant: ProgressVariant, duration: real)
    modifies store
    ensures store.log == old(store.log) + Opening(start, message, variant, duration)
    ensures store.state == Run(old(store.state), ActionsOf(Opening(start, message, variant, duration)))
    ensures store.timers == old(store.timers)
  {
    var head := [Dispatched(start), Dispatched(ShowProgress(message, variant))];
    store.Dispatch(start);
    ShowProgressOp(store, message, variant);
    SimulateTicks(store, 0, 1, duration);
    AppendAssoc(old(store.log), head, Ticks(0, 1, duration));
    OpeningRun(old(store.state), start, message, variant, duration);
  }

  /** Replaying the opening: the start action, `showProgress`, then the first tick. */
  lemma OpeningRun(s: AppState, start: Action, message: string, variant: ProgressVariant, duration: real)
    ensures Run(s, ActionsOf(Opening(start, message, variant, duration)))
         == Run(Step(Step(s, start), ShowProgress(message, variant)), ActionsOf(Ticks(0, 1, duration)))
  {
    var head := [Dispatched(start), Dispatched(ShowProgress(message, variant))];
    assert ActionsOf(head) == [start, ShowProgress(message, variant)] by {
      assert head[1..] == [Dispatched(ShowProgress(message, variant))];
      SingleDispatch(ShowProgress(message, variant));
    }
    RunPair(s, start, ShowProgress(message, variant));
    RunEffects(s, head, Ticks(0, 1, duration));
  }

  /**
   * Up to the reply: the opening, the request, and the ticks whose sleeps
   * end before the reply; the remainder of the simulation is queued.
   */
  method StartAndRequest(store: AppStore, start: Action, message: string, variant: ProgressVariant,
                         duration: real, request: Request, ticksBeforeReply: nat)
    modifies store
    ensures store.log == old(store.log) + Prelude(start, message, variant, duration, request, ticksBeforeReply)
    ensures store.state == Run(old(store.state), ActionsOf(Prelude(start, message, variant, duration, request, ticksBeforeReply)))
    ensures store.timers == old(store.timers) + Remainder(duration, ticksBeforeReply)
  {
    var k := TicksBefore(ticksBeforeReply);
    ghost var opening := Opening(start, message, variant, duration);
    Open(store, start, message, variant, duration);
    store.Fetch(request);
    SimulateTicks(store, 1, k, duration);
    if k <= Steps {
      store.Defer(Timer(duration / Steps as real, ResumeProgressJob(k, duration)));
    }
    AppendAssoc(old(store.log), opening, [Fetched(request)]);
    AppendAssoc(old(store.log), opening + [Fetched(request)], Ticks(1, k, duration));
    PreludeRun(old(store.state), start, message, variant, duration, request, ticksBeforeReply);
  }

  /** Replaying the prelude is replaying the opening, then the ticks before the reply; the request dispatches nothing. */
  lemma PreludeRun(s: AppState, start: Action, message: string, variant: ProgressVariant,
                   duration: real, request: Request, ticksBeforeReply: nat)
    ensures Run(s, ActionsOf(Prelude(start, message, variant, duration, request, ticksBeforeReply)))
         == Run(Run(s, ActionsOf(Opening(start, message, variant, duration))),
                ActionsOf(Ticks(1, TicksBefore(ticksBeforeReply), duration)))
  {
    var k := TicksBefore(ticksBeforeReply);
    var opening := Opening(start, message, variant, duration);
    RunEffects(s, opening, [Fetched(request)]);
    assert ActionsOf([Fetched(request)]) == [];
    RunEffects(s, opening + [Fetched(request)], Ticks(1, k, duration));
  }

  /** After the opening (start, show, first tick) the bar is visible at the first tick's value; nothing else moved. */
  lemma OpeningState(s: AppState, start: Action, message: string, variant: ProgressVariant, duration: real)
    ensures var r := Run(s, ActionsOf(Opening(start, message, variant, duration)));
              && r.ui.progressBar == ProgressState(true, SimulatedValue(0), message, variant)
              && OnlyProgressChanged(Step(s, start), r)
  {
    OpeningRun(s, start, message, variant, duration);
    var s1 := Step(s, start);
    ShowProgressResets(s1, message, variant);
    RunTicks(Step(s1, ShowProgress(message, variant)), 0, 1, duration);
  }

  /**
   * After the prelude the start action has had its effect, the bar is
   * visible with the hook's message and variant, at the last tick's value;
   * nothing else changed.
   */
  lemma PreludeState(s: AppState, start: Action, message: string, variant: ProgressVariant,
                     duration: real, request: Request, ticksBeforeReply: nat)
    ensures var r := Run(s, ActionsOf(Prelude(start, message, variant, duration, request, ticksBeforeReply)));
            var k := TicksBefore(ticksBeforeReply);
              && r.ui.progressBar == ProgressState(true, SimulatedValue(k - 1), message, variant)
              && OnlyProgressChanged(Step(s, start), r)
              && r.ui.progressBar.progress <= 95
  {
    var k := TicksBefore(ticksBeforeReply);
    PreludeRun(s, start, message, variant, duration, request, ticksBeforeReply);
    OpeningState(s, start, message, variant, duration);
    var s3 := Run(s, ActionsOf(Opening(start, message, variant, duration)));
    if 1 < k {
      RunTicks(s3, 1, k, duration);
    } else {
      assert Ticks(1, k, duration) == [];
    }
    SimulatedValueIsFiveSteps(k - 1);
  }

  /** `completeProgress()` followed by dispatching `a`. */
  lemma CompletedReply(p: AppState, a: Action)
    ensures ActionsOf(CompletionTrace + [Dispatched(a)]) == [UpdateProgress(100), a]
    ensures Run(p, ActionsOf(CompletionTrace + [Dispatched(a)])) == Step(Step(p, UpdateProgress(100)), a)
  {
    var sched := [Scheduled(Timer(HideDelayMs, HideProgressJob))];
    assert CompletionTrace + [Dispatched(a)] == [Dispatched(UpdateProgress(100))] + sched + [Dispatched(a)];
    ActionsOfConcat([Dispatched(UpdateProgress(100))] + sched, [Dispatched(a)]);
    ActionsOfConcat([Dispatched(UpdateProgress(100))], sched);
    assert ActionsOf(sched) == [];
    SingleDispatch(UpdateProgress(100));
    SingleDispatch(a);
    RunPair(p, UpdateProgress(100), a);
  }

  /** `hideProgress()` followed by dispatching `a`. */
  lemma FailedReply(p: AppState, a: Action)
    ensures ActionsOf([Dispatched(HideProgress), Dispatched(a)]) == [HideProgress, a]
    ensures Run(p, ActionsOf([Dispatched(HideProgress), Dispatched(a)])) == Step(Step(p, HideProgress), a)
  {
    assert [Dispatched(HideProgress), Dispatched(a)][1..] == [Dispatched(a)];
    SingleDispatch(a);
    RunPair(p, HideProgress, a);
  }

  /** The simulation never reports 100%: only `completeProgress` does. */
  lemma PreludeNeverCompletes(start: Action, message: string, variant: ProgressVariant, duration: real,
                              request: Request, ticksBeforeReply: nat)
    requires start != UpdateProgress(100)
    ensures UpdateProgress(100) !in ActionsOf(Prelude(start, message, variant, duration, request, ticksBeforeReply))
  {
    var k := TicksBefore(ticksBeforeReply);
    var head := [Dispatched(start), Dispatched(ShowProgress(message, variant))];
    var opening := Opening(start, message, variant, duration);
    assert ActionsOf(head) == [start, ShowProgress(message, variant)] by {
      assert head[1..] == [Dispatched(ShowProgress(message, variant))];
      SingleDispatch(ShowProgress(message, variant));
    }
    ActionsOfConcat(head, Ticks(0, 1, duration));
    ActionsOfConcat(opening, [Fetched(request)]);
    ActionsOfConcat(opening + [Fetched(request)], Ticks(1, k, duration));
    assert ActionsOf([Fetched(request)]) == [];
    TicksBelowComplete(0, 1, duration);
    TicksBelowComplete(1, k, duration);
  }

  /** No tick of the simulation dispatches 100%. */
  lemma TicksBelowComplete(lo: nat, hi: nat, duration: real)
    requires lo <= hi
    ensures UpdateProgress(100) !in ActionsOf(Ticks(lo, hi, duration))
  {
    TicksActions(lo, hi, duration);
    SimulatedValuesShape();
    var acts := ActionsOf(Ticks(lo, hi, duration));
    forall i | 0 <= i < |acts| ensures acts[i] != UpdateProgress(100) {
      assert SimulatedValue(lo + i) <= 95;
    }
  }

  /** `r` differs from `s` at most in `tab`'s shared fields and the progress bar. */
  predicate OnlySessionAndBarChanged(s: AppState, r: AppState, tab: TabType) {
    r == WithSession(s, tab, SessionOf(r, tab)).(ui := s.ui.(progressBar := r.ui.progressBar))
  }

  /** The state the reply is handled in: the start action applied and the bar visible at the last tick's value. */
  function AtReply(s: AppState, start: Action, message: string, variant: ProgressVariant, ticksBeforeReply: nat): AppState {
    var p := Step(s, start);
    p.(ui := p.ui.(progressBar := ProgressState(true, SimulatedValue(TicksBefore(ticksBeforeReply) - 1), message, variant)))
  }

  /** Replaying a prelude reaches `AtReply`. */
  lemma PreludeReachesReply(s: AppState, start: Action, message: string, variant: ProgressVariant,
                            duration: real, request: Request, ticksBeforeReply: nat)
    ensures Run(s, ActionsOf(Prelude(start, message, variant, duration, request, ticksBeforeReply)))
         == AtReply(s, start, message, variant, ticksBeforeReply)
  {
    PreludeState(s, start, message, variant, duration, request, ticksBeforeReply);
  }

  /** A hook whose reply completes the bar and dispatches `a`. */
  lemma CompletedHook(s: AppState, start: Action, message: string, variant: ProgressVariant,
                      duration: real, request: Request, ticksBeforeReply: nat, a: Action)
    ensures var p := Step(s, start);
            Run(s, ActionsOf(Prelude(start, message, variant, duration, request, ticksBeforeReply) + (CompletionTrace + [Dispatched(a)])))
              == Step(p.(ui := p.ui.(progressBar := ProgressState(true, 100, message, variant))), a)
  {
    var prelude := Prelude(start, message, variant, duration, request, ticksBeforeReply);
    PreludeReachesReply(s, start, message, variant, duration, request, ticksBeforeReply);
    RunEffects(s, prelude, CompletionTrace + [Dispatched(a)]);
    var q := AtReply(s, start, message, variant, ticksBeforeReply);
    CompletedReply(q, a);
    UpdateProgressOnlyValue(q, 100);
    var p := Step(s, start);
    assert Step(q, UpdateProgress(100)) == p.(ui := p.ui.(progressBar := ProgressState(true, 100, message, variant)));
  }

  /** A hook whose reply hides the bar and dispatches `a`. */
  lemma FailedHook(s: AppState, start: Action, message: string, variant: ProgressVariant,
                   duration: real, request: Request, ticksBeforeReply: nat, a: Action)
    ensures var p := Step(s, start);
            var v := SimulatedValue(TicksBefore(ticksBeforeReply) - 1);
              && v <= 95
              && Run(s, ActionsOf(Prelude(start, message, variant, duration, request, ticksBeforeReply) + [Dispatched(HideProgress), Dispatched(a)]))
                 == Step(p.(ui := p.ui.(progressBar := ProgressState(false, v, message, variant))), a)
  {
    var prelude := Prelude(start, message, variant, duration, request, ticksBeforeReply);
    PreludeReachesReply(s, start, message, variant, duration, request, ticksBeforeReply);
    RunEffects(s, prelude, [Dispatched(HideProgress), Dispatched(a)]);
    var q := AtReply(s, start, message, variant, ticksBeforeReply);
    FailedReply(q, a);
    HideProgressOnlyVisibility(q);
    SimulatedValueIsFiveSteps(TicksBefore(ticksBeforeReply) - 1);
  }

  /** On a good reply: `completeProgress()`, then dispatch `a`. */
  method CompleteWith(store: AppStore, a: Action)
    modifies store
    ensures store.log == old(store.log) + (CompletionTrace + [Dispatched(a)])
    ensures store.state == Run(old(store.state), ActionsOf(CompletionTrace + [Dispatched(a)]))
    ensures store.timers == old(store.timers) + [Timer(HideDelayMs, HideProgressJob)]
  {
    CompletedReply(store.state, a);
    CompleteProgress(store);
    store.Dispatch(a);
  }

  /** On a failure: `hideProgress()`, then dispatch `a`. */
  method FailWith(store: AppStore, a: Action)
    modifies store
    ensures store.log == old(store.log) + [Dispatched(HideProgress), Dispatched(a)]
    ensures store.state == Run(old(store.state), ActionsOf([Dispatched(HideProgress), Dispatched(a)]))
    ensures store.timers == old(store.timers)
  {
    FailedReply(store.state, a);
    HideProgressOp(store);
    store.Dispatch(a);
  }

  /** A recipe hook (generation or optimization on `tab`) whose reply completes the bar and dispatches the success `a`. */
  lemma SessionHookSucceeds(s: AppState, start: Action, message: string, variant: ProgressVariant,
                            duration: real, request: Request, ticksBeforeReply: nat, tab: TabType, a: Action)
    requires start == StartRecipeGeneration(tab) || start == StartRecipeOptimization(tab)
    requires (a.RecipeGenerationSuccess? || a.RecipeOptimizationSuccess?) && a.tab == tab
    ensures var r := Run(s, ActionsOf(Prelude(start, message, variant, duration, request, ticksBeforeReply) + (CompletionTrace + [Dispatched(a)])));
              && SessionOf(r, tab) == SessionOf(s, tab).(recipe := Some(a.recipe), isGenerating := false, error := None)
              && r.ui.progressBar == ProgressState(true, 100, message, variant)
              && OnlySessionAndBarChanged(s, r, tab)
  {
    CompletedHook(s, start, message, variant, duration, request, ticksBeforeReply, a);
    var p := Step(s, start);
    var q := p.(ui := p.ui.(progressBar := ProgressState(true, 100, message, variant)));
    StartMarksBusy(s, start);
    SuccessReplacesRecipe(q, a);
  }

  /** A recipe hook (generation or optimization on `tab`) whose reply hides the bar and dispatches the error `a`. */
  lemma SessionHookFails(s: AppState, start: Action, message: string, variant: ProgressVariant,
                         duration: real, request: Request, ticksBeforeReply: nat, tab: TabType, a: Action)
    requires start == StartRecipeGeneration(tab) || start == StartRecipeOptimization(tab)
    requires (a.RecipeGenerationError? || a.RecipeOptimizationError?) && a.tab == tab
    ensures var r := Run(s, ActionsOf(Prelude(start, message, variant, duration, request, ticksBeforeReply) + [Dispatched(HideProgress), Dispatched(a)]));
              && SessionOf(r, tab) == SessionOf(s, tab).(isGenerating := false, error := Some(a.error))
              && !r.ui.progressBar.isVisible && r.ui.progressBar.progress <= 95
              && OnlySessionAndBarChanged(s, r, tab)
  {
    FailedHook(s, start, message, variant, duration, request, ticksBeforeReply, a);
    var p := Step(s, start);
    var q := p.(ui := p.ui.(progressBar := ProgressState(false, SimulatedValue(TicksBefore(ticksBeforeReply) - 1), message, variant)));
    StartMarksBusy(s, start);
    FailureKeepsRecipe(q, a);
  }

  /**
   * A bar completed at 100% while the simulation still had ticks left: once
   * those ticks and the pending hide run, the bar is hidden at 95%.
   */
  lemma ResumedThenHidden(r: AppState, nextTick: nat, duration: real)
    requires nextTick <= Steps
    requires r.ui.progressBar.progress == 100
    ensures var later := Run(r, ActionsOf(Ticks(nextTick, Steps + 1, duration) + [Dispatched(HideProgress)]));
            later.ui.progressBar == r.ui.progressBar.(progress := 95, isVisible := false)
  {
    var ticks := Ticks(nextTick, Steps + 1, duration);
    RunTicks(r, nextTick, Steps + 1, duration);
    var resumed := Run(r, ActionsOf(ticks));
    SimulatedValueIsFiveSteps(Steps);
    RunEffects(r, ticks, [Dispatched(HideProgress)]);
    SingleDispatch(HideProgress);
    RunSingle(resumed, HideProgress);
  }

  /** `completeProgress()`, then `hideProgress()` and the error. */
  lemma CompletedThenFailed(p: AppState, a: Action)
    ensures Run(p, ActionsOf(CompletionTrace + [Dispatched(HideProgress), Dispatched(a)]))
         == Run(Step(p, UpdateProgress(100)), ActionsOf([Dispatched(HideProgress), Dispatched(a)]))
  {
    RunEffects(p, CompletionTrace, [Dispatched(HideProgress), Dispatched(a)]);
    CompletedReply(p, a);
    assert ActionsOf(CompletionTrace) == [UpdateProgress(100)] by {
      assert CompletionTrace[1..][1..] == [];
    }
    RunSingle(p, UpdateProgress(100));
  }

  /** A hook whose reply completes the bar, then hides it and dispatches `a`. */
  lemma CompletedThenFailedHook(s: AppState, start: Action, message: string, variant: ProgressVariant,
                                duration: real, request: Request, ticksBeforeReply: nat, a: Action)
    ensures var p := Step(s, start);
            Run(s, ActionsOf(Prelude(start, message, variant, duration, request, ticksBeforeReply)
                             + (CompletionTrace + [Dispatched(HideProgress), Dispatched(a)])))
              == Step(p.(ui := p.ui.(progressBar := ProgressState(false, 100, message, variant))), a)
  {
    var prelude := Prelude(start, message, variant, duration, request, ticksBeforeReply);
    var fail := [Dispatched(HideProgress), Dispatched(a)];
    PreludeReachesReply(s, start, message, variant, duration, request, ticksBeforeReply);
    RunEffects(s, prelude, CompletionTrace + fail);
    var q := AtReply(s, start, message, variant, ticksBeforeReply);
    CompletedThenFailed(q, a);
    var q1 := Step(q, UpdateProgress(100));
    FailedReply(q1, a);
    UpdateProgressOnlyValue(q, 100);
    HideProgressOnlyVisibility(q1);
    var p := Step(s, start);
    assert Step(q1, HideProgress) == p.(ui := p.ui.(progressBar := ProgressState(false, 100, message, variant)));
  }
}
