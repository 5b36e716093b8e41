/**
 * The frontend store as the hooks see it: the current `AppState`, a log of
 * what the hooks did in order (actions dispatched, sleeps awaited, requests
 * sent, timers scheduled) and the queue of `setTimeout` callbacks not yet run.
 */
module Store {
  import opened AppState
  import opened AppReducer
  import opened ReducerProperties

  /** Work a pending `setTimeout` callback will do when it runs. */
  datatype Job =
    | HideProgressJob
    | AiMessageJob(tab: TabType, content: string)
      /** The rest of a progress simulation, from tick `nextTick`, waiting on a sleep that had not ended when its caller moved on. */
    | ResumeProgressJob(nextTick: nat, duration: real)

  datatype Timer = Timer(delayMs: real, job: Job)

  /** One `{role, content}` entry of the history sent with an optimization request. */
  datatype HistoryEntry = HistoryEntry(role: Role, content: string)

  /** The body of each backend request the frontend makes; the endpoint is implied by the constructor. */
  datatype Request =
    | GenerateRequest(description: string)
    | OptimizeRequest(currentRecipe: Recipe, userRequest: string, history: seq<HistoryEntry>)
    | ImageRequest(recipe: Recipe)
    | AnalyzeRequest
    | IntentRequest(message: string)

  /** One observable step of a hook. */
  datatype Effect =
    | Dispatched(action: Action)
    | Slept(ms: real)
    | Fetched(request: Request)
    | Scheduled(timer: Timer)

  /** The actions of an effect log, in order. */
  function ActionsOf(effects: seq<Effect>): (r: seq<Action>)
    ensures |r| <= |effects|
    ensures (forall k :: 0 <= k < |effects| ==> !effects[k].Dispatched?) ==> r == []
  {
    if effects == [] then []
    else (if effects[0].Dispatched? then [effects[0].action] else []) + ActionsOf(effects[1..])
  }

  /** Taking the actions of a log commutes with concatenating logs. */
  lemma {:induction false} ActionsOfConcat(a: seq<Effect>, b: seq<Effect>)
    ensures ActionsOf(a + b) == ActionsOf(a) + ActionsOf(b)
    decreases |a|
  {
    if a == [] {
      assert a + b == b;
    } else {
      assert (a + b)[0] == a[0];
      assert (a + b)[1..] == a[1..] + b;
      ActionsOfConcat(a[1..], b);
    }
  }

  /** The actions of a single dispatch. */
  lemma SingleDispatch(a: Action)
    ensures ActionsOf([Dispatched(a)]) == [a]
  {
    assert [Dispatched(a)][1..] == [];
  }

  /** Replaying two logs one after the other is replaying their concatenation. */
  lemma RunEffects(s: AppState, a: seq<Effect>, b: seq<Effect>)
    ensures Run(Run(s, ActionsOf(a)), ActionsOf(b)) == Run(s, ActionsOf(a + b))
  {
    ActionsOfConcat(a, b);
    RunConcat(s, ActionsOf(a), ActionsOf(b));
  }

  /** Concatenation regrouped, so that a log built in two steps matches a trace written in one. */
  lemma AppendAssoc<T>(a: seq<T>, b: seq<T>, c: seq<T>)
    ensures a + (b + c) == a + b + c
  {
  }

  /** The store plus the record of what was done to it. */
  class AppStore {
    var state: AppState
    var log: seq<Effect>
    var timers: seq<Timer>

    constructor (initial: AppState)
      ensures state == initial && log == [] && timers == []
    {
      state := initial;
      log := [];
      timers := [];
    }

    /** `dispatch(action)`: the reducer runs at once. */
    method Dispatch(a: Action)
      modifies this
      ensures state == Step(old(state), a)
      ensures log == old(log) + [Dispatched(a)]
      ensures timers == old(timers)
    {
      state := Step(state, a);
      log := log + [Dispatched(a)];
    }

    /** `await new Promise(resolve => setTimeout(resolve, ms))`, as far as its start. */
    method Sleep(ms: real)
      modifies this
      ensures state == old(state)
      ensures log == old(log) + [Slept(ms)]
      ensures timers == old(timers)
    {
      log := log + [Slept(ms)];
    }

    /** `fetch(...)` with the given body: only the request is recorded; its outcome is an input of the caller. */
    method Fetch(r: Request)
      modifies this
      ensures state == old(state)
      ensures log == old(log) + [Fetched(r)]
      ensures timers == old(timers)
    {
      log := log + [Fetched(r)];
    }

    /** `setTimeout(job, delayMs)`: the job is queued, not run. */
    method SetTimeout(t: Timer)
      modifies this
      ensures state == old(state)
      ensures log == old(log) + [Scheduled(t)]
      ensures timers == old(timers) + [t]
    {
      log := log + [Scheduled(t)];
      timers := timers + [t];
    }

    /** The event loop takes every queued callback, in the order queued, to run them. */
    method TakeTimers() returns (pending: seq<Timer>)
      modifies this
      ensures pending == old(timers)
      ensures state == old(state) && log == old(log) && timers == []
    {
      pending := timers;
      timers := [];
    }

    /** Queue the continuation of a sleep already recorded with `Sleep` that has not ended yet. */
    method Defer(t: Timer)
      modifies this
      ensures state == old(state)
      ensures log == old(log)
      ensures timers == old(timers) + [t]
    {
      timers := timers + [t];
    }
  }
}
