/**
 * Running queued `setTimeout` callbacks: the hide that `completeProgress`
 * schedules, delayed AI replies, and the remainder of a progress
 * simulation that was still sleeping when its caller moved on.
 */
module Timers {
  import opened Text
  import opened AppState
  import opened AppReducer
  import opened Store
  import opened Progress
  import opened Chat
  import opened ReducerProperties

  /** What running `job` at clock `now` does. */
  function JobTrace(job: Job, now: nat): seq<Effect> {
    match job
    case HideProgressJob => [Dispatched(HideProgress)]
    case AiMessageJob(tab, content) => [Dispatched(AddMessage(tab, ChatMessage(NatString(now), Ai, content)))]
    case ResumeProgressJob(nextTick, duration) => Ticks(nextTick, Steps + 1, duration)
  }

  /** What running `pending` in order does. */
  function JobsTrace(pending: seq<Timer>, now: nat): seq<Effect> {
    if pending == [] then [] else JobTrace(pending[0].job, now) + JobsTrace(pending[1..], now)
  }

  /** Running one more job at the end. */
  lemma {:induction false} JobsTraceSnoc(pending: seq<Timer>, t: Timer, now: nat)
    ensures JobsTrace(pending + [t], now) == JobsTrace(pending, now) + JobTrace(t.job, now)
  {
    if pending == [] {
      assert [t][1..] == [];
    } else {
      assert (pending + [t])[1..] == pending[1..] + [t];
      JobsTraceSnoc(pending[1..], t, now);
    }
  }

  /** A prefix one element longer. */
  lemma TakeOneMore(xs: seq<Timer>, i: nat)
    requires i < |xs|
    ensures xs[..i + 1] == xs[..i] + [xs[i]]
  {
  }

  /** The log and the state after one more job. */
  lemma FireOneMore(s0: AppState, log0: seq<Effect>, done: seq<Timer>, t: Timer, now: nat)
    ensures log0 + JobsTrace(done, now) + JobTrace(t.job, now) == log0 + JobsTrace(done + [t], now)
    ensures Run(Run(s0, ActionsOf(JobsTrace(done, now))), ActionsOf(JobTrace(t.job, now)))
         == Run(s0, ActionsOf(JobsTrace(done + [t], now)))
  {
    JobsTraceSnoc(done, t, now);
    RunEffects(s0, JobsTrace(done, now), JobTrace(t.job, now));
  }

  /** Run one queued callback. */
  method RunJob(store: AppStore, job: Job, now: nat)
    modifies store
    ensures store.log == old(store.log) + JobTrace(job, now)
    ensures store.state == Run(old(store.state), ActionsOf(JobTrace(job, now)))
    ensures store.timers == old(store.timers)
  {
    match job
    case HideProgressJob =>
      HideProgressOp(store);
      SingleDispatch(HideProgress);
      RunSingle(old(store.state), HideProgress);
    case AiMessageJob(tab, content) =>
      var m := AddAIMessage(store, tab, content, now);
      SingleDispatch(AddMessage(tab, m));
      RunSingle(old(store.state), AddMessage(tab, m));
    case ResumeProgressJob(nextTick, duration) =>
      if nextTick <= Steps + 1 {
        SimulateTicks(store, nextTick, Steps + 1, duration);
      } else {
        assert Ticks(nextTick, Steps + 1, duration) == [];
      }
  }

  /** Let every queued callback run, oldest first, at clock `now`; none of them queues another. */
  method FireTimers(store: AppStore, now: nat)
    modifies store
    ensures store.log == old(store.log) + JobsTrace(old(store.timers), now)
    ensures store.state == Run(old(store.state), ActionsOf(JobsTrace(old(store.timers), now)))
    ensures store.timers == []
  {
    ghost var s0 := store.state;
    ghost var log0 := store.log;
    var pending := store.TakeTimers();
    var i := 0;
    while i < |pending|
      invariant 0 <= i <= |pending|
      invariant store.log == log0 + JobsTrace(pending[..i], now)
      invariant store.state == Run(s0, ActionsOf(JobsTrace(pending[..i], now)))
      invariant store.timers == []
    {
      ghost var done := pending[..i];
      RunJob(store, pending[i].job, now);
      TakeOneMore(pending, i);
      FireOneMore(s0, log0, done, pending[i], now);
      i := i + 1;
    }
    assert pending[..i] == pending;
  }

  /** A queued hide, once run, leaves the bar hidden with its value and message as they were. */
  lemma HideJobHides(s: AppState, now: nat)
    ensures var r := Run(s, ActionsOf(JobTrace(HideProgressJob, now)));
              !r.ui.progressBar.isVisible && r.ui.progressBar == s.ui.progressBar.(isVisible := false)
  {
    SingleDispatch(HideProgress);
    RunSingle(s, HideProgress);
  }

  /** A queued AI reply, once run, is the last message of its tab's conversation. */
  lemma ReplyJobAppends(s: AppState, tab: TabType, content: string, now: nat)
    ensures var r := Run(s, ActionsOf(JobTrace(AiMessageJob(tab, content), now)));
              SessionOf(r, tab).conversation == SessionOf(s, tab).conversation + [ChatMessage(NatString(now), Ai, content)]
  {
    var m := ChatMessage(NatString(now), Ai, content);
    SingleDispatch(AddMessage(tab, m));
    RunSingle(s, AddMessage(tab, m));
  }
}
