/**
 * The chat helpers: building a message and dispatching ADD_MESSAGE, with a
 * delayed variant that only queues the message for later.
 */
module Chat {
  import opened Text
  import opened AppState
  import opened AppReducer
  import opened Store

  /** `addDelayedAIMessage`'s default delay. */
  const DefaultReplyDelayMs: real := 500.0

  /**
   * `addMessage(tab, role, content)` at millisecond clock `now`: one
   * ADD_MESSAGE carrying exactly the given role and content, whose id is
   * the clock in decimal; the message dispatched is the one returned.
   */
  method AddMessageOp(store: AppStore, tab: TabType, role: Role, content: string, now: nat) returns (m: ChatMessage)
    modifies store
    ensures m.role == role && m.content == content && m.id == NatString(now)
    ensures store.log == old(store.log) + [Dispatched(AddMessage(tab, m))]
    ensures store.state == Step(old(store.state), AddMessage(tab, m))
    ensures store.timers == old(store.timers)
  {
    m := ChatMessage(NatString(now), role, content);
    store.Dispatch(AddMessage(tab, m));
  }

  /** `addUserMessage(tab, content)`: `addMessage` with role `user`. */
  method AddUserMessage(store: AppStore, tab: TabType, content: string, now: nat) returns (m: ChatMessage)
    modifies store
    ensures m == ChatMessage(NatString(now), User, content)
    ensures store.log == old(store.log) + [Dispatched(AddMessage(tab, m))]
    ensures store.state == Step(old(store.state), AddMessage(tab, m))
    ensures store.timers == old(store.timers)
  {
    m := AddMessageOp(store, tab, User, content, now);
  }

  /** `addAIMessage(tab, content)`: `addMessage` with role `ai`. */
  method AddAIMessage(store: AppStore, tab: TabType, content: string, now: nat) returns (m: ChatMessage)
    modifies store
    ensures m == ChatMessage(NatString(now), Ai, content)
    ensures store.log == old(store.log) + [Dispatched(AddMessage(tab, m))]
    ensures store.state == Step(old(store.state), AddMessage(tab, m))
    ensures store.timers == old(store.timers)
  {
    m := AddMessageOp(store, tab, Ai, content, now);
  }

  /** `addDelayedAIMessage(tab, content, delay = 500)`: nothing is dispatched now; one AI message is queued. */
  method AddDelayedAIMessage(store: AppStore, tab: TabType, content: string, delay: real := DefaultReplyDelayMs)
    modifies store
    ensures store.log == old(store.log) + [Scheduled(Timer(delay, AiMessageJob(tab, content)))]
    ensures store.state == old(store.state)
    ensures store.timers == old(store.timers) + [Timer(delay, AiMessageJob(tab, content))]
  {
    store.SetTimeout(Timer(delay, AiMessageJob(tab, content)));
  }

  /** Ids come from the clock alone: two messages built in the same millisecond share their id, whatever they say. */
  lemma SameMillisecondSameId(now: nat, r1: Role, c1: string, r2: Role, c2: string)
    ensures ChatMessage(NatString(now), r1, c1).id == ChatMessage(NatString(now), r2, c2).id
    ensures c1 != c2 ==> ChatMessage(NatString(now), r1, c1) != ChatMessage(NatString(now), r2, c2)
  {
  }

  /** Messages built at different milliseconds have different ids. */
  lemma DifferentMillisecondsDifferentIds(t1: nat, t2: nat)
    requires t1 != t2
    ensures NatString(t1) != NatString(t2)
  {
    if NatString(t1) == NatString(t2) {
      NatStringInjective(t1, t2);
    }
  }

  /** Adding a message grows the conversation by exactly that message and changes no recipe. */
  lemma AddedMessageIsLast(s: AppState, tab: TabType, role: Role, content: string, now: nat)
    ensures var r := Step(s, AddMessage(tab, ChatMessage(NatString(now), role, content)));
      var conv := SessionOf(r, tab).conversation;
      && |conv| == |SessionOf(s, tab).conversation| + 1
      && conv[|conv| - 1].role == role && conv[|conv| - 1].content == content
      && conv[..|conv| - 1] == SessionOf(s, tab).conversation
      && SessionOf(r, tab).recipe == SessionOf(s, tab).recipe
      && SessionOf(r, OtherTab(tab)) == SessionOf(s, OtherTab(tab))
  {
    var m := ChatMessage(NatString(now), role, content);
    assert (SessionOf(s, tab).conversation + [m])[..|SessionOf(s, tab).conversation|] == SessionOf(s, tab).conversation;
  }
}
