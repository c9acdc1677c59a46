/** The decisions of `InstagramBot` as functions of its state: the hourly rate
    gate of `should_respond`, one `process_message` call, one visit of a listed
    message, and the whole `check_messages` sweep. The class in InstaBot is
    proved to do what these functions say; the lemmas here say what that means. */
module BotSpec {
  import opened Wrappers
  import opened Settings
  import opened Responder
  import opened Freshness

  type UserId = string
  type ThreadId = string

  /** The bot's fields that its methods read and write. `botUserId` is `None`
      while the attribute `bot_user_id` has not been set. */
  datatype BotState = BotState(
    responseCount: nat,
    lastReset: int,
    lastHealthCheck: int,
    processed: set<MessageId>,
    botUserId: Option<UserId>)

  /** An external call the bot made, and whether it returned normally. */
  datatype Call =
    | Send(text: string, recipients: seq<UserId>, delivered: bool)   // direct_send
    | Approve(user: UserId, ok: bool)                                 // friendships_approve

  // ---------------------------------------------------------------- should_respond

  datatype Gated = Gated(state: BotState, allowed: bool)

  /** `should_respond` at clock reading `now`. */
  function Gate(cap: nat, s: BotState, now: int): Gated {
    var t := if now - s.lastReset > RateWindow then s.(responseCount := 0, lastReset := now) else s;
    Gated(t, t.responseCount < cap)
  }

  /** Once the cap is reached, every gate inside the same hour refuses and
      changes nothing; the first gate more than an hour after the last reset
      starts a fresh window and lets a reply through. */
  lemma {:induction false} CapHoldsForTheHour(cap: nat, s: BotState, times: seq<int>, later: int)
    requires s.responseCount >= cap
    requires forall i :: 0 <= i < |times| ==> times[i] - s.lastReset <= RateWindow
    requires later - s.lastReset > RateWindow && cap > 0
    ensures GateAll(cap, s, times) == Gated(s, false)
    ensures Gate(cap, GateAll(cap, s, times).state, later) == Gated(s.(responseCount := 0, lastReset := later), true)
  {
    if times != [] {
      CapHoldsForTheHour(cap, s, times[1..], later);
    }
  }

  /** The comparison is strict: exactly one hour after the last reset the
      window is kept, one second later it starts afresh. A gate never raises
      the count. */
  lemma ResetBoundary(cap: nat, s: BotState)
    ensures Gate(cap, s, s.lastReset + 3600) == Gated(s, s.responseCount < cap)
    ensures Gate(cap, s, s.lastReset + 3601) == Gated(s.(responseCount := 0, lastReset := s.lastReset + 3601), 0 < cap)
    ensures forall now :: Gate(cap, s, now).state.responseCount <= s.responseCount
  {
  }

  /** Consecutive gates at the given clock readings, with nothing sent between them. */
  function GateAll(cap: nat, s: BotState, times: seq<int>): Gated
    decreases |times|
  {
    if times == [] then Gated(s, s.responseCount < cap)
    else GateAll(cap, Gate(cap, s, times[0]).state, times[1..])
  }

  // --------------------------------------------------------------- process_message

  /** The dictionary `check_messages` hands to `process_message`. */
  datatype Incoming = Incoming(text: string, userId: UserId, id: MessageId)

  /** The outside world's answers while one listed message is handled: the
      clock at `is_new_message`, the clock at `should_respond`, the language
      model's reply, the random draw, and whether `direct_send` returned. */
  datatype Oracle = Oracle(checkClock: int, gateClock: int, llm: LlmReply, pick: nat, delivered: bool)

  datatype Dispatch = Dispatch(state: BotState, reply: Option<string>, effects: seq<Call>)

  /** `process_message(m)`. */
  function Process(cfg: Config, s: BotState, m: Incoming, o: Oracle): Dispatch {
    var g := Gate(cfg.maxResponsesPerHour, s, o.gateClock);
    if !g.allowed then Dispatch(g.state, None, [])
    else match g.state.botUserId
      case None => Dispatch(g.state, None, [])               // reading bot_user_id raises
      case Some(me) =>
        if m.userId == me then Dispatch(g.state, None, [])
        else match NaturalResponse(cfg, m.text, o.llm, o.pick)
          case None => Dispatch(g.state, None, [])           // the fallback draw raised
          case Some(reply) =>
            if !o.delivered then Dispatch(g.state, None, [Send(reply, [m.userId], false)])
            else Dispatch(
              g.state.(processed := g.state.processed + {m.id},
                       responseCount := g.state.responseCount + 1),
              Some(reply), [Send(reply, [m.userId], true)])
  }

  /** A refused gate or a message from the bot itself: no send, the id is not
      recorded, the count is untouched (only the window may have been reset). */
  lemma ProcessRefused(cfg: Config, s: BotState, m: Incoming, o: Oracle)
    requires !Gate(cfg.maxResponsesPerHour, s, o.gateClock).allowed || Some(m.userId) == s.botUserId
    ensures var d := Process(cfg, s, m, o);
      d.reply == None && d.effects == [] && d.state == Gate(cfg.maxResponsesPerHour, s, o.gateClock).state
  {
  }

  /** A reply is returned exactly when one send to the sender alone went
      through; then, and only then, the id is recorded and the count rises
      by one. A failed send leaves both as the gate left them. */
  lemma ProcessSendsOnce(cfg: Config, s: BotState, m: Incoming, o: Oracle)
    ensures var d := Process(cfg, s, m, o);
      var g := Gate(cfg.maxResponsesPerHour, s, o.gateClock).state;
      && |d.effects| <= 1
      && (d.reply.Some? ==> d.effects == [Send(d.reply.value, [m.userId], true)])
      && (d.reply.None? ==> d.effects == [] || d.effects == [Send(d.effects[0].text, [m.userId], false)])
      && (d.reply.Some? ==> d.state == g.(processed := g.processed + {m.id}, responseCount := g.responseCount + 1))
      && (d.reply.None? ==> d.state == g)
      && (d.reply.Some? ==> d.reply == NaturalResponse(cfg, m.text, o.llm, o.pick))
  {
  }

  /** The converse: a message the gate lets through, from a user other than
      the bot, with a reply generated and a send that returned, is answered
      with that reply, sent once to the sender alone, recorded and counted. */
  lemma ProcessDelivers(cfg: Config, s: BotState, m: Incoming, o: Oracle, me: UserId, r: string)
    requires Gate(cfg.maxResponsesPerHour, s, o.gateClock).allowed
    requires s.botUserId == Some(me) && m.userId != me
    requires NaturalResponse(cfg, m.text, o.llm, o.pick) == Some(r) && o.delivered
    ensures var g := Gate(cfg.maxResponsesPerHour, s, o.gateClock).state;
      Process(cfg, s, m, o)
        == Dispatch(g.(processed := g.processed + {m.id}, responseCount := g.responseCount + 1),
                    Some(r), [Send(r, [m.userId], true)])
  {
  }

  /** What no step of the bot's message handling may do: shrink the processed
      set, push the count past the cap, or touch the health clock or the id. */
  predicate Keeps(cap: nat, s: BotState, t: BotState) {
    && s.processed <= t.processed
    && (s.responseCount <= cap ==> t.responseCount <= cap)
    && t.lastHealthCheck == s.lastHealthCheck
    && t.botUserId == s.botUserId
  }

  /** Every send goes to exactly one user, never to the bot's own account. */
  predicate RepliesToOthers(effects: seq<Call>, me: Option<UserId>) {
    forall i :: 0 <= i < |effects| && effects[i].Send? ==>
      |effects[i].recipients| == 1 && Some(effects[i].recipients[0]) != me
  }

  lemma ProcessKeeps(cfg: Config, s: BotState, m: Incoming, o: Oracle)
    ensures Keeps(cfg.maxResponsesPerHour, s, Process(cfg, s, m, o).state)
    ensures RepliesToOthers(Process(cfg, s, m, o).effects, s.botUserId)
  {
  }

  // ------------------------------------------------------- one listed message

  /** A message as `direct_messages` lists it; `text` is `None` for a message
      without text. */
  datatype Message = Message(id: MessageId, userId: UserId, text: Option<string>, stamp: Stamp)

  /** One listed message together with what the world answers while it is handled. */
  datatype Seen = Seen(msg: Message, oracle: Oracle)

  /** The state after visiting one or more messages, the calls made on the
      way, and whether handling a message raised, which ends the visit of
      its thread. */
  datatype Step = Step(state: BotState, effects: seq<Call>, aborted: bool)

  /** The body of the inner loop of `check_messages` for one message. */
  function Visit(cfg: Config, s: BotState, v: Seen): Step {
    var m := v.msg;
    if Some(m.userId) == s.botUserId then Step(s, [], false)
    else if m.id in s.processed then Step(s, [], false)
    else match m.text
      case None => Step(s, [], true)                // `message.text[:50]` raises
      case Some(text) =>
        if !IsNewMessage(s.processed, m.id, m.stamp, v.oracle.checkClock) then Step(s, [], false)
        else
          var d := Process(cfg, s, Incoming(text, m.userId, m.id), v.oracle);
          Step(d.state, d.effects, false)
  }

  /** A visit changes something only for a message from another user, not yet
      processed, with text, and new by `is_new_message`; it aborts only for a
      message without text, and then changes nothing. */
  lemma VisitOnlyDispatchesNew(cfg: Config, s: BotState, v: Seen)
    ensures var st := Visit(cfg, s, v);
      var m := v.msg;
      && (st.state != s || st.effects != [] ==>
            && Some(m.userId) != s.botUserId
            && m.id !in s.processed
            && m.text.Some?
            && IsNewMessage(s.processed, m.id, m.stamp, v.oracle.checkClock))
      && (st.aborted <==> Some(m.userId) != s.botUserId && m.id !in s.processed && m.text.None?)
      && (st.aborted ==> st.state == s && st.effects == [])
  {
  }

  /** The converse: a message from another user, not yet processed, with
      text and new by `is_new_message` is handed to `process_message`, and
      the visit goes on. */
  lemma VisitDispatches(cfg: Config, s: BotState, v: Seen, text: string)
    requires Some(v.msg.userId) != s.botUserId && v.msg.id !in s.processed
    requires v.msg.text == Some(text)
    requires IsNewMessage(s.processed, v.msg.id, v.msg.stamp, v.oracle.checkClock)
    ensures var d := Process(cfg, s, Incoming(text, v.msg.userId, v.msg.id), v.oracle);
      Visit(cfg, s, v) == Step(d.state, d.effects, false)
  {
  }

  /** What no run of visits may do: shrink the processed set, push the count
      past the cap, touch the health clock or the bot's id, or reply to the
      bot itself or to more than one user. */
  predicate Extends(cap: nat, s: BotState, st: Step) {
    Keeps(cap, s, st.state) && RepliesToOthers(st.effects, s.botUserId)
  }

  lemma VisitExtends(cfg: Config, s: BotState, v: Seen)
    ensures Extends(cfg.maxResponsesPerHour, s, Visit(cfg, s, v))
  {
    var m := v.msg;
    if m.text.Some? {
      ProcessKeeps(cfg, s, Incoming(m.text.value, m.userId, m.id), v.oracle);
    }
  }

  lemma RepliesToOthersJoin(e1: seq<Call>, e2: seq<Call>, me: Option<UserId>)
    requires RepliesToOthers(e1, me) && RepliesToOthers(e2, me)
    ensures RepliesToOthers(e1 + e2, me)
  {
    forall i | 0 <= i < |e1 + e2| && (e1 + e2)[i].Send?
      ensures |(e1 + e2)[i].recipients| == 1 && Some((e1 + e2)[i].recipients[0]) != me
    {
      if i >= |e1| {
        assert (e1 + e2)[i] == e2[i - |e1|];
      }
    }
  }

  // ------------------------------------------------------------ one thread

  /** `reversed(messages)`: the newest (last listed) message first. */
  function NewestFirst(msgs: seq<Seen>): seq<Seen> {
    if msgs == [] then [] else [msgs[|msgs| - 1]] + NewestFirst(msgs[..|msgs| - 1])
  }

  lemma {:induction false} NewestFirstAt(msgs: seq<Seen>, k: nat)
    requires k < |msgs|
    ensures |NewestFirst(msgs)| == |msgs|
    ensures NewestFirst(msgs)[k] == msgs[|msgs| - 1 - k]
  {
    if k > 0 {
      NewestFirstAt(msgs[..|msgs| - 1], k - 1);
    } else if |msgs| > 1 {
      NewestFirstAt(msgs[..|msgs| - 1], 0);
    }
  }

  /** Visits `vs` in order until a visit aborts. */
  function Drain(cfg: Config, s: BotState, vs: seq<Seen>): Step
    decreases |vs|
  {
    if vs == [] then Step(s, [], false)
    else
      var st := Visit(cfg, s, vs[0]);
      if st.aborted then st
      else
        var rest := Drain(cfg, st.state, vs[1..]);
        Step(rest.state, st.effects + rest.effects, rest.aborted)
  }

  /** `r` preceded by the calls `done` made earlier in the same thread. */
  function After(done: seq<Call>, r: Step): Step {
    Step(r.state, done + r.effects, r.aborted)
  }

  /** Unfolds `Drain` by one visit, keeping track of the earlier calls. */
  lemma DrainOne(cfg: Config, s: BotState, done: seq<Call>, v: Seen, vs: seq<Seen>)
    ensures var st := Visit(cfg, s, v);
      After(done, Drain(cfg, s, [v] + vs))
        == if st.aborted then After(done, st) else After(done + st.effects, Drain(cfg, st.state, vs))
  {
    assert ([v] + vs)[0] == v && ([v] + vs)[1..] == vs;
    var st := Visit(cfg, s, v);
    var rest := Drain(cfg, st.state, vs);
    assert done + (st.effects + rest.effects) == done + st.effects + rest.effects;
  }

  /** Draining the first `j` messages newest first is visiting message
      `j - 1`, then, unless that visit aborted with nothing done, draining
      the first `j - 1`. */
  lemma DrainLast(cfg: Config, s: BotState, done: seq<Call>, msgs: seq<Seen>, j: nat)
    requires 0 < j <= |msgs|
    ensures var st := Visit(cfg, s, msgs[j - 1]);
      After(done, Drain(cfg, s, NewestFirst(msgs[..j])))
        == if st.aborted then Step(s, done, true)
           else After(done + st.effects, Drain(cfg, st.state, NewestFirst(msgs[..j - 1])))
  {
    assert msgs[..j][..j - 1] == msgs[..j - 1];
    assert NewestFirst(msgs[..j]) == [msgs[j - 1]] + NewestFirst(msgs[..j - 1]);
    DrainOne(cfg, s, done, msgs[j - 1], NewestFirst(msgs[..j - 1]));
    VisitOnlyDispatchesNew(cfg, s, msgs[j - 1]);
  }

  lemma {:induction false} DrainExtends(cfg: Config, s: BotState, vs: seq<Seen>)
    ensures Extends(cfg.maxResponsesPerHour, s, Drain(cfg, s, vs))
    decreases |vs|
  {
    if vs != [] {
      var st := Visit(cfg, s, vs[0]);
      VisitExtends(cfg, s, vs[0]);
      if !st.aborted {
        DrainExtends(cfg, st.state, vs[1..]);
        RepliesToOthersJoin(st.effects, Drain(cfg, st.state, vs[1..]).effects, s.botUserId);
      }
    }
  }

  /** A thread of the listing; `fetched` is `None` when `direct_messages` raised. */
  datatype MessageThread = MessageThread(id: ThreadId, fetched: Option<seq<Seen>>)

  /** What a sweep has done so far: the bot's state and the calls made. */
  datatype Acc = Acc(state: BotState, effects: seq<Call>)

  /** The body of the outer loop of `check_messages` for one thread: its
      messages newest first; a failure ends this thread only. */
  function ThreadStep(cfg: Config, a: Acc, t: MessageThread): Acc {
    match t.fetched
      case None => a
      case Some(msgs) =>
        var r := Drain(cfg, a.state, NewestFirst(msgs));
        Acc(r.state, a.effects + r.effects)
  }

  /** The threads in order, each from the state the previous one left. */
  function Sweep(cfg: Config, a: Acc, ts: seq<MessageThread>): Acc
    decreases |ts|
  {
    if ts == [] then a else Sweep(cfg, ThreadStep(cfg, a, ts[0]), ts[1..])
  }

  /** Sweeping the threads from index `i` is one thread step followed by
      the sweep from `i + 1`. */
  lemma SweepOne(cfg: Config, a: Acc, ts: seq<MessageThread>, i: nat)
    requires i < |ts|
    ensures Sweep(cfg, a, ts[i..]) == Sweep(cfg, ThreadStep(cfg, a, ts[i]), ts[i + 1..])
  {
    assert ts[i..][0] == ts[i] && ts[i..][1..] == ts[i + 1..];
  }

  /** A whole sweep never shrinks the processed set, never pushes the count
      past the cap, only appends calls, and replies only to other users. */
  lemma {:induction false} SweepExtends(cfg: Config, a: Acc, ts: seq<MessageThread>)
    ensures var b := Sweep(cfg, a, ts);
      && Keeps(cfg.maxResponsesPerHour, a.state, b.state)
      && |a.effects| <= |b.effects| && b.effects[..|a.effects|] == a.effects
      && RepliesToOthers(b.effects[|a.effects|..], a.state.botUserId)
    decreases |ts|
  {
    if ts != [] {
      var b := ThreadStep(cfg, a, ts[0]);
      var mine: seq<Call> := [];
      if ts[0].fetched.Some? {
        DrainExtends(cfg, a.state, NewestFirst(ts[0].fetched.value));
        mine := Drain(cfg, a.state, NewestFirst(ts[0].fetched.value)).effects;
      }
      assert b.effects == a.effects + mine;
      SweepExtends(cfg, b, ts[1..]);
      var c := Sweep(cfg, b, ts[1..]);
      var later := c.effects[|b.effects|..];
      assert c.effects == a.effects + mine + later;
      assert c.effects[|a.effects|..] == mine + later;
      RepliesToOthersJoin(mine, later, a.state.botUserId);
    } else {
      assert a.effects[|a.effects|..] == [];
    }
  }

  /** A sweep of `ts + us` is the sweep of `ts` followed by the sweep of `us`:
      no thread, failed or not, stops the sweep of the threads after it. */
  lemma {:induction false} SweepAppend(cfg: Config, a: Acc, ts: seq<MessageThread>, us: seq<MessageThread>)
    ensures Sweep(cfg, a, ts + us) == Sweep(cfg, Sweep(cfg, a, ts), us)
    decreases |ts|
  {
    if ts != [] {
      assert (ts + us)[0] == ts[0];
      assert (ts + us)[1..] == ts[1..] + us;
      SweepAppend(cfg, ThreadStep(cfg, a, ts[0]), ts[1..], us);
    } else {
      assert ts + us == us;
    }
  }

  /** A thread whose messages could not be listed is skipped without effect,
      and the sweep goes on with the next threads. */
  lemma FailedThreadSkipped(cfg: Config, a: Acc, t: MessageThread, rest: seq<MessageThread>)
    requires t.fetched.None?
    ensures Sweep(cfg, a, [t] + rest) == Sweep(cfg, a, rest)
  {
    assert ([t] + rest)[1..] == rest;
  }

  // --------------------------------------------------------------- check_messages

  /** What `direct_threads` returns, or that it raised (with whether the
      exception was `LoginRequired`). */
  datatype Listing = Listed(threads: seq<MessageThread>) | ListingFailed(loginRequired: bool)

  /** The client's answers for one call of `check_messages`. */
  datatype Inbox = Inbox(
    clientUserId: UserId,     // client.user_id
    regular: Listing,         // direct_threads()
    hidden: Listing,          // direct_threads(selected_filter="unread")
    reloginOk: bool)          // whether login() returns after LoginRequired

  /** The end of a sweep; `raised` when the relogin after `LoginRequired`
      failed, which propagates to `run`. */
  datatype SweepResult = SweepResult(acc: Acc, raised: bool)

  /** `check_messages`. */
  function CheckMessages(cfg: Config, s: BotState, inbox: Inbox): SweepResult {
    var s1 := if s.botUserId.None? then s.(botUserId := Some(inbox.clientUserId)) else s;
    var a := Acc(s1, []);
    match inbox.regular
      case ListingFailed(lr) => SweepResult(a, lr && !inbox.reloginOk)
      case Listed(regular) =>
        if !cfg.processHiddenMessages then SweepResult(Sweep(cfg, a, regular), false)
        else match inbox.hidden
          case ListingFailed(lr) => SweepResult(a, lr && !inbox.reloginOk)
          case Listed(hidden) => SweepResult(Sweep(cfg, a, regular + hidden), false)
  }

  /** The bot's id, once known, stays; the processed set only grows; the cap
      holds after the sweep if it held before; every send goes to one user
      other than the bot. */
  lemma CheckMessagesKeeps(cfg: Config, s: BotState, inbox: Inbox)
    ensures var r := CheckMessages(cfg, s, inbox).acc;
      && s.processed <= r.state.processed
      && (s.responseCount <= cfg.maxResponsesPerHour ==> r.state.responseCount <= cfg.maxResponsesPerHour)
      && r.state.lastHealthCheck == s.lastHealthCheck
      && (s.botUserId.Some? ==> r.state.botUserId == s.botUserId)
      && r.state.botUserId.Some?
      && RepliesToOthers(r.effects, r.state.botUserId)
  {
    var s1 := if s.botUserId.None? then s.(botUserId := Some(inbox.clientUserId)) else s;
    var a := Acc(s1, []);
    match inbox.regular
      case ListingFailed(_) =>
      case Listed(regular) =>
        if !cfg.processHiddenMessages {
          SweepExtends(cfg, a, regular);
        } else if inbox.hidden.Listed? {
          SweepExtends(cfg, a, regular + inbox.hidden.threads);
        }
  }

  /** Hidden threads are swept after all regular ones; if listing them fails,
      no thread at all is swept. */
  lemma HiddenAfterRegular(cfg: Config, s: BotState, inbox: Inbox)
    requires cfg.processHiddenMessages && inbox.regular.Listed?
    ensures var s1 := if s.botUserId.None? then s.(botUserId := Some(inbox.clientUserId)) else s;
      var a := Acc(s1, []);
      CheckMessages(cfg, s, inbox).acc
        == if inbox.hidden.Listed?
           then Sweep(cfg, Sweep(cfg, a, inbox.regular.threads), inbox.hidden.threads)
           else a
  {
    var s1 := if s.botUserId.None? then s.(botUserId := Some(inbox.clientUserId)) else s;
    if inbox.hidden.Listed? {
      SweepAppend(cfg, Acc(s1, []), inbox.regular.threads, inbox.hidden.threads);
    }
  }

  /** `check_messages` raises only when a listing raised `LoginRequired` and
      the relogin failed too. */
  lemma RaisesOnlyOnFailedRelogin(cfg: Config, s: BotState, inbox: Inbox)
    ensures CheckMessages(cfg, s, inbox).raised <==>
      !inbox.reloginOk &&
      ((inbox.regular.ListingFailed? && inbox.regular.loginRequired) ||
       (inbox.regular.Listed? && cfg.processHiddenMessages &&
        inbox.hidden.ListingFailed? && inbox.hidden.loginRequired))
  {
  }
}
