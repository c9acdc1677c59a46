/** The `InstagramBot` class: its counters and processed set as fields, its
    methods as state changes proved equal to the functions of BotSpec. The
    external calls it makes are recorded, in order, in the ghost log `calls`. */
module InstaBot {
  import opened Wrappers
  import opened Settings
  import opened Responder
  import opened Freshness
  import opened BotSpec

  /** An entry of `friendships_pending()`: a user object with a `pk`, or a
      bare id. */
  datatype PendingUser = WithPk(pk: UserId) | Bare(id: UserId)

  /** `user.pk if hasattr(user, 'pk') else user`. */
  function ApproveTarget(u: PendingUser): UserId {
    match u
      case WithPk(pk) => pk
      case Bare(id) => id
  }

  /** A pending request and whether approving it returns normally. */
  datatype FollowRequest = FollowRequest(user: PendingUser, approveOk: bool)

  class InstagramBot {
    const cfg: Config
    var responseCount: nat
    var lastReset: int
    var lastHealthCheck: int
    var processedMessages: set<MessageId>
    var botUserId: Option<UserId>
    /** The attribute `running` that the control API sets; absent at
        construction, which is modelled as false. */
    var running: bool
    ghost var calls: seq<Call>

    /** The rate limiter's invariant: the count never exceeds the cap. */
    ghost predicate Valid()
      reads this
    {
      responseCount <= cfg.maxResponsesPerHour
    }

    function State(): BotState
      reads this
    {
      BotState(responseCount, lastReset, lastHealthCheck, processedMessages, botUserId)
    }

    /** `InstagramBot()`; `now` is the clock reading `datetime.now()`. */
    constructor (cfg: Config, now: int)
      ensures Valid() && this.cfg == cfg
      ensures State() == BotState(0, now, now, {}, None)
      ensures !running && calls == []
    {
      this.cfg := cfg;
      responseCount := 0;
      lastReset := now;
      lastHealthCheck := now;
      processedMessages := {};
      botUserId := None;
      running := false;
      calls := [];
    }

    /** `should_respond()`: a window more than an hour old is reset, then the
        answer is whether the count is below the cap. */
    method ShouldRespond(now: int) returns (r: bool)
      modifies this`responseCount, this`lastReset
      ensures now - old(lastReset) > RateWindow ==> responseCount == 0 && lastReset == now
      ensures now - old(lastReset) <= RateWindow ==> responseCount == old(responseCount) && lastReset == old(lastReset)
      ensures r <==> responseCount < cfg.maxResponsesPerHour
      ensures Gate(cfg.maxResponsesPerHour, old(State()), now) == Gated(State(), r)
    {
      if now - lastReset > RateWindow {
        responseCount := 0;
        lastReset := now;
      }
      r := responseCount < cfg.maxResponsesPerHour;
    }

    /** `process_message(m)`: rate gate, self check, reply, send, record the
        id, count the reply. */
    method ProcessMessage(m: Incoming, o: Oracle) returns (reply: Option<string>)
      modifies this
      ensures var d := Process(cfg, old(State()), m, o);
        State() == d.state && reply == d.reply && calls == old(calls) + d.effects
      ensures old(Valid()) ==> Valid()
      ensures old(processedMessages) <= processedMessages
      ensures running == old(running)
    {
      ProcessKeeps(cfg, State(), m, o);
      var allowed := ShouldRespond(o.gateClock);
      if !allowed {
        return None;
      }
      if botUserId.None? || m.userId == botUserId.value {
        return None;
      }
      var response := NaturalResponse(cfg, m.text, o.llm, o.pick);
      if response.None? {
        return None;
      }
      calls := calls + [Send(response.value, [m.userId], o.delivered)];
      if !o.delivered {
        return None;
      }
      processedMessages := processedMessages + {m.id};
      responseCount := responseCount + 1;
      reply := response;
    }

    /** One round of the inner loop of `check_messages`: skip the bot's own
        or an answered message, raise on a message without text, otherwise
        dispatch it when `is_new_message` holds. */
    method VisitMessage(v: Seen) returns (aborted: bool)
      modifies this
      ensures var st := Visit(cfg, old(State()), v);
        State() == st.state && calls == old(calls) + st.effects && aborted == st.aborted
      ensures running == old(running)
    {
      var m := v.msg;
      aborted := false;
      if Some(m.userId) == botUserId || m.id in processedMessages {
        // the bot's own message, or one already answered
      } else if m.text.None? {
        aborted := true;
      } else if IsNewMessage(processedMessages, m.id, m.stamp, v.oracle.checkClock) {
        var _ := ProcessMessage(Incoming(m.text.value, m.userId, m.id), v.oracle);
      }
    }

    /** The messages of one thread, newest first, until one raises. */
    method SweepThread(msgs: seq<Seen>)
      modifies this
      ensures var r := Drain(cfg, old(State()), NewestFirst(msgs));
        State() == r.state && calls == old(calls) + r.effects
      ensures running == old(running)
    {
      ghost var goal := Drain(cfg, State(), NewestFirst(msgs));
      ghost var done: seq<Call> := [];
      var j := |msgs|;
      var aborted := false;
      assert msgs[..j] == msgs;
      while j > 0 && !aborted
        invariant 0 <= j <= |msgs|
        invariant calls == old(calls) + done
        invariant running == old(running)
        invariant !aborted ==> goal == After(done, Drain(cfg, State(), NewestFirst(msgs[..j])))
        invariant aborted ==> goal == Step(State(), done, true)
        decreases j
      {
        ghost var step := Visit(cfg, State(), msgs[j - 1]);
        DrainLast(cfg, State(), done, msgs, j);
        aborted := VisitMessage(msgs[j - 1]);
        done := done + step.effects;
        j := j - 1;
      }
    }

    /** One round of the outer loop of `check_messages`: the thread's
        messages, newest first, or nothing when they could not be fetched.
        `acc` is what the sweep has done so far, on top of the calls `base`. */
    method VisitThread(t: MessageThread, ghost base: seq<Call>, ghost acc: Acc)
      requires acc.state == State() && calls == base + acc.effects
      modifies this
      ensures var next := ThreadStep(cfg, acc, t);
        State() == next.state && calls == base + next.effects
      ensures running == old(running)
    {
      match t.fetched {
        case None =>
        case Some(msgs) =>
          ghost var r := Drain(cfg, State(), NewestFirst(msgs));
          assert ThreadStep(cfg, acc, t).effects == acc.effects + r.effects;
          SweepThread(msgs);
          assert calls == base + (acc.effects + r.effects);
      }
    }

    /** The listed threads in order, each swept newest message first. */
    method SweepThreads(threads: seq<MessageThread>)
      modifies this
      ensures var a := Sweep(cfg, Acc(old(State()), []), threads);
        State() == a.state && calls == old(calls) + a.effects
      ensures running == old(running)
    {
      ghost var goal := Sweep(cfg, Acc(State(), []), threads);
      ghost var acc := Acc(State(), []);
      var i := 0;
      while i < |threads|
        invariant 0 <= i <= |threads|
        invariant acc.state == State() && calls == old(calls) + acc.effects
        invariant running == old(running)
        invariant goal == Sweep(cfg, acc, threads[i..])
      {
        SweepOne(cfg, acc, threads, i);
        VisitThread(threads[i], old(calls), acc);
        acc := ThreadStep(cfg, acc, threads[i]);
        i := i + 1;
      }
    }

    /** `check_messages()`; `raised` when a `LoginRequired` from listing the
        threads was followed by a failed relogin, which escapes to `run`. */
    method CheckMessages(inbox: Inbox) returns (raised: bool)
      modifies this
      ensures var r := BotSpec.CheckMessages(cfg, old(State()), inbox);
        State() == r.acc.state && calls == old(calls) + r.acc.effects && raised == r.raised
      ensures old(Valid()) ==> Valid()
      ensures old(processedMessages) <= processedMessages
      ensures running == old(running)
    {
      CheckMessagesKeeps(cfg, State(), inbox);
      if botUserId.None? {
        botUserId := Some(inbox.clientUserId);
      }
      var threads: seq<MessageThread>;
      match inbox.regular {
        case ListingFailed(lr) =>
          return lr && !inbox.reloginOk;
        case Listed(regular) =>
          threads := regular;
      }
      if cfg.processHiddenMessages {
        match inbox.hidden {
          case ListingFailed(lr) =>
            return lr && !inbox.reloginOk;
          case Listed(hidden) =>
            threads := threads + hidden;
        }
      }
      SweepThreads(threads);
      raised := false;
    }

    /** `health_check()` at clock reading `now`; `probeOk` says whether the
        probe `get_timeline_feed()` returns normally. */
    method HealthCheck(now: int, probeOk: bool) returns (healthy: bool)
      modifies this`lastHealthCheck
      ensures !cfg.enableHealthCheck ==> healthy && lastHealthCheck == old(lastHealthCheck)
      ensures cfg.enableHealthCheck && now - old(lastHealthCheck) <= cfg.healthCheckInterval ==>
        healthy && lastHealthCheck == old(lastHealthCheck)
      ensures cfg.enableHealthCheck && now - old(lastHealthCheck) > cfg.healthCheckInterval ==>
        healthy == probeOk && lastHealthCheck == (if probeOk then now else old(lastHealthCheck))
    {
      if !cfg.enableHealthCheck {
        return true;
      }
      if now - lastHealthCheck > cfg.healthCheckInterval {
        if probeOk {
          lastHealthCheck := now;
          return true;
        }
        return false;
      }
      return true;
    }

    /** `check_follow_requests()`; `pending` is `None` when
        `friendships_pending()` raised. Every pending user gets an approval
        attempt, in order, whatever the earlier attempts returned. */
    method CheckFollowRequests(pending: Option<seq<FollowRequest>>)
      modifies this`calls
      ensures pending.None? ==> calls == old(calls)
      ensures pending.Some? ==>
        && |calls| == |old(calls)| + |pending.value|
        && calls[..|old(calls)|] == old(calls)
        && forall i :: 0 <= i < |pending.value| ==>
             calls[|old(calls)| + i] == Approve(ApproveTarget(pending.value[i].user), pending.value[i].approveOk)
    {
      if pending.None? {
        return;
      }
      var requests := pending.value;
      var k := 0;
      while k < |requests|
        invariant 0 <= k <= |requests|
        invariant |calls| == |old(calls)| + k && calls[..|old(calls)|] == old(calls)
        invariant forall i :: 0 <= i < k ==>
          calls[|old(calls)| + i] == Approve(ApproveTarget(requests[i].user), requests[i].approveOk)
      {
        var userId := ApproveTarget(requests[k].user);
        calls := calls + [Approve(userId, requests[k].approveOk)];
        k := k + 1;
      }
    }
  }
}
