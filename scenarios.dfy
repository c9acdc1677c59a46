/** Whole `check_messages` runs on small inboxes, stated and proved over the
    sweep function: the bot's own message is skipped, a club question is
    answered with the club text, and an exhausted rate window answers nothing. */
module Scenarios {
  import opened Wrappers
  import opened Settings
  import opened Text
  import opened Responder
  import opened Freshness
  import opened BotSpec

  /** The club question, dispatched on its own. */
  lemma ClubQuestionDispatched(cfg: Config, s: BotState, asker: UserId, text: string, q: MessageId, o: Oracle)
    requires cfg.maxResponsesPerHour > 0 && s.responseCount == 0 && s.lastReset == o.gateClock
    requires s.botUserId.Some? && Some(asker) != s.botUserId && q !in s.processed && o.delivered
    requires exists i :: 0 <= i < |cfg.clubKeywords| && Occurs(cfg.clubKeywords[i], Lower(text))
    ensures Process(cfg, s, Incoming(text, asker, q), o)
      == Dispatch(s.(processed := s.processed + {q}, responseCount := 1), Some(cfg.clubInfo), [Send(cfg.clubInfo, [asker], true)])
  {
    KeywordFastPath(cfg, text, o.llm, o.llm, o.pick, o.pick);
  }

  /** The thread itself: the bot's own (newest) message is skipped, then
      the question is answered. */
  lemma ClubQuestionThread(cfg: Config, s: BotState, question: Seen, mine: Seen)
    requires cfg.maxResponsesPerHour > 0 && s.responseCount == 0 && s.lastReset == question.oracle.gateClock
    requires s.botUserId == Some(mine.msg.userId) && Some(question.msg.userId) != s.botUserId
    requires question.msg.id !in s.processed && question.oracle.delivered
    requires question.msg.stamp == Stamp(Missing, Missing, Missing) && question.msg.text.Some?
    requires exists i :: 0 <= i < |cfg.clubKeywords| && Occurs(cfg.clubKeywords[i], Lower(question.msg.text.value))
    ensures Sweep(cfg, Acc(s, []), [MessageThread("t", Some([question, mine]))])
      == Acc(s.(processed := s.processed + {question.msg.id}, responseCount := 1),
             [Send(cfg.clubInfo, [question.msg.userId], true)])
  {
    var msgs := [question, mine];
    assert msgs[..1] == [question];
    assert [question][..0] == [];
    assert NewestFirst([question]) == [question];
    assert NewestFirst(msgs) == [mine, question];
    assert Visit(cfg, s, mine) == Step(s, [], false);
    ClubQuestionDispatched(cfg, s, question.msg.userId, question.msg.text.value, question.msg.id, question.oracle);
    var after := s.(processed := s.processed + {question.msg.id}, responseCount := 1);
    var sent := [Send(cfg.clubInfo, [question.msg.userId], true)];
    assert Visit(cfg, s, question) == Step(after, sent, false);
    assert [mine, question][1..] == [question];
    assert [question][1..] == [];
    assert Drain(cfg, s, [question]) == Step(after, sent, false);
    assert Drain(cfg, s, [mine, question]) == Step(after, sent, false);
    var t := MessageThread("t", Some(msgs));
    assert ThreadStep(cfg, Acc(s, []), t) == Acc(after, sent);
    assert [t][1..] == [];
  }

  /** One thread holding a question from another user followed by a message
      of the bot's own: exactly one send, the club text to the asker, and the
      question's id is recorded. */
  lemma ClubQuestionAnsweredOnce(cfg: Config, me: UserId, asker: UserId, text: string, q: MessageId, own: MessageId, o: Oracle)
    requires cfg.maxResponsesPerHour > 0
    requires asker != me && o.delivered
    requires exists i :: 0 <= i < |cfg.clubKeywords| && Occurs(cfg.clubKeywords[i], Lower(text))
    ensures var s := BotState(0, o.gateClock, o.gateClock, {}, Some(me));
      var question := Seen(Message(q, asker, Some(text), Stamp(Missing, Missing, Missing)), o);
      var mine := Seen(Message(own, me, Some("hello"), Stamp(Missing, Missing, Missing)), o);
      var inbox := Inbox(me, Listed([MessageThread("t", Some([question, mine]))]), Listed([]), true);
      var r := CheckMessages(cfg, s, inbox);
      && r.acc.effects == [Send(cfg.clubInfo, [asker], true)]
      && r.acc.state.processed == {q}
      && r.acc.state.responseCount == 1
      && !r.raised
  {
    var s := BotState(0, o.gateClock, o.gateClock, {}, Some(me));
    var question := Seen(Message(q, asker, Some(text), Stamp(Missing, Missing, Missing)), o);
    var mine := Seen(Message(own, me, Some("hello"), Stamp(Missing, Missing, Missing)), o);
    var t := MessageThread("t", Some([question, mine]));
    ClubQuestionThread(cfg, s, question, mine);
    assert [t] + [] == [t];
  }

  /** The same for the shipped configuration and a message mentioning
      membership in any case. */
  lemma ShippedMembershipQuestion(me: UserId, asker: UserId, text: string, q: MessageId, own: MessageId, o: Oracle)
    requires asker != me && o.delivered
    requires Occurs("membership", Lower(text))
    ensures var s := BotState(0, o.gateClock, o.gateClock, {}, Some(me));
      var question := Seen(Message(q, asker, Some(text), Stamp(Missing, Missing, Missing)), o);
      var mine := Seen(Message(own, me, Some("hello"), Stamp(Missing, Missing, Missing)), o);
      var inbox := Inbox(me, Listed([MessageThread("t", Some([question, mine]))]), Listed([]), true);
      CheckMessages(Shipped, s, inbox).acc.effects == [Send(ClubInfo, [asker], true)]
  {
    assert Shipped.clubKeywords[1] == "membership";
    ClubQuestionAnsweredOnce(Shipped, me, asker, text, q, own, o);
  }

  /** With the count at the cap inside the current hour, a new message from
      another user gets no send and its id is not recorded. */
  lemma ExhaustedWindowAnswersNothing(me: UserId, asker: UserId, text: string, q: MessageId, o: Oracle, since: int)
    requires asker != me && o.gateClock - since <= RateWindow
    ensures var s := BotState(Shipped.maxResponsesPerHour, since, since, {}, Some(me));
      var question := Seen(Message(q, asker, Some(text), Stamp(Missing, Missing, Missing)), o);
      var inbox := Inbox(me, Listed([MessageThread("t", Some([question]))]), Listed([]), true);
      var r := CheckMessages(Shipped, s, inbox);
      r.acc.effects == [] && r.acc.state == s
  {
    var s := BotState(Shipped.maxResponsesPerHour, since, since, {}, Some(me));
    var question := Seen(Message(q, asker, Some(text), Stamp(Missing, Missing, Missing)), o);
    assert [question][..0] == [];
    assert NewestFirst([question]) == [question];
    var a := Acc(s, []);
    assert Visit(Shipped, s, question) == Step(s, [], false);
    assert Drain(Shipped, s, [question]) == Step(s, [], false);
    var t := MessageThread("t", Some([question]));
    assert ThreadStep(Shipped, a, t) == a;
    assert Sweep(Shipped, a, [t]) == a;
  }
}
