/** One user's conversation over the bot's lifetime: the polling loop hands
    that user's updates, in the order it handles them, to the dispatcher.
    The store is per user, so the session of one of these steps is the
    session of the next. */
module Runs {
  import opened Wrappers
  import opened Session
  import opened Replies
  import opened Generation
  import opened Dispatcher

  /** A transition followed by another: the second one's session, and the
      replies and prompts of both in order. */
  function Prepend(first: Transition, second: Transition): Transition {
    Transition(second.next, first.replies + second.replies, first.calls + second.calls)
  }

  lemma PrependAssociative(a: Transition, b: Transition, c: Transition)
    ensures Prepend(a, Prepend(b, c)) == Prepend(Prepend(a, b), c)
  {
    assert a.replies + (b.replies + c.replies) == (a.replies + b.replies) + c.replies;
    assert a.calls + (b.calls + c.calls) == (a.calls + b.calls) + c.calls;
  }

  /** One more update after a transition. */
  function Then(t: Transition, e: Event): Transition {
    Prepend(t, Step(t.next, e))
  }

  /** A sequence of updates, handled from the first. */
  function Run(s: Session, evs: seq<Event>): (t: Transition)
    ensures t.next.NoStore? <==> s.NoStore?
    decreases |evs|
  {
    if evs == [] then Silent(s)
    else
      var h := Step(s, evs[0]);
      Prepend(h, Run(h.next, evs[1..]))
  }

  /** Handling a run and then one more update is handling the longer run. */
  lemma {:induction false} RunSnoc(s: Session, evs: seq<Event>, e: Event)
    ensures Run(s, evs + [e]) == Then(Run(s, evs), e)
    decreases |evs|
  {
    if evs == [] {
      assert [e][1..] == [];
    } else {
      var h := Step(s, evs[0]);
      assert (evs + [e])[0] == evs[0];
      assert (evs + [e])[1..] == evs[1..] + [e];
      var rest := Run(h.next, evs[1..]);
      RunSnoc(h.next, evs[1..], e);
      PrependAssociative(h, rest, Step(rest.next, e));
    }
  }

  /** The value an update writes into the flag when a store exists, if any:
      the chat command, the chat label and a question write `True`, the menu
      command writes `False`, everything else writes nothing. */
  function Writes(e: Event): Option<bool> {
    match e
    case NoMessage => None
    case Command(name, _) =>
      if name == "chat" then Some(true) else if name == "menu" then Some(false) else None
    case Text(text, _) => if text == ChatLabel || IsQuestion(e) then Some(true) else None
  }

  /** The last value written by a sequence of updates. */
  function LastWrite(evs: seq<Event>): Option<bool>
    decreases |evs|
  {
    if evs == [] then None
    else
      var w := Writes(evs[|evs| - 1]);
      if w.Some? then w else LastWrite(evs[..|evs| - 1])
  }

  /** The reference for the session after a run: the last write wins, and a
      run that writes nothing leaves the session as it was. */
  function FinalSession(s: Session, evs: seq<Event>): Session {
    match LastWrite(evs)
    case None => s
    case Some(b) => SetChatMode(s, b)
  }

  /** One update records exactly what it writes. A question in chat mode
      writes nothing, but the flag it would write is already there. */
  lemma StepRecordsWrite(s: Session, e: Event)
    ensures Step(s, e).next == (match Writes(e) case None => s case Some(b) => SetChatMode(s, b))
  {
  }

  /** The session after any run is the reference: the last write wins. */
  lemma {:induction false} RunEndsInLastWrite(s: Session, evs: seq<Event>)
    ensures Run(s, evs).next == FinalSession(s, evs)
    decreases |evs|
  {
    if evs != [] {
      var pre := evs[..|evs| - 1];
      var e := evs[|evs| - 1];
      assert evs == pre + [e];
      RunSnoc(s, pre, e);
      RunEndsInLastWrite(s, pre);
      StepRecordsWrite(FinalSession(s, pre), e);
    }
  }

  /** In particular, with a store, the mode after a run is chat mode exactly
      when the last write was `True`, or nothing was written and the run
      started in chat mode. */
  lemma RunMode(s: Session, evs: seq<Event>)
    requires s.Store?
    ensures ModeOf(Run(s, evs).next) == Chat <==>
      (LastWrite(evs) == Some(true) || (LastWrite(evs).None? && ModeOf(s) == Chat))
  {
    RunEndsInLastWrite(s, evs);
  }

  /** The texts of the generation replies, in order. */
  function Answers(rs: seq<Reply>): seq<string>
    decreases |rs|
  {
    if rs == [] then []
    else (if rs[0].Generated? then [rs[0].text] else []) + Answers(rs[1..])
  }

  lemma {:induction false} AnswersAppend(a: seq<Reply>, b: seq<Reply>)
    ensures Answers(a + b) == Answers(a) + Answers(b)
    decreases |a|
  {
    if a == [] {
      assert a + b == b;
    } else {
      assert (a + b)[0] == a[0];
      assert (a + b)[1..] == a[1..] + b;
      AnswersAppend(a[1..], b);
    }
  }

  /** The reference for what a run asks and answers when a store exists:
      every question, in order, gets the reply the generation flow selects,
      and every question asked while a client exists sends its prompt. */
  function ExpectedAnswers(evs: seq<Event>): seq<string>
    decreases |evs|
  {
    if evs == [] then []
    else
      (if IsQuestion(evs[0]) then [ReplyText(evs[0].text, evs[0].completion)] else [])
      + ExpectedAnswers(evs[1..])
  }

  function ExpectedCalls(evs: seq<Event>): seq<string>
    decreases |evs|
  {
    if evs == [] then []
    else
      (if IsQuestion(evs[0]) then CallsFor(evs[0].text, evs[0].completion) else [])
      + ExpectedCalls(evs[1..])
  }

  /** What a single update answers and asks. */
  lemma StepAnswers(s: Session, e: Event)
    ensures var t := Step(s, e);
      && Answers(t.replies) == (if s.Store? && IsQuestion(e) then [ReplyText(e.text, e.completion)] else [])
      && t.calls == (if s.Store? && IsQuestion(e) then CallsFor(e.text, e.completion) else [])
  {
    var t := Step(s, e);
    if IsQuestion(e) && !ChatModeActive(s) {
      assert t.replies == [AutoActivated] + t.replies[1..];
      AnswersAppend([AutoActivated], t.replies[1..]);
    }
  }

  /** With a store, a run answers every question exactly once and in order,
      and sends exactly the prompts of the questions asked with a client. */
  lemma {:induction false} RunAnswersEveryQuestion(s: Session, evs: seq<Event>)
    requires s.Store?
    ensures Answers(Run(s, evs).replies) == ExpectedAnswers(evs)
    ensures Run(s, evs).calls == ExpectedCalls(evs)
    decreases |evs|
  {
    if evs != [] {
      var h := Step(s, evs[0]);
      StepAnswers(s, evs[0]);
      RunAnswersEveryQuestion(h.next, evs[1..]);
      AnswersAppend(h.replies, Run(h.next, evs[1..]).replies);
    }
  }

  /** Without a store no run ever produces a generation reply or sends a
      prompt, however many questions it holds. */
  lemma {:induction false} RunWithoutStoreNeverGenerates(evs: seq<Event>)
    ensures Run(NoStore, evs).next == NoStore
    ensures Answers(Run(NoStore, evs).replies) == []
    ensures Run(NoStore, evs).calls == []
    decreases |evs|
  {
    if evs != [] {
      var h := Step(NoStore, evs[0]);
      StepAnswers(NoStore, evs[0]);
      RunWithoutStoreNeverGenerates(evs[1..]);
      AnswersAppend(h.replies, Run(h.next, evs[1..]).replies);
    }
  }

  /** The polling loop restricted to one user: that user's updates are
      handled one after another, each against the session the previous
      one left. */
  method Replay(s: Session, evs: seq<Event>) returns (final: Session, replies: seq<Reply>, calls: seq<string>)
    ensures Transition(final, replies, calls) == Run(s, evs)
    ensures final == FinalSession(s, evs)
    ensures |replies| <= 2 * |evs| && |calls| <= |evs|
  {
    final, replies, calls := s, [], [];
    var i := 0;
    while i < |evs|
      invariant 0 <= i <= |evs|
      invariant Transition(final, replies, calls) == Run(s, evs[..i])
      invariant |replies| <= 2 * i && |calls| <= i
    {
      var t := Step(final, evs[i]);
      assert evs[..i + 1] == evs[..i] + [evs[i]];
      RunSnoc(s, evs[..i], evs[i]);
      final, replies, calls := t.next, replies + t.replies, calls + t.calls;
      i := i + 1;
    }
    assert evs[..|evs|] == evs;
    RunEndsInLastWrite(s, evs);
  }
}
