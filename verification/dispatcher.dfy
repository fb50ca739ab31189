/** The handlers and the routing of one update to them: the commands
    `/start`, `/chat` and `/menu`, and the free-text handler that matches
    menu labels and falls back to the generation flow. */
module Dispatcher {
  import opened Wrappers
  import opened Session
  import opened Replies
  import opened Generation

  /** One update as the transport classifies it. `NoMessage` has no message
      to answer, or a message that is neither text nor a command (a photo,
      a sticker), which no handler accepts. `Command` is a message the
      transport recognised as a bot command (`sender` is the platform's
      mention of its author). `Text` is any other text message, together
      with the outcome the generation call would have if the bot made it. */
  datatype Event =
    | NoMessage
    | Command(name: string, sender: string)
    | Text(text: string, completion: Completion)

  /** `/start`: a greeting with the keyboard; the store is not touched. The
      platform gives no store exactly when the update has no user, and then
      the handler returns without a reply. */
  function Start(s: Session, sender: string): (t: Transition)
    ensures t.next == s && t.calls == []
    ensures s.NoStore? ==> t.replies == []
    ensures s.Store? ==>
      |t.replies| == 1 && HasKeyboard(t.replies[0]) && Body(t.replies[0]) == GreetingText(sender)
  {
    if s.NoStore? then Silent(s)
    else Transition(s, [Greeting(sender)], [])
  }

  /** `/chat` and the chat label: chat mode on (when a store exists) and
      one activation message. */
  function StartChat(s: Session): (t: Transition)
    ensures s.Store? ==> ModeOf(t.next) == Chat
    ensures s.NoStore? ==> t.next == NoStore
    ensures t.calls == [] && |t.replies| == 1 && Body(t.replies[0]) == ChatActivatedText
  {
    Transition(SetChatMode(s, true), [ChatActivated], [])
  }

  /** `/menu`: chat mode off (when a store exists) and one back-to-menu
      message with the keyboard. */
  function ShowMenu(s: Session): (t: Transition)
    ensures s.Store? ==> t.next == Store(Some(false)) && ModeOf(t.next) == Menu
    ensures s.NoStore? ==> t.next == NoStore
    ensures t.calls == [] && |t.replies| == 1 && HasKeyboard(t.replies[0])
    ensures Body(t.replies[0]) == BackToMenuText
  {
    Transition(SetChatMode(s, false), [BackToMenu], [])
  }

  /** The free-text handler. An empty text is ignored; a label gets its
      entry; any other text is a question for the generation flow, with a
      notice first when chat mode had to be switched on. */
  function HandleMenuButtons(s: Session, text: string, c: Completion): (t: Transition)
    ensures |t.replies| <= 2 && |t.calls| <= 1
    ensures t.next.NoStore? <==> s.NoStore?
  {
    if text == [] then Silent(s)
    else match MatchLabel(text)
      case Some(Info(i)) => Transition(s, [Canned(i)], [])
      case Some(ChatButton) => StartChat(s)
      case None =>
        var active := ChatModeActive(s);
        var activated := if active then s else SetChatMode(s, true);
        var notice := if active then [] else [AutoActivated];
        var g := GeminiReply(activated, text, c);
        Transition(g.next, notice + g.replies, g.calls)
  }

  /** The command names with a registered handler. */
  predicate Registered(name: string) {
    name in {"start", "chat", "menu"}
  }

  /** Routing of one update: commands go to their handler (an unregistered
      command reaches none, since command texts never reach the free-text
      handler), other text to the free-text handler. */
  function Step(s: Session, e: Event): (t: Transition)
    ensures |t.replies| <= 2 && |t.calls| <= 1
    ensures t.next.NoStore? <==> s.NoStore?
  {
    match e
    case NoMessage => Silent(s)
    case Command(name, sender) =>
      if name == "start" then Start(s, sender)
      else if name == "chat" then StartChat(s)
      else if name == "menu" then ShowMenu(s)
      else Silent(s)
    case Text(text, c) => HandleMenuButtons(s, text, c)
  }

  /** A question: a non-empty text that is no menu label. */
  predicate IsQuestion(e: Event) {
    e.Text? && e.text != [] && MatchLabel(e.text).None?
  }

  /** The two-state machine as a table, independent of the store encoding:
      the chat command, the chat label and every question lead to chat mode,
      the menu command to menu mode, everything else keeps the mode. */
  function NextMode(m: Mode, e: Event): Mode {
    match e
    case NoMessage => m
    case Command(name, _) => if name == "chat" then Chat else if name == "menu" then Menu else m
    case Text(text, _) =>
      if text == ChatLabel || (text != [] && MatchLabel(text).None?) then Chat else m
  }

  /** Whenever a store exists, every update moves the session's mode as the
      table says; without a store nothing is ever recorded. */
  lemma StepFollowsModeTable(s: Session, e: Event)
    ensures s.Store? ==> ModeOf(Step(s, e).next) == NextMode(ModeOf(s), e)
    ensures s.NoStore? ==> Step(s, e).next == NoStore
  {
  }

  /** `/menu` leaves menu mode recorded as `False` and sends only the
      back-to-menu message with the keyboard. */
  lemma MenuCommand(s: Session, sender: string)
    ensures var t := Step(s, Command("menu", sender));
      && t.next == (if s.Store? then Store(Some(false)) else NoStore)
      && t.replies == [BackToMenu] && HasKeyboard(t.replies[0]) && t.calls == []
  {
  }

  /** `/chat` and the chat label are the same update: chat mode on when a
      store exists, one activation message, nothing else. */
  lemma ChatCommandIsChatLabel(s: Session, sender: string, c: Completion)
    ensures Step(s, Command("chat", sender)) == Step(s, Text(ChatLabel, c))
    ensures var t := Step(s, Text(ChatLabel, c));
      && t.next == (if s.Store? then Store(Some(true)) else NoStore)
      && t.replies == [ChatActivated] && t.calls == []
  {
  }

  /** The three informational labels answer with their own text in any mode
      and change nothing. */
  lemma InfoLabelKeepsSession(s: Session, i: Item, c: Completion)
    ensures var t := Step(s, Text(Label(Info(i)), c));
      && t.next == s && t.replies == [Canned(i)] && t.calls == []
      && Body(t.replies[0]) == CannedText(i)
  {
  }

  /** `/start` greets once with the keyboard when there is a user, is silent
      when there is none, and never changes the session. */
  lemma StartKeepsSession(s: Session, sender: string)
    ensures var t := Step(s, Command("start", sender));
      && t.next == s && t.calls == []
      && t.replies == (if s.Store? then [Greeting(sender)] else [])
      && (s.Store? ==> HasKeyboard(t.replies[0]))
  {
  }

  /** A question in menu mode with a store: chat mode is switched on, the
      notice comes first, then exactly one generation reply. */
  lemma QuestionInMenuMode(s: Session, q: string, c: Completion)
    requires s.Store? && !ChatModeActive(s)
    requires IsQuestion(Text(q, c))
    ensures var t := Step(s, Text(q, c));
      && t.next == Store(Some(true))
      && t.replies == [AutoActivated, Generated(ReplyText(q, c))]
      && t.calls == CallsFor(q, c)
  {
  }

  /** A question in chat mode: no notice, one generation reply, and the
      session is unchanged. */
  lemma QuestionInChatMode(s: Session, q: string, c: Completion)
    requires ChatModeActive(s)
    requires IsQuestion(Text(q, c))
    ensures var t := Step(s, Text(q, c));
      && t.next == s && t.replies == [Generated(ReplyText(q, c))] && t.calls == CallsFor(q, c)
  {
  }

  /** Without a store the activation cannot be recorded, so the generation
      flow returns at its own check: a question gets only the notice, and no
      prompt is sent. */
  lemma QuestionWithoutStore(q: string, c: Completion)
    requires IsQuestion(Text(q, c))
    ensures Step(NoStore, Text(q, c)) == Transition(NoStore, [AutoActivated], [])
  {
  }

  /** The generation flow does nothing unless chat mode is active. */
  lemma GeminiReplyNeedsChatMode(s: Session, q: string, c: Completion)
    requires !ChatModeActive(s)
    ensures GeminiReply(s, q, c) == Transition(s, [], [])
  {
    GateClosedIffInactive(s);
  }

  /** The updates the bot answers: a registered command (`/start` only from
      a user) or a non-empty text. */
  predicate Answered(s: Session, e: Event) {
    || (e.Command? && Registered(e.name) && (e.name != "start" || s.Store?))
    || (e.Text? && e.text != [])
  }

  /** Which updates are answered: each answered update gets at least one
      reply and every other update changes nothing; a generation reply comes
      only from a question, and it is always the last reply. */
  lemma RepliesOfStep(s: Session, e: Event)
    ensures var t := Step(s, e);
      && (Answered(s, e) ==> |t.replies| >= 1)
      && (!Answered(s, e) ==> t == Silent(s))
      && (forall k :: 0 <= k < |t.replies| && t.replies[k].Generated? ==> IsQuestion(e) && k == |t.replies| - 1)
      && (|t.calls| == 1 ==> IsQuestion(e) && t.calls[0] == Prompt(e.text))
  {
  }

  /** With a store, the last reply to a question (in either mode) is the
      text the generation flow selects: the answer, or a fallback. */
  lemma QuestionReplyText(s: Session, q: string, c: Completion)
    requires s.Store? && IsQuestion(Text(q, c))
    ensures var t := Step(s, Text(q, c));
      Body(t.replies[|t.replies| - 1]) == ReplyText(q, c)
  {
  }

  /** A new user asks a free question: two replies, the notice and then
      the generation reply, and the user is in chat mode afterwards. */
  lemma NewUserAsksQuestion(c: Completion)
    ensures var t := Step(Fresh, Text("What is the weather?", c));
      && t.next == Store(Some(true)) && ModeOf(t.next) == Chat
      && t.replies == [AutoActivated, Generated(ReplyText("What is the weather?", c))]
  {
  }
}
