/** The generation flow (`gemini_reply`): the prompt sent to the remote
    text-generation service and the choice of the one reply the user gets.
    The service itself is not modelled; a `Completion` stands for what the
    call produced. */
module Generation {
  import opened Wrappers
  import opened Session
  import opened Replies

  /** The outcome of the call, decided outside the bot. */
  datatype Completion =
    | NoClient                      // no credential was configured, no client exists
    | Answered(text: Option<string>) // the service answered; its text may be absent or empty
    | ApiFailure(detail: string)    // the provider reported an API error
    | OtherFailure(detail: string)  // any other exception during the call

  /** The fixed instruction put before every user question. */
  const PromptPrefix: string :=
    "Ти корисний помічник, який відповідає українською мовою. Питання користувача: "

  function Prompt(question: string): (p: string)
    ensures |p| == |PromptPrefix| + |question|
    ensures PromptPrefix <= p && p[|PromptPrefix|..] == question
  {
    PromptPrefix + question
  }

  /** Recovers the question from a prompt, if it is one. */
  function QuestionOf(p: string): (q: Option<string>)
    ensures q.Some? <==> PromptPrefix <= p
    ensures q.Some? ==> Prompt(q.value) == p
  {
    if PromptPrefix <= p then Some(p[|PromptPrefix|..]) else None
  }

  /** Building a prompt loses nothing of the question. */
  lemma QuestionOfPrompt(question: string)
    ensures QuestionOf(Prompt(question)) == Some(question)
  {
  }

  /** Distinct questions give distinct prompts. */
  lemma PromptInjective(q1: string, q2: string)
    requires Prompt(q1) == Prompt(q2)
    ensures q1 == q2
  {
    QuestionOfPrompt(q1);
    QuestionOfPrompt(q2);
  }

  const UnavailableHead: string := "🤖 Отримав твій запит: '"
  const UnavailableTail: string :=
    "'\n\n❗ Gemini API наразі недоступний. Будь ласка, перевір, чи встановлено "
    + "змінну оточення GEMINI_API_KEY та чи є підключення до мережі."

  /** The stand-in reply when no client exists; it quotes the question. */
  function UnavailableText(question: string): (r: string)
    ensures |r| == |UnavailableHead| + |question| + |UnavailableTail|
    ensures r[..|UnavailableHead|] == UnavailableHead
    ensures r[|UnavailableHead|..|UnavailableHead| + |question|] == question
    ensures r[|UnavailableHead| + |question|..] == UnavailableTail
  {
    UnavailableHead + question + UnavailableTail
  }

  const NoAnswerText: string := "Вибачте, не вдалося отримати відповідь від Gemini."
  const ApiApology: string :=
    "😔 Вибачте, сталася помилка при зверненні до Gemini API. Перевірте свій API-ключ."
  const GenericApology: string := "😔 Вибачте, сталася непередбачена помилка. Спробуйте ще раз."

  /** The service's answer when it is a non-empty text (`response.text or …`). */
  predicate HasAnswer(c: Completion) {
    c.Answered? && c.text.Some? && c.text.value != []
  }

  /** The `reply` the flow settles on. Every outcome yields a non-empty
      message, and the service's text is passed on exactly when it is a
      non-empty answer. */
  function ReplyText(question: string, c: Completion): (r: string)
    ensures r != []
    ensures HasAnswer(c) ==> r == c.text.value
    ensures !HasAnswer(c) ==> r in {UnavailableText(question), NoAnswerText, ApiApology, GenericApology}
  {
    match c
    case NoClient => UnavailableText(question)
    case Answered(t) => if t.Some? && t.value != [] then t.value else NoAnswerText
    case ApiFailure(_) => ApiApology
    case OtherFailure(_) => GenericApology
  }

  /** The prompts sent: one when a client exists, none otherwise. A failed
      call was still attempted. */
  function CallsFor(question: string, c: Completion): (calls: seq<string>)
    ensures |calls| <= 1
    ensures c.NoClient? <==> calls == []
    ensures forall p :: p in calls ==> QuestionOf(p) == Some(question)
  {
    if c.NoClient? then [] else [Prompt(question)]
  }

  /** Which reply each outcome selects: the unavailable notice quotes the
      question, an empty or absent answer falls back to the no-answer text,
      and the two apologies are fixed strings distinct from each other and
      from the no-answer text. */
  lemma ReplySelection(question: string, c: Completion)
    ensures c.NoClient? ==> ReplyText(question, c) == UnavailableText(question)
    ensures c.Answered? && !HasAnswer(c) ==> ReplyText(question, c) == NoAnswerText
    ensures c.ApiFailure? ==> ReplyText(question, c) == ApiApology
    ensures c.OtherFailure? ==> ReplyText(question, c) == GenericApology
    ensures ApiApology != GenericApology && ApiApology != NoAnswerText && GenericApology != NoAnswerText
  {
  }

  /** `response.text or …`: an absent text and an empty text both fall back
      to the no-answer message; any other text is passed on unchanged. */
  lemma AnswerOrFallback(question: string, text: string)
    ensures ReplyText(question, Answered(None)) == NoAnswerText
    ensures ReplyText(question, Answered(Some(text))) == (if text == [] then NoAnswerText else text)
  {
  }

  /** The error's own text never reaches the user: the reply to a failure
      does not depend on the failure's detail, nor on the question. */
  lemma FailureDetailNotShown(q1: string, q2: string, d1: string, d2: string)
    ensures ReplyText(q1, ApiFailure(d1)) == ReplyText(q2, ApiFailure(d2))
    ensures ReplyText(q1, OtherFailure(d1)) == ReplyText(q2, OtherFailure(d2))
  {
  }

  /** `gemini_reply`: with the gate closed it returns without a reply and
      without a call; otherwise it sends the prompt (when a client exists)
      and emits exactly one generation reply. It never touches the store. */
  function GeminiReply(s: Session, question: string, c: Completion): (t: Transition)
    ensures t.next == s
    ensures GenerationGateClosed(s) ==> t.replies == [] && t.calls == []
    ensures !GenerationGateClosed(s) ==>
      |t.replies| == 1 && t.replies[0].Generated? && Body(t.replies[0]) == ReplyText(question, c)
      && t.calls == CallsFor(question, c)
  {
    if !StoreTruthy(s) || !s.chatMode.value then Silent(s)
    else Transition(s, [Generated(ReplyText(question, c))], CallsFor(question, c))
  }
}
