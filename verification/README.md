# Telegram lab bot: mode state machine and reply dispatcher

This project models the core of a Telegram bot (`bot.py`). The bot answers
menu buttons with fixed texts and passes any other text to the Gemini
text-generation service. Its only state is a per-user store
(`context.user_data`). That store may hold a `chat_mode` flag, and a missing
flag means menu mode.

The model is a pure step function:
`Dispatcher.Step(session, event) -> Transition(next, replies, calls)`.

- `Session` is `NoStore` (`user_data is None`) or `Store(chatMode)`. The bot
  writes no key other than `chat_mode`, so a present store is fully described
  by that key's optional value. Python's truthiness of the dictionary
  therefore means "the key is present".
- `Event` is one of three things: an update with no message; a command the
  transport recognised (with the sender's mention); or any other text. A text
  event carries the outcome the generation call would have. That outcome is a
  `Completion`: no client, an answer (possibly absent or empty), an API error,
  or another exception. Each error carries its detail text.
- `replies` are tagged messages in the order they are sent. `Replies.Body`
  gives their exact text.
- `calls` are the prompts sent to the generation service.

Module layout:

- `wrappers.dfy`: `Option`.
- `session.dfy`: the store, the two readings of the flag, and menu/chat mode.
- `replies.dfy`: labels, keyboard, canned texts and reply tags.
- `generation.dfy`: `gemini_reply`, including the prompt and the choice of reply.
- `dispatcher.dfy`: the handlers, routing, and the properties of each branch.
- `runs.dfy`: one user's sequence of updates, in the order the polling loop
  handles them. The store is per user, so updates from other users touch
  other stores and are not part of such a sequence.

Three behaviours of the code are easy to miss:

- An API error and any other exception get two different apologies
  (bot.py:190 and bot.py:193).
- When the store is absent, an unmatched text gets the auto-activation
  notice but no generation reply. The activation cannot be recorded
  (bot.py:132-134), so the generation flow's own check returns early
  (bot.py:157-160; `Dispatcher.QuestionWithoutStore`).
- A message with empty text gets no reply at all (bot.py:96).

## Model

| member | source | states |
|---|---|---|
| Session.SetChatMode | bot.py:72-73 | writing the flag happens only when a store exists; with a store, the session's mode afterwards is the mode written |
| Session.ModeOf | bot.py:130 | a session is in chat mode exactly when its store holds `chat_mode = True` |
| Session.GateClosedIffInactive | bot.py:157 | the generation flow's test (`not user_data or not get('chat_mode')`) is the exact negation of the handler's test at line 130; a missing key, `False`, an empty store and no store are all inactive |
| Session.ChatModeActive | bot.py:130 | the handler's test `user_data and user_data.get('chat_mode', False)` holds exactly when the store is present and holds `True` |
| Session.GenerationGateClosed | bot.py:157 | the generation flow's test `not user_data or not user_data.get('chat_mode')` holds exactly when the store is not a present store holding `True` |
| Session.FreshIsMenu | bot.py:130 | a new user's empty store is in menu mode (the missing key defaults to `False`) |
| Replies.MatchLabel | bot.py:101-126 | a label matches only if the text equals it exactly; no match happens exactly when the text differs from all four labels |
| Replies.MatchLabelInvertsLabel | bot.py:101-123 | each label is recognised as its own button, so the four labels are distinct and the order of the comparisons does not matter |
| Replies.KeyboardHoldsEveryLabel | bot.py:44-48 | the reply keyboard offers exactly the four labels the handler recognises |
| Generation.Prompt | bot.py:171 | the prompt is the fixed Ukrainian instruction followed by the user text, unchanged |
| Generation.QuestionOfPrompt | bot.py:171 | the question can be recovered from its prompt (a round trip) |
| Generation.PromptInjective | bot.py:171 | distinct questions give distinct prompts |
| Generation.UnavailableText | bot.py:179-185 | the fallback for a missing client quotes the user text verbatim at a fixed offset |
| Generation.AnswerOrFallback | bot.py:178 | `response.text or …` in closed form: an absent or empty answer gives the no-answer text, and any other answer is passed on unchanged |
| Generation.ReplyText | bot.py:167-193 | the reply is never empty; it is the service's text exactly when that text is non-empty; otherwise it is one of the four fallbacks (the unavailable notice quotes the question) |
| Generation.CallsFor | bot.py:168-176 | at most one prompt is sent; none exactly when there is no client; every prompt sent carries the user's question |
| Generation.ReplySelection | bot.py:168-193 | no client gives the unavailable notice; an empty or absent answer gives the no-answer text; an API error and any other exception give two distinct fixed apologies |
| Generation.FailureDetailNotShown | bot.py:187-193 | the reply to a failure does not depend on the error's text, so the error is never shown to the user |
| Generation.GeminiReply | bot.py:151-195 | never changes the session; with the gate closed it sends nothing; otherwise it sends exactly one generation reply with the selected text, plus the prompt when a client exists |
| Dispatcher.Start | bot.py:55-64 | `/start` from a user sends one greeting with the keyboard that mentions the sender; with no user (and so no store) it sends nothing; the session is never changed |
| Dispatcher.StartChat | bot.py:67-78 | `/chat` puts a present store into chat mode, leaves an absent store absent, and sends only the activation message |
| Dispatcher.ShowMenu | bot.py:81-91 | `/menu` records `chat_mode = False` in a present store and sends only the back-to-menu message with the keyboard |
| Dispatcher.HandleMenuButtons | bot.py:94-147 | the free-text handler sends at most two replies and one prompt, and never creates or drops the store |
| Dispatcher.Step | bot.py:217-223 | routing one update sends at most two replies and one prompt, and keeps the store present or absent as it was |
| Dispatcher.StepFollowsModeTable | bot.py:67-147 | with a store, every update moves the mode as the two-state table says (chat command, chat label or question: chat; menu command: menu; anything else: unchanged); without a store nothing is recorded |
| Dispatcher.MenuCommand | bot.py:86-91 | `/menu` leaves `chat_mode = False` when a store exists and sends exactly the back-to-menu message with the keyboard |
| Dispatcher.ChatCommandIsChatLabel | bot.py:123-125 | the chat label has exactly the effect of `/chat`: chat mode on when a store exists, one activation message, no prompt |
| Dispatcher.InfoLabelKeepsSession | bot.py:101-147 | the student, IT and contacts labels each send exactly their fixed text and leave the session unchanged, in either mode |
| Dispatcher.StartKeepsSession | bot.py:55-64 | `/start` sends one greeting with the keyboard when there is a user, nothing when there is none, and never changes the session |
| Dispatcher.QuestionInMenuMode | bot.py:130-143 | a question in menu mode with a store turns chat mode on; the replies are the auto-activation notice, then exactly one generation reply |
| Dispatcher.QuestionInChatMode | bot.py:130-143 | a question in chat mode sends no notice and one generation reply, and leaves the session unchanged |
| Dispatcher.QuestionWithoutStore | bot.py:132-160 | without a store, a question gets only the auto-activation notice: no generation reply and no prompt |
| Dispatcher.GeminiReplyNeedsChatMode | bot.py:157-160 | the generation flow is a no-op whenever chat mode is not active |
| Dispatcher.RepliesOfStep | bot.py:217-222 | every registered command (`/start` only from a user) and every non-empty text gets at least one reply; every other update gets nothing and changes nothing; a generation reply or a prompt comes only from a question, and the generation reply is always the last reply |
| Dispatcher.QuestionReplyText | bot.py:165-195 | with a store, the last reply to a question is the text the generation flow selects |
| Dispatcher.NewUserAsksQuestion | bot.py:126-143 | a new user's free question gets the notice, then one generation reply, and leaves the user in chat mode |
| Runs.Run | bot.py:231 | one user's updates, handled one after another in the order the polling loop takes them, each against the session the previous one left; a run never creates or drops the store |
| Runs.RunSnoc | bot.py:229-231 | for one user's updates, handling a run and then one more update is the same as handling the longer run |
| Runs.StepRecordsWrite | bot.py:72-134 | each update leaves the store exactly as the value it writes says (chat command, chat label, question: `True`; menu command: `False`; others: nothing) |
| Runs.RunEndsInLastWrite | bot.py:72-134 | after any sequence of updates, the session is the one the last write set, or the starting session if nothing was written |
| Runs.RunMode | bot.py:130-134 | with a store, a run ends in chat mode exactly when the last write was `True`, or nothing was written and the run started in chat mode |
| Runs.StepAnswers | bot.py:126-195 | one update produces a generation reply and prompt only if it is a question and a store exists |
| Runs.RunAnswersEveryQuestion | bot.py:126-195 | with a store, a run answers every question exactly once and in order, and sends exactly the prompts of the questions asked while a client exists |
| Runs.RunWithoutStoreNeverGenerates | bot.py:132-160 | without a store, no run ever produces a generation reply or sends a prompt, and the store stays absent |
| Runs.Replay | bot.py:216-231 | the update loop, restricted to one user's updates, produces the same session, replies and prompts as the sequential run; the session is the last write; there are at most two replies and one prompt per update |

## Left out

- The Telegram transport is not modelled: `Update`, `Application`, `reply_text`, `reply_html`, polling, and `drop_pending_updates`. Replies are tagged values. Whether a reply carries the keyboard is given by the predicate `Replies.HasKeyboard` on its tag.
- The "typing" indicator (`send_chat_action`, bot.py:163) is not modelled. It is a transport call and sends no message.
- Markdown and HTML parse modes are not modelled. The texts keep their markup characters literally.
- `mention_html` is not modelled. A command carries the sender's mention as an opaque string.
- Command recognition by the platform is not modelled (case folding, `@botname` suffixes, arguments). A `Command` event carries the already-parsed name. Command texts never reach the free-text handler (bot.py:222).
- The `effective_user` guard of `/start` (bot.py:57) is modelled through the store. The platform gives no `user_data` exactly when the update has no user, so `NoStore` stands for such an update, and `/start` then sends nothing. The `effective_chat` guard of the generation flow (bot.py:153) is not modelled: every message is taken to belong to a chat.
- Reading the environment and the startup failure when the bot token is missing (bot.py:13-21) are not modelled. This is configuration I/O.
- Construction of the Gemini client (bot.py:31-40) is not modelled. A missing client is the `NoClient` outcome, given per update.
- The call to `generate_content` is not modelled: it is a network call into a foreign library. Its result is the `Completion` of the update. The model name `gemini-2.5-flash` is not recorded with each prompt.
- Logging is not modelled.
- `error_handler` (bot.py:199-206, registered at bot.py:226) is not modelled. It receives the errors of the handlers' send calls and the errors raised while polling for updates, such as a 409 Conflict. Polling errors arrive with no update and get no reply.
- The model assumes every send succeeds. If the platform rejects a `reply_text` call, the user gets the fixed apology of bot.py:205 instead of the modelled reply. This can happen for an over-long Gemini answer or for Markdown the platform refuses. Any later reply of the same update is not sent either; for example, the generation reply after the bot.py:137 notice is lost. A flag write made before the failed send, such as the one at bot.py:134, stays in effect.
- Concurrent handling of two updates from the same user is not modelled: the possible lost read-modify-write of `chat_mode` is out of scope. Updates are handled one after another.
- Dispatcher.HandleMenuButtons: its own contract states only bounds and that the store is preserved. The behaviour of each branch is stated by the `Dispatcher` lemmas (`InfoLabelKeepsSession`, `ChatCommandIsChatLabel`, `QuestionInMenuMode`, `QuestionInChatMode`, `QuestionWithoutStore`).
- Dispatcher.Step: its own contract states only bounds and that the store is preserved. The routing is stated by `StepFollowsModeTable`, `RepliesOfStep` and the lemmas for each command.
