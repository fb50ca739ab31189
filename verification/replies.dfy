/** The bot's fixed vocabulary: the four menu labels of the reply keyboard,
    the canned texts, and the replies a handler emits. */
module Replies {
  import opened Wrappers
  import opened Session

  const StudentLabel: string := "👤 Студент"
  const ItLabel: string := "💻 IT-технології"
  const ContactsLabel: string := "📞 Контакти"
  const ChatLabel: string := "✍️ Чат з AI"

  /** The persistent reply keyboard, row by row. */
  const Keyboard: seq<seq<string>> := [[StudentLabel], [ItLabel, ContactsLabel], [ChatLabel]]

  /** The three informational menu entries. */
  datatype Item = Student | It | Contacts

  /** A keyboard button: an informational entry or the chat trigger. */
  datatype Button = Info(item: Item) | ChatButton

  function Label(b: Button): string {
    match b
    case Info(Student) => StudentLabel
    case Info(It) => ItLabel
    case Info(Contacts) => ContactsLabel
    case ChatButton => ChatLabel
  }

  /** Exact comparison of a message text against the four labels, in the
      order the handler tries them. */
  function MatchLabel(text: string): (r: Option<Button>)
    ensures r.Some? ==> Label(r.value) == text
    ensures r.None? <==> forall b: Button :: Label(b) != text
  {
    if text == StudentLabel then Some(Info(Student))
    else if text == ItLabel then Some(Info(It))
    else if text == ContactsLabel then Some(Info(Contacts))
    else if text == ChatLabel then Some(ChatButton)
    else None
  }

  /** Matching recognises every label as its own button: the labels are
      pairwise distinct, so the order of the comparisons does not matter. */
  lemma MatchLabelInvertsLabel(b: Button)
    ensures MatchLabel(Label(b)) == Some(b)
  {
  }

  /** The keyboard offers exactly the four labels. */
  lemma KeyboardHoldsEveryLabel(text: string)
    ensures (exists row :: row in Keyboard && text in row) <==> MatchLabel(text).Some?
  {
    if MatchLabel(text).Some? {
      var b := MatchLabel(text).value;
      match b
      case Info(Student) => assert text in Keyboard[0];
      case Info(It) => assert text in Keyboard[1];
      case Info(Contacts) => assert text in Keyboard[1];
      case ChatButton => assert text in Keyboard[2];
    }
  }

  const StudentText: string :=
    "**Студентські дані:**\nПрізвище: *Твоє Прізвище*\nГрупа: *Твоя Група*"
  const ItText: string :=
    "**IT-технології:**\nСтворення чат-ботів, машинне навчання, web-розробка, кібербезпека. "
    + "Я — приклад застосування **Python** та **Telegram API**."
  const ContactsText: string :=
    "**Контактна інформація:**\nТелефон: `+380 XXX XX XX XXX`\nE-mail: `твоя_пошта@example.com`"

  function CannedText(i: Item): string {
    match i
    case Student => StudentText
    case It => ItText
    case Contacts => ContactsText
  }

  const ChatActivatedText: string :=
    "📝 **Режим Gemini активовано!** Надсилай свої запити. \n\n"
    + "Щоб вийти з режиму, натисни кнопку меню або набери `/menu`."
  const BackToMenuText: string := "👋 Ти повернувся до головного меню."
  const AutoActivatedText: string :=
    "✅ Автоматично активовано режим Gemini для твого запиту. \n"
    + "Щоб вийти, набери `/menu` або скористайся кнопками."

  /** The greeting of `/start`; `mention` is the platform's rendering of
      the sender. */
  function GreetingText(mention: string): string {
    "Привіт, " + mention + "! Я твій лабораторний бот. Обери пункт меню або надрукуй `/chat` для запиту до Gemini."
  }

  /** One outbound message, tagged by the branch that emits it. */
  datatype Reply =
    | Greeting(mention: string)
    | ChatActivated
    | BackToMenu
    | Canned(item: Item)
    | AutoActivated
    | Generated(text: string)

  /** The text the user sees. */
  function Body(r: Reply): string {
    match r
    case Greeting(m) => GreetingText(m)
    case ChatActivated => ChatActivatedText
    case BackToMenu => BackToMenuText
    case Canned(i) => CannedText(i)
    case AutoActivated => AutoActivatedText
    case Generated(t) => t
  }

  /** Only the greeting and the back-to-menu message carry the keyboard. */
  predicate HasKeyboard(r: Reply) {
    r.Greeting? || r.BackToMenu?
  }

  /** What one handler invocation does: the session afterwards, the replies
      in the order they are sent, and the prompts sent to the generation
      service. */
  datatype Transition = Transition(next: Session, replies: seq<Reply>, calls: seq<string>)

  /** The transition of an update that no handler acts on. */
  function Silent(s: Session): Transition {
    Transition(s, [], [])
  }
}
