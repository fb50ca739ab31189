/** The per-user session store of the bot (the messaging platform's
    `context.user_data`) and the two-state mode machine it encodes. */
module Session {
  import opened Wrappers

  /** `NoStore` is a `user_data` of `None` (the platform has no user to
      attach a store to). `Store(chatMode)` is a present dictionary; the bot
      only ever writes the `chat_mode` key, so the dictionary is exactly the
      optional value of that key. */
  datatype Session = NoStore | Store(chatMode: Option<bool>)

  /** The store of a user the bot has never seen: present and empty. */
  const Fresh: Session := Store(None)

  /** The two states of the dispatcher: menu mode and chat mode. */
  datatype Mode = Menu | Chat

  /** Python truthiness of `user_data`: present and not empty. */
  predicate StoreTruthy(s: Session) {
    s.Store? && s.chatMode.Some?
  }

  /** The handler's test `user_data and user_data.get('chat_mode', False)`. */
  predicate ChatModeActive(s: Session)
    ensures ChatModeActive(s) <==> s == Store(Some(true))
  {
    StoreTruthy(s) && s.chatMode.value
  }

  /** The generation flow's early-return test
      `not user_data or not user_data.get('chat_mode')`; a missing key reads
      as `None`, which is falsy. */
  predicate GenerationGateClosed(s: Session)
    ensures GenerationGateClosed(s) <==> s != Store(Some(true))
  {
    !StoreTruthy(s) || !s.chatMode.value
  }

  /** The mode a session is in. */
  function ModeOf(s: Session): (m: Mode)
    ensures m == Chat <==> s == Store(Some(true))
  {
    if ChatModeActive(s) then Chat else Menu
  }

  /** `if user_data is not None: user_data['chat_mode'] = b`. */
  function SetChatMode(s: Session, b: bool): (r: Session)
    ensures r.NoStore? <==> s.NoStore?
    ensures s.Store? ==> ModeOf(r) == (if b then Chat else Menu) && StoreTruthy(r)
  {
    match s
    case NoStore => NoStore
    case Store(_) => Store(Some(b))
  }

  /** The two readings of the flag (the handler's and the generation flow's)
      agree on every session: the gate is closed exactly when chat mode is
      not active, so a missing key, a `False` flag and an empty or absent
      store are all menu mode for both. */
  lemma GateClosedIffInactive(s: Session)
    ensures GenerationGateClosed(s) <==> !ChatModeActive(s)
    ensures ChatModeActive(s) <==> s == Store(Some(true))
  {
  }

  /** A user's store starts in menu mode. */
  lemma FreshIsMenu()
    ensures ModeOf(Fresh) == Menu && !ChatModeActive(Fresh)
  {
  }
}
