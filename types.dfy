/** The records the application passes around (types.ts), together with the two
    stored shapes the handlers use but types.ts does not show: the per-user
    record and the persona instance it holds. */
module Types {

  datatype Option<+T> = None | Some(value: T)

  /** Who wrote a chat message. */
  datatype Sender = UserSender | AiSender

  /** A chat message; `id` is a clock reading taken when the message is made. */
  datatype ChatMessage = ChatMessage(id: int, sender: Sender, text: string)

  /** The identity triple taken from the sign-in token. */
  datatype User = User(name: string, email: string, picture: string)

  /** The persona form: six free-text fields and the selected keywords. */
  datatype PersonaData = PersonaData(
    personality: string,
    tone: string,
    interests: string,
    goals: string,
    likes: string,
    dislikes: string,
    keywords: seq<string>)

  /** What persona creation generates: an avatar URL and a system prompt. */
  datatype Persona = Persona(characterImageUrl: string, systemInstruction: string)

  /** One created persona with its own chat log. */
  datatype PersonaInstance = PersonaInstance(id: int, persona: Persona, chatHistory: seq<ChatMessage>)

  /** The per-user record kept in the key-value store under the user's email. */
  datatype UserData = UserData(
    user: User,
    persona: Option<PersonaInstance>,
    chatEnergy: int,
    lastRechargeTimestamp: int)

  /** A value read from the key-value store. `Null` is what a key the store
      does not hold reads as; `Scalar` is any other non-object JSON value,
      falsy (`false`, `0`, `""`) or truthy; `Object` is a JSON object with the
      given keys, whose fields, read as a user record, are `data` (a field
      whose key is absent reads as undefined). */
  datatype Raw = Null | Scalar(truthy: bool) | Object(keys: set<string>, data: UserData)

  /** `!value` for a stored value: null and the falsy primitives; an object is
      always truthy. */
  predicate Falsy(raw: Raw)
  {
    raw.Null? || (raw.Scalar? && !raw.truthy)
  }

  /** The three screens of the client. */
  datatype AppState = Creation | Loading | Chat
}
