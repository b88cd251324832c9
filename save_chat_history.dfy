/** api/save-chat-history.ts: replace the chat log of the user's persona with
    the one the client sends, keeping only the most recent 50 messages. */
module SaveChatHistory {
  import opened Types
  import opened Http
  import opened KvStore

  const MAX_HISTORY_LENGTH := 50

  /** `history.slice(-50)` when the history is longer than 50, else the history:
      the sliding window of the most recent messages. */
  function CapHistory(h: seq<ChatMessage>): (r: seq<ChatMessage>)
    ensures |r| == if |h| > MAX_HISTORY_LENGTH then MAX_HISTORY_LENGTH else |h|
    ensures r == h[|h| - |r|..]
  {
    if |h| > MAX_HISTORY_LENGTH then h[|h| - MAX_HISTORY_LENGTH..] else h
  }

  /** The request body. A missing `userEmail` is the empty string and a missing
      `personaId` is 0: both are falsy, as the handler tests. */
  datatype SaveRequest = SaveRequest(userEmail: string, personaId: int, chatHistory: Option<seq<ChatMessage>>)

  /** `!userEmail || !personaId || !chatHistory`; an empty array is truthy. */
  predicate MissingFields(b: SaveRequest)
  {
    b.userEmail == "" || b.personaId == 0 || b.chatHistory.None?
  }

  /** `userData.persona` as the handler reads it, without any shape check:
      undefined when the value is not an object or has no `persona` key. */
  function PersonaOf(raw: Raw): Option<PersonaInstance>
  {
    if raw.Object? && "persona" in raw.keys then raw.data.persona else None
  }

  /** The stored object with its persona's chat log replaced by `h`. */
  function WithHistory(raw: Raw, h: seq<ChatMessage>): Raw
    requires PersonaOf(raw).Some?
  {
    var p := PersonaOf(raw).value;
    Object(raw.keys, raw.data.(persona := Some(p.(chatHistory := h))))
  }

  const FailedToSave := Response(500, ErrorJson("Failed to save chat history."))

  function SaveChatHistorySpec(entries: map<string, Raw>, req: Request<SaveRequest>, fault: StoreFault): Outcome
  {
    if req.verb != "POST" then Outcome(MethodNotAllowed, entries)
    else if req.body.Unparsable? then Outcome(FailedToSave, entries)
    else if MissingFields(req.body.value) then
      Outcome(Response(400, ErrorJson("userEmail, personaId, and chatHistory are required.")), entries)
    else if fault.NotConfigured? || fault.ReadFails? then Outcome(FailedToSave, entries)
    else
      var b := req.body.value;
      var raw := Lookup(entries, b.userEmail);
      if Falsy(raw) then Outcome(Response(404, ErrorJson("User not found.")), entries)
      else if PersonaOf(raw).None? || PersonaOf(raw).value.id != b.personaId then
        Outcome(Response(404, ErrorJson("Persona not found.")), entries)
      else if fault.WriteFails? then Outcome(FailedToSave, entries)
      else Outcome(Response(200, Saved), entries[b.userEmail := WithHistory(raw, CapHistory(b.chatHistory.value))])
  }

  method HandleSaveChatHistory(kv: Store, req: Request<SaveRequest>, fault: StoreFault) returns (resp: Response)
    modifies kv
    ensures Outcome(resp, kv.entries) == SaveChatHistorySpec(old(kv.entries), req, fault)
  {
    if req.verb != "POST" {
      return MethodNotAllowed;
    }
    if req.body.Unparsable? {
      return FailedToSave;
    }
    var b := req.body.value;
    if MissingFields(b) {
      return Response(400, ErrorJson("userEmail, personaId, and chatHistory are required."));
    }
    if fault.NotConfigured? || fault.ReadFails? {
      return FailedToSave;
    }
    var userData := kv.Get(b.userEmail);
    if Falsy(userData) {
      return Response(404, ErrorJson("User not found."));
    }
    if PersonaOf(userData).None? || PersonaOf(userData).value.id != b.personaId {
      return Response(404, ErrorJson("Persona not found."));
    }
    var updatedHistory := b.chatHistory.value;
    if |updatedHistory| > MAX_HISTORY_LENGTH {
      updatedHistory := updatedHistory[|updatedHistory| - MAX_HISTORY_LENGTH..];
    }
    var persona := PersonaOf(userData).value;
    userData := Object(userData.keys, userData.data.(persona := Some(persona.(chatHistory := updatedHistory))));
    if fault.WriteFails? {
      return FailedToSave;
    }
    kv.Set(b.userEmail, userData);
    resp := Response(200, Saved);
  }

  // ------------------------------------------------------------ properties

  /** Capping twice is capping once. */
  lemma CapIsIdempotent(h: seq<ChatMessage>)
    ensures CapHistory(CapHistory(h)) == CapHistory(h)
  {
  }

  /** Appending one message to a full window drops exactly the oldest one. */
  lemma CapDropsOldest(h: seq<ChatMessage>, m: ChatMessage)
    requires |h| == MAX_HISTORY_LENGTH
    ensures CapHistory(h + [m]) == h[1..] + [m]
  {
    assert (h + [m])[1..] == h[1..] + [m];
  }

  /** Missing fields give 400 before the store is touched. */
  lemma MissingFieldsAreRejected(entries: map<string, Raw>, req: Request<SaveRequest>, fault: StoreFault)
    requires req.verb == "POST" && req.body.Parsed? && MissingFields(req.body.value)
    ensures SaveChatHistorySpec(entries, req, fault).resp.status == 400
    ensures SaveChatHistorySpec(entries, req, fault).entries == entries
  {
  }

  /** An unknown user (nothing, or a falsy value, under the email), a record
      without a persona, or a persona whose id is not the requested one gives
      404 and nothing is written, whether or not the write would fail: the
      write is never reached. */
  lemma NotFoundWritesNothing(entries: map<string, Raw>, req: Request<SaveRequest>, fault: StoreFault)
    requires req.verb == "POST" && req.body.Parsed? && !MissingFields(req.body.value)
    requires !fault.NotConfigured? && !fault.ReadFails?
    requires var raw := Lookup(entries, req.body.value.userEmail);
             Falsy(raw) || PersonaOf(raw).None? || PersonaOf(raw).value.id != req.body.value.personaId
    ensures var o := SaveChatHistorySpec(entries, req, fault);
            o.resp.status == 404 && o.entries == entries
    ensures var raw := Lookup(entries, req.body.value.userEmail);
            SaveChatHistorySpec(entries, req, fault).resp.body
              == ErrorJson(if Falsy(raw) then "User not found." else "Persona not found.")
  {
  }

  /** A save changes only the persona's chat log under the requested email:
      the user, the energy, the recharge time, the persona id and its content,
      and every other key of the store stay as they were; the saved log is the
      last min(n, 50) messages sent. */
  lemma SaveChangesOnlyHistory(entries: map<string, Raw>, req: Request<SaveRequest>, fault: StoreFault)
    requires SaveChatHistorySpec(entries, req, fault).resp.status == 200
    ensures var b := req.body.value;
            var o := SaveChatHistorySpec(entries, req, fault);
            var before := entries[b.userEmail];
            var after := o.entries[b.userEmail];
            var sent := b.chatHistory.value;
            && o.entries.Keys == entries.Keys
            && (forall k :: k in entries && k != b.userEmail ==> o.entries[k] == entries[k])
            && after.Object? && after.keys == before.keys
            && after.data.user == before.data.user
            && after.data.chatEnergy == before.data.chatEnergy
            && after.data.lastRechargeTimestamp == before.data.lastRechargeTimestamp
            && after.data.persona.Some?
            && after.data.persona.value.id == before.data.persona.value.id == b.personaId
            && after.data.persona.value.persona == before.data.persona.value.persona
            && after.data.persona.value.chatHistory == sent[|sent| - |after.data.persona.value.chatHistory|..]
            && |after.data.persona.value.chatHistory| == (if |sent| > 50 then 50 else |sent|)
  {
  }
}
