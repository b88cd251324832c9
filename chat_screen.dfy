/** components/ChatScreen.tsx: the chat screen's state. A per-day message
    counter kept in the browser's local storage, the send guard, the message
    list with its AI placeholder filled in as the reply streams, and the
    remaining-count label. */
module ChatScreen {
  import opened Types
  import opened JsText
  import ChatApi

  const DAILY_LIMIT := 20
  const DATE_KEY := "egogo-chat-date"
  const COUNT_KEY := "egogo-chat-count"
  const Apology := "음... 그런 표현은 나를 조금 슬프게 해. 우리 더 예쁜 말로 대화해볼까?"

  /** `count + 1` on a JavaScript number. */
  function Inc(c: Count): Count
  {
    match c
    case NaN => NaN
    case Num(n) => Num(n + 1)
  }

  /** `count >= k`; every comparison with NaN is false. */
  predicate AtLeast(c: Count, k: int)
  {
    c.Num? && c.n >= k
  }

  /** `Math.max(0, DAILY_LIMIT - dailyCount)`. */
  function Remaining(c: Count): (r: Count)
    ensures c.Num? ==> r.Num? && r.n >= 0 && r.n >= DAILY_LIMIT - c.n
                       && (r.n == 0 || r.n == DAILY_LIMIT - c.n)
    ensures c.NaN? ==> r.NaN?
  {
    match c
    case NaN => NaN
    case Num(n) => Num(if DAILY_LIMIT - n > 0 then DAILY_LIMIT - n else 0)
  }

  /** `parseInt(localStorage.getItem(COUNT_KEY) || '0', 10)`. */
  function StoredCount(storage: map<string, string>): (c: Count)
    ensures (COUNT_KEY !in storage || storage[COUNT_KEY] == "") ==> c == Num(0)
  {
    ParseIntOfDigits("0");
    ParseInt(if COUNT_KEY in storage && storage[COUNT_KEY] != "" then storage[COUNT_KEY] else "0")
  }

  /** The counter persisted by a send is the counter read back on the next
      mount of the same day. */
  lemma StoredCountRoundTrip(storage: map<string, string>, c: Count)
    ensures StoredCount(storage[COUNT_KEY := CountToString(c)]) == c
  {
    ParseIntOfCountToString(c);
  }

  /** `prev.map(msg => msg.id === id ? {...msg, text} : msg)`. */
  function UpdateText(msgs: seq<ChatMessage>, id: int, text: string): (r: seq<ChatMessage>)
    ensures |r| == |msgs|
    ensures forall i :: 0 <= i < |msgs| ==>
              r[i] == if msgs[i].id == id then ChatMessage(id, msgs[i].sender, text) else msgs[i]
  {
    seq(|msgs|, i requires 0 <= i < |msgs| => if msgs[i].id == id then msgs[i].(text := text) else msgs[i])
  }

  /** Each new update by the same id overwrites the previous one. */
  lemma UpdateTextOverwrites(msgs: seq<ChatMessage>, id: int, a: string, b: string)
    ensures UpdateText(UpdateText(msgs, id, a), id, b) == UpdateText(msgs, id, b)
  {
  }

  /** When `id` is fresh except for the last message, an update by `id` changes
      that message's text and nothing else. */
  lemma UpdateTextOfFreshId(prefix: seq<ChatMessage>, last: ChatMessage, text: string)
    requires forall i :: 0 <= i < |prefix| ==> prefix[i].id != last.id
    ensures UpdateText(prefix + [last], last.id, text) == prefix + [last.(text := text)]
  {
  }

  /** The chat's reply as the screen sees it: the chunks' `text` values (None
      when a chunk has none), and whether the call or its iteration throws
      after them. */
  datatype Reply = Reply(chunks: seq<Option<string>>, fails: bool)

  /** `text += chunk.text` as written: a chunk without text appends the
      string "undefined". */
  function AppendAsWritten(text: string, t: Option<string>): string
  {
    if t.Some? then text + t.value else text + "undefined"
  }

  function AccumulateAsWritten(chunks: seq<Option<string>>): string
  {
    if chunks == [] then [] else AccumulateAsWritten(chunks[..|chunks| - 1]) + AppendAsWritten([], chunks[|chunks| - 1])
  }

  /** As written, a reply whose last chunk has no text shows "undefined" after
      the real text. */
  lemma AsWrittenShowsUndefined()
    ensures AccumulateAsWritten([Some("안녕"), None]) == "안녕undefined"
    ensures ChatApi.AllText([Some("안녕"), None]) == "안녕"
  {
    assert [Some("안녕"), None][..1] == [Some("안녕")];
    assert [Some("안녕")][..0] == [];
  }

  /** The corrected accumulation skips chunks without text, as the server's
      relay does: what the screen shows is exactly the text the relay would
      forward. */
  lemma {:induction false} AccumulationMatchesRelay(chunks: seq<Option<string>>)
    ensures ChatApi.AllText(chunks) == ChatApi.Concat(ChatApi.Forwarded(chunks))
    ensures (forall i :: 0 <= i < |chunks| ==> chunks[i].Some?) ==>
              ChatApi.AllText(chunks) == AccumulateAsWritten(chunks)
  {
    ChatApi.ForwardedKeepsAllText(chunks);
    if forall i :: 0 <= i < |chunks| ==> chunks[i].Some? {
      AllTextAgreesWhenPresent(chunks);
    }
  }

  lemma {:induction false} AllTextAgreesWhenPresent(chunks: seq<Option<string>>)
    requires forall i :: 0 <= i < |chunks| ==> chunks[i].Some?
    ensures ChatApi.AllText(chunks) == AccumulateAsWritten(chunks)
    decreases |chunks|
  {
    if chunks != [] {
      var front, last := chunks[..|chunks| - 1], chunks[|chunks| - 1];
      assert forall i :: 0 <= i < |front| ==> front[i] == chunks[i];
      AllTextAgreesWhenPresent(front);
      AllTextOfLast(chunks);
      assert AppendAsWritten([], last) == last.value;
    }
  }

  lemma AllTextOfLast(chunks: seq<Option<string>>)
    requires chunks != []
    ensures ChatApi.AllText(chunks)
            == ChatApi.AllText(chunks[..|chunks| - 1]) + ChatApi.TextOrEmpty(chunks[|chunks| - 1])
  {
    var front, last := chunks[..|chunks| - 1], chunks[|chunks| - 1];
    AllTextSnoc(front, last);
    assert front + [last] == chunks;
  }

  lemma {:induction false} AllTextSnoc(chunks: seq<Option<string>>, t: Option<string>)
    ensures ChatApi.AllText(chunks + [t]) == ChatApi.AllText(chunks) + ChatApi.TextOrEmpty(t)
  {
    if chunks == [] {
      assert [t][1..] == [];
    } else {
      assert (chunks + [t])[1..] == chunks[1..] + [t];
      AllTextSnoc(chunks[1..], t);
    }
  }

  /** The text the placeholder ends with. */
  function FinalText(reply: Reply): string
  {
    if reply.fails then Apology else ChatApi.AllText(reply.chunks)
  }

  /** The message list once the reply to the placeholder `id` is complete:
      untouched by an empty successful reply, otherwise the placeholder holds
      the final text. */
  function AfterReply(msgs: seq<ChatMessage>, id: int, reply: Reply): seq<ChatMessage>
  {
    if reply.chunks == [] && !reply.fails then msgs else UpdateText(msgs, id, FinalText(reply))
  }

  class ChatScreenState {
    var messages: seq<ChatMessage>
    var input: string
    var chatReady: bool
    var isLoading: bool
    var dailyCount: Count
    var limitReached: bool
    /** The browser's local storage. */
    var storage: map<string, string>

    constructor (initialMessages: seq<ChatMessage>, storage0: map<string, string>)
      ensures messages == initialMessages && input == "" && !chatReady && !isLoading
      ensures dailyCount == Num(0) && !limitReached && storage == storage0
    {
      messages, input, chatReady, isLoading := initialMessages, "", false, false;
      dailyCount, limitReached, storage := Num(0), false, storage0;
    }

    /** The mount effect: on the stored day, restore the stored count (and the
        limit if it is reached); on any other day, start the day at zero. */
    method Mount(today: string)
      modifies this
      ensures messages == old(messages) && input == old(input)
      ensures chatReady == old(chatReady) && isLoading == old(isLoading)
      ensures DATE_KEY in old(storage) && old(storage)[DATE_KEY] == today ==>
                && storage == old(storage)
                && dailyCount == StoredCount(old(storage))
                && limitReached == (old(limitReached) || AtLeast(dailyCount, DAILY_LIMIT))
      ensures !(DATE_KEY in old(storage) && old(storage)[DATE_KEY] == today) ==>
                && storage == old(storage)[DATE_KEY := today][COUNT_KEY := "0"]
                && dailyCount == Num(0) && !limitReached
    {
      var storedDate := if DATE_KEY in storage then Some(storage[DATE_KEY]) else None;
      if storedDate == Some(today) {
        var storedCount := StoredCount(storage);
        dailyCount := storedCount;
        if AtLeast(storedCount, DAILY_LIMIT) {
          limitReached := true;
        }
      } else {
        storage := storage[DATE_KEY := today];
        storage := storage[COUNT_KEY := "0"];
        dailyCount := Num(0);
        limitReached := false;
      }
    }

    /** The chat-session effect has run. */
    method OpenChat()
      modifies this
      ensures chatReady
      ensures messages == old(messages) && input == old(input) && isLoading == old(isLoading)
      ensures dailyCount == old(dailyCount) && limitReached == old(limitReached) && storage == old(storage)
    {
      chatReady := true;
    }

    /** Typing into the message box. */
    method SetInput(text: string)
      modifies this
      ensures input == text
      ensures messages == old(messages) && chatReady == old(chatReady) && isLoading == old(isLoading)
      ensures dailyCount == old(dailyCount) && limitReached == old(limitReached) && storage == old(storage)
    {
      input := text;
    }

    /** The send guard of `handleSendMessage`. */
    predicate CanSend()
      reads this
    {
      Trim(input) != "" && chatReady && !isLoading && !limitReached
    }

    /** `handleSendMessage`, run to completion: `userClock` and `aiClock` are
        the two `Date.now()` readings, `reply` what the chat streams back. */
    method SendMessage(userClock: int, aiClock: int, reply: Reply)
      modifies this
      ensures !old(CanSend()) ==>
                && messages == old(messages) && input == old(input) && chatReady == old(chatReady)
                && isLoading == old(isLoading) && dailyCount == old(dailyCount)
                && limitReached == old(limitReached) && storage == old(storage)
      ensures old(CanSend()) ==> dailyCount == Inc(old(dailyCount))
      ensures old(CanSend()) ==> storage == old(storage)[COUNT_KEY := CountToString(dailyCount)]
      ensures old(CanSend()) ==> input == "" && !isLoading && chatReady
      ensures old(CanSend()) ==> limitReached == AtLeast(dailyCount, DAILY_LIMIT)
      ensures old(CanSend()) ==>
                messages == AfterReply(old(messages) + [ChatMessage(userClock, UserSender, old(input)),
                                                        ChatMessage(aiClock + 1, AiSender, "")],
                                       aiClock + 1, reply)
    {
      if Trim(input) != "" && chatReady && !isLoading && !limitReached {
        Send(userClock, aiClock, reply);
      }
    }

    /** `handleSendMessage` once its guard has passed. */
    method Send(userClock: int, aiClock: int, reply: Reply)
      requires chatReady && !isLoading && !limitReached
      modifies this
      ensures dailyCount == Inc(old(dailyCount))
      ensures storage == old(storage)[COUNT_KEY := CountToString(dailyCount)]
      ensures input == "" && !isLoading && chatReady
      ensures limitReached == AtLeast(dailyCount, DAILY_LIMIT)
      ensures messages == AfterReply(old(messages) + [ChatMessage(userClock, UserSender, old(input)),
                                                      ChatMessage(aiClock + 1, AiSender, "")],
                                     aiClock + 1, reply)
    {
      var newCount := Inc(dailyCount);
      var userMessage := ChatMessage(userClock, UserSender, input);
      var aiMessageId := aiClock + 1;
      // The two appends happen in the same handler before its first await,
      // so they land together.
      messages := messages + [userMessage, ChatMessage(aiMessageId, AiSender, "")];
      dailyCount := newCount;
      storage := storage[COUNT_KEY := CountToString(newCount)];
      input := "";
      isLoading := true;
      StreamReply(aiMessageId, reply);
      isLoading := false;
      if AtLeast(newCount, DAILY_LIMIT) {
        limitReached := true;
      }
    }

    /** The streaming part of `handleSendMessage`: each chunk rewrites the
        placeholder with the text received so far; a failure replaces it with
        the apology. */
    method StreamReply(aiMessageId: int, reply: Reply)
      modifies this
      ensures messages == AfterReply(old(messages), aiMessageId, reply)
      ensures input == old(input) && chatReady == old(chatReady) && isLoading == old(isLoading)
      ensures dailyCount == old(dailyCount) && limitReached == old(limitReached) && storage == old(storage)
    {
      ghost var base := messages;
      var text := "";
      var i := 0;
      while i < |reply.chunks|
        invariant 0 <= i <= |reply.chunks|
        invariant text == ChatApi.AllText(reply.chunks[..i])
        invariant messages == if i == 0 then base else UpdateText(base, aiMessageId, text)
        invariant input == old(input) && chatReady == old(chatReady) && isLoading == old(isLoading)
        invariant dailyCount == old(dailyCount) && limitReached == old(limitReached) && storage == old(storage)
      {
        AllTextSnoc(reply.chunks[..i], reply.chunks[i]);
        assert reply.chunks[..i + 1] == reply.chunks[..i] + [reply.chunks[i]];
        UpdateTextOverwrites(base, aiMessageId, text, text + ChatApi.TextOrEmpty(reply.chunks[i]));
        text := text + ChatApi.TextOrEmpty(reply.chunks[i]);
        messages := UpdateText(messages, aiMessageId, text);
        i := i + 1;
      }
      assert reply.chunks[..i] == reply.chunks;
      if reply.fails {
        if i != 0 {
          UpdateTextOverwrites(base, aiMessageId, text, Apology);
        }
        messages := UpdateText(messages, aiMessageId, Apology);
      }
    }

    /** The "remaining today" label. */
    function RemainingLabel(): (r: Count)
      reads this
      ensures dailyCount.Num? ==> r.Num? && r.n >= 0
    {
      Remaining(dailyCount)
    }
  }

  /** After a send whose two message ids are new to the list (and distinct),
      the list is the old one plus the user's message and one AI message
      holding the streamed text, or the apology if the reply failed. */
  lemma SendAppendsTwoMessages(old_messages: seq<ChatMessage>, userMsg: ChatMessage, aiId: int, reply: Reply)
    requires userMsg.id != aiId
    requires forall i :: 0 <= i < |old_messages| ==> old_messages[i].id != aiId
    ensures var base := old_messages + [userMsg, ChatMessage(aiId, AiSender, "")];
            AfterReply(base, aiId, reply) == old_messages + [userMsg, ChatMessage(aiId, AiSender, FinalText(reply))]
  {
    var prefix := old_messages + [userMsg];
    assert old_messages + [userMsg, ChatMessage(aiId, AiSender, "")] == prefix + [ChatMessage(aiId, AiSender, "")];
    UpdateTextOfFreshId(prefix, ChatMessage(aiId, AiSender, ""), FinalText(reply));
    assert prefix + [ChatMessage(aiId, AiSender, FinalText(reply))] == old_messages + [userMsg, ChatMessage(aiId, AiSender, FinalText(reply))];
    if reply.chunks == [] && !reply.fails {
      assert ChatApi.AllText(reply.chunks) == "";
    }
  }
}
