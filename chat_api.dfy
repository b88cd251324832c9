/** api/chat.ts: turn the client's history into the model's role-tagged
    transcript, ask the model, and either answer with one JSON text or relay
    the model's stream, forwarding only chunks that carry text. */
module ChatApi {
  import opened Types
  import opened Http

  datatype Role = UserRole | ModelRole

  /** One turn of the model transcript: `{role, parts: [{text}]}`. */
  datatype Content = Content(role: Role, text: string)

  function RoleOf(s: Sender): Role
  {
    if s == UserSender then UserRole else ModelRole
  }

  /** `history.map(...)`. */
  function ToContents(history: seq<ChatMessage>): (r: seq<Content>)
    ensures |r| == |history|
  {
    if history == [] then []
    else [Content(RoleOf(history[0].sender), history[0].text)] + ToContents(history[1..])
  }

  /** The transcript keeps the history's length and order, tags a user message
      with the user role and anything else with the model role, and copies
      the text. */
  lemma {:induction false} ToContentsPointwise(history: seq<ChatMessage>)
    ensures |ToContents(history)| == |history|
    ensures forall i :: 0 <= i < |history| ==>
              && ToContents(history)[i].text == history[i].text
              && (ToContents(history)[i].role == UserRole <==> history[i].sender == UserSender)
  {
    if history != [] {
      ToContentsPointwise(history[1..]);
      var r := ToContents(history);
      forall i | 0 <= i < |history|
        ensures r[i].text == history[i].text
        ensures r[i].role == UserRole <==> history[i].sender == UserSender
      {
        if i > 0 {
          assert r[i] == ToContents(history[1..])[i - 1];
          assert history[i] == history[1..][i - 1];
        }
      }
    }
  }

  /** The request body. `history` is None when absent (then `.map` throws). */
  datatype ChatRequest = ChatRequest(history: Option<seq<ChatMessage>>, message: string,
                                     systemInstruction: string, stream: Option<bool>)

  /** What the handler asks of the model. */
  datatype ModelCall = ModelCall(contents: seq<Content>, systemInstruction: string, streaming: bool)

  const FailedToProcess := Response(500, ErrorJson("Failed to process chat message."))

  /** The handler, up to handing the stream over: it returns the response and
      the request it made of the model, if any. `reply` is what the one-shot
      call gives back; `streamStart` says whether opening the stream worked. */
  method HandleChat(req: Request<ChatRequest>, reply: Gen<Option<string>>, streamStart: Gen<()>)
    returns (resp: Response, call: Option<ModelCall>)
    ensures req.verb != "POST" ==> resp == MethodNotAllowed && call == None
    ensures req.verb == "POST" && (req.body.Unparsable? || req.body.value.history.None?) ==>
              resp == FailedToProcess && call == None
    ensures call.Some? ==>
              && req.verb == "POST" && req.body.Parsed? && req.body.value.history.Some?
              && var h := req.body.value.history.value;
              && call.value.contents == ToContents(h) + [Content(UserRole, req.body.value.message)]
              && call.value.systemInstruction == req.body.value.systemInstruction
              && (call.value.streaming <==> req.body.value.stream != Some(false))
    ensures req.verb == "POST" && req.body.Parsed? && req.body.value.history.Some? ==> call.Some?
    ensures call.Some? && !call.value.streaming ==>
              resp == (if reply.Threw? then FailedToProcess else Response(200, ReplyJson(reply.value)))
    ensures call.Some? && call.value.streaming ==>
              resp == (if streamStart.Threw? then FailedToProcess else Response(200, TextStream))
  {
    call := None;
    if req.verb != "POST" {
      return MethodNotAllowed, None;
    }
    if req.body.Unparsable? || req.body.value.history.None? {
      return FailedToProcess, None;
    }
    var body := req.body.value;
    var contents := ToContents(body.history.value);
    contents := contents + [Content(UserRole, body.message)];
    if body.stream == Some(false) {
      call := Some(ModelCall(contents, body.systemInstruction, false));
      if reply.Threw? {
        return FailedToProcess, call;
      }
      return Response(200, ReplyJson(reply.value)), call;
    }
    call := Some(ModelCall(contents, body.systemInstruction, true));
    if streamStart.Threw? {
      return FailedToProcess, call;
    }
    resp := Response(200, TextStream);
  }

  /** The transcript sent is one longer than the history and ends with the new
      user turn. */
  lemma TranscriptEndsWithUserTurn(history: seq<ChatMessage>, message: string)
    ensures var c := ToContents(history) + [Content(UserRole, message)];
            |c| == |history| + 1 && c[|history|] == Content(UserRole, message)
  {
    ToContentsPointwise(history);
  }

  // ------------------------------------------------------------ streaming

  /** The model's stream as the relay sees it: the chunks' `text` values
      (None when a chunk has no text), and whether iterating it fails after
      the last of them. */
  datatype ChunkStream = ChunkStream(texts: seq<Option<string>>, failsAtEnd: bool)

  /** The texts the relay forwards: the present, non-empty ones, in order. */
  function Forwarded(texts: seq<Option<string>>): (r: seq<string>)
    ensures forall i :: 0 <= i < |r| ==> r[i] != ""
    ensures |r| <= |texts|
  {
    if texts == [] then []
    else if texts[0].Some? && texts[0].value != "" then [texts[0].value] + Forwarded(texts[1..])
    else Forwarded(texts[1..])
  }

  function Concat(xs: seq<string>): string
  {
    if xs == [] then [] else xs[0] + Concat(xs[1..])
  }

  /** The text of a chunk, with a chunk that has none counting as empty. */
  function TextOrEmpty(t: Option<string>): string
  {
    if t.Some? then t.value else ""
  }

  function AllText(texts: seq<Option<string>>): string
  {
    if texts == [] then [] else TextOrEmpty(texts[0]) + AllText(texts[1..])
  }

  /** Dropping empty chunks loses no text: the forwarded chunks put together
      are all the chunk texts put together. */
  lemma {:induction false} ForwardedKeepsAllText(texts: seq<Option<string>>)
    ensures Concat(Forwarded(texts)) == AllText(texts)
  {
    if texts != [] {
      ForwardedKeepsAllText(texts[1..]);
      if texts[0].Some? && texts[0].value != "" {
        assert Forwarded(texts) == [texts[0].value] + Forwarded(texts[1..]);
        assert Concat(Forwarded(texts)) == texts[0].value + Concat(Forwarded(texts[1..]));
      }
    }
  }

  /** The readable stream's controller: what has been enqueued, and whether
      it has been closed or errored. */
  class StreamController {
    var queued: seq<string>
    var closed: bool
    var errored: bool

    constructor ()
      ensures queued == [] && !closed && !errored
    {
      queued, closed, errored := [], false, false;
    }

    method Enqueue(chunk: string)
      requires !closed && !errored
      modifies this
      ensures queued == old(queued) + [chunk] && closed == old(closed) && errored == old(errored)
    {
      queued := queued + [chunk];
    }

    method Close()
      requires !closed && !errored
      modifies this
      ensures closed && queued == old(queued) && errored == old(errored)
    {
      closed := true;
    }

    /** What a rejected `start` does to the stream. */
    method Error()
      requires !closed && !errored
      modifies this
      ensures errored && queued == old(queued) && closed == old(closed)
    {
      errored := true;
    }
  }

  /** `start(controller)`: the `for await` loop enqueuing every non-empty chunk
      text, then closing the stream once; if iteration fails, the stream
      errors instead and is never closed. */
  method Pump(controller: StreamController, stream: ChunkStream)
    requires !controller.closed && !controller.errored && controller.queued == []
    modifies controller
    ensures controller.queued == Forwarded(stream.texts)
    ensures controller.closed <==> !stream.failsAtEnd
    ensures controller.errored <==> stream.failsAtEnd
  {
    var i := 0;
    while i < |stream.texts|
      invariant 0 <= i <= |stream.texts|
      invariant controller.queued == Forwarded(stream.texts[..i])
      invariant !controller.closed && !controller.errored
    {
      var text := stream.texts[i];
      ForwardedAppend(stream.texts[..i], text);
      if text.Some? && text.value != "" {
        controller.Enqueue(text.value);
      }
      assert stream.texts[..i + 1] == stream.texts[..i] + [text];
      i := i + 1;
    }
    assert stream.texts[..i] == stream.texts;
    if stream.failsAtEnd {
      controller.Error();
    } else {
      controller.Close();
    }
  }

  lemma {:induction false} ForwardedAppend(texts: seq<Option<string>>, t: Option<string>)
    ensures Forwarded(texts + [t]) == Forwarded(texts) + (if t.Some? && t.value != "" then [t.value] else [])
  {
    if texts != [] {
      assert (texts + [t])[1..] == texts[1..] + [t];
      ForwardedAppend(texts[1..], t);
    } else {
      assert [t][1..] == [];
    }
  }
}
