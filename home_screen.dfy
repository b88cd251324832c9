/** components/HomeScreen.tsx: the preview of the conversation shown on the
    home screen. */
module HomeScreen {
  import opened Types

  const SnippetLimit := 45
  const Ellipsis := "..."
  const UserPrefix := "나: "
  const NoMessagePrompt := "새로운 대화를 시작해보세요!"

  /** `persona ? persona.chatHistory[persona.chatHistory.length - 1] : null`;
      indexing an empty history gives `undefined`. */
  function LastMessage(d: UserData): (r: Option<ChatMessage>)
    ensures r.Some? <==> d.persona.Some? && d.persona.value.chatHistory != []
    ensures r.Some? ==> r.value == d.persona.value.chatHistory[|d.persona.value.chatHistory| - 1]
  {
    match d.persona
    case None => None
    case Some(p) => if p.chatHistory == [] then None else Some(p.chatHistory[|p.chatHistory| - 1])
  }

  function Snippet(last: Option<ChatMessage>): (r: string)
    ensures last.None? ==> r == NoMessagePrompt
    ensures last.Some? && last.value.sender == UserSender ==> r == UserPrefix + last.value.text
    ensures last.Some? && last.value.sender == AiSender ==> r == last.value.text
  {
    match last
    case None => NoMessagePrompt
    case Some(m) => if m.sender == UserSender then UserPrefix + m.text else m.text
  }

  /** `snippet.substring(0, 45) + (snippet.length > 45 ? '...' : '')`. */
  function Displayed(snippet: string): (r: string)
    ensures |r| <= SnippetLimit + |Ellipsis|
    ensures |snippet| <= SnippetLimit ==> r == snippet
  {
    (if |snippet| <= SnippetLimit then snippet else snippet[..SnippetLimit])
    + (if |snippet| > SnippetLimit then Ellipsis else "")
  }

  /** A short snippet is shown whole; a long one is cut to its first 45
      characters followed by the ellipsis, so nothing shown exceeds 48. */
  lemma DisplayedShape(snippet: string)
    ensures |Displayed(snippet)| <= SnippetLimit + |Ellipsis|
    ensures |snippet| <= SnippetLimit ==> Displayed(snippet) == snippet
    ensures |snippet| > SnippetLimit ==>
              && |Displayed(snippet)| == SnippetLimit + |Ellipsis|
              && Displayed(snippet)[..SnippetLimit] == snippet[..SnippetLimit]
              && Displayed(snippet)[SnippetLimit..] == Ellipsis
  {
    if |snippet| > SnippetLimit {
      assert Displayed(snippet) == snippet[..SnippetLimit] + Ellipsis;
    }
  }

  /** The home screen's preview: the user's own last message is marked as
      theirs, and with no message the prompt to start a conversation (short
      enough never to be cut) is shown. */
  lemma PreviewOfUserData(d: UserData)
    ensures LastMessage(d).None? ==> Displayed(Snippet(LastMessage(d))) == NoMessagePrompt
    ensures LastMessage(d).Some? && LastMessage(d).value.sender == UserSender ==>
              Displayed(Snippet(LastMessage(d)))[..|UserPrefix|] == UserPrefix
  {
    var s := Snippet(LastMessage(d));
    DisplayedShape(s);
    if LastMessage(d).Some? && LastMessage(d).value.sender == UserSender {
      assert s[..|UserPrefix|] == UserPrefix;
    }
  }
}
