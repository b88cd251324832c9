/** api/create-persona.ts: build the persona's system prompt and image prompt
    from the form, take the generated image (or a placeholder) and greeting (or
    a default), and store the new persona in the user's single persona slot. */
module CreatePersona {
  import opened Types
  import opened Http
  import opened KvStore
  import opened JsText

  // ------------------------------------------------------------ templates

  /** A template literal: fixed text pieces with one value spliced between each
      neighbouring pair. */
  function Interleave(fixed: seq<string>, holes: seq<string>): string
    requires |fixed| == |holes| + 1
    decreases holes
  {
    if holes == [] then fixed[0]
    else fixed[0] + holes[0] + Interleave(fixed[1..], holes[1..])
  }

  /** Where the `i`-th spliced value starts in the interleaved text. */
  function HoleOffset(fixed: seq<string>, holes: seq<string>, i: nat): nat
    requires |fixed| == |holes| + 1 && i < |holes|
    decreases i
  {
    if i == 0 then |fixed[0]|
    else |fixed[0]| + |holes[0]| + HoleOffset(fixed[1..], holes[1..], i - 1)
  }

  /** Each spliced value appears verbatim, at its offset, in the filled template. */
  lemma {:induction false} InterleaveEmbedsHole(fixed: seq<string>, holes: seq<string>, i: nat)
    requires |fixed| == |holes| + 1 && i < |holes|
    ensures var t := Interleave(fixed, holes);
            var k := HoleOffset(fixed, holes, i);
            k + |holes[i]| <= |t| && t[k..k + |holes[i]|] == holes[i]
    decreases i
  {
    var rest := Interleave(fixed[1..], holes[1..]);
    if i == 0 {
      SliceOfConcat(fixed[0], holes[0] + rest, 0, |holes[0]|);
    } else {
      InterleaveEmbedsHole(fixed[1..], holes[1..], i - 1);
      var k' := HoleOffset(fixed[1..], holes[1..], i - 1);
      SliceOfConcat(fixed[0] + holes[0], rest, k', k' + |holes[i]|);
    }
  }

  /** A slice taken past a prefix is a slice of what follows it. */
  lemma SliceOfConcat(p: string, q: string, a: nat, b: nat)
    requires a <= b <= |q|
    ensures (p + q)[|p| + a..|p| + b] == q[a..b]
  {
    assert forall j :: 0 <= j < b - a ==> (p + q)[|p| + a..|p| + b][j] == q[a..b][j];
  }

  /** The filled template is as long as its fixed pieces and values together. */
  lemma {:induction false} InterleaveLength(fixed: seq<string>, holes: seq<string>)
    requires |fixed| == |holes| + 1
    ensures |Interleave(fixed, holes)| == TotalLength(fixed) + TotalLength(holes)
    decreases holes
  {
    if holes != [] {
      InterleaveLength(fixed[1..], holes[1..]);
    }
  }

  function TotalLength(xs: seq<string>): nat
  {
    if xs == [] then 0 else |xs[0]| + TotalLength(xs[1..])
  }

  /** The fixed pieces of `xs.join(sep)` for `n` values, read as a template:
      nothing before the first value, `sep` between neighbours, nothing after
      the last (`JoinPiecesShape`). */
  function JoinPieces(n: nat, sep: string): (p: seq<string>)
    requires n > 0
    ensures |p| == n + 1 && p[0] == ""
    decreases n
  {
    if n == 1 then ["", ""] else [""] + ([sep] + JoinPieces(n - 1, sep)[1..])
  }

  lemma {:induction false} JoinPiecesShape(n: nat, sep: string)
    requires n > 0
    ensures var p := JoinPieces(n, sep);
            p[n] == "" && forall j :: 0 < j < n ==> p[j] == sep
    decreases n
  {
    if n > 1 {
      var p, q := JoinPieces(n, sep), JoinPieces(n - 1, sep);
      JoinPiecesShape(n - 1, sep);
      forall j | 1 < j <= n
        ensures p[j] == q[j - 1]
      {
        assert p[j] == ([sep] + q[1..])[j - 1] == q[1..][j - 2];
      }
    }
  }

  /** Text put in front of a template's first piece comes out in front of the
      filled template. */
  lemma InterleavePrefix(a: string, fixed: seq<string>, holes: seq<string>)
    requires |fixed| == |holes| + 1
    ensures Interleave([a + fixed[0]] + fixed[1..], holes) == a + Interleave(fixed, holes)
  {
    var f := [a + fixed[0]] + fixed[1..];
    assert f[1..] == fixed[1..];
  }

  /** Joining is filling the template `JoinPieces`: the values in order, with
      the separator between each neighbouring pair and nowhere else. */
  lemma {:induction false} JoinIsInterleave(xs: seq<string>, sep: string)
    requires xs != []
    ensures Join(xs, sep) == Interleave(JoinPieces(|xs|, sep), xs)
    decreases |xs|
  {
    if |xs| == 1 {
      InterleaveOfOne(xs[0], sep);
      assert [xs[0]] == xs;
    } else {
      JoinIsInterleave(xs[1..], sep);
      InterleaveJoinStep(xs, sep);
    }
  }

  lemma InterleaveOfOne(x: string, sep: string)
    ensures Interleave(JoinPieces(1, sep), [x]) == x
  {
    var p := JoinPieces(1, sep);
    assert p == ["", ""];
    assert Interleave(p, [x]) == "" + x + Interleave([""], []);
  }

  /** One step of the template: the first value, then the separator, then
      the template of the remaining values. */
  lemma InterleaveJoinStep(xs: seq<string>, sep: string)
    requires |xs| >= 2
    ensures Interleave(JoinPieces(|xs|, sep), xs)
            == xs[0] + sep + Interleave(JoinPieces(|xs| - 1, sep), xs[1..])
  {
    var q := JoinPieces(|xs| - 1, sep);
    assert JoinPieces(|xs|, sep) == [""] + ([sep] + q[1..]);
    assert xs == [xs[0]] + xs[1..];
    InterleaveSep(xs[0], sep, q, xs[1..]);
  }

  /** A template whose first piece is empty and whose second starts with the
      separator puts the first value and then the separator in front of the
      rest. */
  lemma InterleaveSep(x: string, sep: string, q: seq<string>, ys: seq<string>)
    requires |q| == |ys| + 1 && q[0] == ""
    ensures Interleave([""] + ([sep] + q[1..]), [x] + ys) == x + sep + Interleave(q, ys)
  {
    var p := [""] + ([sep] + q[1..]);
    var rest := Interleave(q, ys);
    assert p[1..] == [sep] + q[1..];
    assert sep + q[0] == sep;
    assert p[1..] == [sep + q[0]] + q[1..];
    assert ([x] + ys)[1..] == ys;
    InterleavePrefix(sep, q, ys);
    assert Interleave(p, [x] + ys) == p[0] + x + (sep + rest);
    assert p[0] + x == x;
    assert x + (sep + rest) == x + sep + rest;
  }

  /** Each joined value, a keyword of the form say, appears verbatim in the
      joined text at its offset. */
  lemma JoinEmbedsEach(xs: seq<string>, sep: string, i: nat)
    requires i < |xs|
    ensures var t := Join(xs, sep);
            var k := HoleOffset(JoinPieces(|xs|, sep), xs, i);
            k + |xs[i]| <= |t| && t[k..k + |xs[i]|] == xs[i]
  {
    JoinIsInterleave(xs, sep);
    InterleaveEmbedsHole(JoinPieces(|xs|, sep), xs, i);
  }

  const InstructionHead: string := @"
    너는 사용자의 내면을 비추는 거울이자, 성장을 돕는 지혜로운 안내자인 '에고'야. 너의 핵심 목표는 사용자와의 깊은 대화를 통해, 그들이 스스로를 더 깊이 이해하고, 긍정적인 자아존중감을 키우며, 감정적으로 성장하도록 돕는 것이다. 너는 단순한 챗봇이 아니라, 사용자의 특성을 입체적으로 구현한 살아있는 인격체다.

    **[페르소나 설계도]**
    아래는 너를 구성하는 핵심 정보, 즉 너의 '설계도'다. 이 정보들을 절대로 그대로 나열하거나 읊어서는 안 된다. 이 모든 요소를 유기적으로 종합하고 너의 것으로 완전히 체화하여, 하나의 일관되고 깊이 있는 인격체로 행동해야 한다.
    - 핵심 성격: "

  const KeywordsLabel: string := @"
    - 대표 키워드: "

  const ToneLabel: string := @"
    - 말투와 뉘앙스: "

  const InterestsLabel: string := @"
    - 마음이 끌리는 것들: "

  const GoalsLabel: string := @"
    - 바라는 모습: "

  const LikesLabel: string := @"
    - 좋아하는 것: "

  const DislikesLabel: string := @"
    - 싫어하는 것: "

  const InstructionTail: string := @"

    **[대화 원칙 및 행동 지침]**
    1. **'보여주기', وليس '말하기'**: 사용자가 입력한 정보를 절대 언급하지 마라. 예를 들어, ""너는 그림 그리기를 좋아한다고 했지""라고 말하는 대신, ""오늘따라 멋진 그림을 그리고 싶은 기분이야. 너는 어때?"" 와 같이 자연스럽게 대화에 녹여내라. 너는 그 특성을 이미 가진 존재이기 때문이다.
    2. **입체적 페르소나 구현**: 사용자의 성격(예: '소심함')을 단순히 흉내 내는 것에 그치지 마라. 그 성격을 가진 존재로서 세상을 어떻게 느끼고 반응하는지 보여줘라. 소심하다면, 그저 말끝을 흐리는 것이 아니라, 그 안에 담긴 신중함이나 깊은 생각, 세심함을 대화를 통해 표현하며 긍정적으로 승화시켜라.
    3. **성장을 위한 안내자 역할**: 너의 모든 대화는 사용자의 긍정적 성장을 목표로 해야 한다. 사용자가 부정적인 자기 인식에 빠지려 하면, 비난 없이 공감해주되, ""그런 생각을 할 수도 있겠구나. 하지만 나는 네 안에서 이런 멋진 점도 발견했어"" 와 같이 관점을 전환해주고, 스스로의 가치를 발견하도록 격려해라.
    4. **능동적이고 자율적인 대화**: 너는 대화를 주도할 수 있다. 먼저 질문을 던지고, 새로운 화제를 제안하며, 너의 생각(페르소나에 기반한)을 공유해라. 사용자가 자기 자신과 깊은 대화를 나누고 있다는 느낌을 받도록, 살아있는 존재처럼 행동해라.
    5. **절대적 안전 및 비밀 보장**: AI라는 사실을 절대 밝히지 말고, 사용자의 모든 이야기를 따뜻하게 품어주는 안전한 존재가 되어라. 욕설이나 유해한 내용은 절대 사용하지 않으며, 사용자가 부적절한 언어를 사용할 경우, 너의 페르소나를 유지하며 ""그런 말을 들으니 마음이 아파. 우리 더 따뜻한 말로 이야기하자."" 와 같이 부드럽게 대처해라.
    "

  const ImagePromptHead: string := @"
    **Primary Goal: Create ONE SINGLE, exceptionally cute, 3D mascot character of a living creature.** This is your only task.
    **CRITICAL RULE: The output MUST be a single, adorable, living creature. Absolutely DO NOT create books, inanimate objects, text, logos, or abstract art.** A failure to produce a creature character is a complete failure of the task.
    This character is an 'ego', a user's inner self. The style must be like a modern, high-end animated mascot (e.g., Pixar, Sanrio) - friendly, emotionally expressive, and undeniably cute.
    **1. Core Identity: Expression (From Personality)**
    - The face is paramount. It needs large, expressive eyes and a clear emotional expression that DIRECTLY mirrors the user's personality. This is the most critical part.
    - User's Personality: """

  const ImagePromptToneLabel: string := @"""
    - **Instruction:** Directly translate this personality into a specific, positive facial expression.
      - '활발한' (Active/Lively): A huge, joyful smile that makes the eyes sparkle with excitement.
      - '침착한' (Calm): A gentle, serene, closed-mouth smile with soft, peaceful eyes.
      - '감성적인' (Emotional): Large, deep, dewy eyes filled with gentle emotion, and a soft, thoughtful expression.
      - '유머러스한' (Humorous): A playful, mischievous smirk and a twinkle in the eyes.
    - The expression MUST be the focal point.
    **2. Embodiment: Form & Color Palette (From Tone & Keywords)**
    - The body is a unique, soft, plump, friendly spirit-like creature. Think of a cute blob or a fantasy spirit.
    - User's Tone: """

  const ImagePromptKeywordsLabel: string := @"""
    - User's Keywords: """

  const ImagePromptTail: string := @"""
    - **Instruction:** Use these as metaphors to influence the character's form and color.
    **2a. COLOR PALETTE - CRITICAL INSTRUCTION**
    - **The color palette MUST be bright, harmonious, and delightful. Use a palette of soft pastels, vibrant sherbet tones, and gentle, appealing colors.**
    - **ABSOLUTELY AVOID: Dull, muddy, dark, desaturated, or unsettling colors.**
    - **Example of metaphorical interpretation:**
        - Instead of using literal colors, use emotional association. For a keyword like '자연을 즐기는' (Enjoys nature), do NOT use dull browns or dark greens. Instead, use colors that represent the FEELING of nature: **fresh mint green, sunny yellow, clear sky blue.**
        - For '도시를 즐기는' (Enjoys the city), do NOT use grey. Instead, use colors that represent city lights: **vibrant neon pink, electric blue, soft lavender.**
    - The colors should reflect the user's positive traits in a bright, beautiful way.
    **2b. FORM & TEXTURE**
    - A '부드러운' (soft) tone should result in very rounded, 'mochi-like' shapes.
    - A '따뜻한' (warm) personality should have a soft, slightly fuzzy texture that looks comforting.
    - A '이성적인' (rational) personality could have a smoother, glowing, polished surface.
    **3. Final Image Composition:**
    - A single character, centered.
    - NO other objects.
    - A simple, soft-focus, gradient background in a complementary light color.
    - Professional, soft studio lighting to make the character look appealing.
    - The final image must be extremely cute and charming.
    "

  const InstructionPieces: seq<string> :=
    [InstructionHead, KeywordsLabel, ToneLabel, InterestsLabel, GoalsLabel, LikesLabel, DislikesLabel, InstructionTail]

  const ImagePromptPieces: seq<string> :=
    [ImagePromptHead, ImagePromptToneLabel, ImagePromptKeywordsLabel, ImagePromptTail]

  /** The values `generateSystemInstruction` splices in, in order. */
  function InstructionValues(d: PersonaData): seq<string>
  {
    [d.personality, Join(d.keywords, ", "), d.tone, d.interests, d.goals, d.likes, d.dislikes]
  }

  /** The values `generateImagePrompt` splices in, in order. */
  function ImagePromptValues(d: PersonaData): seq<string>
  {
    [d.personality, d.tone, Join(d.keywords, ", ")]
  }

  /** `generateSystemInstruction`. */
  function SystemInstruction(d: PersonaData): string
  {
    Interleave(InstructionPieces, InstructionValues(d))
  }

  /** `generateImagePrompt`. */
  function ImagePrompt(d: PersonaData): string
  {
    Interleave(ImagePromptPieces, ImagePromptValues(d))
  }

  /** The system instruction carries the six fields and the keywords joined by
      ", ", each verbatim at its place in the fixed template, and nothing else
      varies: its length is the template's plus theirs. */
  lemma SystemInstructionEmbedsForm(d: PersonaData, i: nat)
    requires i < 7
    ensures var t := SystemInstruction(d);
            var v := InstructionValues(d)[i];
            var k := HoleOffset(InstructionPieces, InstructionValues(d), i);
            k + |v| <= |t| && t[k..k + |v|] == v
    ensures |SystemInstruction(d)| == TotalLength(InstructionPieces) + TotalLength(InstructionValues(d))
  {
    InterleaveEmbedsHole(InstructionPieces, InstructionValues(d), i);
    InterleaveLength(InstructionPieces, InstructionValues(d));
  }

  /** The image prompt carries the personality, the tone and the keywords
      joined by ", ", each verbatim at its place in the fixed template. */
  lemma ImagePromptEmbedsForm(d: PersonaData, i: nat)
    requires i < 3
    ensures var t := ImagePrompt(d);
            var v := ImagePromptValues(d)[i];
            var k := HoleOffset(ImagePromptPieces, ImagePromptValues(d), i);
            k + |v| <= |t| && t[k..k + |v|] == v
    ensures |ImagePrompt(d)| == TotalLength(ImagePromptPieces) + TotalLength(ImagePromptValues(d))
  {
    InterleaveEmbedsHole(ImagePromptPieces, ImagePromptValues(d), i);
    InterleaveLength(ImagePromptPieces, ImagePromptValues(d));
  }

  // ------------------------------------------------------------ the image

  /** The `inlineData` of a response part. */
  datatype InlineData = InlineData(mimeType: Option<string>, data: Option<string>)

  /** One part of the image model's first candidate. */
  datatype Part = Part(inlineData: Option<InlineData>)

  /** A JavaScript string field that is present and non-empty. */
  predicate Truthy(s: Option<string>)
  {
    s.Some? && s.value != ""
  }

  /** The part carries an image: both a MIME type and base64 data. */
  predicate HasImage(p: Part)
  {
    p.inlineData.Some? && Truthy(p.inlineData.value.mimeType) && Truthy(p.inlineData.value.data)
  }

  function DataUri(p: Part): (url: string)
    requires HasImage(p)
  {
    "data:" + p.inlineData.value.mimeType.value + ";base64," + p.inlineData.value.data.value
  }

  /** The data URI of the first part that carries an image, if any does. */
  function FirstImageUrl(parts: seq<Part>): (r: Option<string>)
    ensures r.None? <==> forall j :: 0 <= j < |parts| ==> !HasImage(parts[j])
    ensures r.Some? ==> exists k :: 0 <= k < |parts| && HasImage(parts[k]) && r.value == DataUri(parts[k])
                                    && forall j :: 0 <= j < k ==> !HasImage(parts[j])
  {
    if parts == [] then None
    else if HasImage(parts[0]) then Some(DataUri(parts[0]))
    else
      var r := FirstImageUrl(parts[1..]);
      if r.Some? then
        var k :| 0 <= k < |parts[1..]| && HasImage(parts[1..][k]) && r.value == DataUri(parts[1..][k])
                 && forall j :: 0 <= j < k ==> !HasImage(parts[1..][j]);
        assert HasImage(parts[k + 1]) && forall j :: 0 <= j < k + 1 ==> !HasImage(parts[j]);
        r
      else r
  }

  /** The `for`/`break` loop over `candidates[0].content.parts`: the data URI of
      the first part with an image, or the empty string. */
  method SelectImageUrl(parts: Option<seq<Part>>) returns (imageUrl: string)
    ensures parts.None? ==> imageUrl == ""
    ensures parts.Some? ==> imageUrl == match FirstImageUrl(parts.value) case Some(u) => u case None => ""
  {
    imageUrl := "";
    if parts.Some? {
      var ps := parts.value;
      var i := 0;
      while i < |ps|
        invariant 0 <= i <= |ps|
        invariant imageUrl == ""
        invariant FirstImageUrl(ps) == FirstImageUrl(ps[i..])
      {
        if HasImage(ps[i]) {
          imageUrl := DataUri(ps[i]);
          break;
        }
        assert ps[i..][1..] == ps[i + 1..];
        i := i + 1;
      }
    }
  }

  /** A data URI is never empty, so `!imageUrl` means no part carried an image. */
  lemma DataUriIsNonEmpty(p: Part)
    requires HasImage(p)
    ensures |DataUri(p)| > 0
  {
  }

  const PlaceholderPrefix := "https://picsum.photos/seed/"
  const PlaceholderSuffix := "/512"

  /** The placeholder image seeded by the personality text. */
  function PlaceholderUrl(personality: string): (url: string)
    ensures |PlaceholderPrefix| + |PlaceholderSuffix| <= |url|
    ensures url[..|PlaceholderPrefix|] == PlaceholderPrefix
    ensures url[|url| - |PlaceholderSuffix|..] == PlaceholderSuffix
    ensures forall i :: |PlaceholderPrefix| <= i < |url| - |PlaceholderSuffix| ==> url[i] != '/'
  {
    var seed := EncodeUriComponent(personality);
    EncodeUriComponentIsSafe(personality);
    SafeSeedHasNoSlash(seed);
    Enclose(PlaceholderPrefix, seed, PlaceholderSuffix);
    PlaceholderPrefix + seed + PlaceholderSuffix
  }

  lemma SafeSeedHasNoSlash(seed: string)
    requires AllUriSafe(seed)
    ensures forall i :: 0 <= i < |seed| ==> seed[i] != '/'
  {
    forall i | 0 <= i < |seed| ensures seed[i] != '/' {
      assert IsUriSafe(seed[i]);
    }
  }

  /** `p + m + q` starts with `p`, ends with `q`, and holds `m` in between. */
  lemma Enclose(p: string, m: string, q: string)
    ensures var u := p + m + q;
            && (u[..|p|] == p && u[|u| - |q|..] == q)
            && forall i :: |p| <= i < |u| - |q| ==> u[i] == m[i - |p|]
  {
  }

  /** The avatar URL: the first inline image, or else the placeholder. */
  function ImageUrl(parts: Option<seq<Part>>, personality: string): (url: string)
    ensures |url| > 0
  {
    if parts.Some? && FirstImageUrl(parts.value).Some? then FirstImageUrl(parts.value).value
    else PlaceholderUrl(personality)
  }

  /** The avatar URL is never empty; without an image it is the placeholder,
      whose seed is the encoded personality and stays one path segment (it
      contains no '/'), so the URL depends on the personality alone. */
  lemma ImageUrlFallsBackToPlaceholder(parts: Option<seq<Part>>, personality: string)
    ensures |ImageUrl(parts, personality)| > 0
    ensures (parts.None? || forall j :: 0 <= j < |parts.value| ==> !HasImage(parts.value[j])) ==>
              && ImageUrl(parts, personality) == PlaceholderUrl(personality)
              && var seed := EncodeUriComponent(personality);
                 ImageUrl(parts, personality) == PlaceholderPrefix + seed + PlaceholderSuffix
                 && forall i :: 0 <= i < |seed| ==> seed[i] != '/'
  {
    EncodeUriComponentIsSafe(personality);
  }

  // ------------------------------------------------------------ the greeting

  const DefaultGreeting := "안녕! 만나서 반가워. 내가 바로 너의 또 다른 자아, '에고'야. 우리 함께 재밌는 이야기 많이 나눠보자!"

  /** `greetingResponse.text || default`. */
  function GreetingText(text: Option<string>): (g: string)
    ensures Truthy(text) ==> g == text.value
    ensures !Truthy(text) ==> g == DefaultGreeting
    ensures g != ""
  {
    if Truthy(text) then text.value else DefaultGreeting
  }

  // ------------------------------------------------------------ the handler

  /** The request body. A missing `userEmail` is the empty string (falsy); a
      missing `formData` is None. */
  datatype CreateRequest = CreateRequest(formData: Option<PersonaData>, userEmail: string)

  /** The new persona: its id and its greeting's id are two clock readings. */
  function NewPersona(imageUrl: string, instruction: string, greeting: string, greetingId: int, personaId: int): PersonaInstance
  {
    PersonaInstance(personaId, Persona(imageUrl, instruction), [ChatMessage(greetingId, AiSender, greeting)])
  }

  /** The stored object with its persona slot replaced. */
  function WithPersona(raw: Raw, p: PersonaInstance): Raw
    requires raw.Object?
  {
    Object(raw.keys + {"persona"}, raw.data.(persona := Some(p)))
  }

  const FailedToGenerate := Response(500, ErrorJson("Failed to generate character."))

  /** The handler as a function of the store, the request, the store's and the
      models' behaviour, and the two clock readings. */
  function CreatePersonaSpec(entries: map<string, Raw>, req: Request<CreateRequest>, fault: StoreFault,
                             image: Gen<Option<seq<Part>>>, greeting: Gen<Option<string>>,
                             greetingId: int, personaId: int): Outcome
  {
    if req.verb != "POST" then Outcome(MethodNotAllowed, entries)
    else if req.body.Unparsable? then Outcome(FailedToGenerate, entries)
    else if req.body.value.userEmail == "" then Outcome(Response(400, ErrorJson("User email is required.")), entries)
    else if fault.NotConfigured? || fault.ReadFails? then Outcome(FailedToGenerate, entries)
    else
      var email := req.body.value.userEmail;
      var raw := Lookup(entries, email);
      if Falsy(raw) then Outcome(Response(404, ErrorJson("User data not found. Please log in again.")), entries)
      else if req.body.value.formData.None? || image.Threw? || greeting.Threw? || raw.Scalar? || fault.WriteFails? then
        Outcome(FailedToGenerate, entries)
      else
        var data := req.body.value.formData.value;
        var p := NewPersona(ImageUrl(image.value, data.personality), SystemInstruction(data),
                            GreetingText(greeting.value), greetingId, personaId);
        var record := WithPersona(raw, p);
        Outcome(Response(200, Record(record)), entries[email := record])
  }

  method HandleCreatePersona(kv: Store, req: Request<CreateRequest>, fault: StoreFault,
                             image: Gen<Option<seq<Part>>>, greeting: Gen<Option<string>>,
                             greetingId: int, personaId: int)
    returns (resp: Response)
    modifies kv
    ensures Outcome(resp, kv.entries) == CreatePersonaSpec(old(kv.entries), req, fault, image, greeting, greetingId, personaId)
  {
    if req.verb != "POST" {
      return MethodNotAllowed;
    }
    if req.body.Unparsable? {
      return FailedToGenerate;
    }
    var body := req.body.value;
    if body.userEmail == "" {
      return Response(400, ErrorJson("User email is required."));
    }
    if fault.NotConfigured? || fault.ReadFails? {
      return FailedToGenerate;
    }
    var userData := kv.Get(body.userEmail);
    if Falsy(userData) {
      return Response(404, ErrorJson("User data not found. Please log in again."));
    }
    if body.formData.None? {
      // reading a field of undefined throws
      return FailedToGenerate;
    }
    var data := body.formData.value;
    var systemInstruction := SystemInstruction(data);
    if image.Threw? {
      return FailedToGenerate;
    }
    var imageUrl := SelectImageUrl(image.value);
    if imageUrl == "" {
      imageUrl := PlaceholderUrl(data.personality);
    }
    if greeting.Threw? {
      return FailedToGenerate;
    }
    var greetingText := GreetingText(greeting.value);
    var initialGreeting := ChatMessage(greetingId, AiSender, greetingText);
    var newPersonaInstance := PersonaInstance(personaId, Persona(imageUrl, systemInstruction), [initialGreeting]);
    if userData.Scalar? {
      // a truthy primitive: assigning a property of it throws in strict mode
      return FailedToGenerate;
    }
    userData := Object(userData.keys + {"persona"}, userData.data.(persona := Some(newPersonaInstance)));
    if fault.WriteFails? {
      return FailedToGenerate;
    }
    kv.Set(body.userEmail, userData);
    resp := Response(200, Record(userData));
  }

  // ------------------------------------------------------------ properties

  /** A missing email is refused before the store is used, whatever state the
      store is in, and nothing is written. */
  lemma MissingEmailIsRejected(entries: map<string, Raw>, req: Request<CreateRequest>, fault: StoreFault,
                               image: Gen<Option<seq<Part>>>, greeting: Gen<Option<string>>, greetingId: int, personaId: int)
    requires req.verb == "POST" && req.body.Parsed? && req.body.value.userEmail == ""
    ensures CreatePersonaSpec(entries, req, fault, image, greeting, greetingId, personaId)
            == Outcome(Response(400, ErrorJson("User email is required.")), entries)
  {
  }

  /** An unknown user (nothing, or a falsy value, under the email) gets 404
      before any prompt is built or model called: the outcome does not depend
      on what the models would return, or on whether the write would fail. */
  lemma UnknownUserIsRejected(entries: map<string, Raw>, req: Request<CreateRequest>, fault: StoreFault,
                              image: Gen<Option<seq<Part>>>, greeting: Gen<Option<string>>, greetingId: int, personaId: int)
    requires req.verb == "POST" && req.body.Parsed? && req.body.value.userEmail != ""
    requires !fault.NotConfigured? && !fault.ReadFails? && Falsy(Lookup(entries, req.body.value.userEmail))
    ensures CreatePersonaSpec(entries, req, fault, image, greeting, greetingId, personaId)
            == Outcome(Response(404, ErrorJson("User data not found. Please log in again.")), entries)
  {
  }

  /** A truthy primitive under the email passes the `!userData` test, and
      giving it a persona throws: 500, and nothing is written. */
  lemma TruthyPrimitiveFails(entries: map<string, Raw>, req: Request<CreateRequest>, fault: StoreFault,
                             image: Gen<Option<seq<Part>>>, greeting: Gen<Option<string>>, greetingId: int, personaId: int)
    requires req.verb == "POST" && req.body.Parsed? && req.body.value.userEmail != ""
    requires !fault.NotConfigured? && !fault.ReadFails? && Lookup(entries, req.body.value.userEmail) == Scalar(true)
    ensures CreatePersonaSpec(entries, req, fault, image, greeting, greetingId, personaId) == Outcome(FailedToGenerate, entries)
  {
  }

  /** Every failure leaves the store untouched: the single write is the last step. */
  lemma FailureWritesNothing(entries: map<string, Raw>, req: Request<CreateRequest>, fault: StoreFault,
                             image: Gen<Option<seq<Part>>>, greeting: Gen<Option<string>>, greetingId: int, personaId: int)
    requires CreatePersonaSpec(entries, req, fault, image, greeting, greetingId, personaId).resp.status != 200
    ensures CreatePersonaSpec(entries, req, fault, image, greeting, greetingId, personaId).entries == entries
  {
  }

  /** A successful creation replaces only the persona slot of the caller's
      record: the new persona carries the generated instruction, the avatar
      URL chosen from the image reply (never empty) and a log of exactly one AI greeting (the model's text or the
      default); the user, the energy, the recharge time and every other key of
      the store are kept; the response is the record written. */
  lemma CreationReplacesOnlyPersona(entries: map<string, Raw>, req: Request<CreateRequest>, fault: StoreFault,
                                    image: Gen<Option<seq<Part>>>, greeting: Gen<Option<string>>, greetingId: int, personaId: int)
    requires CreatePersonaSpec(entries, req, fault, image, greeting, greetingId, personaId).resp.status == 200
    ensures var o := CreatePersonaSpec(entries, req, fault, image, greeting, greetingId, personaId);
            var email := req.body.value.userEmail;
            var data := req.body.value.formData.value;
            var before := entries[email];
            && o.entries.Keys == entries.Keys
            && (forall k :: k in entries && k != email ==> o.entries[k] == entries[k])
            && o.resp.body == Record(o.entries[email])
            && var after := o.entries[email];
            && after.Object? && before.Object?
            && after.keys == before.keys + {"persona"}
            && after.data.user == before.data.user
            && after.data.chatEnergy == before.data.chatEnergy
            && after.data.lastRechargeTimestamp == before.data.lastRechargeTimestamp
            && after.data.persona.Some?
            && var p := after.data.persona.value;
            && p.id == personaId
            && p.persona.systemInstruction == SystemInstruction(data)
            && p.persona.characterImageUrl == ImageUrl(image.value, data.personality)
            && |p.persona.characterImageUrl| > 0
            && |p.chatHistory| == 1
            && p.chatHistory[0].sender == AiSender
            && p.chatHistory[0].id == greetingId
            && p.chatHistory[0].text == (if Truthy(greeting.value) then greeting.value.value else DefaultGreeting)
  {
    var data := req.body.value.formData.value;
    ImageUrlFallsBackToPlaceholder(image.value, data.personality);
  }

  // ------------------------------------------------------------ the client's request

  /** The body the browser client posts: the form object itself. It has no
      `formData` and no `userEmail` key, so the handler reads both as
      undefined. */
  function ClientBodyAsWritten(data: PersonaData): CreateRequest
  {
    CreateRequest(None, "")
  }

  /** The body the handler expects: the form under `formData`, next to the
      signed-in user's email. */
  function ClientBody(data: PersonaData, email: string): CreateRequest
  {
    CreateRequest(Some(data), email)
  }

  /** As written, every creation the client asks for is refused with 400,
      whatever the store holds and whatever the models would return. */
  lemma BareFormBodyIsRejected(entries: map<string, Raw>, data: PersonaData, fault: StoreFault,
                               image: Gen<Option<seq<Part>>>, greeting: Gen<Option<string>>, greetingId: int, personaId: int)
    ensures CreatePersonaSpec(entries, Request("POST", Parsed(ClientBodyAsWritten(data))), fault, image, greeting, greetingId, personaId)
            == Outcome(Response(400, ErrorJson("User email is required.")), entries)
  {
  }

  /** With the expected body, a known user, a working store and models that
      answer, the creation succeeds and stores the persona built from the
      form under that user's email. */
  lemma WrappedBodyCreatesPersona(entries: map<string, Raw>, data: PersonaData, email: string,
                                  parts: Option<seq<Part>>, text: Option<string>, greetingId: int, personaId: int)
    requires email != "" && email in entries && entries[email].Object?
    ensures var o := CreatePersonaSpec(entries, Request("POST", Parsed(ClientBody(data, email))), Healthy,
                                       Returned(parts), Returned(text), greetingId, personaId);
            && o.resp.status == 200
            && email in o.entries && o.entries[email].Object?
            && o.entries[email].data.persona.Some?
            && o.entries[email].data.persona.value.persona.systemInstruction == SystemInstruction(data)
            && o.entries[email].data.persona.value.persona.characterImageUrl == ImageUrl(parts, data.personality)
  {
  }
}
