/** App.tsx: the top-level component. It holds the signed-in user, the phase
    of the app (creation, loading, chat) and the persona produced by a
    creation, and chooses the screen to show. */
module AppScreen {
  import opened Types

  const CreationFailedMessage := "페르소나 생성에 실패했어요. 잠시 후 다시 시도해주세요."

  /** The component's state variables. */
  datatype Snapshot = Snapshot(
    user: Option<User>,
    appState: AppState,
    personaData: Option<PersonaData>,
    characterImageUrl: string,
    systemInstruction: string,
    initialMessages: seq<ChatMessage>,
    error: Option<string>)

  /** How `handlePersonaCreate`'s awaits end: `createPersona` throws, or it
      returns and then `generateInitialGreeting` throws, or both return
      (`clock` is the `Date.now()` reading that becomes the greeting's id). */
  datatype CreateOutcome =
    | CreateFailed
    | GreetingFailed(imageUrl: string, instruction: string)
    | Created(imageUrl: string, instruction: string, greeting: string, clock: int)

  /** What `renderContent` returns. */
  datatype Screen =
    | LoginView
    | LoadingView
    | CreationView(error: Option<string>)
    | ChatView(characterImageUrl: string, systemInstruction: string, initialMessages: seq<ChatMessage>)

  const Initial := Snapshot(None, Creation, None, "", "", [], None)

  /** `handleRestart`: back to an empty creation form, same user. */
  function AfterRestart(s: Snapshot): (r: Snapshot)
    ensures r.user == s.user
    ensures r == Initial.(user := s.user)
  {
    Snapshot(s.user, Creation, None, "", "", [], None)
  }

  /** `handleLogout`: everything back to the initial state. */
  function AfterLogout(s: Snapshot): (r: Snapshot)
    ensures r == Initial
  {
    AfterRestart(s).(user := None)
  }

  /** The state `handlePersonaCreate` shows while its awaits are pending. */
  function Pending(s: Snapshot, data: PersonaData): Snapshot
  {
    s.(appState := Loading, personaData := Some(data), error := None)
  }

  /** The state `handlePersonaCreate` leaves once its awaits have ended. */
  function AfterCreate(s: Snapshot, data: PersonaData, outcome: CreateOutcome): (r: Snapshot)
    ensures r.user == s.user && r.personaData == Some(data)
    ensures r.appState == Chat <==> outcome.Created?
    ensures r.error.Some? <==> !outcome.Created?
  {
    var p := Pending(s, data);
    match outcome
    case CreateFailed =>
      p.(error := Some(CreationFailedMessage), appState := Creation)
    case GreetingFailed(url, instruction) =>
      p.(characterImageUrl := url, systemInstruction := instruction,
         error := Some(CreationFailedMessage), appState := Creation)
    case Created(url, instruction, greeting, clock) =>
      p.(characterImageUrl := url, systemInstruction := instruction,
         initialMessages := [ChatMessage(clock, AiSender, greeting)], appState := Chat)
  }

  /** The chat screen needs persona data, an image and an instruction; all
      three must be truthy. */
  predicate ChatIsComplete(s: Snapshot)
  {
    s.personaData.Some? && s.characterImageUrl != "" && s.systemInstruction != ""
  }

  /** `renderContent`'s choice of screen. */
  function View(s: Snapshot): (v: Screen)
    ensures v.LoginView? <==> s.user.None?
    ensures v.LoadingView? <==> s.user.Some? && s.appState == Loading
    ensures v.ChatView? <==> s.user.Some? && s.appState == Chat && ChatIsComplete(s)
    ensures v.ChatView? ==> v == ChatView(s.characterImageUrl, s.systemInstruction, s.initialMessages)
    ensures v.CreationView? ==> v.error == s.error
  {
    if s.user.None? then LoginView
    else match s.appState
      case Loading => LoadingView
      case Chat =>
        if ChatIsComplete(s) then ChatView(s.characterImageUrl, s.systemInstruction, s.initialMessages)
        else CreationView(s.error)
      case Creation => CreationView(s.error)
  }

  /** The state after `renderContent`: a chat phase without its data falls
      back to the creation phase. */
  function Rendered(s: Snapshot): (r: Snapshot)
    ensures r.appState == Chat ==> s.user.None? || ChatIsComplete(s)
    ensures r.(appState := s.appState) == s
  {
    if s.user.Some? && s.appState == Chat && !ChatIsComplete(s) then s.(appState := Creation) else s
  }

  /** Rendering again after the fallback shows the same screen and changes
      nothing more. */
  lemma RenderIsStable(s: Snapshot)
    ensures View(Rendered(s)) == View(s)
    ensures Rendered(Rendered(s)) == Rendered(s)
  {
  }

  /** A creation whose awaits both return with a non-empty image and
      instruction shows the chat screen opened by the greeting alone. */
  lemma CreatedPersonaIsShown(s: Snapshot, data: PersonaData, url: string, instruction: string, greeting: string, clock: int)
    requires s.user.Some? && url != "" && instruction != ""
    ensures View(Pending(s, data)) == LoadingView
    ensures View(AfterCreate(s, data, Created(url, instruction, greeting, clock)))
            == ChatView(url, instruction, [ChatMessage(clock, AiSender, greeting)])
  {
  }

  /** A creation that fails at either await returns to the creation form,
      which shows the failure message. */
  lemma FailedCreationShowsError(s: Snapshot, data: PersonaData, outcome: CreateOutcome)
    requires s.user.Some? && !outcome.Created?
    ensures View(AfterCreate(s, data, outcome)) == CreationView(Some(CreationFailedMessage))
  {
  }

  /** Signing out always leads to the login screen, and restarting always to an
      empty creation form for the same user. */
  lemma LogoutAndRestartViews(s: Snapshot)
    ensures View(AfterLogout(s)) == LoginView
    ensures s.user.Some? ==> View(AfterRestart(s)) == CreationView(None)
  {
  }

  class App {
    var user: Option<User>
    var appState: AppState
    var personaData: Option<PersonaData>
    var characterImageUrl: string
    var systemInstruction: string
    var initialMessages: seq<ChatMessage>
    var error: Option<string>

    function State(): Snapshot
      reads this
    {
      Snapshot(user, appState, personaData, characterImageUrl, systemInstruction, initialMessages, error)
    }

    constructor ()
      ensures State() == Initial
    {
      user, appState, personaData := None, Creation, None;
      characterImageUrl, systemInstruction, initialMessages, error := "", "", [], None;
    }

    /** `handleLoginSuccess`. */
    method LoginSuccess(loggedInUser: User)
      modifies this
      ensures State() == old(State()).(user := Some(loggedInUser))
    {
      user := Some(loggedInUser);
    }

    /** `handleLogout`. */
    method Logout()
      modifies this
      ensures State() == AfterLogout(old(State()))
    {
      user := None;
      appState := Creation;
      personaData := None;
      characterImageUrl := "";
      systemInstruction := "";
      initialMessages := [];
      error := None;
    }

    /** `handleRestart`. */
    method Restart()
      modifies this
      ensures State() == AfterRestart(old(State()))
    {
      appState := Creation;
      personaData := None;
      characterImageUrl := "";
      systemInstruction := "";
      initialMessages := [];
      error := None;
    }

    /** `handlePersonaCreate`, run to completion. */
    method PersonaCreate(data: PersonaData, outcome: CreateOutcome)
      modifies this
      ensures State() == AfterCreate(old(State()), data, outcome)
    {
      appState := Loading;
      personaData := Some(data);
      error := None;
      if outcome.CreateFailed? {
        error := Some(CreationFailedMessage);
        appState := Creation;
        return;
      }
      characterImageUrl := outcome.imageUrl;
      systemInstruction := outcome.instruction;
      if outcome.GreetingFailed? {
        error := Some(CreationFailedMessage);
        appState := Creation;
        return;
      }
      initialMessages := [ChatMessage(outcome.clock, AiSender, outcome.greeting)];
      appState := Chat;
    }

    /** `renderContent`: the screen shown, with the fallback's state change. */
    method RenderContent() returns (v: Screen)
      modifies this
      ensures v == View(old(State()))
      ensures State() == Rendered(old(State()))
    {
      if user.None? {
        return LoginView;
      }
      match appState {
        case Loading =>
          v := LoadingView;
        case Chat =>
          if personaData.Some? && characterImageUrl != "" && systemInstruction != "" {
            v := ChatView(characterImageUrl, systemInstruction, initialMessages);
          } else {
            appState := Creation;
            v := CreationView(error);
          }
        case Creation =>
          v := CreationView(error);
      }
    }
  }
}
