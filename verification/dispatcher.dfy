/** The two user actions of the page. Each is a pure step from the chat
    history, the (possibly absent) model handle, the user's input and the
    outcome of the model call to the new history, the signal shown to the
    user and the request sent to the model (absent when none was sent).
    The model call itself is foreign: its outcome is a parameter, and it
    is consulted only on the paths where the program makes the call. */
module Dispatcher {
  import opened Wrappers
  import opened Client
  import opened Prompts

  // ---------------------------------------------------------------------
  // Chat history
  // ---------------------------------------------------------------------

  datatype Role = User | Assistant

  /** One `(role, message)` entry of the chat history. */
  datatype Turn = Turn(role: Role, text: string)

  /** The history kept across reruns: `None` until the first pass creates
      it. Creating it only when it is missing means an existing history
      is never cleared. */
  function InitHistory(stored: Option<seq<Turn>>): (h: seq<Turn>)
    ensures stored.Some? ==> h == stored.value
    ensures stored.None? ==> |h| == 0
  {
    match stored
    case Some(existing) => existing
    case None => []
  }

  /** Every assistant entry directly answers the user entry before it. */
  predicate Alternates(h: seq<Turn>) {
    forall i :: 0 <= i < |h| && h[i].role == Assistant ==> 0 < i && h[i - 1].role == User
  }

  /** The messages of one role, in history order. */
  function TextsOf(h: seq<Turn>, role: Role): (r: seq<string>)
    ensures |r| <= |h|
  {
    if |h| == 0 then []
    else TextsOf(h[..|h| - 1], role) + (if h[|h| - 1].role == role then [h[|h| - 1].text] else [])
  }

  // ---------------------------------------------------------------------
  // Model outcomes and signals
  // ---------------------------------------------------------------------

  /** What the model call did: returned a response text, or raised. */
  datatype Outcome = Ok(text: string) | Err(cause: string)

  /** What the page shows for one action. */
  datatype Signal =
    | NoAction                  // the action was not triggered
    | Rendered(text: string)    // the response was displayed
    | Warning(message: string)  // no handle: asked to configure the key
    | Error(message: string)    // the model call raised

  const RecommendWarning: string := "Please configure your API key to start getting recommendations."
  const ChatWarning: string := "Please configure your API key to start chatting."
  const GenerationErrorPrefix: string := "An error occurred while generating the response: "

  datatype Step = Step(history: seq<Turn>, signal: Signal, request: Option<string>)

  // ---------------------------------------------------------------------
  // Actions
  // ---------------------------------------------------------------------

  /** The recommendation button. A request is sent only when a handle is
      present; the reply is shown or the failure reported, and in every
      case the chat history is left exactly as it was. */
  function Recommend(history: seq<Turn>, handle: Option<Handle>, selection: Selection, reply: Outcome): (r: Step)
    ensures r.history == history
    ensures r.request.Some? <==> handle.Some?
    ensures r.request.Some? ==> UserTextOf(Persona, r.request.value) == Some(RecommendationText(selection))
    ensures handle.None? ==> r.signal == Warning(RecommendWarning)
    ensures r.signal.Rendered? <==> handle.Some? && reply.Ok?
    ensures r.signal.Rendered? ==> r.signal.text == reply.text
    ensures r.signal.Error? <==> handle.Some? && reply.Err?
    ensures r.signal.Error? ==> r.signal.message == GenerationErrorPrefix + reply.cause
  {
    var request := Prompt(Persona, RecommendationText(selection));
    PromptRoundTrip(Persona, RecommendationText(selection), request);
    match handle
    case None => Step(history, Warning(RecommendWarning), None)
    case Some(_) =>
      match reply
      case Ok(text) => Step(history, Rendered(text), Some(request))
      case Err(cause) => Step(history, Error(GenerationErrorPrefix + cause), Some(request))
  }

  /** The chat box. An empty input is no action. Otherwise the user entry
      is appended first, whether or not a handle exists; with a handle the
      input alone (no earlier turns) is sent after the persona, and only a
      successful reply appends an assistant entry. */
  function Chat(history: seq<Turn>, handle: Option<Handle>, input: string, reply: Outcome): (r: Step)
    ensures input == "" ==> r == Step(history, NoAction, None)
    ensures history <= r.history
    ensures input != "" ==> |r.history| > |history| && r.history[|history|] == Turn(User, input)
    ensures |r.history| == |history| + (if input == "" then 0 else if handle.Some? && reply.Ok? then 2 else 1)
    ensures |r.history| == |history| + 2 ==> r.history[|history| + 1] == Turn(Assistant, reply.text)
    ensures r.request.Some? <==> input != "" && handle.Some?
    ensures r.request.Some? ==> UserTextOf(Persona, r.request.value) == Some(input)
    ensures input != "" && handle.None? ==> r.signal == Warning(ChatWarning)
    ensures r.signal.Rendered? <==> input != "" && handle.Some? && reply.Ok?
    ensures r.signal.Rendered? ==> r.signal.text == reply.text
    ensures r.signal.Error? <==> input != "" && handle.Some? && reply.Err?
    ensures r.signal.Error? ==> r.signal.message == GenerationErrorPrefix + reply.cause
  {
    if input == "" then Step(history, NoAction, None)
    else
      var withUser := history + [Turn(User, input)];
      var request := Prompt(Persona, input);
      PromptRoundTrip(Persona, input, request);
      match handle
      case None => Step(withUser, Warning(ChatWarning), None)
      case Some(_) =>
        match reply
        case Ok(text) => Step(withUser + [Turn(Assistant, text)], Rendered(text), Some(request))
        case Err(cause) => Step(withUser, Error(GenerationErrorPrefix + cause), Some(request))
  }

  // ---------------------------------------------------------------------
  // Properties relating several steps
  // ---------------------------------------------------------------------

  /** The request the chat box sends depends only on the persona and the
      current input, never on earlier turns. */
  lemma ChatRequestIgnoresHistory(h1: seq<Turn>, h2: seq<Turn>, handle: Option<Handle>, input: string, reply: Outcome)
    ensures Chat(h1, handle, input, reply).request == Chat(h2, handle, input, reply).request
    ensures Chat(h1, handle, input, reply).signal == Chat(h2, handle, input, reply).signal
  {
  }

  /** A chat step keeps every assistant entry paired with the user entry
      before it. */
  lemma ChatKeepsAlternation(history: seq<Turn>, handle: Option<Handle>, input: string, reply: Outcome)
    requires Alternates(history)
    ensures Alternates(Chat(history, handle, input, reply).history)
  {
  }

  /** The user messages recorded by a chat step are the earlier ones plus
      the input, and the assistant messages gain exactly the reply text
      when (and only when) the reply was shown. */
  lemma ChatTexts(history: seq<Turn>, handle: Option<Handle>, input: string, reply: Outcome)
    ensures TextsOf(Chat(history, handle, input, reply).history, User)
         == TextsOf(history, User) + (if input == "" then [] else [input])
    ensures TextsOf(Chat(history, handle, input, reply).history, Assistant)
         == TextsOf(history, Assistant) + (if input != "" && handle.Some? && reply.Ok? then [reply.text] else [])
  {
  }
}
