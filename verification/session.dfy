/** A browser session. Every user interaction re-executes the page script
    from the top: the key is configured afresh, the recommendation button
    is handled, the stored chat history is created if missing, and the
    chat box is handled. The widget values and the session state persist
    across passes, but the chat history is the only carried state the
    modelled logic reads; it is threaded through explicitly here. */
module Session {
  import opened Wrappers
  import opened Client
  import opened Prompts
  import opened Dispatcher

  /** The recommendation button in one pass: not pressed, or pressed with
      the widgets reading `selection` and the model answering `reply`. */
  datatype Click = NoClick | Clicked(selection: Selection, reply: Outcome)

  /** Everything one pass reads from outside: the sidebar key and what
      configuring with it did, the button, the submitted chat text (empty
      when nothing was submitted) and what the model answered to it. */
  datatype Interaction = Interaction(apiKey: string, config: ConfigResult, click: Click, chatInput: string, chatReply: Outcome)

  /** What one pass leaves behind and shows. */
  datatype Pass = Pass(history: seq<Turn>, config: ConfigStatus, recommendation: Signal, chat: Signal, requests: seq<string>)

  /** One execution of the page script. The button handler runs before
      the script creates the history; it never reads or writes it, so
      handing it the history the chat box will use changes nothing. */
  function Rerun(stored: Option<seq<Turn>>, i: Interaction): (r: Pass)
    ensures InitHistory(stored) <= r.history
    ensures |r.history| <= |InitHistory(stored)| + 2
    ensures i.click.NoClick? && i.chatInput == "" ==> r.history == InitHistory(stored) && r.requests == []
    ensures r.config == Configure(i.apiKey, i.config).status
    ensures r.requests
         == (if i.click.Clicked? && Configure(i.apiKey, i.config).handle.Some?
             then [Prompt(Persona, RecommendationText(i.click.selection))] else [])
          + (if i.chatInput != "" && Configure(i.apiKey, i.config).handle.Some?
             then [Prompt(Persona, i.chatInput)] else [])
    ensures i.apiKey == "" ==> r.requests == [] && r.config == NoKey
    ensures i.click.NoClick? <==> r.recommendation == NoAction
    ensures r.recommendation.Rendered?
        <==> i.click.Clicked? && Configure(i.apiKey, i.config).handle.Some? && i.click.reply.Ok?
    ensures r.recommendation.Rendered? ==> r.recommendation.text == i.click.reply.text
    ensures i.click.Clicked? && Configure(i.apiKey, i.config).handle.None? ==> r.recommendation == Warning(RecommendWarning)
    ensures r.recommendation.Error?
        <==> i.click.Clicked? && Configure(i.apiKey, i.config).handle.Some? && i.click.reply.Err?
    ensures r.recommendation.Error? ==> r.recommendation.message == GenerationErrorPrefix + i.click.reply.cause
    ensures i.chatInput == "" <==> r.chat == NoAction
    ensures r.chat.Rendered? <==> i.chatInput != "" && Configure(i.apiKey, i.config).handle.Some? && i.chatReply.Ok?
    ensures r.chat.Rendered? ==> r.chat.text == i.chatReply.text
    ensures i.chatInput != "" && Configure(i.apiKey, i.config).handle.None? ==> r.chat == Warning(ChatWarning)
    ensures r.chat.Error? <==> i.chatInput != "" && Configure(i.apiKey, i.config).handle.Some? && i.chatReply.Err?
    ensures r.chat.Error? ==> r.chat.message == GenerationErrorPrefix + i.chatReply.cause
  {
    var conf := Configure(i.apiKey, i.config);
    var h := InitHistory(stored);
    var rec := match i.click
      case NoClick => Step(h, NoAction, None)
      case Clicked(selection, reply) => Recommend(h, conf.handle, selection, reply);
    var chat := Chat(rec.history, conf.handle, i.chatInput, i.chatReply);
    assert rec.request.Some? ==> rec.request.value == Prompt(Persona, RecommendationText(i.click.selection)) by {
      if rec.request.Some? {
        PromptRoundTrip(Persona, RecommendationText(i.click.selection), rec.request.value);
      }
    }
    assert chat.request.Some? ==> chat.request.value == Prompt(Persona, i.chatInput) by {
      if chat.request.Some? {
        PromptRoundTrip(Persona, i.chatInput, chat.request.value);
      }
    }
    Pass(chat.history, conf.status, rec.signal, chat.signal, RequestList(rec.request) + RequestList(chat.request))
  }

  function RequestList(request: Option<string>): (r: seq<string>)
    ensures |r| <= 1
    ensures request.Some? ==> r == [request.value]
    ensures request.None? ==> r == []
  {
    match request
    case Some(p) => [p]
    case None => []
  }

  /** The history a pass leaves, given the history it starts from. */
  function AfterPass(h: seq<Turn>, i: Interaction): seq<Turn> {
    Chat(h, Configure(i.apiKey, i.config).handle, i.chatInput, i.chatReply).history
  }

  /** A full pass leaves exactly the history `AfterPass` computes, so `Run`
      below is the history seen across successive executions: the button
      and the configuration messages contribute nothing to it. */
  lemma RerunHistory(stored: Option<seq<Turn>>, i: Interaction)
    ensures Rerun(stored, i).history == AfterPass(InitHistory(stored), i)
  {
  }

  /** The history after a sequence of passes starting from `h`; a new
      session starts from `InitHistory(None)`, the empty history. */
  function Run(h: seq<Turn>, passes: seq<Interaction>): seq<Turn>
    decreases |passes|
  {
    if |passes| == 0 then h else Run(AfterPass(h, passes[0]), passes[1..])
  }

  /** The history after a sequence of full passes, the first of which
      finds `stored` in the session state. */
  function Reruns(stored: Option<seq<Turn>>, passes: seq<Interaction>): seq<Turn>
    decreases |passes|
  {
    if |passes| == 0 then InitHistory(stored)
    else Reruns(Some(Rerun(stored, passes[0]).history), passes[1..])
  }

  /** Folding full passes gives the same history as `Run` from the
      initialised history, so the `Run` lemmas below are about the
      history of successive executions. */
  lemma {:induction false} RerunsIsRun(stored: Option<seq<Turn>>, passes: seq<Interaction>)
    ensures Reruns(stored, passes) == Run(InitHistory(stored), passes)
    decreases |passes|
  {
    if |passes| > 0 {
      RerunHistory(stored, passes[0]);
      RerunsIsRun(Some(Rerun(stored, passes[0]).history), passes[1..]);
    }
  }

  /** The user message a pass records: its chat input, if non-empty. */
  function InputOf(i: Interaction): seq<string> {
    if i.chatInput != "" then [i.chatInput] else []
  }

  /** Whether a pass's chat input was answered: non-empty input, a
      configured handle, and a successful model call. */
  predicate Answered(i: Interaction) {
    i.chatInput != "" && Configure(i.apiKey, i.config).handle.Some? && i.chatReply.Ok?
  }

  /** The assistant message a pass records: the reply, if answered. */
  function ReplyOf(i: Interaction): seq<string> {
    if Answered(i) then [i.chatReply.text] else []
  }

  /** The non-empty chat inputs, in order. */
  function ChatInputs(passes: seq<Interaction>): (r: seq<string>)
    ensures |r| <= |passes|
  {
    if |passes| == 0 then [] else InputOf(passes[0]) + ChatInputs(passes[1..])
  }

  /** The replies that were shown in the chat, in order. */
  function Replies(passes: seq<Interaction>): (r: seq<string>)
    ensures |r| <= |ChatInputs(passes)|
  {
    if |passes| == 0 then [] else ReplyOf(passes[0]) + Replies(passes[1..])
  }

  // ---------------------------------------------------------------------
  // Session properties
  // ---------------------------------------------------------------------

  /** The history is never reordered or truncated: what existed before a
      sequence of passes is a prefix of what exists after it. */
  lemma {:induction false} RunExtends(h: seq<Turn>, passes: seq<Interaction>)
    ensures h <= Run(h, passes)
    decreases |passes|
  {
    if |passes| > 0 {
      RunExtends(AfterPass(h, passes[0]), passes[1..]);
    }
  }

  /** One pass adds its chat input to the user messages and its reply,
      when answered, to the assistant messages. */
  lemma PassTexts(h: seq<Turn>, i: Interaction)
    ensures TextsOf(AfterPass(h, i), User) == TextsOf(h, User) + InputOf(i)
    ensures TextsOf(AfterPass(h, i), Assistant) == TextsOf(h, Assistant) + ReplyOf(i)
  {
  }

  lemma ConcatAssociates(a: seq<string>, b: seq<string>, c: seq<string>)
    ensures a + b + c == a + (b + c)
  {
  }

  /** The user messages in the history are exactly the earlier ones
      followed by every non-empty chat input, in submission order, whether
      or not a key was configured. */
  lemma {:induction false} RunUserTexts(h: seq<Turn>, passes: seq<Interaction>)
    ensures TextsOf(Run(h, passes), User) == TextsOf(h, User) + ChatInputs(passes)
    decreases |passes|
  {
    if |passes| > 0 {
      PassTexts(h, passes[0]);
      RunUserTexts(AfterPass(h, passes[0]), passes[1..]);
      ConcatAssociates(TextsOf(h, User), InputOf(passes[0]), ChatInputs(passes[1..]));
    }
  }

  /** The assistant messages in the history are exactly the earlier ones
      followed by the reply of every answered chat input, in order:
      recommendations and failed or unconfigured chats add none. */
  lemma {:induction false} RunAssistantTexts(h: seq<Turn>, passes: seq<Interaction>)
    ensures TextsOf(Run(h, passes), Assistant) == TextsOf(h, Assistant) + Replies(passes)
    decreases |passes|
  {
    if |passes| > 0 {
      PassTexts(h, passes[0]);
      RunAssistantTexts(AfterPass(h, passes[0]), passes[1..]);
      ConcatAssociates(TextsOf(h, Assistant), ReplyOf(passes[0]), Replies(passes[1..]));
    }
  }

  /** Every assistant entry in the history directly follows a user entry. */
  lemma {:induction false} RunAlternates(h: seq<Turn>, passes: seq<Interaction>)
    requires Alternates(h)
    ensures Alternates(Run(h, passes))
    decreases |passes|
  {
    if |passes| > 0 {
      var i := passes[0];
      ChatKeepsAlternation(h, Configure(i.apiKey, i.config).handle, i.chatInput, i.chatReply);
      RunAlternates(AfterPass(h, i), passes[1..]);
    }
  }

  /** Passes with no chat input, however many recommendations they make
      and whatever the model answers, leave the history as it was. */
  lemma {:induction false} RecommendationsKeepHistory(h: seq<Turn>, passes: seq<Interaction>)
    requires forall k :: 0 <= k < |passes| ==> passes[k].chatInput == ""
    ensures Run(h, passes) == h
    decreases |passes|
  {
    if |passes| > 0 {
      RecommendationsKeepHistory(AfterPass(h, passes[0]), passes[1..]);
    }
  }

  // ---------------------------------------------------------------------
  // End-to-end scenarios
  // ---------------------------------------------------------------------

  /** A configured key, the button pressed on comedy / 2015 / latest, the
      model answering "The Grand Adventure": the request is the persona,
      a blank line and the recommendation sentence; the answer is shown;
      the empty history stays empty. */
  lemma RecommendScenario()
    ensures var r := Rerun(Some([]), Interaction("key", Accepted, Clicked(Selection(Comedy, 2015, Latest), Ok("The Grand Adventure")), "", Err("")));
      && r.requests == [Persona + "\n\n" + "Recommend a latest comedy movie from 2015"]
      && r.recommendation == Rendered("The Grand Adventure")
      && r.history == []
  {
    ComedyLatest2015();
  }

  /** No key, chat input "Is Inception good?": the user entry is kept,
      the page asks for a key, no assistant entry appears. */
  lemma UnconfiguredChatScenario(reply: Outcome)
    ensures var r := Rerun(None, Interaction("", Accepted, NoClick, "Is Inception good?", reply));
      && r.history == [Turn(User, "Is Inception good?")]
      && r.chat == Warning(ChatWarning)
      && r.requests == []
  {
  }

  /** A configured key, chat input "Recommend a horror movie" answered
      with "Try 'The Conjuring'": user entry then assistant entry. */
  lemma AnsweredChatScenario()
    ensures var r := Rerun(None, Interaction("key", Accepted, NoClick, "Recommend a horror movie", Ok("Try 'The Conjuring'")));
      && r.history == [Turn(User, "Recommend a horror movie"), Turn(Assistant, "Try 'The Conjuring'")]
      && r.chat == Rendered("Try 'The Conjuring'")
      && r.requests == [Persona + "\n\n" + "Recommend a horror movie"]
  {
  }
}
