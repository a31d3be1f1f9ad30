# Netflix Thailand movie recommender — session and prompt model

The program is a single Streamlit page script. A user enters a Gemini API key in the sidebar, picks a
genre, a release year and a "Latest"/"Popular" mode, and asks for a recommendation. The user can also
chat with the bot; the chat history is kept in the session state. Streamlit re-executes the whole
script on every interaction. Widget values and session-state entries persist between executions, but
the chat history is the only carried state that the modelled logic reads.

This project models the logic of that script that is not display code:

- **Prompt building** (`Prompts`). The fixed preference domains are 7 genres, the years 2000–2023
  shown as `str(year)`, and the two modes. From a selection the script builds the request sentence
  `"Recommend a <mode> <genre> movie from <year>"` (mode and genre lower-cased). It composes the text
  sent to the model as persona, a blank line (`"\n\n"`), then the user text. The persona is the
  fixed instruction text of the assistant, kept character for character.
- **Handle gating** (`Client`). The model handle exists only when the key is non-empty and
  configuring the client did not raise. The configuration outcome is a parameter.
- **The two actions** (`Dispatcher`). Each is a pure step over the chat history
  (`seq<Turn>`, with `Turn = (role, text)`). The recommendation button never touches the history.
  The chat box appends the user turn first. It appends an assistant turn only when a handle exists and
  the model call succeeds. The model call is a parameter `Outcome = Ok(text) | Err(cause)`. Each step
  also reports the signal the page shows (`Rendered`, `Warning`, `Error`, or `NoAction`) and the
  request it sent, if any.
- **The session** (`Session`). One execution of the script configures the key, handles the button,
  creates the history only when it is missing, and handles the chat box. `Reruns` threads the history
  through a sequence of such executions. `Run` is the same fold over the chat box alone, and the
  lemmas about histories are stated on it.
- **Text helpers** (`Text`). Python's `str.lower()` on ASCII, `str(n)` with its inverse, and
  `sep.join` / `str.split(sep)`.

The recommendation parser `Prompts.ParseRecommendation` is not part of the program. It is the
inverse used to prove that the request sentence determines the selection it was built from.

Two behaviours of the script that a reader might expect to be otherwise, modelled as written:

- An empty key makes no configuration attempt and shows nothing. The handle stays absent and the
  status is `NoKey`. It is not reported as a configuration error.
- The request text is `persona + "\n\n" + text`. The persona itself starts and ends with a newline,
  so the text sent has two blank lines, not one, between the persona's last sentence and the user text.

## Model

| member | source | states |
|---|---|---|
| `Text.Lower` | streamlit_app.py:66 | `.lower()` keeps the length, leaves no upper-case ASCII letter, changes only upper-case letters, and maps each one to the letter 32 code points above it |
| `Text.ParseDecimalRoundTrip` | streamlit_app.py:53 | parsing the numeral `str(n)` gives back `n` |
| `Text.DecimalStringRoundTrip` | streamlit_app.py:53 | every canonical numeral is `str` of the number it parses to, so `str` and parsing are inverse bijections |
| `Prompts.YearChoices` | streamlit_app.py:53 | the year list has 24 entries; entry `k` is a four-character numeral for the year `2000 + k` |
| `Prompts.SelectionDomain` | streamlit_app.py:48-58 | every selection draws its genre from the 7 listed genres, its mode from the two listed modes, and its year label from the listed years |
| `Prompts.YearChoiceIsYear` | streamlit_app.py:53 | every listed year label parses to a year in 2000–2023 whose label it is, so the listed labels are exactly the labels of selectable years |
| `Prompts.RecommendationText` | streamlit_app.py:66 | the request starts with `"Recommend a "`; its length is the fixed words plus the mode and genre labels plus a four-digit year |
| `Prompts.ComedyLatest2015` | streamlit_app.py:66 | comedy / 2015 / latest gives exactly `"Recommend a latest comedy movie from 2015"` |
| `Prompts.RecommendationRoundTrip` | streamlit_app.py:66 | the parser returns selection `s` for text `t` if and only if the request built from `s` is `t` |
| `Prompts.RecommendationInjective` | streamlit_app.py:66 | two selections produce the same request if and only if they are equal |
| `Prompts.Prompt` | streamlit_app.py:70 | the persona is a prefix of the text sent; what follows it is the blank-line separator and then the user text; the result is longer than persona plus user text, so never empty |
| `Prompts.PromptRoundTrip` | streamlit_app.py:99 | stripping persona and separator recovers user text `t` if and only if the prompt is the one built from `t` |
| `Prompts.PromptInjective` | streamlit_app.py:99 | under one persona, two user texts give the same prompt if and only if they are equal |
| `Client.Configure` | streamlit_app.py:29-40 | a handle exists if and only if the key is non-empty and configuration is accepted; it is bound to that key and to `gemini-pro`; the status is `NoKey` exactly for an empty key, `Configured` exactly when a handle exists, and otherwise an error carrying the cause |
| `Client.EmptyKeyNeverConfigures` | streamlit_app.py:16 | an empty key never yields a handle, whatever configuration would have done |
| `Dispatcher.InitHistory` | streamlit_app.py:83-84 | an existing history is kept as it is; an empty one is created only when none exists |
| `Dispatcher.Recommend` | streamlit_app.py:65-76 | the history is unchanged in every case; a request is sent if and only if a handle exists, and it is the persona followed by the recommendation sentence; the reply is shown exactly on success, an error exactly on failure, and a warning without a handle |
| `Dispatcher.Chat` | streamlit_app.py:91-107 | empty input does nothing; otherwise the old history is a prefix and the next entry is `(user, input)`; the history grows by 2 on success, with the reply as the assistant entry, and by 1 otherwise; a request is sent if and only if a handle exists, and it is persona plus input; the reply text is shown exactly on success, and `"An error occurred while generating the response: "` plus the cause exactly on failure |
| `Dispatcher.ChatRequestIgnoresHistory` | streamlit_app.py:99 | the chat request and signal are the same whatever the earlier history |
| `Dispatcher.ChatKeepsAlternation` | streamlit_app.py:93-102 | after a chat step, every assistant entry still directly follows a user entry |
| `Dispatcher.ChatTexts` | streamlit_app.py:93-102 | a chat step adds exactly the input to the user messages, and adds the reply to the assistant messages exactly when it succeeded |
| `Session.Rerun` | streamlit_app.py:29-107 | one pass extends the stored history by at most two entries; the status is the configuration outcome; the requests are exactly the recommendation prompt (on a click with a handle) followed by the chat prompt (on non-empty input with a handle); an empty key sends nothing; the recommendation signal is absent exactly without a click and shows the reply exactly when clicked, configured and answered; without a handle a click shows the fixed recommendation warning, and with one a failed call shows `"An error occurred while generating the response: "` plus the cause, exactly on failure; the chat signal is absent exactly for empty input, shows the reply exactly when answered, shows the fixed chat warning on input without a handle, and shows the prefixed error exactly when a configured call fails; a pass with no click and no chat input changes nothing |
| `Session.RerunHistory` | streamlit_app.py:65-107 | the history after a full pass is what the chat box alone leaves from the stored history; the button and the configuration add nothing |
| `Session.RerunsIsRun` | streamlit_app.py:65-107 | the history after any sequence of full passes is the fold of the chat box alone over them from the initialised history |
| `Session.RunExtends` | streamlit_app.py:83-84 | over any sequence of passes, the history before is a prefix of the history after |
| `Session.RunUserTexts` | streamlit_app.py:91-93 | the user messages are the earlier ones followed by every non-empty chat input in order, configured or not |
| `Session.RunAssistantTexts` | streamlit_app.py:97-102 | the assistant messages are the earlier ones followed by the reply to each answered chat input in order |
| `Session.RunAlternates` | streamlit_app.py:93-102 | if every assistant entry directly follows a user entry before a run, that still holds after it |
| `Session.RecommendationsKeepHistory` | streamlit_app.py:65-76 | passes without chat input leave the history unchanged, however many recommendations they make |
| `Session.RecommendScenario` | streamlit_app.py:65-72 | configured key, comedy / 2015 / latest, reply "The Grand Adventure": the one request is persona, blank line and the sentence; the reply is shown; the empty history stays empty |
| `Session.UnconfiguredChatScenario` | streamlit_app.py:91-107 | no key, chat "Is Inception good?": the history is the single user entry, a warning is shown, nothing is sent |
| `Session.AnsweredChatScenario` | streamlit_app.py:91-103 | configured key, chat answered: the history is user entry then assistant entry, and the request is persona plus input |

## Left out

- Page layout, headings, HTML styling, sidebar success/error widgets, and the display of chat
  messages (streamlit_app.py:5-13, 43-62, 72, 79-80, 87-88, 94, 103). These are display code. The
  model keeps only which signal is shown.
- `genai.configure`, `genai.GenerativeModel`, `generate_content` and `response.text` are foreign
  network calls. Configuration is the parameter `ConfigResult`, and each model call is the parameter
  `Outcome`.
- The text of foreign exceptions. It appears only as an opaque `cause` string after the fixed
  message prefix.
- `st.session_state.agent_expertise` (streamlit_app.py:37) is written and never read.
- Streamlit's rerun and session-state machinery. The history is an explicit value passed from pass to
  pass. A pass receives at most one button press and one chat submission, and the chat input is `""`
  when nothing was submitted.
- `Text.Lower`: models `str.lower()` for ASCII letters only, not full Unicode case mapping. Every
  label it is applied to (`Latest`, `Popular`, the seven genre names) is ASCII, so the requests are
  exact.
- An exception raised by a call that comes after the effect it would undo is not modelled: the
  sidebar message at line 34 or the session write at line 37, after the handle is assigned; the
  display of the reply at line 72; and the display of the assistant message at line 103, after the
  assistant turn is appended. Such an exception would leave the handle, the shown reply or the
  assistant turn in place and also show an error. `Dispatcher.Chat`, `Dispatcher.Recommend` and
  `Session.Rerun` assume that display calls do not raise.
