/** The prompt builder: the fixed preference domains offered by the page,
    the persona text, the recommendation request built from a selection,
    and the composition of persona and user text that is sent to the
    model on both the recommendation and the chat path. */
module Prompts {
  import opened Wrappers
  import opened Text

  // ---------------------------------------------------------------------
  // Preference domains
  // ---------------------------------------------------------------------

  datatype Genre = Action | Comedy | Drama | Horror | Romance | SciFi | Documentary

  /** The genre choices, in the order the select box lists them. */
  const Genres: seq<Genre> := [Action, Comedy, Drama, Horror, Romance, SciFi, Documentary]

  function GenreLabel(g: Genre): string {
    match g
    case Action => "Action"
    case Comedy => "Comedy"
    case Drama => "Drama"
    case Horror => "Horror"
    case Romance => "Romance"
    case SciFi => "Sci-Fi"
    case Documentary => "Documentary"
  }

  datatype Mode = Latest | Popular

  /** The movie-type choices of the radio group; `Latest` is preselected. */
  const Modes: seq<Mode> := [Latest, Popular]

  function ModeLabel(m: Mode): string {
    match m
    case Latest => "Latest"
    case Popular => "Popular"
  }

  /** The release years offered, `range(2000, 2024)`. */
  const FirstYear: int := 2000
  const EndYear: int := 2024

  type Year = y: int | FirstYear <= y < EndYear witness FirstYear

  /** The year choices as the select box shows them, `str(year)` each. */
  function YearChoices(): (r: seq<string>)
    ensures |r| == EndYear - FirstYear
    ensures forall k :: 0 <= k < |r| ==> |r[k]| == 4 && ParseDecimal(r[k]) == Some(FirstYear + k)
  {
    var r := seq(EndYear - FirstYear, k requires 0 <= k < EndYear - FirstYear => YearLabel(FirstYear + k));
    assert forall k :: 0 <= k < |r| ==> r[k] == YearLabel(FirstYear + k);
    r
  }

  function YearLabel(y: Year): (r: string)
    ensures |r| == 4
    ensures ParseDecimal(r) == Some(y)
  {
    var r := DecimalString(y);
    ParseDecimalRoundTrip(y);
    YearLabelLength(y);
    r
  }

  lemma YearLabelLength(y: Year)
    ensures |DecimalString(y)| == 4
  {
    var a := y / 10;
    var b := a / 10;
    var c := b / 10;
    assert c == 2 && b >= 10 && a >= 10 && y >= 10;
    assert |DecimalString(c)| == 1;
    assert |DecimalString(b)| == |DecimalString(c)| + 1;
    assert |DecimalString(a)| == |DecimalString(b)| + 1;
    assert |DecimalString(y)| == |DecimalString(a)| + 1;
  }

  /** One reading of the three preference widgets. */
  datatype Selection = Selection(genre: Genre, year: Year, mode: Mode)

  /** Every selection the widgets can produce is drawn from the listed
      choices. (Conversely every genre and mode is a selection field by
      construction, and `YearChoiceIsYear` covers the year labels.) */
  lemma SelectionDomain(s: Selection)
    ensures s.genre in Genres
    ensures s.mode in Modes
    ensures YearLabel(s.year) in YearChoices()
  {
    var k := s.year - FirstYear;
    assert YearChoices()[k] == YearLabel(s.year);
    assert s.genre in Genres by {
    match s.genre
    case Action => assert Genres[0] == Action;
    case Comedy => assert Genres[1] == Comedy;
    case Drama => assert Genres[2] == Drama;
    case Horror => assert Genres[3] == Horror;
    case Romance => assert Genres[4] == Romance;
    case SciFi => assert Genres[5] == SciFi;
    case Documentary => assert Genres[6] == Documentary;
    }
    match s.mode
    case Latest => assert Modes[0] == Latest;
    case Popular => assert Modes[1] == Popular;
  }

  /** Every listed year label is the label of a selectable year. */
  lemma YearChoiceIsYear(choice: string)
    requires choice in YearChoices()
    ensures ParseDecimal(choice).Some?
    ensures FirstYear <= ParseDecimal(choice).value < EndYear
    ensures YearLabel(ParseDecimal(choice).value) == choice
  {
    var k :| 0 <= k < |YearChoices()| && YearChoices()[k] == choice;
    DecimalStringRoundTrip(choice, FirstYear + k);
  }

  // ---------------------------------------------------------------------
  // Recommendation request
  // ---------------------------------------------------------------------

  /** The recommendation request built when the button is pressed. */
  function RecommendationText(s: Selection): (r: string)
    ensures "Recommend a " <= r
    ensures |r| == |"Recommend a "| + |ModeLabel(s.mode)| + 1 + |GenreLabel(s.genre)| + |" movie from "| + 4
  {
    "Recommend a " + Lower(ModeLabel(s.mode)) + " " + Lower(GenreLabel(s.genre)) + " movie from " + YearLabel(s.year)
  }

  /** The same request seen as seven space-separated words. */
  function RecommendationWords(s: Selection): seq<string> {
    ["Recommend", "a", Lower(ModeLabel(s.mode)), Lower(GenreLabel(s.genre)), "movie", "from", YearLabel(s.year)]
  }

  lemma RecommendationIsJoinedWords(s: Selection)
    ensures RecommendationText(s) == Join(RecommendationWords(s), ' ')
  {
    var m := Lower(ModeLabel(s.mode));
    var g := Lower(GenreLabel(s.genre));
    var y := YearLabel(s.year);
    JoinSeven("Recommend", "a", m, g, "movie", "from", y, ' ');
    assert "Recommend" + " " + "a" + " " == "Recommend a ";
    assert " " + "movie" + " " + "from" + " " == " movie from ";
  }

  /** The mode whose lower-cased label is `w`, if any. */
  function ModeFromWord(w: string): (r: Option<Mode>)
    ensures r.Some? ==> Lower(ModeLabel(r.value)) == w
  {
    LowerModeLabels();
    if w == "latest" then Some(Latest)
    else if w == "popular" then Some(Popular)
    else None
  }

  /** The genre whose lower-cased label is `w`, if any. */
  function GenreFromWord(w: string): (r: Option<Genre>)
    ensures r.Some? ==> Lower(GenreLabel(r.value)) == w
  {
    LowerGenreLabels();
    if w == "action" then Some(Action)
    else if w == "comedy" then Some(Comedy)
    else if w == "drama" then Some(Drama)
    else if w == "horror" then Some(Horror)
    else if w == "romance" then Some(Romance)
    else if w == "sci-fi" then Some(SciFi)
    else if w == "documentary" then Some(Documentary)
    else None
  }

  lemma LowerModeLabels()
    ensures Lower(ModeLabel(Latest)) == "latest"
    ensures Lower(ModeLabel(Popular)) == "popular"
  {
  }

  lemma LowerGenreLabels()
    ensures Lower(GenreLabel(Action)) == "action"
    ensures Lower(GenreLabel(Comedy)) == "comedy"
    ensures Lower(GenreLabel(Drama)) == "drama"
    ensures Lower(GenreLabel(Horror)) == "horror"
    ensures Lower(GenreLabel(Romance)) == "romance"
    ensures Lower(GenreLabel(SciFi)) == "sci-fi"
    ensures Lower(GenreLabel(Documentary)) == "documentary"
  {
  }

  lemma ModeWordRoundTrip(m: Mode)
    ensures ModeFromWord(Lower(ModeLabel(m))) == Some(m)
  {
  }

  lemma GenreWordRoundTrip(g: Genre)
    ensures GenreFromWord(Lower(GenreLabel(g))) == Some(g)
  {
    LowerGenreLabels();
  }

  /** Reads a recommendation request back into the selection it names,
      or `None` when the text is not one. */
  function ParseRecommendation(t: string): Option<Selection> {
    var ws := Split(t, ' ');
    if |ws| == 7 && ws[0] == "Recommend" && ws[1] == "a" && ws[4] == "movie" && ws[5] == "from" then
      match (ModeFromWord(ws[2]), GenreFromWord(ws[3]), ParseDecimal(ws[6]))
      case (Some(m), Some(g), Some(y)) =>
        if FirstYear <= y < EndYear then Some(Selection(g, y, m)) else None
      case _ => None
    else None
  }

  lemma NoSpaceInWords(s: Selection)
    ensures forall k :: 0 <= k < 7 ==> ' ' !in RecommendationWords(s)[k]
  {
  }

  /** The request text determines the selection it was built from: the
      parser accepts exactly the texts the builder produces, and returns
      the selection that produced them. */
  lemma RecommendationRoundTrip(s: Selection, t: string)
    ensures ParseRecommendation(t) == Some(s) <==> RecommendationText(s) == t
  {
    if RecommendationText(s) == t {
      RecommendationIsJoinedWords(s);
      NoSpaceInWords(s);
      SplitJoin(RecommendationWords(s), ' ');
      ModeWordRoundTrip(s.mode);
      GenreWordRoundTrip(s.genre);
    }
    if ParseRecommendation(t) == Some(s) {
      var ws := Split(t, ' ');
      JoinSplit(t, ' ');
      DecimalStringRoundTrip(ws[6], s.year);
      assert ws == RecommendationWords(s);
      RecommendationIsJoinedWords(s);
    }
  }

  /** Distinct selections always produce distinct requests. */
  lemma RecommendationInjective(a: Selection, b: Selection)
    ensures RecommendationText(a) == RecommendationText(b) <==> a == b
  {
    RecommendationRoundTrip(a, RecommendationText(a));
    RecommendationRoundTrip(b, RecommendationText(a));
  }

  lemma Year2015Label()
    ensures DecimalString(2015) == "2015"
  {
  }

  /** The request for comedy / 2015 / latest. */
  lemma ComedyLatest2015()
    ensures RecommendationText(Selection(Comedy, 2015, Latest)) == "Recommend a latest comedy movie from 2015"
  {
    LowerModeLabels();
    LowerGenreLabels();
    Year2015Label();
    LiteralRequest();
  }

  lemma LiteralRequest()
    ensures "Recommend a " + "latest" + " " + "comedy" + " movie from " + "2015" == "Recommend a latest comedy movie from 2015"
  {
  }

  // ---------------------------------------------------------------------
  // Persona and composed prompt
  // ---------------------------------------------------------------------

  /** The assistant's instruction text, kept character for character
      (including its leading and trailing newline and the trailing spaces
      on the first three sentences). */
  const Persona: string :=
    "\nYou are an expert in recommending movies from Netflix Thailand. \n"
    + "Your expertise includes knowing the latest and most popular movies, various genres, and their ratings. \n"
    + "You can help users by recommending movies based on their preferences for genre, release year, and popularity. \n"
    + "You are also familiar with movie trends and can provide personalized suggestions.\n"
    + "\n"
    + "If the user asks about anything outside of movies, politely inform them that you do not have enough information to answer that, and kindly ask them to only inquire about movies.\n"

  const Separator: string := "\n\n"

  /** The text sent to the model: persona, a blank line, the user text. */
  function Prompt(persona: string, text: string): (r: string)
    ensures persona <= r
    ensures r[|persona|..] == Separator + text
    ensures |r| > |persona| + |text|
  {
    persona + Separator + text
  }

  /** Recovers the user text from a prompt built on `persona`, or `None`
      when the prompt does not start with the persona and the blank line. */
  function UserTextOf(persona: string, prompt: string): Option<string> {
    var n := |persona + Separator|;
    if n <= |prompt| && prompt[..n] == persona + Separator then Some(prompt[n..]) else None
  }

  /** The user text is exactly what follows persona and separator: the
      two functions are inverse to one another. */
  lemma PromptRoundTrip(persona: string, text: string, prompt: string)
    ensures UserTextOf(persona, prompt) == Some(text) <==> Prompt(persona, text) == prompt
  {
  }

  /** For a fixed persona, different user texts give different prompts. */
  lemma PromptInjective(persona: string, a: string, b: string)
    ensures Prompt(persona, a) == Prompt(persona, b) <==> a == b
  {
    PromptRoundTrip(persona, a, Prompt(persona, a));
    PromptRoundTrip(persona, b, Prompt(persona, a));
  }
}
