/**
 * The application controller: the five pieces of state the page keeps (the
 * chosen level, the number of questions, the current exam, the loading flag
 * and the error message), the generate and reset handlers that change them,
 * and the choice of what the page shows.
 *
 * The asynchronous generate handler is two steps: `StartGenerate` runs up to
 * the call into the service and hands back the request it captured;
 * `CompleteGenerate` runs when the service has answered with `fetch`.
 */
module App {
  import opened Results
  import opened Types
  import GeminiService

  /** The slider's bounds and its starting position. */
  const MinQuestions: int := 20
  const MaxQuestions: int := 30
  const DefaultQuestions: int := 20

  /** What the page shows when a generation fails, whatever the cause. */
  const FailureMessage: string :=
    "Falha ao gerar o simulado. A API pode estar indisponível. Por favor, tente novamente mais tarde."

  datatype AppState = AppState(
    level: Level,
    numQuestions: int,
    simulado: Option<Simulado>,
    isLoading: bool,
    error: Option<string>)

  /** The arguments a generation was started with. */
  datatype Request = Request(level: Level, numQuestions: int)

  /** `if (error)`: a missing or empty message counts as no error. */
  predicate HasError(s: AppState)
  {
    s.error.Some? && s.error.value != ""
  }

  // ---------------------------------------------------------------------------
  // Transitions
  // ---------------------------------------------------------------------------

  function Initial(): AppState
  {
    AppState(Nivel1, DefaultQuestions, None, false, None)
  }

  function WithLevel(s: AppState, l: Level): AppState
  {
    s.(level := l)
  }

  function WithNumQuestions(s: AppState, n: int): AppState
  {
    s.(numQuestions := n)
  }

  /** The synchronous start of `handleGenerateSimulado`. */
  function Started(s: AppState): AppState
  {
    s.(isLoading := true, error := None, simulado := None)
  }

  /** The end of `handleGenerateSimulado`, once the service has answered. */
  function Completed(s: AppState, req: Request, fetch: GeminiService.Fetch): AppState
  {
    match GeminiService.GenerateSimulado(req.level, req.numQuestions, fetch)
    case Ok(exam) => s.(simulado := Some(exam), isLoading := false)
    case Err(_) => s.(error := Some(FailureMessage), isLoading := false)
  }

  /** `handleReset`. */
  function Reset(s: AppState): AppState
  {
    s.(simulado := None, error := None)
  }

  /** The state the page can be in: while loading there is neither an exam
      nor an error, there are never both, the only error is the fixed message
      and the number of questions is within the slider's range. */
  predicate Consistent(s: AppState)
  {
    && (s.isLoading ==> s.simulado.None? && s.error.None?)
    && !(s.simulado.Some? && s.error.Some?)
    && (s.error.Some? ==> s.error.value == FailureMessage)
    && MinQuestions <= s.numQuestions <= MaxQuestions
  }

  // ---------------------------------------------------------------------------
  // What the page shows
  // ---------------------------------------------------------------------------

  datatype View = LoadingView | ErrorView(message: string) | ExamShown(simulado: Simulado) | FormView

  /** `renderContent`: loading first, then the error, then the exam, and the
      form only when there is none of them. */
  function SelectView(s: AppState): (v: View)
    ensures v.LoadingView? <==> s.isLoading
    ensures v.ErrorView? <==> !s.isLoading && HasError(s)
    ensures v.ExamShown? <==> !s.isLoading && !HasError(s) && s.simulado.Some?
    ensures v.FormView? <==> !s.isLoading && !HasError(s) && s.simulado.None?
    ensures v.ErrorView? ==> Some(v.message) == s.error
    ensures v.ExamShown? ==> Some(v.simulado) == s.simulado
  {
    if s.isLoading then LoadingView
    else if HasError(s) then ErrorView(s.error.value)
    else if s.simulado.Some? then ExamShown(s.simulado.value)
    else FormView
  }

  /** The handlers a user can reach from each view: the form's level and
      number pickers and its generate button, the error view's "Tentar
      Novamente" button and the exam view's reset. */
  datatype Action = PickLevel | PickNumQuestions | Generate | ResetAction

  function Offers(v: View): set<Action>
  {
    match v
    case LoadingView => {}
    case ErrorView(_) => {ResetAction}
    case ExamShown(_) => {ResetAction}
    case FormView => {PickLevel, PickNumQuestions, Generate}
  }

  // ---------------------------------------------------------------------------
  // Properties
  // ---------------------------------------------------------------------------

  /** The page opens on the form, in a consistent state. */
  lemma InitialShowsForm()
    ensures Consistent(Initial())
    ensures SelectView(Initial()) == FormView
    ensures Initial().level == Nivel1 && Initial().numQuestions == 20
  {
  }

  /** Generating can be triggered only when nothing is loading and there is
      neither an error nor an exam; in particular never while a generation is
      in flight. */
  lemma GenerateOnlyWhenIdle(s: AppState)
    ensures Generate in Offers(SelectView(s)) <==> !s.isLoading && !HasError(s) && s.simulado.None?
    ensures s.isLoading ==> Generate !in Offers(SelectView(s))
  {
  }

  /** Reset can be triggered only from the error view or the exam view. */
  lemma ResetOnlyFromErrorOrExam(s: AppState)
    ensures ResetAction in Offers(SelectView(s)) <==> SelectView(s).ErrorView? || SelectView(s).ExamShown?
    ensures ResetAction in Offers(SelectView(s)) ==> !s.isLoading && (HasError(s) || s.simulado.Some?)
  {
  }

  /** Starting a generation shows the loading indicator and offers nothing. */
  lemma StartedShowsLoading(s: AppState)
    ensures SelectView(Started(s)) == LoadingView
    ensures Offers(SelectView(Started(s))) == {}
    ensures Started(s).level == s.level && Started(s).numQuestions == s.numQuestions
  {
  }

  /** After a generation completes, exactly one of the exam and the error is
      set: the exam the service produced, or the fixed failure message; the
      page shows it. */
  lemma CompletedExactlyOne(s: AppState, req: Request, fetch: GeminiService.Fetch)
    requires Consistent(s) && s.isLoading
    ensures var t := Completed(s, req, fetch);
      && !t.isLoading
      && (t.simulado.Some? <==> t.error.None?)
      && (t.simulado.Some? <==> GeminiService.GenerateSimulado(req.level, req.numQuestions, fetch).Ok?)
      && (t.simulado.Some? ==> t.simulado.value == GeminiService.GenerateSimulado(req.level, req.numQuestions, fetch).value)
      && (t.simulado.Some? ==> t.simulado.value.level == req.level && SelectView(t) == ExamShown(t.simulado.value))
      && (t.error.Some? ==> SelectView(t) == ErrorView(FailureMessage))
  {
  }

  /** Reset clears the exam and the error, keeps the settings and the loading
      flag, and from either view it is offered in leads back to the form. */
  lemma ResetKeepsSettings(s: AppState)
    ensures var t := Reset(s);
      && t.simulado.None? && t.error.None?
      && t.level == s.level && t.numQuestions == s.numQuestions && t.isLoading == s.isLoading
    ensures ResetAction in Offers(SelectView(s)) ==> SelectView(Reset(s)) == FormView
  {
  }

  /** Every handler keeps the state consistent (generation completes only
      after it started, the pickers stay within the slider's range). */
  lemma ConsistentPreserved(s: AppState, req: Request, fetch: GeminiService.Fetch, l: Level, n: int)
    requires Consistent(s)
    ensures Consistent(Started(s))
    ensures s.isLoading ==> Consistent(Completed(s, req, fetch))
    ensures Consistent(Reset(s))
    ensures Consistent(WithLevel(s, l))
    ensures MinQuestions <= n <= MaxQuestions ==> Consistent(WithNumQuestions(s, n))
  {
  }

  /** A consistent state never shows an empty error: the error view appears
      exactly when there is an error at all. */
  lemma ErrorViewIffError(s: AppState)
    requires Consistent(s)
    ensures SelectView(s).ErrorView? <==> !s.isLoading && s.error.Some?
  {
  }

  // ---------------------------------------------------------------------------
  // The component
  // ---------------------------------------------------------------------------

  class AppController {
    var level: Level
    var numQuestions: int
    var simulado: Option<Simulado>
    var isLoading: bool
    var error: Option<string>

    function State(): AppState
      reads this
    {
      AppState(level, numQuestions, simulado, isLoading, error)
    }

    ghost predicate Valid()
      reads this
    {
      Consistent(State())
    }

    /** The initial state: level 1, 20 questions, no exam, not loading, no error. */
    constructor ()
      ensures Valid() && State() == Initial()
    {
      level := Nivel1;
      numQuestions := DefaultQuestions;
      simulado := None;
      isLoading := false;
      error := None;
    }

    /** `setLevel`, from the form. */
    method SetLevel(l: Level)
      requires Valid()
      modifies this
      ensures Valid() && State() == WithLevel(old(State()), l)
    {
      level := l;
    }

    /** `setNumQuestions`, from the slider. */
    method SetNumQuestions(n: int)
      requires Valid() && MinQuestions <= n <= MaxQuestions
      modifies this
      ensures Valid() && State() == WithNumQuestions(old(State()), n)
    {
      numQuestions := n;
    }

    /** `handleGenerateSimulado` up to the service call: raise the loading
        flag, clear the error and the exam, and capture the request. */
    method StartGenerate() returns (req: Request)
      requires Valid()
      modifies this
      ensures Valid() && State() == Started(old(State()))
      ensures req == Request(old(level), old(numQuestions))
    {
      req := Request(level, numQuestions);
      isLoading := true;
      error := None;
      simulado := None;
    }

    /** `handleGenerateSimulado` after the service call: keep the exam on
        success, the fixed message on any failure, and lower the loading flag. */
    method CompleteGenerate(req: Request, fetch: GeminiService.Fetch)
      requires Valid() && isLoading
      modifies this
      ensures Valid() && State() == Completed(old(State()), req, fetch)
    {
      var result := GeminiService.GenerateSimulado(req.level, req.numQuestions, fetch);
      match result {
        case Ok(exam) =>
          simulado := Some(exam);
        case Err(_) =>
          error := Some(FailureMessage);
      }
      isLoading := false;
    }

    /** `handleReset`. */
    method HandleReset()
      requires Valid()
      modifies this
      ensures Valid() && State() == Reset(old(State()))
    {
      simulado := None;
      error := None;
    }
  }
}
