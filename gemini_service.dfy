/**
 * The generation client's handling of the AI reply: the level descriptions
 * put into the prompt, the validation of the parsed reply, its truncation to
 * the requested count, the renumbering of the kept questions and the collapse
 * of every failure into one fixed message.
 *
 * The request itself (prompt, response schema, the network call and the JSON
 * parse) is outside the model: its outcome is the `Fetch` parameter.
 */
module GeminiService {
  import opened Results
  import opened Types

  /** The audience phrase each level adds to the prompt. */
  function LevelDescription(l: Level): (d: string)
    ensures d != []
  {
    match l
    case Nivel1 => "para alunos do 6º e 7º ano do Ensino Fundamental."
    case Nivel2 => "para alunos do 8º e 9º ano do Ensino Fundamental."
    case Nivel3 => "para alunos do Ensino Médio."
  }

  /** The three levels are described differently. */
  lemma LevelDescriptionsDistinct(l: Level, m: Level)
    requires l != m
    ensures LevelDescription(l) != LevelDescription(m)
  {
    DescriptionMark(l);
    DescriptionMark(m);
  }

  /** The character after "para alunos do " tells the levels apart. */
  lemma DescriptionMark(l: Level)
    ensures |LevelDescription(l)| > 15
    ensures LevelDescription(l)[15] == (if l == Nivel1 then '6' else if l == Nivel2 then '8' else 'E')
  {
    match l
    case Nivel1 =>
    case Nivel2 =>
    case Nivel3 =>
  }

  /** One entry of the parsed `questions` array, each field possibly absent.
      An entry that is not an object behaves like one with every field absent:
      both are rejected. */
  datatype RawQuestion = RawQuestion(
    number: Option<int>,
    text: Option<string>,
    options: Option<seq<string>>,
    answer: Option<string>,
    explanation: Option<string>)

  /** What the service call produced: either it failed before a parsed object
      was available (network error, no text, invalid JSON), or the parsed
      object's `questions` property, `None` when it is missing or not an array. */
  datatype Fetch = TransportFailed | Received(questions: Option<seq<RawQuestion>>)

  /** The internal failure conditions, before they are collapsed. */
  datatype Failure =
    | ServiceFailed
    | MalformedResponse
    | IncompleteQuestion(position: nat)   // 1-based position of the first incomplete entry

  /** The one message every failure is re-raised with. */
  const GenerationFailedMessage: string :=
    "Não foi possível gerar o simulado. Por favor, tente novamente."

  /** A string field is truthy: present and not empty. */
  predicate Truthy(s: Option<string>)
  {
    s.Some? && s.value != ""
  }

  /** The completeness test: text, answer and explanation are truthy strings and
      options is present (an array is truthy even when empty). */
  predicate IsComplete(q: RawQuestion)
  {
    Truthy(q.text) && q.options.Some? && Truthy(q.answer) && Truthy(q.explanation)
  }

  /** Where `slice(0, end)` stops on an array of `len` elements: a negative
      `end` counts from the back. */
  function SliceEnd(len: nat, end: int): (k: nat)
    ensures k <= len
    ensures end >= 0 ==> k == if end < len then end else len
  {
    if end < 0 then (if len + end < 0 then 0 else len + end)
    else if end < len then end
    else len
  }

  /** The typed question built from a complete entry at 0-based `index`. */
  function ToQuestion(q: RawQuestion, index: nat): Question
    requires IsComplete(q)
  {
    Question(index + 1, q.text.value, q.options.value, q.answer.value, q.explanation.value)
  }

  /** Maps the kept entries in order, the first of them being at 0-based
      position `from`, stopping at the first incomplete one. */
  function Normalise(kept: seq<RawQuestion>, from: nat): (r: Result<seq<Question>, Failure>)
    ensures r.Ok? <==> forall k :: 0 <= k < |kept| ==> IsComplete(kept[k])
    ensures r.Ok? ==> |r.value| == |kept|
    ensures r.Ok? ==> forall k :: 0 <= k < |kept| ==>
      && r.value[k].number == from + k + 1
      && kept[k].text == Some(r.value[k].text)
      && kept[k].options == Some(r.value[k].options)
      && kept[k].answer == Some(r.value[k].answer)
      && kept[k].explanation == Some(r.value[k].explanation)
    ensures r.Err? ==> (
      && r.error.IncompleteQuestion?
      && from < r.error.position <= from + |kept|
      && !IsComplete(kept[r.error.position - from - 1])
      && forall k :: 0 <= k < r.error.position - from - 1 ==> IsComplete(kept[k]))
    decreases |kept|
  {
    if kept == [] then Ok([])
    else if !IsComplete(kept[0]) then Err(IncompleteQuestion(from + 1))
    else
      match Normalise(kept[1..], from + 1)
      case Err(e) => Err(e)
      case Ok(rest) => Ok([ToQuestion(kept[0], from)] + rest)
  }

  /** The entries `generateSimulado` keeps of a reply. */
  function Kept(raw: seq<RawQuestion>, numQuestions: int): seq<RawQuestion>
  {
    raw[..SliceEnd(|raw|, numQuestions)]
  }

  /** The validation block: reject a missing or non-array `questions`, keep the
      first `numQuestions` entries, reject them all if one is incomplete,
      otherwise renumber them and wrap them with the level. */
  function Validate(level: Level, numQuestions: int, questions: Option<seq<RawQuestion>>): (r: Result<Simulado, Failure>)
    ensures questions.None? ==> r == Err(MalformedResponse)
    ensures r.Ok? <==> (questions.Some? &&
      forall k :: 0 <= k < |Kept(questions.value, numQuestions)| ==> IsComplete(Kept(questions.value, numQuestions)[k]))
    ensures r.Ok? ==> r.value.level == level && |r.value.questions| == |Kept(questions.value, numQuestions)|
  {
    match questions
    case None => Err(MalformedResponse)
    case Some(raw) =>
      match Normalise(Kept(raw, numQuestions), 0)
      case Err(e) => Err(e)
      case Ok(qs) => Ok(Simulado(level, qs))
  }

  /** `generateSimulado`: validation of the reply, with every failure (service,
      malformed reply, incomplete entry) turned into the same message. */
  function GenerateSimulado(level: Level, numQuestions: int, fetch: Fetch): (r: Result<Simulado, string>)
    ensures r.Err? ==> r.error == GenerationFailedMessage
    ensures r.Ok? <==>
      && fetch.Received? && fetch.questions.Some?
      && forall k :: 0 <= k < |Kept(fetch.questions.value, numQuestions)| ==>
           IsComplete(Kept(fetch.questions.value, numQuestions)[k])
    ensures r.Ok? ==>
      var kept := Kept(fetch.questions.value, numQuestions);
      && r.value.level == level
      && |r.value.questions| == |kept|
      && forall k :: 0 <= k < |kept| ==>
           && r.value.questions[k].number == k + 1
           && kept[k].text == Some(r.value.questions[k].text)
           && kept[k].options == Some(r.value.questions[k].options)
           && kept[k].answer == Some(r.value.questions[k].answer)
           && kept[k].explanation == Some(r.value.questions[k].explanation)
  {
    var outcome := if fetch.TransportFailed? then Err(ServiceFailed) else Validate(level, numQuestions, fetch.questions);
    match outcome
    case Ok(s) => Ok(s)
    case Err(_) => Err(GenerationFailedMessage)
  }

  /** A reply shorter than the request is accepted: it yields as many questions
      as it holds. */
  lemma ShortReplyAccepted(level: Level, numQuestions: int, raw: seq<RawQuestion>)
    requires |raw| <= numQuestions
    requires forall k :: 0 <= k < |raw| ==> IsComplete(raw[k])
    ensures var r := GenerateSimulado(level, numQuestions, Received(Some(raw)));
      r.Ok? && |r.value.questions| == |raw|
  {
    assert Kept(raw, numQuestions) == raw;
  }

  /** For a non-negative request, a successful reply holds exactly
      min(numQuestions, |questions|) questions. */
  lemma SuccessCount(level: Level, numQuestions: int, raw: seq<RawQuestion>)
    requires numQuestions >= 0
    requires GenerateSimulado(level, numQuestions, Received(Some(raw))).Ok?
    ensures |GenerateSimulado(level, numQuestions, Received(Some(raw))).value.questions|
      == if numQuestions < |raw| then numQuestions else |raw|
  {
  }

  /** Entries past the requested count are never inspected: replacing them by
      anything at all changes nothing. */
  lemma TailIgnored(level: Level, numQuestions: nat, raw: seq<RawQuestion>, other: seq<RawQuestion>)
    requires numQuestions <= |raw|
    ensures GenerateSimulado(level, numQuestions, Received(Some(raw)))
         == GenerateSimulado(level, numQuestions, Received(Some(raw[..numQuestions] + other)))
  {
    assert Kept(raw, numQuestions) == Kept(raw[..numQuestions] + other, numQuestions);
  }

  /** Two entry lists that differ at most in the `number` fields. */
  predicate SameButNumbers(a: seq<RawQuestion>, b: seq<RawQuestion>)
  {
    |a| == |b| && forall k :: 0 <= k < |a| ==> a[k].(number := None) == b[k].(number := None)
  }

  /** Whatever numbers the reply carried, the result is the same. */
  lemma {:induction false} NormaliseIgnoresNumbers(a: seq<RawQuestion>, b: seq<RawQuestion>, from: nat)
    requires SameButNumbers(a, b)
    ensures Normalise(a, from) == Normalise(b, from)
    decreases |a|
  {
    if a != [] {
      assert IsComplete(a[0]) == IsComplete(b[0]);
      NormaliseIgnoresNumbers(a[1..], b[1..], from + 1);
    }
  }

  lemma NumbersIgnored(level: Level, numQuestions: int, a: seq<RawQuestion>, b: seq<RawQuestion>)
    requires SameButNumbers(a, b)
    ensures GenerateSimulado(level, numQuestions, Received(Some(a)))
         == GenerateSimulado(level, numQuestions, Received(Some(b)))
  {
    NormaliseIgnoresNumbers(Kept(a, numQuestions), Kept(b, numQuestions), 0);
  }

  /** The raw entry a question would have been parsed from. */
  function Unparse(q: Question): RawQuestion
  {
    RawQuestion(Some(q.number), Some(q.text), Some(q.options), Some(q.answer), Some(q.explanation))
  }

  /** The reply entries a list of questions would have been parsed from. */
  function UnparseAll(qs: seq<Question>): (raw: seq<RawQuestion>)
    ensures |raw| == |qs| && forall k :: 0 <= k < |qs| ==> raw[k] == Unparse(qs[k])
  {
    seq(|qs|, k requires 0 <= k < |qs| => Unparse(qs[k]))
  }

  /** A question the client can hand out: its text fields are not empty. */
  predicate WellFormed(q: Question)
  {
    q.text != "" && q.answer != "" && q.explanation != ""
  }

  /** A well-formed list numbered from `from + 1` on survives normalisation
      unchanged. */
  lemma {:induction false} NormaliseUnparse(qs: seq<Question>, from: nat)
    requires forall k :: 0 <= k < |qs| ==> WellFormed(qs[k]) && qs[k].number == from + k + 1
    ensures Normalise(UnparseAll(qs), from) == Ok(qs)
    decreases |qs|
  {
    var raw := UnparseAll(qs);
    if qs != [] {
      assert raw[1..] == UnparseAll(qs[1..]);
      NormaliseUnparse(qs[1..], from + 1);
      assert ToQuestion(raw[0], from) == qs[0];
      assert [qs[0]] + qs[1..] == qs;
    }
  }

  /** Round trip: an exam returned by the client, sent back as the reply to
      a request for its level and for at least as many questions as it holds,
      is accepted and reproduced exactly. */
  lemma GenerateRoundTrip(s: Simulado, numQuestions: int)
    requires forall k :: 0 <= k < |s.questions| ==> WellFormed(s.questions[k]) && s.questions[k].number == k + 1
    requires numQuestions >= |s.questions|
    ensures GenerateSimulado(s.level, numQuestions, Received(Some(UnparseAll(s.questions)))) == Ok(s)
  {
    var raw := UnparseAll(s.questions);
    assert Kept(raw, numQuestions) == raw;
    NormaliseUnparse(s.questions, 0);
    assert Validate(s.level, numQuestions, Some(raw)) == Ok(Simulado(s.level, s.questions));
  }

  /** Every question of a successful result is well formed and numbered by its
      position. */
  lemma SuccessWellFormed(level: Level, numQuestions: int, fetch: Fetch)
    requires GenerateSimulado(level, numQuestions, fetch).Ok?
    ensures var qs := GenerateSimulado(level, numQuestions, fetch).value.questions;
      forall k :: 0 <= k < |qs| ==> WellFormed(qs[k]) && qs[k].number == k + 1
  {
    var kept := Kept(fetch.questions.value, numQuestions);
    var qs := GenerateSimulado(level, numQuestions, fetch).value.questions;
    forall k | 0 <= k < |qs|
      ensures WellFormed(qs[k])
    {
      assert IsComplete(kept[k]);
    }
  }
}
