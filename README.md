# OBMEP exam generator — a Dafny model of its core

The application builds practice exams ("simulados") for the Brazilian Public
Schools Mathematics Olympiad (OBMEP). A user picks one of three levels and a
number of questions from 20 to 30. An AI service is asked for the questions.
The reply is validated, truncated to the requested count and renumbered. The
exam is then shown, and it can be exported to PDF with or without the answer
key.

This project models the core of that application and proves properties of it:

- `types.dfy` (module `Types`): the three levels with their display labels,
  a question and an exam, and the facts about the labels that the file-name
  code relies on (exactly one `(` in each, and the short name before it).
- `gemini_service.dfy` (module `GeminiService`): the level descriptions and
  the handling of the parsed AI reply. A missing or non-array `questions` is
  rejected. The first `numQuestions` entries are kept (with the JavaScript
  `slice` semantics). They are rejected as a whole if one lacks a truthy
  text, options, answer or explanation. Otherwise they are renumbered
  1, 2, … and wrapped with the level. Every failure becomes one fixed message.
- `simulado_view.dfy` (module `SimuladoView`): the PDF export. It covers the
  text items written (title, zero-padded question lines, lettered options,
  the optional answer key) and the vertical cursor that moves down and starts
  a new page when a text would cross the bottom margin. It also covers the
  page check before each question, the file name, and the busy flag. The
  handler never waits, so the flag is lowered before it returns and the
  guard against a second export never fires.
- `app.dfy` (module `App`): the page controller. It has five state fields, the
  generate action as two steps (start, then completion with the service's
  outcome), the reset action, and the view chosen with the priority loading,
  then error, then exam, then form.
- `strings.dfy` (module `Strings`) and `results.dfy` (module `Results`): the
  JavaScript string built-ins the code uses (`split`, `trim`, `String(n)`,
  `padStart`, `String.fromCharCode`), and the `Option`/`Result` wrappers.

The PDF engine is abstract. How many lines a text wraps to and the page
height are inputs (`SimuladoView.Metrics`). The line height is the source's
constant, 12 points at 0.352778 mm per point times 1.5. The document is the
log of `addPage` and `text` calls the exporter makes. The layout functions
(`SimuladoView.PlaceAll`, `BlockLayout`, `KeyLayout`, `QuestionLayout`,
`DocumentUpTo`, `DocumentLayout`)
give that log and the cursor for every step, and the exporter's methods are
proved to produce exactly them. The page-break property
(`SimuladoView.WellPlaced`) is proved over exact `real` arithmetic: every
text starts at or below the top margin, and it ends at or above the bottom
limit unless it is taller than the usable page, in which case it starts at
the top margin.

The prompt and the response schema ask for exactly five options and an
answer letter from A to E (services/geminiService.ts:33, 58 and 63). Nothing
in the code checks either. The model
follows the code, so any list of options and any non-empty answer are
accepted.

## Model

| member | source | states |
|---|---|---|
| Types.Label | types.ts:1-5 | definition (short name, " (", school years, ")"); its properties are in `Types.LabelShape`, `Types.LabelSplit` and `Types.LabelPrefix` |
| Types.ShortName | types.ts:1-5 | definition; its properties are in `Types.LabelsDistinct` and `Types.LabelPrefix` |
| Types.Audience | types.ts:1-5 | definition; its properties are in `Types.LabelShape` |
| Types.LabelsDistinct | types.ts:1-5 | the three level labels, and their short names, are pairwise distinct |
| Types.LabelShape | types.ts:1-5 | each label is its short name and a space, then `(`, then the school years and `)`; neither side holds another `(` |
| Types.LabelSplit | types.ts:1-5 | splitting a label at `(` gives exactly two parts, the short name with a trailing space and the years with `)`; each label holds one `(` |
| Types.LabelPrefix | types.ts:1-5 | trimming the part of a label before `(` gives "Nível 1", "Nível 2" or "Nível 3" |
| GeminiService.LevelDescription | services/geminiService.ts:12-23 | every level has a non-empty audience description |
| GeminiService.LevelDescriptionsDistinct | services/geminiService.ts:12-23 | different levels get different descriptions |
| GeminiService.SliceEnd | services/geminiService.ts:98 | `slice(0, n)` stops within the array, at min(n, length) for a non-negative n |
| GeminiService.Kept | services/geminiService.ts:98 | definition (`slice(0, numQuestions)`); its properties are in `GeminiService.SliceEnd`, `GeminiService.SuccessCount` and `GeminiService.TailIgnored` |
| GeminiService.Truthy | services/geminiService.ts:101 | definition (a missing or empty string is falsy); its properties are in `GeminiService.Normalise` and `GeminiService.SuccessWellFormed` |
| GeminiService.IsComplete | services/geminiService.ts:101 | definition; its properties are in `GeminiService.Normalise` |
| GeminiService.ToQuestion | services/geminiService.ts:104-110 | definition; its properties are in `GeminiService.Normalise` and `GeminiService.NormaliseIgnoresNumbers` |
| GeminiService.Normalise | services/geminiService.ts:100-111 | succeeds iff every kept entry is complete; then one question per entry, numbered from the start position plus 1 on, fields copied; otherwise it fails at the first incomplete entry, and every entry before it is complete |
| GeminiService.Validate | services/geminiService.ts:92-117 | a missing or non-array `questions` is malformed; success iff all kept entries are complete; the exam has the requested level and one question per kept entry |
| GeminiService.GenerateSimulado | services/geminiService.ts:92-121 | any failure yields the fixed message; success iff a reply arrived with an array whose kept entries are all complete; the exam has the level, questions numbered 1..k and the fields of the entries |
| GeminiService.ShortReplyAccepted | services/geminiService.ts:98 | a reply with fewer complete entries than requested is accepted with all of them |
| GeminiService.SuccessCount | services/geminiService.ts:98-111 | a successful exam holds min(numQuestions, reply length) questions |
| GeminiService.TailIgnored | services/geminiService.ts:98-100 | entries past the requested count never change the outcome |
| GeminiService.NormaliseIgnoresNumbers | services/geminiService.ts:104-105 | the numbers the reply carries never change the normalised list |
| GeminiService.NumbersIgnored | services/geminiService.ts:104-105 | the numbers the reply carries never change the outcome of a generation |
| GeminiService.NormaliseUnparse | services/geminiService.ts:100-111 | a well-formed list, numbered consecutively and sent back as entries, normalises to itself |
| GeminiService.GenerateRoundTrip | services/geminiService.ts:98-117 | an exam the client returned, sent back as the reply to a request for its level and for at least as many questions as it holds, is accepted and reproduced exactly |
| GeminiService.SuccessWellFormed | services/geminiService.ts:101-110 | every question of a successful exam has a non-empty text, answer and explanation and is numbered by its position |
| Strings.Split | components/SimuladoView.tsx:133 | `split` yields one more part than there are separators, and no part holds the separator |
| Strings.JoinOfSplit | components/SimuladoView.tsx:133 | joining the parts of a split with the separator gives the string back |
| Strings.SplitOfJoin | components/SimuladoView.tsx:133 | splitting a join of separator-free parts gives the parts back |
| Strings.TrimStart | components/SimuladoView.tsx:133 | the result is a suffix, all of what was dropped is white space, and it does not start with white space |
| Strings.TrimEnd | components/SimuladoView.tsx:133 | the result is a prefix, all of what was dropped is white space, and it does not end with white space |
| Strings.TrimIdempotent | components/SimuladoView.tsx:133 | trimming twice is trimming once |
| Strings.IsSpace | components/SimuladoView.tsx:133 | definition (the characters `trim()` removes); its properties are in `Strings.TrimStart` and `Strings.TrimEnd` |
| Strings.Trim | components/SimuladoView.tsx:133 | definition (`trimStart` then `trimEnd`); its properties are in `Strings.TrimStart`, `Strings.TrimEnd` and `Strings.TrimIdempotent` |
| Strings.IntToString | components/SimuladoView.tsx:110 | definition (a minus sign before the decimal notation of a negative number); its properties are in `Strings.PaddedNumberRoundTrip` |
| Strings.NatToString | components/SimuladoView.tsx:110 | `String(n)` of a natural number is non-empty and has one digit exactly when n < 10 |
| Strings.PadStart | components/SimuladoView.tsx:110 | `padStart` reaches the width, ends with the original string and fills the front with the filler |
| Strings.PaddedNumberRoundTrip | components/SimuladoView.tsx:110 | a number written with `String(n).padStart(2, '0')` reads back as n, for every integer n, and the writing is all digits after an optional minus sign (so the filler is the digit `0`) |
| Strings.PaddedNumberWidth | components/SimuladoView.tsx:110 | numbers 0..99 take exactly two characters once padded; 0..9 get a leading `0` |
| Strings.FromCharCode | components/SimuladoView.tsx:116 | `String.fromCharCode` gives the character with that code below the surrogate range |
| SimuladoView.TitleItem | components/SimuladoView.tsx:92 | definition; its properties are in `SimuladoView.TitleFirst` |
| SimuladoView.NumberLabel | components/SimuladoView.tsx:110 | definition; its properties are in `SimuladoView.NumberLabelPads` and `SimuladoView.HeaderRoundTrip` |
| SimuladoView.HeaderText | components/SimuladoView.tsx:110 | definition; its properties are in `SimuladoView.HeaderRoundTrip` |
| SimuladoView.OptionText | components/SimuladoView.tsx:116 | definition; its properties are in `SimuladoView.OptionItemsAt` and `SimuladoView.OptionLetters` |
| SimuladoView.AnswerItems | components/SimuladoView.tsx:124-127 | definition; its properties are in `SimuladoView.AnswerKeyPlacement` and `SimuladoView.NoAnswerKeyWithout` |
| SimuladoView.QuestionsItems | components/SimuladoView.tsx:96-129 | definition; its properties are in `SimuladoView.QuestionsItemsSnoc`, `SimuladoView.QuestionsItemsLength` and `SimuladoView.QuestionBlockAt` |
| SimuladoView.Items | components/SimuladoView.tsx:91-129 | definition; its properties are in `SimuladoView.TitleFirst` and `SimuladoView.DocumentLayoutTexts` |
| SimuladoView.BlockEstimate | components/SimuladoView.tsx:100-103 | definition; its use is stated in `SimuladoView.QuestionLayoutBreak` |
| SimuladoView.Limit | components/SimuladoView.tsx:50 | definition (the page height less the bottom margin, also at lines 74 and 105); its properties are in `SimuladoView.PdfWriter.Place`, `SimuladoView.WellPlaced` and `SimuladoView.QuestionLayoutBreak` |
| SimuladoView.Height | components/SimuladoView.tsx:47-48 | definition (the wrapped line count times the line height, also at lines 71-72); its properties are in `SimuladoView.PdfWriter.Place` and `SimuladoView.WellPlaced` |
| SimuladoView.WellPlaced | components/SimuladoView.tsx:50-58 | definition; it is kept by every `SimuladoView.PdfWriter` method and holds of `SimuladoView.RenderPdf`'s document |
| SimuladoView.PlaceOne | components/SimuladoView.tsx:47-58 | definition; its properties are in `SimuladoView.PdfWriter.Place` and `SimuladoView.PlaceAllTexts` |
| SimuladoView.PlaceAll | components/SimuladoView.tsx:115-118 | definition; its properties are in `SimuladoView.PlaceAllTexts` and `SimuladoView.RenderOptions` |
| SimuladoView.BlockLayout | components/SimuladoView.tsx:110-128 | definition; its properties are in `SimuladoView.BlockLayoutTexts` and `SimuladoView.RenderBlock` |
| SimuladoView.KeyLayout | components/SimuladoView.tsx:121-128 | definition; its properties are in `SimuladoView.BlockLayoutTexts` and `SimuladoView.RenderKey` |
| SimuladoView.QuestionLayout | components/SimuladoView.tsx:97-128 | definition; its properties are in `SimuladoView.QuestionLayoutTexts`, `SimuladoView.QuestionLayoutBreak` and `SimuladoView.RenderQuestion` |
| SimuladoView.DocumentUpTo | components/SimuladoView.tsx:91-129 | definition; its properties are in `SimuladoView.DocumentUpToTexts` and `SimuladoView.RenderQuestions` |
| SimuladoView.DocumentLayout | components/SimuladoView.tsx:91-129 | definition; its properties are in `SimuladoView.DocumentLayoutTexts` and `SimuladoView.RenderPdf` |
| SimuladoView.NumberLabelPads | components/SimuladoView.tsx:110 | the question-number label is `String(n).padStart(2, '0')` |
| SimuladoView.OptionItems | components/SimuladoView.tsx:115-118 | one line per option |
| SimuladoView.OptionItemsAt | components/SimuladoView.tsx:115-118 | the option at position i is written as its letter, `) ` and its text, left-aligned at indent 5 in the normal font |
| SimuladoView.OptionLetter | components/SimuladoView.tsx:116 | definition (`String.fromCharCode(65 + i)`); its properties are in `SimuladoView.OptionLetters` |
| SimuladoView.OptionLetters | components/SimuladoView.tsx:116 | the option at position i gets letter `A` + i; distinct positions get distinct letters; the first 26 are A–Z |
| SimuladoView.QuestionItems | components/SimuladoView.tsx:109-128 | a question writes 1 + options + (3 with the answer key) lines |
| SimuladoView.QuestionsItemsSnoc | components/SimuladoView.tsx:96-129 | the lines of the first i + 1 questions are those of the first i, then question i's |
| SimuladoView.QuestionsItemsLength | components/SimuladoView.tsx:96-129 | the questions write as many lines as their block sizes add up to |
| SimuladoView.QuestionBlockAt | components/SimuladoView.tsx:96-129 | questions are written in exam order, each as one contiguous block right after the blocks of the questions before it |
| SimuladoView.TitleFirst | components/SimuladoView.tsx:92 | the document opens with the centred title "Simulado OBMEP - " and the level label, followed by the question blocks |
| SimuladoView.NoAnswerKeyWithout | components/SimuladoView.tsx:121-128 | without the answer key, no bold line is written at all |
| SimuladoView.AnswerKeyPlacement | components/SimuladoView.tsx:121-128 | with the answer key, exactly the three answer lines follow a question's options; without it, the block ends with the options |
| SimuladoView.HeaderRoundTrip | components/SimuladoView.tsx:109-111 | the question line is "Questão ", two digits that read back as the number, ": " and the text |
| SimuladoView.FileName | components/SimuladoView.tsx:133 | definition; its properties are in `SimuladoView.FileNameShape` and `SimuladoView.FileNameInjective` |
| SimuladoView.FileNameShape | components/SimuladoView.tsx:133 | the file name is "Simulado OBMEP - ", the short level name, " com Gabarito" when the key is included, and ".pdf" |
| SimuladoView.FileNameInjective | components/SimuladoView.tsx:133 | different levels or answer-key choices give different file names |
| SimuladoView.PdfWriter.constructor | components/SimuladoView.tsx:40 | a new document is empty and its cursor is at the top margin |
| SimuladoView.PdfWriter.Place | components/SimuladoView.tsx:47-58 | a text that would cross the bottom limit goes on a new page at the top margin; the cursor moves down by the text's height; the page-break invariant holds |
| SimuladoView.PdfWriter.AddText | components/SimuladoView.tsx:43-63 | one left-aligned text (bold on request): a new page and the text at the top margin when it would cross the bottom limit, else the text at the cursor; the cursor moves below it |
| SimuladoView.PdfWriter.AddCenteredText | components/SimuladoView.tsx:65-86 | one centred text (title font on request): a new page and the text at the top margin when it would cross the bottom limit, else the text at the cursor; the cursor moves below it |
| SimuladoView.PdfWriter.Skip | components/SimuladoView.tsx:93 | a spacing step moves the cursor down and writes nothing |
| SimuladoView.PdfWriter.BreakBefore | components/SimuladoView.tsx:99-108 | when the estimated block would cross the bottom limit, a new page starts at the top margin; nothing is written |
| SimuladoView.RenderOptions | components/SimuladoView.tsx:115-118 | the loop over the options issues exactly the events of placing the option lines one by one from the cursor, and leaves the cursor where that placing ends; the page-break invariant holds |
| SimuladoView.RenderAnswer | components/SimuladoView.tsx:124-127 | issues exactly the events of placing the three answer-key lines one by one, and leaves the cursor where that placing ends |
| SimuladoView.RenderBlock | components/SimuladoView.tsx:110-128 | the question line, half a line of space, the options and, with the key, a line and a half of space and the key: events and cursor are those of `BlockLayout` |
| SimuladoView.RenderKey | components/SimuladoView.tsx:121-128 | with the answer key, a line and a half of space and the three key lines; without it, nothing: events and cursor are those of `KeyLayout` |
| SimuladoView.RenderQuestion | components/SimuladoView.tsx:97-128 | a line of space, a new page when the estimated block would cross the bottom limit, then the block: events and cursor are those of `QuestionLayout` |
| SimuladoView.RenderQuestions | components/SimuladoView.tsx:96-129 | started just below the title, the loop over the questions issues each question's layout after the one before, so the writer ends holding exactly `DocumentLayout`, with the cursor where the last question left it, and the page-break invariant still holds |
| SimuladoView.RenderPdf | components/SimuladoView.tsx:40-129 | the document is exactly `DocumentLayout`: the title at the top margin, two lines of space, the questions; it holds exactly the title and the question blocks, in order, and every text respects the page-break invariant |
| SimuladoView.PlaceAllTexts | components/SimuladoView.tsx:47-58 | placing items one by one writes exactly those items, in order, whatever pages it starts |
| SimuladoView.BlockLayoutTexts | components/SimuladoView.tsx:110-128 | a question's block writes exactly the question line, the option lines and, with the key, the three answer lines |
| SimuladoView.QuestionLayoutTexts | components/SimuladoView.tsx:97-128 | the page check before a question writes no text: the question's layout writes exactly its block |
| SimuladoView.QuestionLayoutBreak | components/SimuladoView.tsx:97-111 | a question's layout starts with a new page exactly when, after the line of space, its estimated block or its question line would cross the bottom limit; otherwise the question line goes right there, and after a break it goes at the top margin when it fits |
| SimuladoView.DocumentUpToTexts | components/SimuladoView.tsx:91-129 | the document up to any number n of questions writes exactly the title, then the blocks of the first n questions, in exam order |
| SimuladoView.DocumentLayoutTexts | components/SimuladoView.tsx:91-129 | the document writes exactly the title, then each question's block |
| SimuladoView.ExamView.constructor | components/SimuladoView.tsx:15 | the view starts not downloading, with nothing saved |
| SimuladoView.ExamView.HandleDownloadPdf | components/SimuladoView.tsx:17-141 | ignored when the busy flag is up; otherwise one file is saved under the computed name with the document `DocumentLayout` gives (nothing when the engine fails), and the busy flag is down again on return, so starting from the constructor the guard never fires |
| App.Initial | App.tsx:11-15 | definition; its properties are in `App.InitialShowsForm` |
| App.WithLevel | App.tsx:11 | definition (the `setLevel` setter); its properties are in `App.AppController.SetLevel` and `App.ConsistentPreserved` |
| App.WithNumQuestions | App.tsx:12 | definition (the `setNumQuestions` setter); its properties are in `App.AppController.SetNumQuestions` and `App.ConsistentPreserved` |
| App.HasError | App.tsx:41 | definition (the truthiness test on the error, so an empty message counts as none); its properties are in `App.SelectView` and `App.ErrorViewIffError` |
| App.Started | App.tsx:18-20 | definition; its properties are in `App.StartedShowsLoading` and `App.ConsistentPreserved` |
| App.Completed | App.tsx:21-29 | definition; its properties are in `App.CompletedExactlyOne` and `App.ConsistentPreserved` |
| App.Reset | App.tsx:32-35 | definition; its properties are in `App.ResetKeepsSettings` and `App.ConsistentPreserved` |
| App.Offers | App.tsx:37-66 | definition (the form offers the pickers and generate; the error and exam views offer reset); its properties are in `App.GenerateOnlyWhenIdle` and `App.ResetOnlyFromErrorOrExam` |
| App.SelectView | App.tsx:37-67 | loading is shown iff loading; the error iff not loading and the error is non-empty; the exam iff neither and there is one; the form otherwise |
| App.InitialShowsForm | App.tsx:11-15 | the page starts at level 1 with 20 questions, consistent, showing the form |
| App.GenerateOnlyWhenIdle | App.tsx:37-66 | generating is offered iff nothing loads and there is neither an error nor an exam, so never while a generation is in flight |
| App.ResetOnlyFromErrorOrExam | App.tsx:41-57 | reset is offered only from the error view or the exam view |
| App.StartedShowsLoading | App.tsx:18-20 | after starting, only the loading indicator is shown and the settings are kept |
| App.CompletedExactlyOne | App.tsx:21-29 | after completion, exactly one of the exam and the error is set, the exam iff the service succeeded, and the page shows it; the stored exam is exactly the one the service returned |
| App.ResetKeepsSettings | App.tsx:32-35 | reset clears the exam and the error, keeps level, count and loading flag, and leads back to the form |
| App.ConsistentPreserved | App.tsx:17-35 | every handler keeps the state consistent: nothing shown while loading, never both exam and error, only the fixed message, count in 20..30 |
| App.ErrorViewIffError | App.tsx:26-41 | in a consistent state the error view appears exactly when an error is set |
| App.AppController.constructor | App.tsx:11-15 | level 1, 20 questions, no exam, not loading, no error |
| App.AppController.SetLevel | App.tsx:11 | only the level changes |
| App.AppController.SetNumQuestions | App.tsx:12 | only the count changes, within 20..30 |
| App.AppController.StartGenerate | App.tsx:17-22 | raises the loading flag, clears error and exam, and captures the level and count |
| App.AppController.CompleteGenerate | App.tsx:22-29 | stores the exam on success or the fixed message on failure, and lowers the loading flag |
| App.AppController.HandleReset | App.tsx:32-35 | clears the exam and the error and nothing else |

## Left out

- Strings.IntToString: gives plain decimal digits for every integer; JavaScript's `String(n)` switches to exponent notation ("1e+21") from 10^21 in magnitude, which question numbers never reach.
- The AI client itself is not modelled: the API-key check, the client object, the prompt text, the response schema, the network call and `JSON.parse`. Their outcome is the `GeminiService.Fetch` parameter: a transport failure, or the parsed `questions` property.
- Field values of the wrong JSON type are not modelled. A reply field is a string (or a list of strings), present or absent. A number where a string belongs, or a non-array truthy `options`, has no counterpart.
- Question numbers are integers. The `number` field is a JavaScript number, and fractional or non-finite values are not modelled.
- `console.error` and `alert` are left out as logging and UI side effects.
- The jsPDF engine is abstract: construction, `splitTextToSize`, the page size, fonts and font sizes, `save`. `SimuladoView.Metrics` supplies the line count of a text in a given font and the page height. The horizontal positions are kept only as "centred" or an indent from the left margin.
- The block-height estimate (`SimuladoView.BlockEstimate`) counts text lengths in Unicode code points. JavaScript's `length` counts UTF-16 code units, and the two differ only for characters outside the Basic Multilingual Plane.
- Heights use exact `real` arithmetic, not floating point.
- Strings.FromCharCode: a code unit in the surrogate range is not a Dafny `char` and is modelled as U+FFFD. The option letters reach that range only after 55 000 options.
- The asynchronous generate handler is two explicit steps: `App.AppController.StartGenerate` and `App.AppController.CompleteGenerate`. React's state batching and re-rendering are not modelled.
- The form, the loading indicator and the on-screen question list are JSX, so they are not modelled. The form's slider bounds become the precondition of `App.AppController.SetNumQuestions`.
- SimuladoView.HeaderRoundTrip: reading the number back is stated for 0..99, the numbers `generateSimulado` assigns to exams of up to 99 questions; larger numbers are written whole and read back by `Strings.PaddedNumberRoundTrip`.
