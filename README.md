# WOOP Coach Pro — a Dafny model of the coaching app's logic

WOOP Coach Pro is a small React app that walks a user through the four WOOP
stages (Wish, Outcome, Obstacle, Plan) in a chat with a text-generation
service, then shows a summary screen with the four answers, a generated
report and a 28-day log. This project models the app's logic and proves
its properties:

- `types.dfy` (`Types`): the `WOOPStep` enumeration, the `WOOPData` answers with
  their four slots, chat roles and turns, and the `toLowerCase` lookup of a
  stage's answer slot.
- `constants.dfy` (`Constants`): the stage catalog `WOOP_INFO.steps` as a
  constant map keyed by stage value. The lookup is partial because SUMMARY has
  no entry.
- `coach_session.dfy` (`Coach`): the coaching session as the class
  `CoachSession`. Its fields are the component's state hooks (`currentStep`,
  `data`, `inputValue`, `isTyping`, `messages`). The submit handler is split at
  its `await` into `Submit` followed by `Complete(reply)` or `Fail()`. The
  field `pending` holds what the suspended handler captured (stage and raw
  text). The stage-change effect that resets the transcript is
  `ResetTranscript`. The constructor runs it, and `NextStep` and `PrevStep`
  run it through `EnterStage`, which sets the stage first.
- `summary.dfy` (`Summary`): the report line classifier, the If-Then plan
  card, the four cards, the 28 log labels, and the class `SummaryView`.
  `SummaryView` holds the fetched report and the loading flag.
- `app.dfy` (`App`): the three-view shell as the class `AppState`, with its
  navigation label and the screen it renders.
- `js_builtins.dfy` (`JsBuiltins`): the JavaScript built-ins these rely on.
  These are `trim`, `startsWith`, `split('\n')`, `join`, `indexOf`,
  `toLowerCase` and decimal rendering, stated with the ECMAScript whitespace
  set.
- `scenarios.dfy` (`Scenarios`): end-to-end walks through the app, proved
  from the contracts and the function definitions above.
- `wrappers.dfy` (`Wrappers`): `Option`.

The coach and report services are oracles. `Submit` returns the request it
would send (stage, raw text, serialized context). The caller then supplies
the outcome: a reply that may be missing or empty, or a thrown error.

Behaviour of the code worth stating plainly, which the model follows:

- A thrown coach-service error does not record the answer. Only a returned
  reply (possibly empty) does.
- `nextStep` at PLAN leaves the stage at PLAN and hands off the answers. It
  never sets SUMMARY.
- The forward and back handlers themselves have no guard on a completed
  exchange. Their buttons are the only way to call them, and the buttons are
  shown only when the transcript has at least two turns and no reply is
  pending (`ControlsOffered`). `NextStep` and `PrevStep` therefore require
  `ControlsOffered()`. The session invariant keeps user and model turns
  alternating, so a stage can only be left after a user turn in it has been
  followed by a model turn (the reply, the placeholder, or the apology after a
  thrown error), and never while a request is in flight.
- After a thrown coach-service error the stage can be left with its answer
  slot not updated: the apology is a model turn, so the controls come back
  (`FailThenAdvance`). The controls do not guarantee that the stage has an
  answer.
- A report-service error leaves the report `''`. A returned empty or missing
  text also gives `''`, so the two cannot be told apart on screen.

## Model

| member | source | states |
|---|---|---|
| Types.StepNamed | types.ts:2-8 | each string value names exactly one member of the enumeration, and that member's value is the string |
| Types.StepValuesInOrder | types.ts:2-8 | `Object.values(WOOPStep)` holds the five values in declaration order, so `indexOf` yields positions 0..4 |
| Types.FieldNamed | types.ts:10-15 | a property name selects a `WOOPData` slot exactly when it is one of `wish`, `outcome`, `obstacle`, `plan` |
| Types.SlotOf | components/CoachSession.tsx:49 | lower-casing each of the first four stage values names exactly that stage's slot; `summary` names none |
| Types.WoopData.With | components/CoachSession.tsx:50 | the spread update overwrites the chosen slot with the text and keeps the other three |
| Constants.Lookup | constants.tsx:6-27 | the catalog has an entry for every stage except SUMMARY; every entry has a non-empty title, prompt and coach instruction |
| Constants.CatalogKeys | constants.tsx:6-27 | the catalog has exactly four entries, keyed WISH, OUTCOME, OBSTACLE and PLAN |
| Constants.TitleNamesStage | constants.tsx:8-23 | each title contains its English stage name in parentheses |
| Constants.InstructionFor | services/geminiService.ts:33 | the coach instruction sent for a stage falls back to `""`, and is empty exactly for SUMMARY |
| Coach.Advanced | components/CoachSession.tsx:59-67 | `nextStep` moves one stage forward in declaration order and hands off exactly at PLAN |
| Coach.Retreated | components/CoachSession.tsx:69-75 | `prevStep` moves one stage back and stays at WISH |
| Coach.AdvanceRetreatInverse | components/CoachSession.tsx:59-75 | moving forward then back, or back then forward, returns to the same stage, so no stage is skipped |
| Coach.Opening | components/CoachSession.tsx:21-23 | a stage's opening turn is a model turn holding the stage's catalog prompt, which is never empty |
| Coach.Serialize | components/CoachSession.tsx:43 | a turn's context line begins with the role name and `: `, ends with the text, and holds a newline exactly when the text does |
| Coach.Context | components/CoachSession.tsx:43 | the context is empty exactly for an empty transcript; otherwise it begins with the first turn's line and ends with the last turn's |
| Coach.ContextLines | components/CoachSession.tsx:43 | the context has one `role: text` line per transcript turn, in order, when no turn holds a newline |
| Coach.ReplyText | components/CoachSession.tsx:46 | the model turn is the reply when it is a non-empty text and the fixed placeholder otherwise; it is never empty |
| Coach.ProgressPercent | components/CoachSession.tsx:78 | progress is 20 times one more than the stage's declaration position: 20, 40, 60, 80 for WISH..PLAN |
| Coach.NextLabel | components/CoachSession.tsx:160 | the forward button shows the final-plan label exactly at PLAN |
| Coach.Refuses | components/CoachSession.tsx:35 | a submission is refused exactly when the input is all whitespace or a reply is pending |
| Coach.CoachSession.constructor | components/CoachSession.tsx:13-25 | a new session is at WISH with empty answers, empty input, no pending reply, and a transcript of WISH's prompt alone |
| Coach.CoachSession.ResetTranscript | components/CoachSession.tsx:20-25 | on a stage change the transcript becomes that stage's opening prompt alone |
| Coach.CoachSession.EnterStage | components/CoachSession.tsx:20-25 | the given stage becomes current, the transcript restarts with its prompt alone, and the session invariant holds again; nothing else changes |
| Coach.CoachSession.SetInput | components/CoachSession.tsx:170 | typing sets the input value |
| Coach.CoachSession.ControlsOffered | components/CoachSession.tsx:147-162 | the back/forward controls are shown exactly when there are at least two turns and no reply is pending; in a valid session that means the current stage holds a user turn answered by a model turn, the transcript ends on a model turn, and nothing is in flight |
| Coach.CoachSession.Progress | components/CoachSession.tsx:78-100 | the displayed progress during the interview lies between 20 and 80 |
| Coach.CoachSession.Submit | components/CoachSession.tsx:33-44 | a refused submission changes nothing and calls nothing; an accepted one clears the input, appends one user turn with the raw text, sets the pending flag, and calls the service with the stage, raw text and the pre-submit transcript's context |
| Coach.CoachSession.Accept | components/CoachSession.tsx:37-44 | past the guard: the input is cleared, one user turn with the raw text is appended, a reply becomes pending, and the request carries the stage, the raw text and the context of the transcript before this turn |
| Coach.CoachSession.Complete | components/CoachSession.tsx:46-50 | a returned reply appends one model turn, overwrites only the captured stage's slot with the captured text, and clears the pending flag; the captured stage is always the current one, so this is the current stage's slot |
| Coach.CoachSession.Record | components/CoachSession.tsx:49-50 | the answer lands in the lower-cased stage's slot and the other three slots keep their text |
| Coach.CoachSession.Fail | components/CoachSession.tsx:51-56 | a thrown error appends the apology, leaves the answers unchanged, and clears the pending flag |
| Coach.CoachSession.NextStep | components/CoachSession.tsx:59-67 | callable only while the controls are shown; at PLAN the state is unchanged and the current answers are handed off; before PLAN the stage moves one forward and the transcript restarts with its prompt |
| Coach.CoachSession.PrevStep | components/CoachSession.tsx:69-75 | callable only while the controls are shown; at WISH nothing changes; otherwise the stage moves one back and the transcript restarts with its prompt |
| Summary.ClassifyLine | components/Summary.tsx:98-109 | a line is a heading exactly when it starts with `# `, `## ` or `### `; table and paragraph blocks hold the line verbatim |
| Summary.HeadingMarkers | components/Summary.tsx:98-100 | `# `, `## ` and `### ` select heading levels 1, 2 and 3, and the text is the rest of the line |
| Summary.ClassifyLineLossless | components/Summary.tsx:97-109 | every non-blank block keeps the whole line (marker plus text, or verbatim); a blank block comes exactly from a whitespace-only non-heading line |
| Summary.TableLineIff | components/Summary.tsx:101-107 | a non-heading line is a table line exactly when its first non-whitespace character is `\|` |
| Summary.NotHeading | components/Summary.tsx:98-100 | a line that does not begin with `#` is not a heading |
| Summary.ParagraphLine | components/Summary.tsx:109 | a non-heading line whose first non-whitespace character is not `\|` is a paragraph holding the line verbatim |
| Summary.ClassifyMarkdownStable | components/Summary.tsx:97-109 | the written-back form of a block classifies as the same block |
| Summary.Classify | components/Summary.tsx:97 | the report yields one block per newline-separated line: newlines plus one |
| Summary.ClassifyAround | components/Summary.tsx:97 | blocks keep input order: the blocks of `a + "\n" + b` are those of `a` followed by those of `b` |
| Summary.ClassifyOneLine | components/Summary.tsx:97 | a text without newlines is a single block |
| Summary.ClassifyEmpty | components/Summary.tsx:97 | an empty report renders as a single blank block |
| Summary.ClassifyExample | components/Summary.tsx:97-109 | `"# Title\n\nBody text\n\| a \| b \|"` classifies as heading 1 `Title`, blank, paragraph `Body text`, table line `\| a \| b \|` |
| Summary.PlanCard | components/Summary.tsx:78 | the If-Then card begins with `如果 ` and the obstacle, ends with the plan, and is 7 characters longer than the two |
| Summary.PlanCardDeterminesPlan | components/Summary.tsx:78 | with the obstacle fixed, the If-Then card determines the plan |
| Summary.Cards | components/Summary.tsx:74-78 | four cards: wish, outcome, obstacle, then the If-Then card |
| Summary.LogLabels | components/Summary.tsx:125-127 | the execution log has exactly 28 cells |
| Summary.LogLabelsDays | components/Summary.tsx:125-127 | the cells read `DAY 1` to `DAY 28`, and cell `i` reads back as day `i + 1` |
| Summary.SummaryView.constructor | components/Summary.tsx:12-13 | the report starts empty and loading |
| Summary.SummaryView.ReportArrived | components/Summary.tsx:18-23 | the report becomes the returned text, or `''` when it is empty or missing; loading ends |
| Summary.SummaryView.ReportFailed | components/Summary.tsx:20-23 | on an error the report stays as it was; loading ends |
| Summary.SummaryView.Blocks | components/Summary.tsx:97 | once loaded, the report renders as at least one block |
| App.NavLabel | App.tsx:39 | the button reads `开始教练之旅` exactly on the landing view and `重新开始` otherwise |
| App.Rendered | App.tsx:44-46 | exactly one screen is rendered: the one the view names |
| App.AppState.constructor | App.tsx:11-17 | the app starts on the landing view with all four answers empty |
| App.AppState.StartCoaching | App.tsx:19 | shows the coaching view and keeps the stored answers; already there, nothing changes |
| App.AppState.FinishCoaching | App.tsx:20-23 | stores the handed-off answers exactly and shows the summary view |
| App.AppState.ClickLogo | App.tsx:29 | shows the landing view and keeps the stored answers |
| JsBuiltins.TrimStart | components/Summary.tsx:101 | drops exactly the leading whitespace: the result is the suffix of the line from its first non-whitespace character |
| JsBuiltins.TrimEnd | components/Summary.tsx:101 | drops exactly the trailing whitespace: the result is the prefix of the line up to its last non-whitespace character |
| JsBuiltins.Trim | components/CoachSession.tsx:35 | `trim()` is no longer than the text, and a non-empty result neither begins nor ends with whitespace |
| JsBuiltins.TrimEmptyIff | components/CoachSession.tsx:35 | `trim()` is empty exactly when every character is whitespace |
| JsBuiltins.TrimHead | components/Summary.tsx:101 | a non-empty `trim()` begins with the first non-whitespace character |
| JsBuiltins.SplitLines | components/Summary.tsx:97 | `split('\n')` gives one more piece than there are newlines, and no piece holds a newline |
| JsBuiltins.JoinEnds | components/CoachSession.tsx:43 | `join` of no parts is empty; otherwise the result begins with the first part and ends with the last |
| JsBuiltins.SplitSingleLine | components/Summary.tsx:97 | a text without newlines splits into itself alone |
| JsBuiltins.SplitAround | components/Summary.tsx:97 | splitting `a + "\n" + b` gives the pieces of `a` followed by those of `b` |
| JsBuiltins.JoinSplitLines | components/Summary.tsx:97 | joining the pieces of `split('\n')` with newlines gives back the text |
| JsBuiltins.SplitJoinLines | components/CoachSession.tsx:43 | splitting the newline-join of newline-free pieces gives back the pieces |
| JsBuiltins.IndexOf | components/CoachSession.tsx:61 | `indexOf` gives the first position holding the value, or -1 exactly when it is absent |
| JsBuiltins.ToLower | components/CoachSession.tsx:49 | `toLowerCase` maps each character on its own and keeps the length |
| JsBuiltins.Decimal | components/Summary.tsx:127 | a number renders as at least one digit with no leading zero |
| JsBuiltins.ParseDecimalOfDecimal | components/Summary.tsx:127 | reading a rendered number gives back the number |
| Scenarios.AnswerTurn | components/CoachSession.tsx:33-56 | a submitted non-blank answer with a returned reply stays at the stage, records the answer in its slot, and adds exactly the user turn and the model turn |
| Scenarios.AnswerAndAdvance | components/CoachSession.tsx:33-67 | an answered stage then "next": before PLAN the answer is recorded and the stage moves one on; at PLAN the hand-off carries the answers with the plan just given |
| Scenarios.Interview | components/CoachSession.tsx:33-67 | answering the four stages in order hands off exactly those four answers |
| Scenarios.WishThenAdvance | components/CoachSession.tsx:33-75 | answering at WISH records the wish; moving on gives OUTCOME with its prompt alone and no controls offered |
| Scenarios.FailedTurn | components/CoachSession.tsx:51-56 | a failed turn leaves the answers empty, ends with the apology, and is not pending |
| Scenarios.FailThenAdvance | components/CoachSession.tsx:51-67 | after a failed submission at WISH the controls are shown, and "next" reaches OUTCOME with the wish still empty |
| Scenarios.FullInterview | App.tsx:19-46 | four answered stages hand off exactly the four answers; the app stores them, and the summary shows them and renders the report |

## Left out

- The coach and report services (`services/geminiService.ts`) are oracles. The prompt templates, model name and API key are not modelled. Only the instruction fallback on line 33 is modelled (`InstructionFor`).
- The landing page (`components/Landing.tsx`) is static content and a scroll call.
- Rendering, CSS classes, stage colours, auto-scroll (components/CoachSession.tsx:27-31), `window.print`, the share button and the decorative SVG are not modelled.
- Asynchrony is reduced to the `Submit` / `Complete` or `Fail` split. React's batching of state updates and effect scheduling are not modelled: the transcript reset runs at the moment the stage changes.
- Coach.ProgressPercent: integer arithmetic. The source computes in floating point and rounds for display. The values agree for all five stages, but the bar width's raw float is not modelled.
- The day toggles of the 28-cell log are not modelled. The source never stores them.
- The unused `CoachState` interface (types.ts:22-27) is not modelled.
- JsBuiltins.ToLower: ASCII case mapping only. The source applies it only to the ASCII stage values.
- Unmounting and remounting of components is not modelled. Leaving the coaching view discards the session, and entering it creates a new `CoachSession`.
- The `console.error` calls in both catch blocks (components/CoachSession.tsx:52, components/Summary.tsx:21) are not modelled. They only log.
- Strings are sequences of Unicode scalar values, not the UTF-16 code units JavaScript uses. Lengths and indices of text outside the Basic Multilingual Plane therefore differ from the source's.
- Coach.CoachSession.SetInput: accepts any text at any time. The source's input box is a single-line text field and is disabled while a reply is pending (components/CoachSession.tsx:165-174). The model neither excludes newlines from the input nor blocks typing while `isTyping`.
