# NeuroMatrix gateway: verified model of the quiz, the riddle form and the metadata generator

The NeuroMatrix site is a marketing gateway: a visitor solves a riddle or a
five-question "Matrix Agent Challenge", connects a Solana wallet and mints a
commemorative NFT. Almost all of it is presentation. This Dafny project models
the three pieces of logic in it that can be stated exactly:

- `quiz.dfy`, module `Quiz`: the Matrix Agent Challenge
  (`components/MatrixAgentChallenge.tsx`). Class `Challenge` holds the
  component's six pieces of state: `currentQuestion`, `neuroPulse`, `timeLeft`,
  `gameOver`, `agentMood` and `answerStatus`. Its methods are the events the
  component reacts to:
  - `Answer`: an option click;
  - `Tick`: one second of the countdown, together with the effect that ends
    the game at 0;
  - `AfterFeedback`: the callback `handleAnswer` schedules one second after an
    answer;
  - `Restart`: the restart button.

  A ghost field `hits` records, for each answered question, whether the answer
  was right. The invariant `Valid` ties the pulse to the score of those
  answers. That gives the bound of 100, the one-answer-per-question rule and
  an exact characterisation of a passing run.
- `metadata.dfy`, module `Metadata`: `MetadataService.generateMetadata`
  (`app/services/metadata.ts`) as a total function. The two hidden inputs are
  parameters: the `NEXT_PUBLIC_DOMAIN` variable (an `Option<string>`) and the
  `Date.now()` reading (a `nat`). The record's structural invariants are one
  predicate, `WellFormed`. The timestamp is rendered in decimal, and a
  round-trip lemma proves the rendering injective. Distinct timestamps
  therefore give distinct `uri`s.
- `gateway.dfy`, module `Gateway`: the riddle form's `handleSubmit`
  (`components/NeuroMatrixGateway.tsx`). Class `RiddleForm` holds `answer`,
  `isCorrect`, `attempts`, `latestTask` and `isSubmitting`. The handler is
  split at its `await`: `BeginSubmit` runs before the request and
  `CompleteSubmit` after it. The server's reply is a parameter: `None` when
  the request threw, otherwise the optional counter value and task content.
- `wrappers.dfy`, module `Wrappers`: `Option` and `Result`.

Behaviour that follows the code rather than a prose description of it:

- `getDomain` rejects an empty `NEXT_PUBLIC_DOMAIN` as well as an unset one,
  because its test is `!domain`.
- The description string keeps the three characters the source file holds
  where a dash was meant.
- The mint endpoint does not use this generator. `app/api/mint/route.ts:25-28`
  passes a fixed name and uri, so the model does not link the two.

## Model

| member | source | states |
|---|---|---|
| `Quiz.EndMood` | components/MatrixAgentChallenge.tsx:52-56 | the end-of-game mood is never neutral, and it is friendly exactly when the pulse passes |
| `Quiz.Score` | components/MatrixAgentChallenge.tsx:67-76 | the pulse earned by a sequence of right/wrong answers never exceeds the rewards of the questions answered |
| `Quiz.AllPulses` | components/MatrixAgentChallenge.tsx:10-41 | the five rewards add up to 100 |
| `Quiz.PulseValues` | components/MatrixAgentChallenge.tsx:10-41 | the rewards are 10, 15, 20, 25 and 30, and the pass mark (five questions times 15) is 75 |
| `Quiz.ScoreByQuestion` | components/MatrixAgentChallenge.tsx:67-76 | the accumulated pulse equals the sum over all questions of the reward earned on each, counting unanswered questions as 0 |
| `Quiz.PassArithmetic` | components/MatrixAgentChallenge.tsx:141 | over the five per-question outcomes, a total above 75 holds exactly when at most one question is missed and both of the 25- and 30-point questions are right |
| `Quiz.CheapMisses` | components/MatrixAgentChallenge.tsx:29-40 | every missed question is worth less than 25 exactly when the 25- and 30-point questions were both answered right |
| `Quiz.PassRule` | components/MatrixAgentChallenge.tsx:141-152 | a run passes exactly when at most one question is missed (wrong or never answered) and no missed question is worth 25 or more |
| `Quiz.Challenge.constructor` | components/MatrixAgentChallenge.tsx:45-50 | the game starts on question 0 with pulse 0, 15 seconds, not over, a neutral mood and no status |
| `Quiz.Challenge.EndGame` | components/MatrixAgentChallenge.tsx:52-56 | the game is over and the mood is friendly exactly when the current pulse passes; nothing else changes |
| `Quiz.Challenge.Answer` | components/MatrixAgentChallenge.tsx:67-76 | a click while over or while a status is shown changes nothing; otherwise the answer is right exactly when it equals the question's answer, only then the pulse grows by that question's reward, and status and mood record the outcome; the question and clock are unchanged; the invariant is kept |
| `Quiz.Challenge.Tick` | components/MatrixAgentChallenge.tsx:58-65 | while the game runs the clock drops by one and reaching 0 ends the whole game with its verdict mood, leaving the question unchanged; once over nothing changes; the clock never goes negative |
| `Quiz.Challenge.AfterFeedback` | components/MatrixAgentChallenge.tsx:78-87 | before the last question it advances by one with a fresh 15 seconds, no status and a neutral mood; after the last it ends the game; the pulse is unchanged and the question index stays within 0..4 |
| `Quiz.Challenge.Restart` | components/MatrixAgentChallenge.tsx:90-97 | restores exactly the initial state and forgets every answer |
| `Quiz.Challenge.PulseBounded` | components/MatrixAgentChallenge.tsx:10-41 | in every reachable state the pulse is at most the rewards of the questions reached, hence at most 100 |
| `Quiz.Challenge.Verdict` | components/MatrixAgentChallenge.tsx:141-152 | the game-over verdict is "pass" exactly when the pulse exceeds 75, equivalently when at most one question was missed and it was worth less than 25 |
| `Quiz.WrongCaseScoresNothing` | components/MatrixAgentChallenge.tsx:67-76 | clicking "blue" on the first question (answer "Blue") is marked incorrect, earns no pulse and makes the agent hostile |
| `Quiz.PerfectRun` | components/MatrixAgentChallenge.tsx:67-97 | picking every right option and letting each feedback pass ends with a pass and a friendly agent |
| `Quiz.PerfectRunAsWritten` | components/MatrixAgentChallenge.tsx:52-56 | in a perfect run driven through the state machine, the pulse the last answer's callback captured is 70 and its `endGame` mood is hostile, while the final pulse is 100 and passes |
| `Metadata.Decimal` | app/services/metadata.ts:50 | the rendered timestamp is a non-empty string of decimal digits without a leading zero |
| `Metadata.ParseDecimalInvertsDecimal` | app/services/metadata.ts:50 | reading the rendered timestamp back gives the timestamp |
| `Metadata.DecimalInjective` | app/services/metadata.ts:50 | distinct timestamps render differently |
| `Metadata.GetDomain` | app/services/metadata.ts:32-38 | fails exactly when the domain variable is unset or empty, and otherwise returns it |
| `Metadata.BaseUrl` | app/services/metadata.ts:40-42 | fails exactly when the domain does; otherwise it is "https://" followed by the domain |
| `Metadata.BaseMetadataUrl` | app/services/metadata.ts:44-46 | fails exactly when the domain does; otherwise it extends the base URL with "/nft/metadata" |
| `Metadata.RecordWellFormed` | app/services/metadata.ts:52-101 | the generated literal has the five attributes in order, shares totalling 100, a royalty within 10000, one image file equal to the image, and the image under the external URL |
| `Metadata.GenerateMetadata` | app/services/metadata.ts:48-101 | with no domain it fails and yields no record; otherwise the record is well formed, its uri is https://domain/nft/metadata/nft-timestamp.json, the external URL is the https origin, the one creator is the argument with share 100, and the royalty is 500 |
| `Metadata.TimestampOnlyAffectsUri` | app/services/metadata.ts:49-59 | two generations differing only in the timestamp agree on every field but uri, and their uris differ exactly when the timestamps do |
| `Metadata.CreatorOnlyAffectsCreatorAddress` | app/services/metadata.ts:90-95 | the creator argument reaches only the address of the single creator entry |
| `Gateway.LowerChar` | components/NeuroMatrixGateway.tsx:124 | upper-case ASCII letters map to their lower-case letter; every other character is unchanged |
| `Gateway.ToLower` | components/NeuroMatrixGateway.tsx:124 | lower-casing keeps the length and lower-cases each character in place |
| `Gateway.RiddleAnswerCases` | components/NeuroMatrixGateway.tsx:124 | an answer is accepted exactly when it is "red" in some capitalisation |
| `Gateway.Reconciled` | components/NeuroMatrixGateway.tsx:99-114 | when the shown count is the optimistic one, the result is the server's count whenever the reply carries one; a server count differing from the captured count plus one is always adopted; without a counter the shown count stays |
| `Gateway.TaskAfter` | components/NeuroMatrixGateway.tsx:115-117 | the latest task is replaced only when the reply carries one, and otherwise unchanged |
| `Gateway.FailedRequestIsEmptyReply` | components/NeuroMatrixGateway.tsx:118-119 | a request that threw affects count and task exactly as a reply with neither object does: not at all |
| `Gateway.RiddleForm.constructor` | components/NeuroMatrixGateway.tsx:9-16 | the form starts with an empty answer, no access, 0 attempts, no task and not submitting |
| `Gateway.RiddleForm.EditAnswer` | components/NeuroMatrixGateway.tsx:218-225 | typing (possible only while not submitting) replaces the answer and nothing else |
| `Gateway.RiddleForm.BeginSubmit` | components/NeuroMatrixGateway.tsx:95-99 | the form is locked and the count rises by exactly one before any reply is used; the pre-submit count is what the handler keeps |
| `Gateway.RiddleForm.CompleteSubmit` | components/NeuroMatrixGateway.tsx:109-130 | the count is reconciled and the task taken from the reply; the form is unlocked on success and failure alike; access becomes granted exactly when the answer lower-cases to "red", and is otherwise left as it was |
| `Gateway.RiddleForm.HandleSubmit` | components/NeuroMatrixGateway.tsx:95-131 | a whole submission ends unlocked, with the server's count if the reply has one (else one more than before), the reply's task if any, and access granted iff previously granted or the answer is right, so access is never revoked |
| `Gateway.SolveWithUppercase` | components/NeuroMatrixGateway.tsx:124-125 | typing "RED" and submitting grants access whatever the server replies |

## Findings

| source | as written | input that shows it | evidently intended | confidence | as-written member | corrected member |
|---|---|---|---|---|---|---|
| components/MatrixAgentChallenge.tsx:52-56 and 78-87 | the callback scheduled by the last answer calls an `endGame` that captured the pulse from before that answer, so the mood is computed on a stale pulse | answer all five questions correctly: the callback sees 70, the agent frowns, and the screen says 100 and "Agent approves" | the end-of-game mood follows the final pulse, as the verdict does | not executed | `Quiz.PerfectRunAsWritten` | `Quiz.Challenge.AfterFeedback` (via `Quiz.Challenge.EndGame`), `Quiz.PerfectRun` |

## Left out

- Canvas, three.js and framer-motion effects are not modelled. This covers the matrix-rain loop (components/NeuroMatrixGateway.tsx:24-78), components/MatrixBackground2.tsx and components/ParticleEffect.tsx: they are random, float-based presentation.
- The progress-bar percentage (components/GlitchProgressBar.tsx) is floating-point presentation. Styling and markup components are not modelled either.
- lib/supabase.ts and app/api/counter/route.ts are not part of this model. Their read-then-write increment runs inside a store library. Only the reply the form consumes is modelled, as `Gateway.CounterReply`.
- The on-mount `fetchGlobalCounter` (components/NeuroMatrixGateway.tsx:80-93) is not modelled. It is outside the submit logic.
- The mint flows are network plumbing and external SDK calls: `mintNFT` in components/NeuroMatrixGateway.tsx, app/mint/page.tsx, app/api/mint/route.ts, app/api/nft/[address]/route.ts, components/NFTDetails.tsx and the mocked components/SolanaNFTMinter.tsx.
- The "shake" animation on a wrong riddle answer (components/NeuroMatrixGateway.tsx:127-129) and the navigation to /mint on a pass (components/MatrixAgentChallenge.tsx:147) are presentation.
- `Gateway.ToLower` handles ASCII letters only, while JavaScript applies full Unicode case mapping. No other character lower-cases to "r", "e" or "d", so which answers are accepted is unaffected.
- `Metadata.Decimal`: JavaScript prints numbers of 10^21 and above in exponent notation, and numbers above 2^53 lose precision. A millisecond clock stays far below both, so timestamps are modelled as unbounded naturals.
- `Quiz.Challenge.AfterFeedback` requires that an answer status is shown, because only an answer schedules the callback. The model therefore does not cover a restart that lands inside the one-second feedback window, after which the pending callback would still advance the fresh game.
- `Quiz.Challenge.Tick` folds the timer effect's `endGame` branch into the tick that reaches 0. The effect normally runs straight after that render. A click or the feedback callback that lands before it, while the clock shows 0 and the game is not yet over, is a timing artefact the model does not cover.
- `Quiz.Challenge.EndGame` uses the current pulse. The stale pulse the delayed callback actually reads is recorded under Findings instead of being reproduced in the class.
