# DNA — Deep Narrative Analysis, modelled in Dafny

DNA is a single-page app. It plays five spoken questions, one per life
domain, and records an answer to each. Each answer is transcribed and
folded into an expert profile:

- Big Five trait scores, raised by keywords.
- Schwartz value scores, raised by keywords.
- A per-domain answer count.
- Three narrative metrics: metaphors, contrasts and depth.
- The answer fragments themselves.

When the last answer is in, the app writes a fixed-form text report that
names the dominant trait and the dominant value.

This project models the core of `src/app/page.tsx`. It is split into these modules:

- `Text`: the JavaScript string operations the core relies on. These are
  `toLowerCase`, `split(' ')`, `includes`, template concatenation and the
  decimal rendering of a number.
- `Catalog`: the question catalogue `PERGUNTAS_DNA`.
- `Profile`: the `ExpertProfile` record and `criarPerfilInicial`.
- `Analysis`: `analisarFragmento`, as the pure function `Fold`.
- `Synthesis`: `gerarSinteseFinal`, as the pure function `Report`.
- `MockAnswer`: the fixed transcription that `stopRecording` feeds to the
  analysis, and the profile a run of such answers builds.
- `Session`: the `DNAAnalysisApp` component, as the class `Controller`.
  Its fields are the component's `useState` values. Its methods are the
  callbacks, each with `modifies`. The browser's audio service is not
  modelled. Every callback receives the outcome of its audio call as a
  parameter: microphone access, the recorder's start, playback failure
  or stop failure. A failed outcome carries the reason that picks the
  error's message, and for a thrown error or a recorder error, its text. A callback that awaits a later event leaves that event
  pending in a counter or queue of the controller. The event then arrives
  as a method of its own. There are three such events: a playback's end,
  the recorder's answer, and the 1000 ms timer before the next question.
  The guards the user interface puts on a callback are its preconditions.
  The record button is disabled while listening or processing, and it
  stops when recording. The error screen replaces every other control,
  but only for an error whose text is not empty: `error` is tested for
  truth, and the empty string is false.

The session's invariant `Valid` says five things:

- The current question exists.
- The profile scores stay within 0..100.
- One domain counter was raised per stored fragment.
- Every question passed has been answered: the index is at most the
  number of stored fragments.
- Every pending timer names a question.

`CompleteSession` drives a whole session in which every audio call
succeeds. It ends on the report of the profile that five mock answers
build. The `MockAnswer` lemmas state every field of that profile: the
trait and value scores, the three metrics, every domain counter, and
the five fragments in catalogue order.

## Model

| member | source | states |
|---|---|---|
| Text.LowerChar | src/app/page.tsx:118 | `toLowerCase` on one character moves an upper-case letter 32 code points up to its lower-case form, keeps every other character, and never yields an upper-case letter |
| Text.Lower | src/app/page.tsx:118 | `toLowerCase` keeps the length and lowers each character on its own |
| Text.LowerIdempotent | src/app/page.tsx:118 | lowering twice is lowering once |
| Text.Split | src/app/page.tsx:118 | `split(' ')` gives at least one token, even for the empty text |
| Text.SplitTokens | src/app/page.tsx:118 | `split(' ')` gives space-free tokens, one more than the spaces in the text (so the empty text gives one empty token) |
| Text.JoinSplit | src/app/page.tsx:118 | joining the tokens of `split(' ')` with single spaces gives back the text |
| Text.SplitJoin | src/app/page.tsx:118 | splitting a space-joined list of space-free tokens gives back the list |
| Text.SplitAtSpace | src/app/page.tsx:118 | splitting around a space splits each side separately |
| Text.SplitLower | src/app/page.tsx:118 | lowering then splitting gives the lowered tokens of the split, position by position |
| Text.IncludesIff | src/app/page.tsx:132 | `includes` holds exactly when the substring occurs at some position |
| Text.Includes | src/app/page.tsx:132 | an included substring is no longer than the text, and the empty string is always included |
| Text.NotIncludesMissingChar | src/app/page.tsx:132 | a substring with a character absent from the text is not included |
| Text.NotIncludesSingleCandidate | src/app/page.tsx:132 | a substring is not included when its first character occurs once in the text and is not followed there by the substring's second character |
| Text.IncludesTrans | src/app/page.tsx:132 | inclusion is transitive |
| Text.ConcatIncludes | src/app/page.tsx:143-170 | a template includes every piece it concatenates |
| Text.ConcatEnds | src/app/page.tsx:143-170 | a template starts with its first piece and ends with its last |
| Text.NatToString | src/app/page.tsx:148 | an interpolated number is one or more decimal digits with no leading zero |
| Text.ParseNatToString | src/app/page.tsx:148 | reading the interpolated digits back gives the number |
| Catalog.CatalogSize | src/app/page.tsx:33-39 | the catalogue holds five questions |
| Catalog.CatalogNumbering | src/app/page.tsx:33-39 | the questions are numbered 1, 2, 3 and so on in catalogue order |
| Catalog.CatalogDomainOrder | src/app/page.tsx:33-39 | the questions' domains come in the order Autenticidade, Valores, Motivação, Relacionamentos, Conflitos Internos |
| Catalog.CatalogDomainsDistinct | src/app/page.tsx:33-39 | no two questions share a domain |
| Catalog.CatalogDomains | src/app/page.tsx:33-39 | every domain has a question |
| Catalog.DomainIndex | src/app/page.tsx:33-39 | each domain's question has a position in the catalogue |
| Catalog.DomainNameInjective | src/app/page.tsx:44 | distinct domains have distinct display names, so the coverage keys do not collide |
| Profile.Initial | src/app/page.tsx:41-47 | every trait, value, domain counter and metric is zero, there are no fragments, and the profile invariant holds |
| Profile.Coverage.Inc | src/app/page.tsx:131 | the answered domain's counter rises by one, the others are kept, and the total rises by one |
| Profile.OrdersComplete | src/app/page.tsx:42-43 | the declaration orders list every trait and every value exactly once |
| Analysis.Fold | src/app/page.tsx:115-137 | the fragment `[domain] text` is appended, and the answered domain's counter alone rises by one |
| Analysis.Fragment | src/app/page.tsx:117 | the stored fragment `[domain] text` opens with "[", ends with the answer, and is three characters longer than the domain name and the answer together |
| Analysis.Words | src/app/page.tsx:118 | the words of an answer are at least one, none holds a space, and joined by single spaces they give back the lower-cased answer |
| Analysis.Bump | src/app/page.tsx:120-129 | without a keyword hit the score is kept; with one it rises by at most the step; a score within 100 never falls and stays within 100 |
| Analysis.WordsAtSpace | src/app/page.tsx:118 | the lowered words of two texts joined by a space are the words of each |
| Analysis.WordsOfToken | src/app/page.tsx:118 | a space-free text is the one word of its lower-case form |
| Analysis.WordsOfJoin | src/app/page.tsx:118 | the words of space-joined tokens are the lowered tokens |
| Analysis.HasKeywordConcat | src/app/page.tsx:120-133 | a keyword occurs among two word lists exactly when it occurs in one of them |
| Analysis.FoldTraitScore | src/app/page.tsx:118-124 | a trait rises by 10, capped at 100, exactly when some word is one of its keywords, and otherwise is kept |
| Analysis.FoldValueScore | src/app/page.tsx:126-129 | universalismo, benevolência, realização and autodeterminação rise by 8, capped at 100, exactly when a keyword is a word; the other six values never change |
| Analysis.FoldMetrics | src/app/page.tsx:132-134 | metaphors rise by one exactly when the raw text includes "como" and also "igual" or "parece"; contrasts rise by one exactly when a word is "mas", "porém" or "entretanto"; depth rises by the length divided by 100, rounded down |
| Analysis.FoldKeepsInvariant | src/app/page.tsx:120-131 | a fold keeps every score within 100 and the counters in step with the fragments; no score falls, and none rises by more than its step |
| Analysis.FoldEmptyAnswer | src/app/page.tsx:115-137 | an empty answer changes only the fragments and the answered domain's counter |
| Analysis.EmptyAnswerWords | src/app/page.tsx:118 | the empty answer is one empty word, which matches no keyword list |
| Analysis.SampleSentenceWords | src/app/page.tsx:118 | "sou muito responsável e organizado" gives its five words |
| Analysis.SampleTraitHits | src/app/page.tsx:120-124 | that sentence hits the keywords of conscienciosidade and of no other trait |
| Analysis.SampleValueMisses | src/app/page.tsx:126-129 | that sentence hits no value keyword |
| Analysis.FoldRepeatedKeyword | src/app/page.tsx:121 | an answer whose words are those of "sou muito responsável e organizado", two keywords of conscienciosidade, raises conscienciosidade by 10 once when it is at most 90, and leaves the other traits and every value unchanged |
| Analysis.FoldHelpRaisesTwo | src/app/page.tsx:123-127 | the word "ajudar" raises both amabilidade by 10 and benevolência by 8, each capped at 100 |
| Analysis.MetaphorComoParece | src/app/page.tsx:132 | a text with "como" before "parece" counts as a metaphor |
| Analysis.ComoAloneIsNoMetaphor | src/app/page.tsx:132 | "como vai você" does not count as a metaphor |
| Synthesis.SortByScore | src/app/page.tsx:140-141 | sorting the entries keeps them as a permutation |
| Synthesis.SortDescending | src/app/page.tsx:140-141 | the sorted entries are in descending score order |
| Synthesis.ArgMax | src/app/page.tsx:140-141 | the position found holds the highest score, and no earlier position holds it |
| Synthesis.FirstMaxUnique | src/app/page.tsx:140-141 | there is only one first position of the highest score |
| Synthesis.SortHeadIsFirstMax | src/app/page.tsx:140-141 | the head of the stable descending sort is the first entry, in record order, with the highest score |
| Synthesis.Dominant | src/app/page.tsx:140-141 | the dominant entry is `N/A` with 0 only for an empty record, and otherwise the first entry with the highest score |
| Synthesis.DominantTrait | src/app/page.tsx:140 | the dominant trait is the first trait in declaration order with the highest score, so the placeholder never shows |
| Synthesis.DominantValue | src/app/page.tsx:141 | the dominant value is the first value in declaration order with the highest score |
| Synthesis.ReportCount | src/app/page.tsx:148 | the report's summary holds "baseada em N narrativas", with N the number of stored fragments in decimal |
| Synthesis.ReportNamesDominant | src/app/page.tsx:151-157 | the report holds the lines "- Traço Dominante: name (Score: n)" and "- Valor Principal: name (Score: n)" for the dominant trait and value, and so names both |
| Synthesis.Report | src/app/page.tsx:143-170 | the trimmed report starts with the line "=== RELATÓRIO DNA - DEEP NARRATIVE ANALYSIS ===" and ends with "=== FIM DO RELATÓRIO ===" |
| Synthesis.ReportDate | src/app/page.tsx:145 | the report carries the date |
| MockAnswer.MockShape | src/app/page.tsx:364 | the mock transcription is three fixed words, the domain's name with a colon, and a tail of seven words |
| MockAnswer.MockTranscription | src/app/page.tsx:364 | the mock transcription is 88 characters plus the answered domain's name |
| MockAnswer.MockWords | src/app/page.tsx:364 | the mock transcription's lower-case words are "resposta simulada para", the domain name's words, then "responsável, organizado, ajudando pessoas. justiça e igualdade." |
| MockAnswer.DomainWords | src/app/page.tsx:364 | each domain name with its colon gives its lower-cased words |
| MockAnswer.MockTraitMiss | src/app/page.tsx:364 | punctuation keeps the mock answer from hitting any trait keyword |
| MockAnswer.MockValueHits | src/app/page.tsx:364 | the mock answer hits a value keyword for universalismo and for no other value |
| MockAnswer.MockContrastMiss | src/app/page.tsx:364 | the mock answer holds no contrastive word |
| MockAnswer.MockNoMetaphor | src/app/page.tsx:364 | for every domain, the mock answer does not include "como" (its only "c"s are in the domain names, followed by "i"), so it never counts as a metaphor |
| MockAnswer.MockLength | src/app/page.tsx:364 | the mock answer's length divided by 100 is 1 for Autenticidade, Relacionamentos and Conflitos Internos and 0 for the others |
| MockAnswer.MockAnswerEffect | src/app/page.tsx:364-365 | a mock answer keeps every trait, raises universalismo alone by 8, capped at 100, adds no metaphor and no contrast, and adds the domain's depth |
| MockAnswer.AnswerMockKeepsInvariant | src/app/page.tsx:364-365 | answering a question with the mock keeps the profile invariant and adds one fragment |
| MockAnswer.AnswerMock | src/app/page.tsx:364-365 | folding the mock answer to question i keeps every trait, raises universalismo alone by 8, capped at 100, keeps the metaphor and contrast counts, and adds one fragment |
| MockAnswer.MockRunScores | src/app/page.tsx:364-365 | after n mock answers, all traits are zero, universalismo is min(100, 8n), the other values are zero, and there are no metaphors and no contrasts |
| MockAnswer.MockRunCoverage | src/app/page.tsx:364-365 | after mock answers, each domain's counter is the number of answered questions of that domain, and there is one fragment per answer |
| MockAnswer.MockRunDepth | src/app/page.tsx:364-365 | after mock answers, the depth is the sum of the answered domains' depths |
| MockAnswer.MockRunFragments | src/app/page.tsx:364-365 | after a run of mock answers, the fragments are `[domain] mock answer` for each answered question, in order |
| MockAnswer.MockRunWellFormed | src/app/page.tsx:364-365 | any run of mock answers keeps the profile invariant |
| MockAnswer.MockRunStep | src/app/page.tsx:364-365 | a run one answer longer folds that answer into the shorter run |
| MockAnswer.MockProfileStep | src/app/page.tsx:364-369 | the profile after i+1 catalogue answers is answer i folded into the profile after i answers |
| MockAnswer.MockProfileScores | src/app/page.tsx:364-365 | after the first n catalogue answers, traits are zero, universalismo is 8n, the other values are zero, there are no metaphors and no contrasts, there are n fragments and the invariant holds |
| MockAnswer.CatalogMockTotals | src/app/page.tsx:33-39 | over the catalogue, every domain is answered once and the depths add up to 3 |
| MockAnswer.CompleteMockCoverage | src/app/page.tsx:364-370 | after a complete session, every domain counter is 1 |
| MockAnswer.CompleteMockDepth | src/app/page.tsx:364-370 | after a complete session, the depth is 3 |
| MockAnswer.CompleteMockFragments | src/app/page.tsx:364-370 | after a complete session, the fragments are the five mock fragments in catalogue order |
| MockAnswer.DominantTraitOfZeros | src/app/page.tsx:140 | with all traits at zero, the dominant trait is abertura with 0 |
| MockAnswer.DominantValueOfFirst | src/app/page.tsx:141 | with only universalismo possibly non-zero, the dominant value is universalismo |
| MockAnswer.MockDominantTrait | src/app/page.tsx:364-365 | every mock profile's dominant trait is abertura with 0 |
| MockAnswer.MockDominantValue | src/app/page.tsx:364-365 | after n mock answers, the dominant value is universalismo with 8n |
| MockAnswer.CompleteMockReport | src/app/page.tsx:364-370 | the final report of a complete session names abertura and universalismo |
| Session.Controller.constructor | src/app/page.tsx:333-338 | the initial state: idle, question 0, the initial profile, no report, no error, audio not initialized, nothing pending |
| Session.Controller.PlayQuestion | src/app/page.tsx:342-346 | without a question: the error "Nenhuma pergunta para tocar." and finished; otherwise listening, with one more playback pending; nothing else changes |
| Session.Controller.PlaybackEnded | src/app/page.tsx:71-85 | at a playback's end, whether it ended, could not start or failed, the user may record; a failure shows "Erro ao reproduzir áudio" through the catch of line 345; nothing else changes |
| Session.Controller.Initialize | src/app/page.tsx:348-351 | granted: audio initialized, error cleared, listening to the first question; otherwise `MicError` with the refusal's reason, whose text is that of line 57 or 64, and back to idle; the answers so far are kept |
| Session.Controller.StartRecording | src/app/page.tsx:353-357 | without audio, the error "Áudio não inicializado..." in the same state; with audio and a started recorder, recording; a failed start shows `StartError` with its cause while waiting for the user: the message of line 91 without a recorder API, or the message of an error thrown while creating or starting the recorder (lines 94 and 96, caught at line 356); callable only from the enabled record button of line 294, which is on screen while no error with a non-empty text is set (line 389) |
| Session.Controller.StopRecording | src/app/page.tsx:359-362 | processing, with the recorder's answer pending; nothing else changes; callable only from the stop button, shown while recording and no error screen shows |
| Session.Controller.StopFailed | src/app/page.tsx:101-107 | a failed stop shows `StopError` with its cause (the texts of lines 101, 104 and 107) and, as the catch of line 371 does, lets the user record again; the profile and question are kept |
| Session.Controller.RecordingReceived | src/app/page.tsx:362-370 | the mock answer is folded into the profile; before the last question, the index advances and a timer for the next question is set; after it, the report of the new profile is stored and the session finishes |
| Session.Controller.Advance | src/app/page.tsx:366-369 | stores the profile, advances the index by one and queues the timer for that question |
| Session.Controller.Finish | src/app/page.tsx:366-370 | stores the profile, stores its report and finishes |
| Session.Controller.ReplayTimerFired | src/app/page.tsx:369 | the oldest timer fires and its question starts playing |
| Session.Controller.Restart | src/app/page.tsx:374-377 | back to the initial values, with audio no longer initialized |
| Session.Controller.HandleRetry | src/app/page.tsx:379-384 | clears the error; without audio, initializes; with audio while waiting or listening, replays the current question; otherwise restarts; callable only from the error screen of line 389, which shows an error with a non-empty text |
| Session.SilentErrors | src/app/page.tsx:353-357 | an error's text is empty exactly for an error thrown at the recorder's start with an empty message; every other error shows a non-empty text |
| Session.RecordAfterSilentFailure | src/app/page.tsx:353-357 | after a start that threw an empty message, no error screen shows and a second press of the record button starts recording |
| Session.AnswerAndAdvance | src/app/page.tsx:353-370 | recording and stopping a successful answer to a question that is not the last leads to the mock profile of one more answer, with the next question's timer due |
| Session.PlayNext | src/app/page.tsx:369 | the due timer plays the next question, after which the session waits for its answer |
| Session.AnswerLast | src/app/page.tsx:353-370 | answering the last question finishes the session on the report of the complete mock profile |
| Session.CompleteSession | src/app/page.tsx:332-372 | a session whose audio calls all succeed finishes on the last question, with no error, holding the complete mock profile and its report |

## Left out

- Audio I/O: `getUserMedia`, `Audio`, `MediaRecorder` and their blobs are not modelled. Only the outcome of each call is a parameter of the callback that awaits it.
- The 2000 ms fallback when `Audio` is missing (line 71): it ends the playback like a normal end, so it is the `PlaybackEnded(false)` path and has no timer of its own.
- Concurrency: React's batching of state updates, re-rendering and the closures that capture stale state are not modelled. Events arrive one at a time as method calls. `restart` does not cancel timers or playbacks already under way, and the model keeps them pending too.
- Stream release in `restart` and on unmount (lines 376 and 386): the stream is not modelled, so only `isAudioInitialized` is reset.
- The error "Stream de áudio não inicializado" (line 90) is not modelled. Recording needs audio to be initialized, and initialization stores the stream, so the error cannot arise while the controller's invariant holds.
- The error "Pergunta atual indefinida." (line 363) is not modelled. The invariant keeps the current index inside the catalogue, so the current question always exists.
- The fallback messages used when a thrown value is not an `Error` ("Erro ao tocar áudio.", "Erro ao inicializar.", "Erro ao gravar.", "Erro ao processar gravação.") are not modelled. Every throw in the core throws an `Error`.
- `new Date().toLocaleDateString('pt-BR')` is not modelled. The report's date is an opaque string parameter.
- Rendering: the screens, animations, progress bar and live statistics are not modelled. The "Respostas" figure, the sum of the domain counters, is `Coverage.Total`. The profile invariant proves that it equals the number of fragments.
- `toLowerCase` covers ASCII and Latin-1 letters (U+00C0 to U+00DE, except U+00D7), which holds every letter of the core's texts. Other Unicode case mappings are left out. String lengths count characters, which equals UTF-16 code units for these texts.
- Question texts live in `Catalog.Text`, keyed by domain, and not in the `Question` record. Each domain has exactly one question. No operation of the core reads the text.
- Tokenisation follows the code, which is `split(' ')` on the lower-cased text. It is not a general whitespace split. Empty tokens from repeated spaces are kept, and punctuation stays attached to words.
- Playback errors: a playback error shows the fixed message of line 79. In the source that message reaches `setError` through `err.message`, a path that always yields the same text.
- Text.NatToString: JavaScript numbers are doubles, and `${n}` switches to exponent form from 1e21 up and loses integer precision above 2^53. The model renders unbounded naturals in plain decimal. It agrees with the source for every value the core produces: scores stay within 100, and the counts and depth stay far below 2^53.
- Session.Controller.StartRecording: the thrown error's message is a free string parameter, the empty message included. What the browser puts in it is not modelled.
- Logging: the `console.error` calls in the catches of the playback, `initializeApp`, `startRecording` and `stopRecording`, and in `playAudioFromUrl`, are not modelled. They write to the browser console and change no state.
- Error texts: `Session.ErrorText` gives each error the exact message the source shows. The controller stores the error itself, which determines that text.
