# agente: chat session and model adapters, modelled in Dafny

`agente` is a command-line chat client for the generative-AI chat service of
Oracle Cloud. The user picks one of seven on-demand models and asks
questions. The client keeps a session history of the questions and answers.
While the context flag is on, it sends earlier questions along with each new
one. Two adapters turn a question and the history into a chat request. The
Cohere adapter folds the history into one flat message. The Meta Llama
adapter sends it as alternating user and assistant turns.

This project models that core:

- `Session` (`session.dfy`) models the session store, with the class
  `ChatSession`. It covers adding questions, the statistics, the last-N
  view, the plain-text transcript, the context flag and its status line,
  and the 200-character cut of the history display.
- `MetaAdapter` (`meta.dfy`) and `CohereAdapter` (`cohere.dfy`) model the
  two adapters. Each one builds a single-turn request, builds a request
  with history, and reads a reply.
- `Models` (`models.dfy`) models the model ids, the family of an id and
  the factory that picks an adapter.
- `Utils` (`utils.dfy`) models the registry lookups, the numbered menu and
  the grouping of the model listing.
- `Chat` (`chat.dfy`) holds local datatypes. They stand for the cloud
  SDK's request and response types.
- `Decimal` (`decimal.dfy`) models the `%d` spelling of integers and
  `strconv.Atoi`.
- `Common` (`common.dfy`) holds shared pieces: `Option`, `Result`, the
  last-n window, a fold, and Go's division that rounds toward zero.

Results that are easy to miss:

- **Windowing comes first.** Both adapters first take a window of the
  latest entries by position: five for Meta Llama, three for Cohere. Only
  then do they drop the failed entries in it. An answered question older
  than the window is never sent, even when every entry in the window failed
  (`MetaAdapter.CreateChatRequestWithContext`,
  `CohereAdapter.ContextMessageIgnoresOlder`). The model follows the code
  here. The code does not choose "the last three successful questions".
- **Cohere numbers by window position.** The Cohere message numbers each
  pair by its index in the window, not by its rank among the answered
  entries. A failed entry followed by an answered one yields "Pergunta 2"
  with no "Pergunta 1" (`CohereAdapter.NumberingSkipsFailedEntries`,
  `CohereAdapter.BlocksNumberByPosition`).
- **Cohere keeps the header for an all-failed window.** A non-empty history
  whose window holds only failures still has the header and the
  current-question label wrapped around the input
  (`CohereAdapter.AllFailedContextMessage`).
- **The average mixes two populations.** The average processing time adds
  the processing time of every question, failed ones included. It divides
  that sum by the number of successes only. The quotient rounds toward
  zero, as Go's integer division does (`Session.CalculateAverageTime`,
  `Session.FailedQuestionWeighsOnAverage`, `Session.SessionLifecycle`).

How the model stands in for clocks, formatting and map order:

- Time values are nanosecond counts (`Time`, `Duration` as `int`). Every
  read of the wall clock is a parameter `now`.
- Timestamp and duration formatting (`Format("15:04:05")`,
  `Format("02/01/2006 15:04:05")`, `%v` of `Round(time.Millisecond)`) is
  passed in as the functions of a `Formats` value.
- The order in which Go ranges over the model map is unspecified. The
  listing takes it as a sequence of entries given by the caller.

## Model

| member | source | states |
|---|---|---|
| Session.ChatSession.constructor | chat_session.go:31-39 | a new session has the given model id and name, starts at `now`, has no questions and has context enabled |
| Session.ChatSession.AddQuestion | chat_session.go:42-54 | the history grows by exactly one record at the end; its ID is one past the old length and its timestamp is `now`; every ID equals its 1-based position before and after |
| Session.ChatSession.GetStats | chat_session.go:57-79 | the one-pass loop yields exactly `StatsOf` for the history: total = length, 0 <= successes <= total, failed = total - successes, duration = now - start, average 0 without successes |
| Session.StatsConsistent | chat_session.go:57-79 | for any history: the success count is 0 exactly when no question succeeded; the average is 0 then, and otherwise the truncated quotient of the summed processing times by the success count |
| Session.SuccessCountBounded | chat_session.go:62-67 | the success count is at most the length; it equals the length iff every question succeeded and is 0 iff none did |
| Session.SuccessfulOfSelects | chat_session.go:62-65 | the answered questions of a history are exactly those with Success set, and there are SuccessCount of them |
| Session.FailedQuestionWeighsOnAverage | chat_session.go:62-67 | appending a failed question leaves the success count unchanged but adds its processing time to the total that is averaged |
| Session.CalculateAverageTime | chat_session.go:158-163 | 0 for a zero count; otherwise a quotient rounded toward zero: for a non-negative total and positive count r*count <= total < (r+1)*count, and in general the same bounds on absolute values |
| Session.SessionLifecycle | chat_session.go:31-79 | a new session reports zero questions and average 0; after a failed 5 ns question and an answered 7 ns one it reports 2 questions, 1 success, 1 failure and an average of 12 ns |
| Session.ChatSession.GetLastQuestions | chat_session.go:166-177 | an empty history gives an empty result; otherwise the result is the last min(n, length) questions in order, a suffix of the history |
| Session.DisplayedResponse | chat_session.go:107-110 | a response of at most 200 characters is shown unchanged; a longer one is its first 200 characters followed by "..." (203 in all) |
| Session.WriteBlock | chat_session.go:188-199 | the lines written for one question are exactly that question's transcript block |
| Session.ChatSession.ExportHistory | chat_session.go:180-203 | the text is the header (start time, model name, question count) followed by one block per question in history order |
| Session.ExportBlockLayout | chat_session.go:188-199 | a block opens with "PERGUNTA id [clock]:" and the question; it gives "RESPOSTA:", the response and the "(Processado em …)" line with the rounded processing time exactly when the question succeeded and "ERRO:" with the error otherwise; it always ends with the 50-dash divider and a blank line |
| Session.ExportBodyAppend | chat_session.go:187-200 | the blocks of two histories in sequence are the blocks of the first followed by those of the second |
| Session.ExportBodySingle | chat_session.go:187-200 | a one-question history exports exactly that question's block |
| Session.ChatSession.ToggleContext | chat_session.go:206-208 | the flag is negated and nothing else changes |
| Session.ToggleTwice | chat_session.go:206-208 | toggling twice restores the flag and leaves the model, start time and history unchanged |
| Session.ChatSession.SetContext | chat_session.go:211-213 | the flag becomes the given value |
| Session.ChatSession.IsContextEnabled | chat_session.go:216-218 | returns the flag |
| Session.ChatSession.GetContextStatus | chat_session.go:221-226 | the "ATIVADO" line iff context is enabled, the "DESATIVADO" line iff it is not |
| MetaAdapter.CreateChatRequest | meta_implementation.go:14-38 | compartment and model as given; a generic payload with the single user turn holding the input; 600 tokens, temperature 0.1, top-p 0.75, no streaming |
| MetaAdapter.AppendHistory | meta_implementation.go:51-71 | the loop emits exactly the turns of the window's answered questions, in order |
| MetaAdapter.HistoryMessagesArePairs | meta_implementation.go:51-71 | the history has two turns per answered question: turn 2k is the user turn of the k-th answered question and turn 2k+1 its assistant turn |
| MetaAdapter.CreateChatRequestWithContext | meta_implementation.go:41-97 | the messages are the turns of the answered questions among the last five, then the input as a user turn; there are 2*(answered in window)+1 of them; the settings match the single-turn request, which it equals for an empty history |
| MetaAdapter.ProcessResponse | meta_implementation.go:100-117 | succeeds iff the response is generic and its first choice starts with a text content holding a text, returning that text; any other generic response gives "nenhuma resposta recebida do modelo Meta Llama", any other shape the unexpected-format error naming its type |
| MetaAdapter.ProcessResponseReadsReply | meta_implementation.go:101-108 | whatever follows the first text of the first choice, that text is the reply |
| MetaAdapter.GetModelFamily | meta_implementation.go:120-122 | the Meta adapter reports the family tag "meta" |
| CohereAdapter.CreateChatRequest | cohere_implementation.go:14-31 | compartment and model as given; a Cohere payload whose message is the input; 600 tokens, temperature 0.1, top-p 0.75, top-k 0, no streaming |
| CohereAdapter.AppendContextLines | cohere_implementation.go:47-51 | the loop appends exactly the numbered lines of the window's answered questions to the message |
| CohereAdapter.CreateChatRequestWithContext | cohere_implementation.go:34-71 | the message is the input for an empty history, else the header, the numbered pairs of the last three entries and "Pergunta atual: " with the input; settings as in the single-turn request |
| CohereAdapter.BlocksNumberByPosition | cohere_implementation.go:47-51 | the lines of an entry depend on how many entries precede it in the window, not on whether they succeeded |
| CohereAdapter.NumberingSkipsFailedEntries | cohere_implementation.go:47-51 | a failed entry followed by an answered one gives only the lines "Pergunta 2" / "Resposta 2" |
| CohereAdapter.AllFailedWindowHasNoBlocks | cohere_implementation.go:48-50 | a window of failures contributes no lines |
| CohereAdapter.AllFailedContextMessage | cohere_implementation.go:45-53 | a non-empty history whose window holds only failures gives header + label + input, which differs from the input |
| CohereAdapter.ContextMessageIgnoresOlder | cohere_implementation.go:39-47 | entries older than the last three never change the message |
| CohereAdapter.ProcessResponse | cohere_implementation.go:74-83 | succeeds iff the response is a Cohere response with a text, returning it; a missing text gives "resposta vazia do modelo Cohere", any other shape the unexpected-format error naming its type |
| CohereAdapter.GetModelFamily | cohere_implementation.go:86-88 | the Cohere adapter reports the family tag "cohere" |
| Models.IsCohere | models.go:53-66 | true iff the id is one of the three Cohere ids, all of which start with "cohere." |
| Models.IsMetaLlama | models.go:69-83 | true iff the id is one of the four Meta Llama ids, all of which start with "meta.llama-" |
| Models.FamiliesDisjoint | models.go:53-83 | no id is in both the Cohere list and the Meta Llama list |
| Models.GetModelFamily | models.go:41-50 | "cohere" iff the id is a Cohere id, "meta" iff a Meta Llama id, "unknown" iff neither |
| Models.FamilyIndependentOfCaseOrder | models.go:42-49 | testing the Meta Llama list before the Cohere list would classify every id the same way |
| Models.SupportedModelsAreTheFamilies | models.go:22-30 | the registered ids are exactly the ids of the two family lists, i.e. those whose family is not "unknown" |
| Models.ModelImplementation.GetModelFamily | models.go:37 | the Cohere adapter reports "cohere" and the Meta adapter "meta" |
| Models.ModelImplementation.CreateChatRequestWithContext | models.go:35 | the dispatched request is the chosen adapter's request with history; for an empty history it equals the single-turn request |
| Models.CreateModelImplementation | models.go:86-97 | no adapter iff the family is "unknown", iff the id is not registered; the adapter returned reports the id's family |
| Models.ModelImplementation.CreateChatRequest | models.go:34 | ids passed through; a Cohere payload holding the input as message iff the adapter is Cohere's, a generic payload holding one user turn iff it is Meta's; the shared generation settings, with top-k 0 for Cohere; the whole request is the chosen adapter's own |
| Models.ModelImplementation.ProcessResponse | models.go:36 | a success of the Cohere adapter comes from a Cohere response with that text, one of the Meta adapter from a generic response whose first choice starts with that text; on its own shape the Cohere adapter succeeds with the text exactly when one is present and otherwise gives "resposta vazia do modelo Cohere", the Meta adapter succeeds when the first choice starts with a text and otherwise gives "nenhuma resposta recebida do modelo Meta Llama"; any other shape gives the adapter's unexpected-format error naming the type; the result is always the chosen adapter's own |
| Models.AdapterFamiliesMatchRegistry | models.go:37 | the Cohere adapter's tag is the registry family of every Cohere id, the Meta adapter's that of every Meta Llama id, and the two tags differ |
| Models.AdaptersRejectEachOthersShape | models.go:36 | neither adapter accepts the other family's response shape |
| Utils.IsModelSupported | utils.go:80-83 | true iff the id is registered, iff its family is known |
| Utils.GetModelInfo | utils.go:86-94 | for a registered id its description, its family and true; otherwise empty strings and false |
| Utils.ModelForChoice | utils.go:57-76 | a parsed choice 1..7 selects menu entry choice-1; anything else, a parse failure included, selects Meta Llama 3.3 70B; the result is always registered |
| Utils.SelectModel | utils.go:57-76 | a typed choice that does not parse selects Meta Llama 3.3 70B; every choice selects a registered model |
| Utils.SelectModelByNumber | utils.go:57-73 | typing the decimal number of an entry selects that entry |
| Utils.MenuCoversRegistry | utils.go:63-71 | the menu lists every registered model exactly once and nothing else |
| Utils.GroupModels | utils.go:15-24 | the loop puts each entry's listing line into the Cohere group or the Meta Llama group according to its family, in entry order |
| Utils.GroupsFollowFamilies | utils.go:15-24 | every line of a group comes from an entry of that family; the groups hold at most one line per entry, and exactly one when every entry is registered |
| Decimal.ParseNatToDecimal | utils.go:57 | reading back the decimal spelling of a natural number gives the number |
| Decimal.AtoiOfIntToDecimal | utils.go:57 | `strconv.Atoi` accepts the decimal spelling of any 64-bit value and returns that value |
| Decimal.IntToDecimalInjective | chat_session.go:188 | different integers have different `%d` spellings, so distinct question IDs give distinct "PERGUNTA %d" headings |
| Decimal.Atoi | utils.go:57 | accepts exactly the texts that are an optional '+' or '-' followed by at least one digit whose value fits in 64 bits (at most 2^63 after '-', 2^63-1 otherwise); the value is those digits read in decimal, negated after '-'; in particular the empty text and "3a" are rejected |
| Decimal.AtoiSpelling | utils.go:57 | a text Atoi accepts as v is an optional sign, some leading zeros and the `%d` spelling of the magnitude of v, with a minus sign whenever v is negative |
| Decimal.ZerosThenDecimal | utils.go:57 | any non-empty digit string is leading zeros followed by the shortest decimal spelling of its value |
| Decimal.AtoiExamples | utils.go:57 | "3a", "+" and "-" are rejected; "+3" and "03" are read as 3 |

## Left out

- The interactive loop of `cmd/agente/main.go` is not part of this model. That includes reading the console, the commands, signing in to the cloud and the chat call itself. It is I/O and network. Its rule for requests is not modelled either: the request with history is used only while context is enabled and the history is non-empty (`cmd/agente/main.go:149-161`). Both adapters' requests with history equal the single-turn request for an empty history, so the second condition changes no request.
- `internal/infrastructure/config.go` only holds credentials and is not modelled.
- `ShowHistory` and `ShowStats` write to the console. Only the response cut of `ShowHistory` is modelled (`Session.DisplayedResponse`). The 70- and 60-character rules, the emoji markers and the success-rate percentage (a float64) are left out.
- `ListAvailableModels` prints its two groups. Only the grouping is modelled (`Utils.GroupModels`). Go's map iteration order is unspecified, so it is a parameter.
- `SelectModelInteractively` prints the menu and reads a line. Only the choice rule is modelled (`Utils.SelectModel`). `strings.TrimSpace` is left to the caller: the model takes the trimmed text.
- The `TotalTime` field of `ChatSession` is never read or written by the core, so it is not modelled.
- Wall-clock reads (`time.Now`, `time.Since`) are parameters. Time formatting and `Duration.Round` come in as the functions of `Formats`.
- The float settings 0.1 and 0.75 are `real` constants. The SDK's pointer fields are plain values. The SDK's content and message interfaces are reduced to the cases the adapters inspect.
- `%T` of an unknown response shape is its carried type name (`Chat.TypeName`).
- Session.ChatSession.GetStats: does not model the int64 wrap-around of `time.Duration` when the processing times or the session duration exceed about 292 years. Integers here are unbounded.
- Session.DisplayedResponse: counts characters where Go's `len` and slicing count UTF-8 bytes. For non-ASCII text, Go cuts earlier and can split a character.
- Session.ChatSession.GetLastQuestions: requires a non-negative `n` when the history is non-empty. No code in the program calls it; a negative `n` with a non-empty history panics at the slice in chat_session.go:176.
- Session.ChatSession.ExportHistory: the divider printed in `ShowHistory` only between questions (`q.ID < len`) is console output and is not modelled. The transcript always ends each block with the divider, as the code does.
