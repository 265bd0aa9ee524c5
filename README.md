# A verified model of the lawseekdog e2e harness

The lawseekdog e2e repository drives a legal-workflow backend through its HTTP
and SSE API. It logs in, opens a consultation session, answers the "cards"
(question forms) the workflow raises, nudges the session with chat messages,
and then checks what the backend produced: SSE event streams, phase timelines,
memory facts, traces, deliverables and documents.

This project models the harness's decision logic in Dafny and proves what it
promises:

- **The API client** (`ApiClient`): request headers, the GET retry policy, the
  SSE line decoder with its early stop and partial-stream error, the five-try
  SSE loop, and the request bodies.
- **The card auto-answerers** (`Cards`, `FlowRunner`, `LitigationFlow`,
  `BusInjuryV4`, `DebugAnswers`, `LegalOpinion`). Every runner script has its
  own variant. Each per-question decision is modelled on its own, and generic
  lemmas about `Cards.Collect` lift it to the whole card: one answer per
  question, in question order, nothing invented or dropped.
- **The flows that drive a session**: `WorkbenchFlow` (refresh, step,
  run-until), the stuck-card guard of the litigation test, the card consumer of
  the bus-injury v4 runner, and the legal-opinion drive loop. The backend is a
  logged oracle: the n-th call is answered by `reply(n, call)`, so every
  statement holds whatever the services answer.
- **The assertion helpers** (`Sse`, `PhaseTimeline`, `Timeline`, `Memory`,
  `Profile`, `Traces`, `Canvas`, `Docx`, `GoldenAssertions`), the playbook
  table (`Playbooks`) and the scenario quality checker (`QualityCheck`).
  Raising an exception is a `Result`/`Check` value carrying the exception's
  kind.

Three modules hold the vocabulary every other module uses:

- `Json`: dicts are ordered lists of fields, and `Get` is `dict.get`.
- `Text`: Python's `strip`, `split`, `find`, `int()` and `str()`.
- `Utils`: the helpers of `_support/utils.py`, plus a few shared scans.

Cryptographic hashes, JSON parsing and rendering, regular expressions and
document parsing are passed in as function parameters, or modelled as the
value before hashing.

## Model

| member | source | states |
|---|---|---|
| Utils.UnwrapApiResponse | tests/lawyer_workbench/_support/utils.py:10-14 | a dict carrying `code` unwraps to its `data` (None when absent); anything else is returned unchanged |
| Utils.UnwrapEnvelope | tests/lawyer_workbench/_support/utils.py:10-14 | an envelope `{"code": c, "data": d, ...}` unwraps to `d` whatever else it holds |
| Utils.UnwrapPassThrough | tests/lawyer_workbench/_support/utils.py:10-14 | a list, a string or a dict without `code` passes through untouched |
| Utils.CoerceStr | tests/lawyer_workbench/_support/utils.py:40-41 | None becomes "", every other value its `str()` |
| Utils.Trim | tests/lawyer_workbench/_support/utils.py:44-46 | None for a falsy value or one whose text strips to empty; otherwise the stripped, non-blank text |
| Utils.Aliased | tests/lawyer_workbench/_support/phase_timeline.py:50-56 | the first truthy of two aliased fields, cleaned; the second is read only when the first is falsy |
| Utils.UnwrapDict | tests/lawyer_workbench/_support/phase_timeline.py:10-14 | the unwrapped response when it is a dict, else an AssertionError; a dict never raises |
| Utils.UnwrapDictRefusesNonDict | tests/lawyer_workbench/_support/timeline.py:20-24 | an envelope whose `data` is a list, a string or None is refused |
| Utils.FirstWhere | tests/lawyer_workbench/_support/memory.py:48-59 | the index of the first item, of any element type, satisfying the test: no earlier item satisfies it, and `|xs|` means none does; it is also the scan over candidate keys at memory.py:99-105 |
| Utils.FirstWhereAt | tests/lawyer_workbench/_support/memory.py:48-59 | the first item satisfying the test is found whatever follows it |
| Utils.FirstMatch | tests/lawyer_workbench/_support/phase_timeline.py:33-40 | the index of the first item whose key equals the wanted one, and none earlier |
| Utils.FirstMatchAt | tests/lawyer_workbench/_support/phase_timeline.py:33-40 | the first match is found whatever follows it |
| Utils.StrippedSet | tests/lawyer_workbench/_support/phase_timeline.py:59-64 | exactly the stripped non-blank values of the list |
| Text.CleanIds | tests/lawyer_workbench/_support/flow_runner.py:98 | the stripped non-blank strings, in order, at most one per input |
| Text.CleanIdsMember | tests/lawyer_workbench/_support/flow_runner.py:98 | a string is kept exactly when it is the non-blank stripped form of an input |
| Text.IntRoundTrip | tests/lawyer_workbench/_support/flow_runner.py:23-31 | `int(str(i)) == i` for every integer, the fact that makes a numeric environment value read back |
| Cards.UserResponse | tests/lawyer_workbench/_support/flow_runner.py:180 | `{"answers": [...]}` holding one entry per answer |
| Cards.Repair | scripts/run_multi_documents_flow_debug.py:114-115 | a required question never keeps an empty answer; any other value is kept; a changed value is True or `"已确认"` |
| Cards.ConfirmedNotBlank | scripts/run_bus_passenger_injury_flow_debug.py:113 | the `"已确认"` placeholder is never blank text |
| Cards.HasDefaultIsNotEmpty | tests/lawyer_workbench/_support/flow_runner.py:119-124 | a default that counts is never an empty answer |
| Cards.FirstRecommended | tests/lawyer_workbench/_support/flow_runner.py:60-62 | the index of the first recommended option with a value, and none before it |
| Cards.FirstValued | tests/lawyer_workbench/_support/flow_runner.py:63-65 | the index of the first option with a value, and none before it |
| Cards.PickRecommendedOrFirst | tests/lawyer_workbench/_support/flow_runner.py:57-66 | None exactly when the options are not a list or no option carries a value; otherwise the value of some valued option |
| Cards.PickPrefersRecommended | tests/lawyer_workbench/_support/flow_runner.py:60-62 | the first recommended valued option wins over every earlier option |
| Cards.PickFallsBackToFirstValued | tests/lawyer_workbench/_support/flow_runner.py:63-65 | without a recommended option the first option with a value is picked |
| Cards.FirstNestedHit | tests/lawyer_workbench/_support/flow_runner.py:76-86 | the first override `k` holding a dict with `sub` where the field key is `k + "." + sub`, and none earlier |
| Cards.ResolveOverrideValue | tests/lawyer_workbench/_support/flow_runner.py:69-87 | None for empty or non-dict overrides; the exact key wins; otherwise the value is the first nested hit's lookup of the rest of the key, and None when no override is a nested hit |
| Cards.NestedOverrideResolves | tests/lawyer_workbench/_support/flow_runner.py:74-75 | any one-level nested override `{k: {sub: v}}` answers the field `k.sub` with `v` |
| Cards.StrList | tests/lawyer_workbench/_support/flow_runner.py:152 | the ids as a JSON list of strings, position by position |
| Cards.Collect | tests/lawyer_workbench/_support/flow_runner.py:104-178 | the answers of the per-question loop: at most one per question |
| Cards.CollectAppend | tests/lawyer_workbench/_support/flow_runner.py:105 | the answers for a concatenation of questions concatenate, so question order is kept |
| Cards.CollectSound | tests/lawyer_workbench/_support/flow_runner.py:105-178 | every answer is the decision about some question: nothing is invented |
| Cards.CollectComplete | tests/lawyer_workbench/_support/flow_runner.py:105-178 | every question with a decision contributes exactly that answer: nothing is dropped |
| Cards.CollectTotal | tests/lawyer_workbench/_support/flow_runner.py:105-178 | when every question is decided, there is one answer per question at the same position |
| Cards.CollectAll | tests/lawyer_workbench/_support/flow_runner.py:105-178 | a property every decision has holds of every answer |
| Cards.CollectCount | tests/lawyer_workbench/_support/flow_runner.py:105-178 | the number of answers is the number of decided questions |
| Cards.Keys | tests/lawyer_workbench/_support/flow_runner.py:178 | the field keys of the answers, position by position |
| Cards.AnswerableKeys | tests/lawyer_workbench/_support/flow_runner.py:106-110 | the field keys of the dict questions with a non-blank key, at most one per question |
| Cards.CollectKeys | tests/lawyer_workbench/_support/flow_runner.py:105-178 | a decision that answers each question with a field key, under that key, gives exactly the answerable keys in order |
| Cards.KeysAppend | tests/lawyer_workbench/_support/flow_runner.py:178 | the keys of a concatenation concatenate |
| FlowRunner.ReadIntEnv | tests/lawyer_workbench/_support/flow_runner.py:23-31 | the default, or a positive parsed value; a set, parsing, positive value always wins; a positive default gives a positive result |
| FlowRunner.ResumeMaxLoops | tests/lawyer_workbench/_support/flow_runner.py:36 | the resume budget is positive, and 80 when the variable is unset |
| FlowRunner.LastCardIndex | tests/lawyer_workbench/_support/flow_runner.py:46-53 | the index of the last card event with non-empty dict data, and no card event after it |
| FlowRunner.ExtractLastCardFromSse | tests/lawyer_workbench/_support/flow_runner.py:44-54 | None exactly when no event is a card with non-empty dict data; otherwise the data of such an event, with none after it |
| FlowRunner.MultiPick | tests/lawyer_workbench/_support/flow_runner.py:131-145 | a list of at most one picked value |
| FlowRunner.MultiPickIsPick | tests/lawyer_workbench/_support/flow_runner.py:138-145 | the explicit first-recommended scan picks exactly what `_pick_recommended_or_first` would |
| FlowRunner.AnswerFor | tests/lawyer_workbench/_support/flow_runner.py:105-178 | only dict questions with a field key are answered, under that key; a required one always is; a None answer only for a required question |
| FlowRunner.AutoAnswerCard | tests/lawyer_workbench/_support/flow_runner.py:90-180 | `{"answers": [...]}` with no more answers than questions |
| FlowRunner.AnswersComeFromQuestions | tests/lawyer_workbench/_support/flow_runner.py:105-178 | every answer belongs to an answerable question of the card; a None answer only to a required one |
| FlowRunner.RequiredAlwaysAnswered | tests/lawyer_workbench/_support/flow_runner.py:173-178 | every required answerable question has an answer under its field key |
| FlowRunner.OverrideWins | tests/lawyer_workbench/_support/flow_runner.py:114-117 | a resolved override is sent unchanged whatever the question's type, default or options |
| FlowRunner.AttachmentAlwaysSent | tests/lawyer_workbench/_support/flow_runner.py:146-154 | `attachment_file_ids` is always sent: its default, else the uploaded ids, else an empty list |
| FlowRunner.DefaultValueNotEmpty | tests/lawyer_workbench/_support/flow_runner.py:119-171 | a usable default is never replaced by an empty value |
| FlowRunner.DefaultForNotEmpty | tests/lawyer_workbench/_support/flow_runner.py:126-171 | the same, by case over the input types |
| FlowRunner.DefaultsGiveFullAnswers | tests/lawyer_workbench/_support/flow_runner.py:90-180 | with no overrides and a usable default everywhere, every answerable question is answered and no answer is empty |
| FlowRunner.RequiredSelectWithoutOptionsSendsNone | tests/lawyer_workbench/_support/flow_runner.py:129-130 | a required select question with no default and no valued option is sent as None: nothing repairs it |
| FlowRunner.KeyedQuestionSigs | tests/lawyer_workbench/_support/flow_runner.py:187-195 | the `fk|type` entries of the keyed dict questions, at most one per question |
| FlowRunner.CardSignature | tests/lawyer_workbench/_support/flow_runner.py:183-196 | the cleaned skill, task and review kinds and the keyed question entries |
| FlowRunner.QuestionSigInjective | tests/lawyer_workbench/_support/flow_runner.py:195 | field keys without `|` are recovered from their entries: such entries never collide |
| FlowRunner.CharIndexAfterPrefix | tests/lawyer_workbench/_support/flow_runner.py:195 | in `fk + "|" + it` with no `|` in `fk`, the first `|` follows `fk` |
| FlowRunner.QuestionSigAmbiguous | tests/lawyer_workbench/_support/flow_runner.py:195 | with a `|` inside a field key, two different questions give the same entry |
| FlowRunner.Backend.constructor | tests/lawyer_workbench/_support/flow_runner.py:205 | an empty call log and the given reply oracle |
| FlowRunner.Backend.Send | tests/lawyer_workbench/_support/flow_runner.py:216-250 | logs the call and answers it with `reply(n, call)` for the n-th call |
| FlowRunner.Signatures | tests/lawyer_workbench/_support/flow_runner.py:211 | one signature per card |
| FlowRunner.SignaturesSnoc | tests/lawyer_workbench/_support/flow_runner.py:227-228 | recording one more card appends exactly its signature |
| FlowRunner.SignaturesAt | tests/lawyer_workbench/_support/flow_runner.py:211 | the i-th signature is the signature of the i-th card |
| FlowRunner.Answerer | tests/lawyer_workbench/_support/flow_runner.py:233-241 | applied to a dict card it is `auto_answer_card` with the flow's overrides and uploads |
| FlowRunner.WorkbenchFlow.constructor | tests/lawyer_workbench/_support/flow_runner.py:203-213 | no matter id, no cards, no SSE replies, and the resume budget read from the environment |
| FlowRunner.WorkbenchFlow.Refresh | tests/lawyer_workbench/_support/flow_runner.py:215-218 | one session call; the session's `matter_id` is adopted when present, and a known matter id is never dropped |
| FlowRunner.WorkbenchFlow.GetPendingCard | tests/lawyer_workbench/_support/flow_runner.py:220-223 | one pending-card call; the unwrapped card exactly when it is a non-empty dict (`PendingAt`) |
| FlowRunner.WorkbenchFlow.ResumeCard | tests/lawyer_workbench/_support/flow_runner.py:225-247 | the card and its signature are recorded; the auto-answer is resumed; a failed user-message check raises; a dict reply becomes the last SSE |
| FlowRunner.WorkbenchFlow.Nudge | tests/lawyer_workbench/_support/flow_runner.py:249-254 | one chat call; a dict reply is recorded as the last SSE, anything else changes nothing |
| FlowRunner.WorkbenchFlow.Step | tests/lawyer_workbench/_support/flow_runner.py:256-264 | the session read (adopting its matter id), the pending-card read, then the resume of that card with its auto-answer, or else the nudge with no attachments and 12 loops; it returns that reply (AssertionError for a resume reply without a user message), records the card when there was one, and records a dict reply as the last SSE |
| FlowRunner.WorkbenchFlow.StepCall | tests/lawyer_workbench/_support/flow_runner.py:259-264 | a read card is resumed with its auto-answer and the resume loop budget; without one the nudge text goes out with no attachments and 12 loops |
| FlowRunner.WorkbenchFlow.Answer | tests/lawyer_workbench/_support/flow_runner.py:259-264 | makes exactly the call `StepCall` names and returns its reply, or AssertionError for a resume reply without a user message; records the card and a dict reply |
| FlowRunner.WorkbenchFlow.CountedStep | tests/lawyer_workbench/_support/flow_runner.py:256-264 | a step makes the session read, the pending-card read and the call `StepCall` names for that card; the new state and the result are exactly those `StepFrom` gives |
| FlowRunner.WorkbenchFlow.StepFrom | tests/lawyer_workbench/_support/flow_runner.py:256-264 | a known matter id is kept, the card read is recorded, only a resume can fail, an `Ok` carries the reply to the call made, and only that reply can become the last SSE |
| FlowRunner.WorkbenchFlow.RunUntil | tests/lawyer_workbench/_support/flow_runner.py:266-287 | the goal is asked before each of at most `max_steps` steps, about the state on entry and then the state each step left behind; every state of the trail after the first is the one `StepFrom` gives for the state before it, and the last is the flow's state on return; it stops at the first check that holds, or at the first failing step; otherwise it raises after exactly `max_steps` failing checks, naming the session and the matter id |
| FlowRunner.ReachedAtFirstTrue | tests/lawyer_workbench/_support/flow_runner.py:276-282 | a goal that first holds at check k is reached after exactly k steps |
| ApiClient.RStripSlash | client/api_client.py:17 | the base URL loses its trailing slashes and nothing else |
| ApiClient.GetRetries | client/api_client.py:62 | 60 when unset or empty; otherwise exactly the count `int()` parses from the text, and ValueError exactly when it parses none |
| ApiClient.GetRetriesReadsBack | client/api_client.py:62 | a count written as text reads back as the same count |
| ApiClient.Backoff | client/api_client.py:70 | half a second more per attempt, never more than four seconds |
| ApiClient.AttemptResult | client/api_client.py:66-78 | a 2xx reply gives its body, another status an HTTP error, a failed send a transport error |
| ApiClient.RequestFrom | client/api_client.py:65-79 | the first successful attempt from n on is returned; the last attempt's failure is raised |
| ApiClient.RequestFromNext | client/api_client.py:74-78 | a failed attempt that is not the last hands over to the next one |
| ApiClient.NonGetSingleAttempt | client/api_client.py:63 | any verb but GET makes exactly one attempt and raises its failure at once |
| ApiClient.GetFirstSuccess | client/api_client.py:63-79 | a GET succeeds exactly when one of its first `retries` attempts does, and then with the first such reply |
| ApiClient.NoBudgetNoAttempt | client/api_client.py:79 | a retry count that is not positive makes no attempt and raises the fallback RuntimeError |
| ApiClient.BadRetriesRaiseFirst | client/api_client.py:62 | an unreadable retry count raises ValueError before any attempt, whatever the verb |
| ApiClient.PendingEvent | client/api_client.py:99-101 | the stripped rest of an `event: ` line, or None when blank |
| ApiClient.DataEventFields | client/api_client.py:111 | a decoded event holds exactly `event` and `data` |
| ApiClient.DecodeStops | client/api_client.py:98-116 | decoding stops exactly on an `end` or `complete` event, which is then the last event |
| ApiClient.DecodeCounts | client/api_client.py:98-116 | each data line read appends one event, so a stream that did not stop has one event per data line |
| ApiClient.DecodeStopsEarly | client/api_client.py:113-116 | once a terminal event is decoded, later lines are never read |
| ApiClient.EmptyDataAfterEndDoesNotStop | client/api_client.py:110 | a payload that is not a dict gets no event name, even after `event: end`, so the stream does not stop there |
| ApiClient.DictPayloadNames | client/api_client.py:110 | with a dict payload the pending name wins, else the payload's own `event` |
| ApiClient.CutStreamEndsWithPartialError | client/api_client.py:117-120 | a cut stream returns what it decoded followed by one partial `error` event |
| ApiClient.NoTerminalNoOutput | client/api_client.py:122-126 | without a terminal event the output is empty |
| ApiClient.PartialErrorNotTerminal | client/api_client.py:120-124 | the partial error event never counts as terminal |
| ApiClient.StreamOutput | client/api_client.py:122-127 | a stream ending on a terminal event with dict data reports that data's `output` |
| ApiClient.PostSseFrom | client/api_client.py:88-141 | SSE attempts n to 5: the first that returns or raises decides, and a gateway error on the last attempt is raised |
| ApiClient.HttpErrorNotRetried | client/api_client.py:128-134 | an HTTP error other than 502/503/504 is raised at once, never retried |
| ApiClient.GatewayFiveTimes | client/api_client.py:93-95 | a request that keeps meeting gateway errors raises the fifth one |
| ApiClient.CreateSessionBody | client/api_client.py:182-193 | the engagement mode always, the service type and the matter only when given and non-empty |
| ApiClient.CreateSessionBodyAt | client/api_client.py:182-193 | the same, key by key |
| ApiClient.ListDeliverablesParams | client/api_client.py:314-318 | `output_key` only when given and non-empty |
| ApiClient.OrgIdOf | client/api_client.py:160-175 | the organization id text, unless it is None or blank |
| ApiClient.Dig | client/api_client.py:160-175 | `d[k1][k2]`, raising KeyError or TypeError at the first lookup that fails |
| ApiClient.Client.constructor | client/api_client.py:16-26 | the base URL without trailing slashes, no identity, and the internal key from the environment |
| ApiClient.Client.Headers | client/api_client.py:38-50 | Content-Type always, each identity header exactly when its attribute is set |
| ApiClient.Client.HeadersAt | client/api_client.py:38-50 | every header reads as specified, one key at a time |
| ApiClient.Client.SseHeaders | client/api_client.py:84-85 | the request headers plus `Accept: text/event-stream` |
| ApiClient.Client.UserIdField | client/api_client.py:198-212 | the integer user id, None when unset, ValueError when it is not an integer |
| ApiClient.Client.ChatBody | client/api_client.py:198-212 | the user id, the query, the attachments and the loop budget; ValueError for a non-integer user id |
| ApiClient.Client.ChatBodyAt | client/api_client.py:198-212 | the chat body, key by key |
| ApiClient.Client.ResumeBody | client/api_client.py:217-226 | the user id and the user response; ValueError for a non-integer user id |
| ApiClient.Client.Login | client/api_client.py:160-175 | the token and user id come from the login reply; the organization is stored only when non-blank; a missing key raises |
| ApiClient.Client.Request | client/api_client.py:52-79 | the result `RequestSpec` gives for the verb, the environment and the replies; one wait between consecutive attempts, each the backoff for the attempt it follows |
| ApiClient.Client.PostSse | client/api_client.py:81-141 | the result is `PostSseFrom`'s for the stream oracle |
| ApiClient.Client.SseAttemptStep | client/api_client.py:91-127 | one attempt: retried on a gateway status before the last attempt, raised on another error status, else decoded |
| ApiClient.Client.StreamOutputOf | client/api_client.py:122-126 | the output of the last terminal event with dict data, searched from the end |
| ApiClient.Client.DataLineEvent | client/api_client.py:102-111 | the event one `data: ` line appends |
| ApiClient.Client.DecodeStream | client/api_client.py:97-120 | the events decoded line by line, as the decoding function gives them |
| ApiClient.Client.Chat | client/api_client.py:198-212 | a non-integer user id raises before any request; otherwise the chat body is posted |
| ApiClient.Client.Resume | client/api_client.py:217-226 | the same with the resume body |
| ApiClient.AnonymousHeaders | client/api_client.py:38-50 | before login only Content-Type is sent, plus the internal key when configured |
| ApiClient.OrganizationHeaderAfterLogin | client/api_client.py:44-45 | the organization header is sent exactly when an organization is stored, and login never stores a blank one |
| ApiClient.UserIdRoundTrip | client/api_client.py:204 | a numeric user id stored as text comes back as the same integer in request bodies |
| Sse.Events | tests/lawyer_workbench/_support/sse.py:14-18 | the dict items of the `events` list, or none |
| Sse.TypesOf | tests/lawyer_workbench/_support/sse.py:21-27 | the non-empty string `event` tags, in order |
| Sse.TypesOfMember | tests/lawyer_workbench/_support/sse.py:21-27 | a tag is listed exactly when some event carries it |
| Sse.Wrap | tests/lawyer_workbench/_support/sse.py:36-39 | an event's data when it is a dict, else `{"data": data}` |
| Sse.OfType | tests/lawyer_workbench/_support/sse.py:34-40 | the wrapped data of the events of the wanted type, no more items than events |
| Sse.OfTypeAppend | tests/lawyer_workbench/_support/sse.py:34-40 | arrival order is kept: filtering a concatenation concatenates |
| Sse.OfTypeMember | tests/lawyer_workbench/_support/sse.py:34-40 | an item is in the result exactly when it is the wrapped data of an event of that type |
| Sse.OfTypeNonEmpty | tests/lawyer_workbench/_support/sse.py:34-40 | some event has the type exactly when the result is not empty |
| Sse.EventsOfType | tests/lawyer_workbench/_support/sse.py:30-40 | nothing for a blank type, else the filtered events |
| Sse.PlainType | tests/lawyer_workbench/_support/sse.py:72-77 | the literal types the helpers ask for are their own stripped form |
| Sse.LastNonEmptySpec | tests/lawyer_workbench/_support/sse.py:43-47 | None exactly when no item is a non-empty dict; otherwise the last such item |
| Sse.PartialStreamErrorIff | tests/lawyer_workbench/_support/sse.py:60-69 | true exactly when some event is an `error` whose dict data has `partial` True |
| Sse.ValidateTasks | tests/lawyer_workbench/_support/sse.py:80-106 | the three loops of the task validation, first failure first |
| Sse.StartedNodes | tests/lawyer_workbench/_support/sse.py:86-93 | the started set is empty exactly when nothing started, and holds exactly the started nodes |
| Sse.EndLoopSpec | tests/lawyer_workbench/_support/sse.py:94-99 | the end loop passes exactly when every end names a started node, or nothing started |
| Sse.ValidateTasksSpec | tests/lawyer_workbench/_support/sse.py:80-106 | the loops raise exactly when the task-event contract is broken |
| Sse.ValidateTaskEvents | tests/lawyer_workbench/_support/sse.py:80-106 | passes exactly when the task-event contract holds |
| Sse.EndBeforeStartAccepted | tests/lawyer_workbench/_support/sse.py:94-99 | an end that arrives before its start is accepted: only membership is checked |
| Sse.TaskKinds | tests/lawyer_workbench/_support/sse.py:72-77 | the starts and ends are the events of those two types |
| Sse.EventsOfStream | tests/lawyer_workbench/_support/sse.py:14-18 | a stream whose `events` list holds only dicts has exactly those events, in order |
| Sse.TaskEventsOfStream | tests/lawyer_workbench/_support/sse.py:72-77 | the starts and ends of a stream of dict events are those events of the two types, in arrival order |
| Sse.OfTypeOne | tests/lawyer_workbench/_support/sse.py:30-40 | filtering one event keeps its wrapped data exactly when it has the wanted type |
| Sse.OfTypeOfPair | tests/lawyer_workbench/_support/sse.py:30-40 | filtering two events of different types by either type keeps exactly that event's wrapped data |
| Sse.EndThenStartEvents | tests/lawyer_workbench/_support/sse.py:72-77 | an end event followed by a start event starts the start's data and ends the end's data, whatever both hold |
| Sse.SameNodeAccepted | tests/lawyer_workbench/_support/sse.py:80-106 | one start and one end of the same named node other than `run_skill` pass validation |
| Sse.AssertTaskLifecycle | tests/lawyer_workbench/_support/sse.py:109-117 | passes exactly with enough starts, at least one end and valid task events |
| Sse.NonPartial | tests/lawyer_workbench/_support/sse.py:119-122 | the reported errors are exactly the `error` events that are not partial, in order |
| Sse.AssertNoError | tests/lawyer_workbench/_support/sse.py:119-122 | fails exactly when a non-partial error is reported |
| Sse.NoErrorIff | tests/lawyer_workbench/_support/sse.py:119-122 | fails exactly when some `error` event is not a partial error |
| Sse.FatalErrorEvent | tests/lawyer_workbench/_support/sse.py:119-122 | a reported error comes from a non-partial `error` event |
| Sse.FatalErrorReported | tests/lawyer_workbench/_support/sse.py:119-122 | a non-partial `error` event is reported |
| Sse.AssertHasEnd | tests/lawyer_workbench/_support/sse.py:125-127 | an end, a complete or a partial error event |
| Sse.HasEndIff | tests/lawyer_workbench/_support/sse.py:125-127 | passes exactly when some event is `end`, `complete` or a partial error |
| Sse.PartialErrorSignalsEnd | client/api_client.py:117-120 | the event the client appends to a cut stream counts as an end |
| Sse.LastSignalsEnd | tests/lawyer_workbench/_support/sse.py:125-127 | a stream whose last event signals the end passes |
| Sse.EndedOrCutStreamHasEnd | client/api_client.py:98-120 | a stream the client returns after stopping on a terminal event, or after a cut, passes `assert_has_end` |
| Sse.AnyMessageContains | tests/lawyer_workbench/_support/sse.py:136-140 | some progress message contains the fragment |
| Sse.AssertHasProgress | tests/lawyer_workbench/_support/sse.py:130-140 | at least one progress event, and one whose message contains the non-blank fragment |
| Sse.Missing | tests/lawyer_workbench/_support/sse.py:155-163 | exactly the stripped non-blank fragments missing from the output, in order |
| Sse.AssertVisibleResponse | tests/lawyer_workbench/_support/sse.py:143-164 | no fatal error, an end, progress, valid task events and no missing fragment, in that order |
| LitigationFlow.ProfileValueNotEmpty | tests/test_litigation_flow.py:93-116 | every entry of the profile table is a value the answerer would send |
| LitigationFlow.FollowUpNotBlank | tests/test_litigation_flow.py:117-126 | every follow-up reply is non-blank text |
| LitigationFlow.RecommendedValues | tests/test_litigation_flow.py:72-76 | the values of the recommended valued options, in order |
| LitigationFlow.RecommendedValuesMembers | tests/test_litigation_flow.py:72-76 | exactly the values of the recommended valued options are collected |
| LitigationFlow.RecommendedValuesEmpty | tests/test_litigation_flow.py:72-76 | nothing is collected exactly when no option is recommended with a value |
| LitigationFlow.RecommendedValuesHead | tests/test_litigation_flow.py:27-36 | the first collected value is the one `_pick_recommended_or_first` chooses |
| LitigationFlow.MultiValue | tests/test_litigation_flow.py:68-81 | every recommended value, else the first valued option, else an empty list |
| LitigationFlow.MultiValueExtendsMultiPick | tests/test_litigation_flow.py:68-81 | this answerer sends every recommended value where the canonical one sends only the first |
| LitigationFlow.Repair | tests/test_litigation_flow.py:130-135 | a required non-file question never keeps an empty value; other values are kept |
| LitigationFlow.RepairFillsRequired | tests/test_litigation_flow.py:130-135 | the repair leaves nothing empty for a required field that is not a file field |
| LitigationFlow.AnswerOf | tests/test_litigation_flow.py:130-145 | the repaired value, left out when it is None, blank or empty |
| LitigationFlow.LitigationAnswerFor | tests/test_litigation_flow.py:46-145 | only answerable questions are answered, under their key, never with an empty value |
| LitigationFlow.LitigationAutoAnswerCard | tests/test_litigation_flow.py:39-147 | `{"answers": [...]}` with at most one answer per question |
| LitigationFlow.NoEmptyAnswers | tests/test_litigation_flow.py:39-147 | no answer is None, blank or an empty list, and each belongs to an answerable question |
| LitigationFlow.RequiredNonFileAnswered | tests/test_litigation_flow.py:130-145 | a required question that is not a file field is always answered with a non-empty value |
| LitigationFlow.FileFieldWithoutUploadsDropped | tests/test_litigation_flow.py:82-90 | a file field with neither a default nor uploads is left out |
| LitigationFlow.FileFieldWithUploads | tests/test_litigation_flow.py:82-90 | with uploads, a file field without a default gets them all |
| LitigationFlow.TextAlwaysAnswered | tests/test_litigation_flow.py:91-145 | a text question is always answered, even when optional |
| LitigationFlow.MultiSelectAnswer | tests/test_litigation_flow.py:68-81 | a multi-select without a default sends all recommended values when there are some |
| LitigationFlow.RequiredSelectWithoutOptionsRepaired | tests/test_litigation_flow.py:130-135 | where the canonical answerer sends None, this one sends `"已确认"` |
| LitigationFlow.WalkAppend | tests/test_litigation_flow.py:262-269 | walking a path in two pieces is walking the first, then the second |
| LitigationFlow.FirstPathHitSpec | tests/test_litigation_flow.py:253-271 | the first path hit is the lowest-indexed override through which the rest of the key can be walked; none exactly when there is none |
| LitigationFlow.NestedResolve | tests/test_litigation_flow.py:246-272 | the exact key wins; else the first candidate override through whose nested dicts the rest of the key walks; None when no candidate walks through |
| LitigationFlow.OneSegmentHit | tests/test_litigation_flow.py:253-271 | for a one-segment suffix the walk is the canonical one-level lookup |
| LitigationFlow.FirstHitsAgree | tests/test_litigation_flow.py:253-271 | with one-segment suffixes both resolvers pick the same override |
| LitigationFlow.NestedResolveAgreesOneLevel | tests/test_litigation_flow.py:246-272 | the nested resolver extends the canonical one |
| LitigationFlow.DeepPathOnlyNested | tests/test_litigation_flow.py:246-272 | a path two levels deep is reachable only by the nested resolver |
| LitigationFlow.DottedKeyOnlyOneLevel | tests/lawyer_workbench/_support/flow_runner.py:76-86 | an override key holding a dot is reachable only by the one-level resolver |
| LitigationFlow.SplitAt | tests/test_litigation_flow.py:261-264 | `a + "." + b` with a dot-free `a` splits into `a` and then the pieces of `b` |
| LitigationFlow.NonBlankTexts | tests/test_litigation_flow.py:278-281 | the stripped non-blank texts, at most one per item |
| LitigationFlow.NonBlankTextsEmpty | tests/test_litigation_flow.py:278-281 | nothing survives exactly when every item's text is blank |
| LitigationFlow.Coerce | tests/test_litigation_flow.py:274-283 | a list for a text question becomes its newline-joined texts; anything else is unchanged |
| LitigationFlow.CoercedListBlank | tests/test_litigation_flow.py:274-283 | a coerced list is blank exactly when every item's text is blank |
| LitigationFlow.OverrideFor | tests/test_litigation_flow.py:304-314 | only an answerable question with a resolved, coerced, non-empty override contributes |
| LitigationFlow.IndexAnswersSpec | tests/test_litigation_flow.py:285-293 | a key is indexed exactly when some base answer has it, with that answer's value |
| LitigationFlow.LastOverride | tests/test_litigation_flow.py:295-318 | the last question with the key that contributes an override, and that override |
| LitigationFlow.ApplyOverridesSnoc | tests/test_litigation_flow.py:295-318 | one more question extends the pass by its override |
| LitigationFlow.QuestionKeysSnoc | tests/test_litigation_flow.py:295-318 | one more question adds its field key to `question_fks` exactly when it is answerable |
| LitigationFlow.ApplyOverridesStep | tests/test_litigation_flow.py:295-318 | one step of the override pass |
| LitigationFlow.ApplyOverridesKeys | tests/test_litigation_flow.py:295-318 | a key is present after the pass when it was before or some question overrode it |
| LitigationFlow.ApplyOverridesLast | tests/test_litigation_flow.py:295-318 | an overridden key holds the last override given to it |
| LitigationFlow.ApplyOverridesKeep | tests/test_litigation_flow.py:295-318 | a key no question overrides keeps its base value |
| LitigationFlow.ApplyOverridesAt | tests/test_litigation_flow.py:295-318 | after the pass a key holds its last override, or else its base value |
| LitigationFlow.QuestionKeys | tests/test_litigation_flow.py:295-303 | the field keys of the answerable questions, in order, repeats kept |
| LitigationFlow.Rebuild | tests/test_litigation_flow.py:320-331 | one answer for each listed key the map holds, at most one per key |
| LitigationFlow.RebuildSpec | tests/test_litigation_flow.py:320-331 | the rebuilt list holds exactly the listed keys the map has, each with its mapped value, in list order |
| LitigationFlow.NoExtraAnswers | tests/test_litigation_flow.py:320-331 | every merged key is a question's key, so the extra-answer branch never runs |
| LitigationFlow.OverrideWinsMerged | tests/test_litigation_flow.py:245-331 | a key with a usable override is answered with its last such override, wherever it appears |
| LitigationFlow.EmptyOverrideKeepsBase | tests/test_litigation_flow.py:245-331 | a key without a usable override keeps the base answer |
| LitigationFlow.MergedNotEmpty | tests/test_litigation_flow.py:245-331 | no merged answer is None, blank or an empty list |
| LitigationFlow.IndexBaseAnswers | tests/test_litigation_flow.py:285-293 | the loop builds exactly the index of the base answers |
| LitigationFlow.MergeOverrides | tests/test_litigation_flow.py:295-318 | the loop yields `QuestionKeys` and the map `ApplyOverrides` gives |
| LitigationFlow.RebuildAnswers | tests/test_litigation_flow.py:320-331 | the loop lists the entries of the listed keys in order |
| LitigationFlow.AutoAnswerCardWithOverrides | tests/test_litigation_flow.py:245-331 | the card's response holds `MergedAnswers`: the base answers with every usable override applied |
| LitigationFlow.ExtractSseNodes | tests/test_litigation_flow.py:334-344 | the stripped non-blank nodes of the `task_start` events with dict data, at most one per event |
| LitigationFlow.NodeOf | tests/test_litigation_flow.py:336-343 | a node only for a `task_start` with dict data, and then non-blank |
| LitigationFlow.ExtractSseNodesSound | tests/test_litigation_flow.py:334-344 | every node comes from a `task_start` event of the list |
| LitigationFlow.ExtractSseNodesAppend | tests/test_litigation_flow.py:334-344 | the nodes of two runs of events concatenate |
| LitigationFlow.ExtractLastSseCard | tests/test_litigation_flow.py:347-355 | None for a non-dict; else the data of its last non-empty card event |
| LitigationFlow.LastCardInIndex | tests/test_litigation_flow.py:349-354 | the backward scan finds the last card event |
| LitigationFlow.ExtractLastSseCardAgrees | tests/test_litigation_flow.py:347-355 | on a dict, the test's extractor and the runner's agree |
| LitigationFlow.AllQuestionSigs | tests/test_litigation_flow.py:364-371 | one entry per dict question, blank field keys included |
| LitigationFlow.LitigationCardSig | tests/test_litigation_flow.py:364-371 | the cleaned skill, task and review kinds and all dict question entries |
| LitigationFlow.SigsAgreeWhenKeyed | tests/test_litigation_flow.py:364-371 | without blank field keys the test and the runner list the same entries |
| LitigationFlow.BlankKeyQuestionCounts | tests/test_litigation_flow.py:364-371 | a blank-key dict question changes the test's signature but not the runner's |
| LitigationFlow.TalliesSnoc | tests/test_litigation_flow.py:485 | counting one more signature keeps the tally exact |
| LitigationFlow.SignaturesOf | tests/test_litigation_flow.py:480-485 | a list holding each card's signature, in order, is their signatures |
| LitigationFlow.DriveToCause | tests/test_litigation_flow.py:451-538 | for any signature, cause test, baseline check and per-card clarify set: each handled card's signature is counted exactly; it fails on the fourth sighting of a signature, collects the clarify signatures of every card not rejected, stops at the first cause card with the baseline's verdict on it, and handles at most 30 cards |
| LitigationFlow.CountSig | tests/test_litigation_flow.py:485-504 | counting one more signature keeps the tally exact; it is one too many exactly when that signature is now seen a fourth time, and every other count stays at most 3 |
| LitigationFlow.LitigationDriveToCause | tests/test_litigation_flow.py:451-538 | the same with `_card_sig`, the cause-recommendation select card, the `transport_contract` baseline and the clarify question signatures |
| LitigationFlow.CauseCardCheck | tests/test_litigation_flow.py:527-538 | fails with AssertionError when no dict question asks for `profile.cause_of_action_code`; otherwise passes exactly when the first such question's first option has the value `transport_contract` |
| LitigationFlow.ClarifySigsOfLists | tests/test_litigation_flow.py:515-520 | a card adds a signature exactly when it is a clarify card listing it for a dict question |
| LitigationFlow.QuestionSigsNonEmpty | tests/test_litigation_flow.py:358-361 | no question signature is empty, so the `if qsig` filter drops nothing |
| LitigationFlow.CollectedSnoc | tests/test_litigation_flow.py:515-520 | one more card adds its signatures to the collected set |
| LitigationFlow.CollectedHas | tests/test_litigation_flow.py:515-520 | every signature a card adds is in the collected set |
| LitigationFlow.CollectedSource | tests/test_litigation_flow.py:515-520 | every collected signature was added by some card |
| LitigationFlow.DriveVerdict | tests/test_litigation_flow.py:552-555 | passes exactly when the cause card was reached and at most 3 clarify signatures were collected, and then yields that card |
| BusInjuryV4.Unwrap | scripts/run_bus_injury_v4_e2e.py:41-44 | a dict with `data` gives that value; anything else is returned as it is |
| BusInjuryV4.UnwrapKeysOnData | scripts/run_bus_injury_v4_e2e.py:41-44 | unlike `unwrap_api_response`, this unwrapper keys on `data`, not `code` |
| BusInjuryV4.NewlinesAppend | scripts/run_bus_injury_v4_e2e.py:76-80 | the newline count of a concatenation is the sum |
| BusInjuryV4.NoNewlines | scripts/run_bus_injury_v4_e2e.py:76-80 | a text without newline counts none |
| BusInjuryV4.FirstLine | scripts/run_bus_injury_v4_e2e.py:76-80 | None exactly when the needle does not occur; else one plus the newlines before its first occurrence |
| BusInjuryV4.NotInFirstLine | scripts/run_bus_injury_v4_e2e.py:76-80 | a newline-free needle missing from a line does not start in that line |
| BusInjuryV4.InRest | scripts/run_bus_injury_v4_e2e.py:76-80 | past the first line, the needle occurs where it occurs in the rest |
| BusInjuryV4.NextLineAbsent | scripts/run_bus_injury_v4_e2e.py:76-80 | a needle in neither part is not in the text |
| BusInjuryV4.NextLinePresent | scripts/run_bus_injury_v4_e2e.py:76-80 | the first occurrence in the rest is the first in the text, shifted |
| BusInjuryV4.FirstLineNextLine | scripts/run_bus_injury_v4_e2e.py:76-80 | a needle missing from the first line is reported one line later than in the rest |
| BusInjuryV4.FirstLineOne | scripts/run_bus_injury_v4_e2e.py:76-80 | a needle before the first newline is on line 1 |
| BusInjuryV4.BumpGet | scripts/run_bus_injury_v4_e2e.py:143-144 | a bump adds one to its key and leaves every other key as it was |
| BusInjuryV4.TallyGet | scripts/run_bus_injury_v4_e2e.py:140-145 | each key reads back as its number of events; a key no event has is absent |
| BusInjuryV4.TotalPut | scripts/run_bus_injury_v4_e2e.py:143-144 | setting a key changes the total by the difference of the counts |
| BusInjuryV4.TotalBump | scripts/run_bus_injury_v4_e2e.py:143-144 | a bump adds one to the total |
| BusInjuryV4.TallyTotal | scripts/run_bus_injury_v4_e2e.py:140-145 | the counts add up to the number of events |
| BusInjuryV4.EventCounts | scripts/run_bus_injury_v4_e2e.py:140-145 | the loop builds exactly the tally of the events |
| BusInjuryV4.ExitCode | scripts/run_bus_injury_v4_e2e.py:518-521 | 1 exactly when some step failed, else 0 |
| BusInjuryV4.AnyFailIff | scripts/run_bus_injury_v4_e2e.py:518-521 | some step failed exactly when some step's status is FAIL |
| BusInjuryV4.StepOf | scripts/run_bus_injury_v4_e2e.py:148-149 | PASS exactly when `ok`, with the given step, title and detail |
| BusInjuryV4.ExitCodeSnoc | scripts/run_bus_injury_v4_e2e.py:148-149 | one more step fails the run exactly when it is not ok; otherwise the code is unchanged |
| BusInjuryV4.StepLog.constructor | scripts/run_bus_injury_v4_e2e.py:30-34 | an empty list of step results |
| BusInjuryV4.StepLog.AppendStep | scripts/run_bus_injury_v4_e2e.py:148-149 | appends exactly the step's record |
| BusInjuryV4.V4AnswerOf | scripts/run_bus_injury_v4_e2e.py:198-205 | repaired when required and empty; left out when optional and None |
| BusInjuryV4.V4AnswerFor | scripts/run_bus_injury_v4_e2e.py:152-207 | only answerable questions are answered, under their key |
| BusInjuryV4.V4AutoAnswerCard | scripts/run_bus_injury_v4_e2e.py:152-207 | `{"answers": [...]}` with at most one answer per question |
| BusInjuryV4.V4RequiredAnswered | scripts/run_bus_injury_v4_e2e.py:198-205 | every required answerable question is answered with a non-empty value |
| BusInjuryV4.V4OptionalNoneOmitted | scripts/run_bus_injury_v4_e2e.py:203-204 | an optional question whose value is None is left out |
| BusInjuryV4.AttachmentGetsUploads | scripts/run_bus_injury_v4_e2e.py:169-170 | `attachment_file_ids` gets the uploads whatever its type |
| BusInjuryV4.FileFieldAnswer | scripts/run_bus_injury_v4_e2e.py:195-196 | `file_id` gets the first upload and `file_ids` all of them |
| BusInjuryV4.BooleanAnswer | scripts/run_bus_injury_v4_e2e.py:193-194 | a boolean is `bool(default)` with a default, else True; False is sent as is |
| BusInjuryV4.MultiListDefault | scripts/run_bus_injury_v4_e2e.py:183-192 | a list default of a multi-select is sent as it is, even an empty one, unless the repair applies |
| BusInjuryV4.MultiRecommendedOnly | scripts/run_bus_injury_v4_e2e.py:183-192 | without a list default, a multi-select takes only recommended options |
| BusInjuryV4.ResumeLoops | scripts/run_bus_injury_v4_e2e.py:264 | the budget is clamped to between 1 and 4 |
| BusInjuryV4.ConsumeBounded | scripts/run_bus_injury_v4_e2e.py:253-278 | at most `max_cards` cards are consumed, and the count never goes back |
| BusInjuryV4.NoAnswersUnresolved | scripts/run_bus_injury_v4_e2e.py:253-278 | a card the answerer has nothing for stops the loop unresolved, without a resume |
| BusInjuryV4.ConsumeMeaning | scripts/run_bus_injury_v4_e2e.py:237-278 | every card before the returned count was pending, answered and resumed without failure; the result is unresolved exactly when a card is still pending at the count, and then the card budget ran out, the answerer had nothing for that card, or its resume failed |
| BusInjuryV4.ConsumePendingCards | scripts/run_bus_injury_v4_e2e.py:237-278 | the outcome and consumed count `Consume` gives, at most one resume per consumed card plus one, each with the budget `min(max(1, resume_max_loops), 4)` |
| DebugAnswers.FirstPickList | scripts/run_complex_traffic_accident_flow_debug.py:104-105 | the picked value as a one-item list, or an empty list |
| DebugAnswers.DefaultFirstValue | scripts/run_complex_traffic_accident_flow_debug.py:88-113 | a usable default first, else the branch value by input type |
| DebugAnswers.MultiWithoutDefault | scripts/run_complex_traffic_accident_flow_debug.py:101-105 | a multi-select without a default gets the picked value as a one-item list, or an empty list |
| DebugAnswers.TrafficAnswerOf | scripts/run_complex_traffic_accident_flow_debug.py:84-122 | the stop-ask question is False; otherwise the repaired default-first value |
| DebugAnswers.TrafficAnswerFor | scripts/run_complex_traffic_accident_flow_debug.py:66-124 | only answerable questions are answered; an override key present wins |
| DebugAnswers.TrafficAutoAnswerCard | scripts/run_complex_traffic_accident_flow_debug.py:66-124 | `{"answers": [...]}` with at most one answer per question |
| DebugAnswers.TrafficOverrideSent | scripts/run_complex_traffic_accident_flow_debug.py:79-81 | an override key present is sent unchanged, even None |
| DebugAnswers.TrafficStopAskFalse | scripts/run_complex_traffic_accident_flow_debug.py:84-86 | without an override the stop-ask question is answered False |
| DebugAnswers.TrafficFileField | scripts/run_complex_traffic_accident_flow_debug.py:106-111 | a file field gets the whole upload list, required or not |
| DebugAnswers.TrafficNoneOnlyFromOverrides | scripts/run_complex_traffic_accident_flow_debug.py:66-124 | an answer is None only when an override says so |
| DebugAnswers.TrafficRequiredAnswered | scripts/run_complex_traffic_accident_flow_debug.py:115-116 | a required question without an override is answered with a non-empty value |
| DebugAnswers.DocumentFileValue | scripts/run_multi_documents_flow_debug.py:106-110 | attachments get the uploads; other file fields get the first upload only when required, else an empty list |
| DebugAnswers.DocumentAnswerOf | scripts/run_multi_documents_flow_debug.py:85-117 | the repaired default-first answer, sent for every question |
| DebugAnswers.DocumentAnswerFromQuestion | scripts/run_multi_documents_flow_debug.py:85-117 | the same, read from the question |
| DebugAnswers.DocumentFileField | scripts/run_multi_documents_flow_debug.py:106-110 | a non-attachment file field without a default gets an empty list when optional |
| DebugAnswers.DocumentOptionalNoneSent | scripts/run_multi_documents_flow_debug.py:111-117 | an optional text question without a default is sent as None |
| DebugAnswers.MultiDocumentsAnswerFor | scripts/run_multi_documents_flow_debug.py:69-119 | a resolved override other than None wins; else the document answer |
| DebugAnswers.MultiDocumentsAutoAnswerCard | scripts/run_multi_documents_flow_debug.py:69-119 | `{"answers": [...]}` with at most one answer per question |
| DebugAnswers.MultiDocumentsOnePerQuestion | scripts/run_multi_documents_flow_debug.py:69-119 | exactly one answer per answerable question, in order |
| DebugAnswers.MultiDocumentsOverride | scripts/run_multi_documents_flow_debug.py:49-66 | an override that resolves, exactly or one level down, to a value other than None is sent |
| DebugAnswers.BusPassengerAnswerFor | scripts/run_bus_passenger_injury_flow_debug.py:69-117 | only an exact override key counts, even with None |
| DebugAnswers.BusPassengerAutoAnswerCard | scripts/run_bus_passenger_injury_flow_debug.py:69-117 | `{"answers": [...]}` with at most one answer per question |
| DebugAnswers.BusPassengerOnePerQuestion | scripts/run_bus_passenger_injury_flow_debug.py:69-117 | exactly one answer per answerable question, in order |
| DebugAnswers.BusPassengerOverride | scripts/run_bus_passenger_injury_flow_debug.py:82-84 | an exact override key is sent unchanged, even None |
| DebugAnswers.NestedOverrideOnlyInMultiDocuments | scripts/run_multi_documents_flow_debug.py:49-66 | for any key `k` and sub-key `sub`, a nested override `{k: {sub: v}}` answers the field `k.sub` with `v` in the multi-documents runner and is ignored by the bus-passenger one |
| DebugAnswers.LitigationText | scripts/run_litigation_flow_debug.py:62-70 | the case text for `profile.facts`, `"已确认"` otherwise |
| DebugAnswers.SingleUpload | scripts/run_litigation_flow_debug.py:57-61 | `[id]` when required with a non-empty id, else an empty list |
| DebugAnswers.FixedValue | scripts/run_litigation_flow_debug.py:49-70 | the fixed value by input type, whatever the default |
| DebugAnswers.FixedFileField | scripts/run_litigation_flow_debug.py:57-73 | a file field is `[id]`, `"已确认"` or an empty list, by required flag and id |
| DebugAnswers.FixedBoolean | scripts/run_litigation_flow_debug.py:50-51 | a boolean is always True |
| DebugAnswers.FixedSelect | scripts/run_litigation_flow_debug.py:52-53 | a select takes the recommended-or-first value, repaired when required |
| DebugAnswers.FixedMulti | scripts/run_litigation_flow_debug.py:54-56 | a multi-select is a one-item list or an empty list |
| DebugAnswers.FixedText | scripts/run_litigation_flow_debug.py:62-70 | a text question gets the non-blank text |
| DebugAnswers.LitigationAnswerFor | scripts/run_litigation_flow_debug.py:40-75 | only answerable questions are answered, under their key, and required ones never empty |
| DebugAnswers.LitigationAutoAnswerCard | scripts/run_litigation_flow_debug.py:36-77 | `{"answers": [...]}` with at most one answer per question |
| DebugAnswers.LitigationOnePerQuestion | scripts/run_litigation_flow_debug.py:36-77 | one answer per answerable question, in order, no required one empty |
| DebugAnswers.LitigationFactsAnswer | scripts/run_litigation_flow_debug.py:63-68 | `profile.facts` as a text question gets the case text |
| DebugAnswers.AppendNew | scripts/run_litigation_multi_docs_debug.py:34-40 | appends each accepted item not there yet, in order |
| DebugAnswers.AppendNewDistinct | scripts/run_litigation_multi_docs_debug.py:34-40 | distinct, accepted, new items are appended as they are |
| DebugAnswers.AppendNewTail | scripts/run_litigation_multi_docs_debug.py:34-40 | the first such item is appended and the rest stay distinct, accepted and new |
| DebugAnswers.StripAll | scripts/run_litigation_multi_docs_debug.py:34-40 | each item stripped, position by position |
| DebugAnswers.SplitCsv | scripts/run_litigation_multi_docs_debug.py:34-40 | the stripped non-empty items, each once, in first-occurrence order, without commas |
| DebugAnswers.SplitCsvOrder | scripts/run_litigation_multi_docs_debug.py:34-40 | the items come in the order of their first occurrences among the stripped pieces |
| DebugAnswers.AppendNewInOrder | scripts/run_litigation_multi_docs_debug.py:34-40 | what the append-if-new loop keeps comes in first-occurrence order of its input |
| DebugAnswers.FirstIndexIsFirst | scripts/run_litigation_multi_docs_debug.py:34-40 | no occurrence of an item comes before its first index |
| DebugAnswers.SplitCsvOfJoin | scripts/run_litigation_multi_docs_debug.py:34-40 | distinct, stripped, non-empty comma-free items survive a join and split unchanged |
| DebugAnswers.DefaultKeys | scripts/run_litigation_multi_docs_debug.py:89-90 | the stripped non-blank text or integer items of a list default |
| DebugAnswers.RequestedOffered | scripts/run_litigation_multi_docs_debug.py:70-75 | the requested keys that are option values, each once: a key is kept exactly when it is requested and offered |
| DebugAnswers.RequestedOfferedOrder | scripts/run_litigation_multi_docs_debug.py:72-74 | the kept keys come in requested order: of two kept keys, the earlier was first requested earlier |
| DebugAnswers.SelectedDocuments | scripts/run_litigation_multi_docs_debug.py:69-81 | the requested offered keys, else the default keys, else an empty list |
| DebugAnswers.SelectedDocumentsOffered | scripts/run_litigation_multi_docs_debug.py:69-81 | when some requested key is offered the default is ignored |
| DebugAnswers.SelectedDocumentsAllOffered | scripts/run_litigation_multi_docs_debug.py:69-81 | requested keys that are all offered and distinct are answered as they are |
| DebugAnswers.MultiDocsValue | scripts/run_litigation_multi_docs_debug.py:68-106 | the value by field key and input type, before the repair |
| DebugAnswers.MultiDocsAnswerFor | scripts/run_litigation_multi_docs_debug.py:59-111 | only answerable questions are answered, under their key, and required ones never empty |
| DebugAnswers.MultiDocsAutoAnswerCard | scripts/run_litigation_multi_docs_debug.py:55-113 | `{"answers": [...]}` with at most one answer per question |
| DebugAnswers.MultiDocsOnePerQuestion | scripts/run_litigation_multi_docs_debug.py:55-113 | one answer per answerable question, in order |
| DebugAnswers.MultiDocsBooleanTrue | scripts/run_litigation_multi_docs_debug.py:82-83 | a boolean is True whatever its default |
| LegalOpinion.OpinionText | scripts/run_legal_opinion_flow_debug.py:99-105 | `"已确认"` for every field but the facts and the background |
| LegalOpinion.OpinionAnswerFor | scripts/run_legal_opinion_flow_debug.py:68-112 | exactly the answerable questions are answered, under their key, and required ones never empty |
| LegalOpinion.OpinionAutoAnswerCard | scripts/run_legal_opinion_flow_debug.py:68-112 | `{"answers": [...]}` with at most one answer per question |
| LegalOpinion.OpinionOnePerQuestion | scripts/run_legal_opinion_flow_debug.py:68-112 | one answer per answerable question, in order, no required one empty |
| LegalOpinion.OpinionCaseTexts | scripts/run_legal_opinion_flow_debug.py:100-103 | `profile.facts` and `profile.background` text questions get the two case texts |
| LegalOpinion.Service.constructor | scripts/run_legal_opinion_flow_debug.py:122-123 | an empty call log and the given reply oracle |
| LegalOpinion.Service.Send | scripts/run_legal_opinion_flow_debug.py:141-173 | logs the call and answers it with `reply(n, call)` |
| LegalOpinion.FirstErrorIndex | scripts/run_legal_opinion_flow_debug.py:165-169 | the index of the first error event, and none before it |
| LegalOpinion.FirstErrorEvent | scripts/run_legal_opinion_flow_debug.py:165-169 | None exactly when no dict event is an `error`; otherwise such an event of the reply |
| LegalOpinion.PartialErrorStops | scripts/run_legal_opinion_flow_debug.py:165-169 | a partial-stream error event stops the loop like any other |
| LegalOpinion.ProbeAt | scripts/run_legal_opinion_flow_debug.py:141-148 | the session read first; one more call, the deliverable listing, exactly when a matter id is read |
| LegalOpinion.ReplyAt | scripts/run_legal_opinion_flow_debug.py:150-173 | the pending-card read, then one call whose reply is returned |
| LegalOpinion.TurnAt | scripts/run_legal_opinion_flow_debug.py:141-178 | two to four calls, the session read first, and the matter id read from its reply |
| LegalOpinion.TurnListsDeliverable | scripts/run_legal_opinion_flow_debug.py:141-148 | with a matter id the deliverables are listed next; the turn is ready exactly when that listing shows one, and then it made two calls |
| LegalOpinion.TurnAnswersCard | scripts/run_legal_opinion_flow_debug.py:150-173 | a turn that is not ready reads the pending card and then resumes with the opinion auto-answer exactly when the card is truthy, else sends the `"继续"` nudge with 12 loops; its reply is the answer to that call |
| LegalOpinion.ProbeDeliverable | scripts/run_legal_opinion_flow_debug.py:141-148 | makes exactly the calls `ProbeAt` lists and returns its matter id and readiness |
| LegalOpinion.AnswerPending | scripts/run_legal_opinion_flow_debug.py:150-173 | makes exactly the calls `ReplyAt` lists and returns its reply |
| LegalOpinion.Iteration | scripts/run_legal_opinion_flow_debug.py:141-178 | makes exactly the calls `TurnAt` lists, and returns its matter id, readiness and reply |
| LegalOpinion.TurnReady | scripts/run_legal_opinion_flow_debug.py:141-148 | a ready turn ends the log with a deliverable listing that shows one |
| LegalOpinion.TurnAnswered | scripts/run_legal_opinion_flow_debug.py:150-173 | an unready turn's reply is the service's answer to the resume or nudge it logged last |
| LegalOpinion.TurnListings | scripts/run_legal_opinion_flow_debug.py:141-148 | a turn's only deliverable listing is its second call, and in a turn that is not ready it does not show the deliverable |
| LegalOpinion.TurnNoneReady | scripts/run_legal_opinion_flow_debug.py:141-148 | no call a turn logs shows the deliverable, except the last call of a ready turn |
| LegalOpinion.NoneReadyJoin | scripts/run_legal_opinion_flow_debug.py:139-148 | two stretches of the log in which no listing showed the deliverable, one after the other, make one |
| LegalOpinion.TrackedIteration | scripts/run_legal_opinion_flow_debug.py:141-178 | the log only grows, by two calls on the deliverable and three or four otherwise; the reply is the answer to the logged resume or nudge; no listing it logs shows the deliverable, except the last call of a ready turn |
| LegalOpinion.Drive | scripts/run_legal_opinion_flow_debug.py:139-180 | at most 60 iterations; every recorded reply is the service's answer to a resume or nudge it logged, in order; it stops at the first listing that shows the deliverable, which is then the last call logged, or at the first reply carrying an error event; no earlier listing showed the deliverable and no earlier reply carried an error; when it stops otherwise, no listing it logged showed the deliverable |
| Mp4.Ascii | scripts/run_bus_passenger_injury_flow_debug.py:52 | one byte per character, its code |
| Mp4.Pow256 | scripts/run_bus_passenger_injury_flow_debug.py:49 | a positive power of 256 |
| Mp4.BigEndian | scripts/run_bus_passenger_injury_flow_debug.py:49 | `k` bytes |
| Mp4.FromBigEndian | scripts/run_bus_passenger_injury_flow_debug.py:49 | below `256^k` for `k` bytes |
| Mp4.BigEndianRoundTrip | scripts/run_bus_passenger_injury_flow_debug.py:49 | reading back the big-endian bytes of a number gives the number |
| Mp4.Box | scripts/run_bus_passenger_injury_flow_debug.py:48-50 | size, type and payload, eight bytes longer than the payload |
| Mp4.BoxSizeHeader | scripts/run_bus_passenger_injury_flow_debug.py:49 | the first four bytes are `8 + len(payload)` in big-endian order |
| Mp4.ParseBox | scripts/run_bus_passenger_injury_flow_debug.py:48-50 | a parsed box fits in the bytes and names its size |
| Mp4.BoxRoundTrip | scripts/run_bus_passenger_injury_flow_debug.py:48-50 | a box is read back as its type and payload whatever follows it |
| Mp4.FtypPayload | scripts/run_bus_passenger_injury_flow_debug.py:52 | major brand, minor version 0 and compatible brands, 16 bytes |
| Mp4.MinimalMp4Layout | scripts/run_bus_passenger_injury_flow_debug.py:47-54 | 36 bytes: an ftyp box of size 24 then an mdat box of size 12 with four zero bytes |
| Playbooks.IdsOf | tests/lawyer_workbench/playbook_golden/playbook_config.py:20-241 | the ids of the entries, position by position |
| Playbooks.AllPlaybookIds | tests/lawyer_workbench/playbook_golden/playbook_config.py:250-251 | the keys of the table in declaration order |
| Playbooks.LookupShape | tests/lawyer_workbench/playbook_golden/playbook_config.py:244-247 | the first shape stored under the id, which carries that id |
| Playbooks.Entry | tests/lawyer_workbench/playbook_golden/playbook_config.py:7-17 | the shape with the materials stored under its id |
| Playbooks.GetPlaybookConfig | tests/lawyer_workbench/playbook_golden/playbook_config.py:244-247 | the entry for a known id, ValueError exactly for an unknown one |
| Playbooks.AllPlaybookIdsListed | tests/lawyer_workbench/playbook_golden/playbook_config.py:20-251 | the twelve ids, in declaration order |
| Playbooks.PhasesStartWithKickoff | tests/lawyer_workbench/playbook_golden/playbook_config.py:20-241 | every playbook's phases begin with `kickoff` |
| Playbooks.DeliverablesNeedDocumentGeneration | tests/lawyer_workbench/playbook_golden/playbook_config.py:20-241 | a playbook with a primary deliverable requires the `document-generation` trace node |
| Playbooks.OnlyConsultationLacksDeliverable | tests/lawyer_workbench/playbook_golden/playbook_config.py:20-241 | only `consultation_general` has no primary deliverable |
| Playbooks.AlternatesDefaultEmpty | tests/lawyer_workbench/playbook_golden/playbook_config.py:7-17 | entries that name no alternates get the empty default |
| Playbooks.LookupGuarantees | tests/lawyer_workbench/playbook_golden/playbook_config.py:244-247 | a successful lookup carries the table's guarantees |
| GoldenAssertions.Walk | tests/lawyer_workbench/playbook_golden/assertions.py:20-29 | None as soon as a value is not a dict or lacks the part |
| GoldenAssertions.WalkAppend | tests/lawyer_workbench/playbook_golden/assertions.py:20-29 | walking a path in two stretches is walking it in one |
| GoldenAssertions.MissingFields | tests/lawyer_workbench/playbook_golden/assertions.py:7-31 | exactly the unreachable required fields, in order |
| GoldenAssertions.AssertJsonStructureValid | tests/lawyer_workbench/playbook_golden/assertions.py:7-31 | passes exactly when every required field is reachable |
| GoldenAssertions.DottedFieldWalksSegments | tests/lawyer_workbench/playbook_golden/assertions.py:20-29 | a dotted field of dot-free segments is reached by walking them in turn |
| GoldenAssertions.TwoLevelField | tests/lawyer_workbench/playbook_golden/assertions.py:20-29 | `a.b` is there exactly when `a` is a dict holding `b` |
| GoldenAssertions.AssertListNotEmpty | tests/lawyer_workbench/playbook_golden/assertions.py:34-38 | passes exactly for a non-empty list |
| GoldenAssertions.AssertTableRowsValid | tests/lawyer_workbench/playbook_golden/assertions.py:41-60 | a list of at least `min_rows` rows, each a dict holding every required column |
| GoldenAssertions.RowsUncheckedWithoutColumns | tests/lawyer_workbench/playbook_golden/assertions.py:41-60 | without required columns a long enough list of scalars passes |
| GoldenAssertions.Leaks | tests/lawyer_workbench/playbook_golden/assertions.py:123-132 | exactly the markers found in the text, in order |
| GoldenAssertions.AssertNoPlaceholderLeaks | tests/lawyer_workbench/playbook_golden/assertions.py:123-132 | passes exactly when no marker occurs |
| GoldenAssertions.EmbeddedMarkerLeaks | tests/lawyer_workbench/playbook_golden/assertions.py:123-132 | a marker anywhere in the text is reported |
| GoldenAssertions.AssertDeliverableStructure | tests/lawyer_workbench/playbook_golden/assertions.py:135-145 | a dict with its three ids and a known stripped status passes; a non-dict raises AttributeError |
| GoldenAssertions.PaddedStatusAccepted | tests/lawyer_workbench/playbook_golden/assertions.py:135-145 | a known status padded with spaces passes |
| GoldenAssertions.StatusStrip | tests/lawyer_workbench/playbook_golden/assertions.py:143-145 | a padded status strips to itself |
| GoldenAssertions.NodeIdsOf | tests/lawyer_workbench/playbook_golden/assertions.py:153-163 | the cleaned node id and, with a `:`, the piece after the last `:` |
| GoldenAssertions.TraceNodeIds | tests/lawyer_workbench/playbook_golden/assertions.py:153-163 | exactly the ids the dict traces contribute |
| GoldenAssertions.MissingNodes | tests/lawyer_workbench/playbook_golden/assertions.py:164-169 | exactly the stripped required nodes not met, in order |
| GoldenAssertions.AssertTraceHasNodes | tests/lawyer_workbench/playbook_golden/assertions.py:148-169 | passes exactly when every required node is met |
| GoldenAssertions.NodeMetByTrace | tests/lawyer_workbench/playbook_golden/assertions.py:153-169 | a node is met by a trace named after it, after its `skill:` id, or ending in `:` and it |
| GoldenAssertions.NodeMetOnlyByTrace | tests/lawyer_workbench/playbook_golden/assertions.py:153-169 | conversely, a met node comes from such a trace |
| GoldenAssertions.NodeIdFrom | tests/lawyer_workbench/playbook_golden/assertions.py:153-169 | one collected id that is the node or its `skill:` id makes its trace meet the node |
| GoldenAssertions.AssertPhaseTimelineValid | tests/lawyer_workbench/playbook_golden/assertions.py:172-190 | the playbook id matches and every required phase is listed; a non-dict raises AttributeError |
| GoldenAssertions.ListedPhasesPass | tests/lawyer_workbench/playbook_golden/assertions.py:172-190 | a timeline naming the playbook and listing each required phase passes |
| GoldenAssertions.AssertWorkflowProfileValid | tests/lawyer_workbench/playbook_golden/assertions.py:193-202 | the snake-case or camel-case service type equals the expected one; a non-dict raises AttributeError |
| GoldenAssertions.SnakeCaseServiceTypeWins | tests/lawyer_workbench/playbook_golden/assertions.py:193-202 | the snake-case key wins whenever it is set |
| PhaseTimeline.NonBlankIds | tests/lawyer_workbench/_support/phase_timeline.py:24-30 | an id is listed exactly when it is non-blank and the cleaned id of some phase |
| PhaseTimeline.PhaseStatus | tests/lawyer_workbench/_support/phase_timeline.py:33-40 | the cleaned status of the first phase with the wanted id, None when absent or blank |
| PhaseTimeline.PhaseStatusFirstDecides | tests/lawyer_workbench/_support/phase_timeline.py:33-40 | in any timeline, the first dict phase with the id decides its status, and a later phase with the same id is never read |
| PhaseTimeline.DeliverableOutputKeys | tests/lawyer_workbench/_support/phase_timeline.py:50-56 | exactly the non-blank output keys of the dict deliverables |
| PhaseTimeline.AssertHasPhases | tests/lawyer_workbench/_support/phase_timeline.py:59-64 | passes exactly when every non-blank wanted id, stripped, is a phase id |
| PhaseTimeline.AssertPhaseStatusIn | tests/lawyer_workbench/_support/phase_timeline.py:67-71 | passes exactly when the phase has a status equal to one of the stripped allowed values |
| PhaseTimeline.MissingPhaseFails | tests/lawyer_workbench/_support/phase_timeline.py:67-71 | a missing phase fails whatever is allowed |
| PhaseTimeline.CheckDeliverable | tests/lawyer_workbench/_support/phase_timeline.py:84-89 | a non-blank file id and a status that is blank, `completed` or `done` |
| PhaseTimeline.AssertHasDeliverable | tests/lawyer_workbench/_support/phase_timeline.py:74-89 | ValueError for a blank key; else the first deliverable with the key decides, and none fails |
| PhaseTimeline.DeliverableFirstDecides | tests/lawyer_workbench/_support/phase_timeline.py:74-89 | in any timeline, the first dict deliverable with the key decides, so a later complete duplicate does not rescue an incomplete first one |
| Timeline.Contents | tests/lawyer_workbench/_support/timeline.py:34-40 | exactly the non-empty dict contents of the rounds |
| Timeline.ContentsAppend | tests/lawyer_workbench/_support/timeline.py:34-40 | the contents of more rounds extend the contents of fewer |
| Timeline.ProducedOutputKeys | tests/lawyer_workbench/_support/timeline.py:43-52 | exactly the non-blank cleaned keys some round content lists |
| Timeline.HitSnippets | tests/lawyer_workbench/_support/timeline.py:63-73 | exactly the non-blank cleaned snippets of the dict hits |
| Timeline.RetrievalSnippets | tests/lawyer_workbench/_support/timeline.py:55-73 | exactly the snippets of the dict retrieval traces of every round |
| Timeline.AssertTimelineHasOutputKeys | tests/lawyer_workbench/_support/timeline.py:76-81 | passes exactly when every non-blank wanted key was produced |
| Timeline.AssertTimelineRetrievalIncludes | tests/lawyer_workbench/_support/timeline.py:84-91 | ValueError for a blank fragment; else passes exactly when some snippet contains it |
| Timeline.OutputKeysGrow | tests/lawyer_workbench/_support/timeline.py:43-52 | a passing key check still passes once more rounds arrive |
| Memory.CaseFacts | tests/lawyer_workbench/_support/memory.py:28-34 | the dict items of the unwrapped list, or none |
| Memory.EntityKeys | tests/lawyer_workbench/_support/memory.py:37-45 | exactly the non-blank cleaned entity keys of the dict facts |
| Memory.FindFact | tests/lawyer_workbench/_support/memory.py:48-59 | ValueError for a blank key; else the first dict fact with that key, or None when none has it |
| Memory.FindFactFirst | tests/lawyer_workbench/_support/memory.py:48-59 | a later fact with the same key is never found |
| Memory.AssertFactContentContains | tests/lawyer_workbench/_support/memory.py:62-85 | the lookup's errors first; a missing fact fails; else passes exactly when every fragment is in the content |
| Memory.FactContentFirstDecides | tests/lawyer_workbench/_support/memory.py:62-85 | the first fact with the key decides |
| Memory.AssertAnyFactContentContains | tests/lawyer_workbench/_support/memory.py:88-109 | ValueError when no candidate is non-blank; else the first non-blank candidate, in order, whose fact passes, or AssertionError |
| Memory.FirstPassingCandidate | tests/lawyer_workbench/_support/memory.py:97-105 | the key found first among the cleaned candidates is a candidate before which no non-blank candidate passes |
| Memory.AnyFactFirstCandidate | tests/lawyer_workbench/_support/memory.py:88-109 | a first candidate whose fact passes is returned, whatever the rest hold |
| Profile.PartiesFrom | tests/lawyer_workbench/_support/profile.py:8-19 | exactly the usable items' parties, and none exactly when no item is usable |
| Profile.Fallback | tests/lawyer_workbench/_support/profile.py:20-28 | the top-level `plaintiff` and `defendant`, each when not blank |
| Profile.NormalizeParties | tests/lawyer_workbench/_support/profile.py:8-28 | the usable parties when some exist, else the top-level fallback |
| Profile.AssertServiceType | tests/lawyer_workbench/_support/profile.py:31-35 | a truthy non-dict raises AttributeError; else passes exactly when the cleaned service type equals the stripped expected one |
| Profile.AssertHasParty | tests/lawyer_workbench/_support/profile.py:38-46 | ValueError for a blank role or fragment; else passes exactly when some party has the role and a name containing the fragment |
| Profile.TopLevelPlaintiffFound | tests/lawyer_workbench/_support/profile.py:20-28 | a profile naming its plaintiff only at the top level still has that plaintiff |
| Profile.PartiesListWins | tests/lawyer_workbench/_support/profile.py:8-28 | a usable `parties` entry hides the top-level strings |
| Traces.FindLatestTrace | tests/lawyer_workbench/_support/traces.py:8-21 | ValueError for a blank node id; else the first dict trace with that node id, or None |
| Traces.LatestTraceWins | tests/lawyer_workbench/_support/traces.py:8-21 | an older trace of the same node, listed further down, is never returned |
| Traces.FindToolCall | tests/lawyer_workbench/_support/traces.py:31-38 | ValueError for a blank name; else the first tool call with that name, or None |
| Traces.FirstToolCallWins | tests/lawyer_workbench/_support/traces.py:31-38 | the first tool call with the name is returned, whatever later calls with the same name hold |
| Traces.ExtractContextManifest | tests/lawyer_workbench/_support/traces.py:41-46 | a manifest is the dict result of some `context_manifest` call, and without such a call there is none |
| Traces.FirstManifestDecides | tests/lawyer_workbench/_support/traces.py:41-46 | the first `context_manifest` call decides: its result when that is a dict, else None, whatever later calls hold |
| Canvas.CanvasProfile | tests/lawyer_workbench/_support/canvas.py:17-19 | the `profile` when it is a dict, else an empty dict |
| Canvas.CanvasEvidenceFileIds | tests/lawyer_workbench/_support/canvas.py:22-33 | exactly the non-blank cleaned file ids of the dict evidence items |
| Canvas.UploadedEvidenceListed | tests/lawyer_workbench/_support/canvas.py:22-33 | an item's file id is found whatever surrounds it |
| Docx.Texts | tests/lawyer_workbench/_support/docx.py:18-32 | exactly the stripped non-blank texts, in order |
| Docx.Parts | tests/lawyer_workbench/_support/docx.py:18-32 | the paragraph texts first, then the cell texts |
| Docx.ExtractDocxText | tests/lawyer_workbench/_support/docx.py:9-32 | "" for a non-bytes or empty input; otherwise the newline join of the parts, which split on newlines gives the parts back when there are parts and none holds a newline |
| Docx.AssertDocxContains | tests/lawyer_workbench/_support/docx.py:35-45 | passes exactly when every non-blank fragment, stripped, occurs |
| Docx.ParagraphFound | tests/lawyer_workbench/_support/docx.py:18-32 | a paragraph's text is found in the extracted text |
| Docx.ParagraphsBeforeCells | tests/lawyer_workbench/_support/docx.py:18-32 | paragraph text comes before table text, a newline between |
| TemplateAction.ExtractTemplates | tests/lawyer_workbench/document_drafting/test_template_action_flow.py:41-47 | the dict templates of the data, else of the envelope's `templates` list |
| TemplateAction.EnvelopeFallsBack | tests/lawyer_workbench/document_drafting/test_template_action_flow.py:41-47 | an envelope whose data has no list falls back to the `templates` beside it |
| TemplateAction.PickTemplate | tests/lawyer_workbench/document_drafting/test_template_action_flow.py:50-66 | a complaint by key when there is one, else one by title, else one with any key, else AssertionError |
| TemplateAction.PickFirstOfTier | tests/lawyer_workbench/document_drafting/test_template_action_flow.py:50-66 | within the deciding tier the pick is that tier's first template in list order |
| TemplateAction.ComplaintKeyBeatsName | tests/lawyer_workbench/document_drafting/test_template_action_flow.py:57-62 | a complaint template listed last still beats a named one listed first |
| TemplateAction.CallsOf | tests/lawyer_workbench/document_drafting/test_template_action_flow.py:72-73 | the list of tool calls; falsy gives none, a truthy number raises TypeError |
| TemplateAction.HasAgenticSearch | tests/lawyer_workbench/document_drafting/test_template_action_flow.py:69-79 | true at the first dict trace holding an agentic-search call |
| TemplateAction.EarlyAgenticWins | tests/lawyer_workbench/document_drafting/test_template_action_flow.py:69-79 | a malformed trace after the first agentic call is never read |
| QualityCheck.Iterate | scripts/e2e_quality_check.py:136-139 | what `for x in v` visits, or TypeError |
| QualityCheck.PyIn | scripts/e2e_quality_check.py:139 | `x in container` with Python's TypeErrors |
| QualityCheck.AllInTotal | scripts/e2e_quality_check.py:139 | with well-typed tests, `all(...)` is the conjunction of the memberships |
| QualityCheck.AllKeywordsIn | scripts/e2e_quality_check.py:139 | a list of string keywords is met exactly when each is a substring |
| QualityCheck.Section | scripts/e2e_quality_check.py:113-115 | `exp.get(a, {}).get(b, default)`, with AttributeError on a non-dict |
| QualityCheck.IntOf | scripts/e2e_quality_check.py:257 | `int()` of an integer, a boolean or integer text |
| QualityCheck.Step | scripts/e2e_quality_check.py:130-152 | one item's effect on the counts and notes |
| QualityCheck.RaisedStays | scripts/e2e_quality_check.py:120-155 | once an item raised, later items change nothing |
| QualityCheck.RunItemsCounts | scripts/e2e_quality_check.py:117-158 | `success` counts the met items and never exceeds `total` |
| QualityCheck.Gather | scripts/e2e_quality_check.py:130-155 | the loop's tally is `RunItems`: items judged in order until one raises |
| QualityCheck.CheckOverNoItems | scripts/e2e_quality_check.py:113-115 | a missing or empty section passes with total 0 |
| QualityCheck.CheckOverEscapes | scripts/e2e_quality_check.py:113-117 | only a non-dict section or one `len()` rejects escapes |
| QualityCheck.CheckOverPassed | scripts/e2e_quality_check.py:154-158 | every check reports `passed == (success == total)` |
| QualityCheck.CheckOverSetupFailed | scripts/e2e_quality_check.py:120-158 | a setup failure fails a check that has items, with one warning |
| QualityCheck.FieldIs | scripts/e2e_quality_check.py:137 | `x.get(k) == v` |
| QualityCheck.FirstMatchAt | scripts/e2e_quality_check.py:136-149 | the item at i is found exactly when the items before it are non-matching dicts |
| QualityCheck.FirstMatchMissing | scripts/e2e_quality_check.py:136-152 | nothing is found when every item is a non-matching dict |
| QualityCheck.RetrievalVerdict | scripts/e2e_quality_check.py:130-152 | the first fact with the item's entity key decides; no fact means not found |
| QualityCheck.RetrievalOfFact | scripts/e2e_quality_check.py:137-149 | the keyword test against the deciding fact |
| QualityCheck.RetrievalFirstFactDecides | scripts/e2e_quality_check.py:136-149 | the first fact with the entity key decides |
| QualityCheck.RetrievalKeywords | scripts/e2e_quality_check.py:139 | string keywords are met exactly when each is a substring of the content |
| QualityCheck.RetrievalNotFound | scripts/e2e_quality_check.py:151-152 | an entity key no fact carries is reported as not found |
| QualityCheck.StorageVerdict | scripts/e2e_quality_check.py:182-214 | the first fact with the entity key decides |
| QualityCheck.StorageOfFact | scripts/e2e_quality_check.py:189-211 | the scope and content test against the deciding fact |
| QualityCheck.StorageFirstFactDecides | scripts/e2e_quality_check.py:188-211 | the first fact with the entity key decides |
| QualityCheck.StorageOfFactMeaning | scripts/e2e_quality_check.py:189-211 | met exactly when the scope is equal and the fragment is in the content |
| QualityCheck.QueryOf | scripts/e2e_quality_check.py:264-295 | the query for each known table, and none for an unknown one |
| QualityCheck.Texts | scripts/e2e_quality_check.py:292 | `str()` of each item, position by position |
| QualityCheck.MattersParams | scripts/e2e_quality_check.py:265-270 | `service_type` is added exactly when truthy |
| QualityCheck.DeliverablesParams | scripts/e2e_quality_check.py:277-284 | `output_key` is added, as text, exactly when truthy |
| QualityCheck.PartiesParams | scripts/e2e_quality_check.py:285-292 | the roles, as text, exactly when a non-empty list |
| QualityCheck.PlainTableParams | scripts/e2e_quality_check.py:271-276 | two tables query by the matter id alone |
| QualityCheck.BeforeFirst | scripts/e2e_quality_check.py:311 | the text before the first separator |
| QualityCheck.RecordExpectation | scripts/e2e_quality_check.py:299-326 | an integer asks for exactly that many rows, `">=N"` for at least N |
| QualityCheck.FindNoSeparator | scripts/e2e_quality_check.py:311 | a text with no `>` has no `>=` |
| QualityCheck.MinCountOf | scripts/e2e_quality_check.py:311 | the number in `">=N"` reads back as N |
| QualityCheck.AtLeastExpectation | scripts/e2e_quality_check.py:308-320 | `">=N"` asks for at least N rows |
| QualityCheck.BoolExpectation | scripts/e2e_quality_check.py:300-307 | a boolean expectation counts as 1 or 0 |
| QualityCheck.RecordVerdict | scripts/e2e_quality_check.py:259-326 | an unknown table only warns; a known one compares its row count |
| QualityCheck.RecordsMatterId | scripts/e2e_quality_check.py:254-257 | a non-blank matter id that `int()` accepts |
| QualityCheck.Runs | scripts/e2e_quality_check.py:363-367 | the trace runs the skill |
| QualityCheck.ExpectedStatus | scripts/e2e_quality_check.py:358 | `completed` unless the item names a status |
| QualityCheck.SkillVerdict | scripts/e2e_quality_check.py:356-379 | the first trace running the skill decides |
| QualityCheck.SkillFirstTraceDecides | scripts/e2e_quality_check.py:356-379 | the first trace running the skill decides: met exactly when its status is the expected one |
| QualityCheck.SpanCount | scripts/e2e_quality_check.py:413-415 | the number of traces whose node id contains the span |
| QualityCheck.TraceExpectation | scripts/e2e_quality_check.py:417-434 | `">=N"` asks for at least N, anything else for at least one |
| QualityCheck.TraceIntegerCountIgnored | scripts/e2e_quality_check.py:417-434 | an integer count is not compared: one span meets `count: 3` |
| QualityCheck.TraceVerdict | scripts/e2e_quality_check.py:408-434 | met when the span count meets the expectation |
| QualityCheck.PhaseVerdict | scripts/e2e_quality_check.py:463-489 | the first phase with the checkpoint id decides |
| QualityCheck.PhaseOfMatch | scripts/e2e_quality_check.py:470-486 | the status and outputs test against the deciding phase |
| QualityCheck.PhaseOutputsListed | scripts/e2e_quality_check.py:470-486 | met exactly when the status is equal and every required output is listed |
| QualityCheck.Listing | scripts/e2e_quality_check.py:459-461 | the items of `data.get(key, [])`, or TypeError |
| QualityCheck.ProbeStep | scripts/e2e_quality_check.py:549-565 | one content test's effect on the counts |
| QualityCheck.ProbesRaisedStays | scripts/e2e_quality_check.py:549-568 | once a test raised, later ones change nothing |
| QualityCheck.ProbesCounts | scripts/e2e_quality_check.py:549-565 | every test reached is counted and success never exceeds total |
| QualityCheck.ProbeAll | scripts/e2e_quality_check.py:549-565 | the loop's tally is `Probes`: probes run in order until one raises |
| QualityCheck.Absence | scripts/e2e_quality_check.py:559-565 | a forbidden pattern passes exactly when the search finds nothing |
| QualityCheck.ContentTallyMeaning | scripts/e2e_quality_check.py:549-565 | success counts the keywords found and the patterns absent |
| QualityCheck.DocResult | scripts/e2e_quality_check.py:567-571 | with no test run the check passes |
| QualityCheck.KnowledgeAlwaysPasses | scripts/e2e_quality_check.py:222-239 | the knowledge-hits check passes without a single success |
| QualityCheck.UnknownTableFails | scripts/e2e_quality_check.py:258-325 | an unknown table is never met, so that check cannot pass |
| QualityCheck.DocumentSetupFailurePasses | scripts/e2e_quality_check.py:514-571 | a setup failure before any content test still passes the check |
| QualityCheck.DocumentFetchFailures | scripts/e2e_quality_check.py:523-542 | an empty listing, a missing file id or a failed download fail the check |
| QualityCheck.DocumentCounts | scripts/e2e_quality_check.py:497-571 | every result keeps `success <= total` |
| QualityCheck.BodyCounts | scripts/e2e_quality_check.py:514-565 | the body keeps `success <= total` |
| QualityCheck.ContentCounts | scripts/e2e_quality_check.py:549-565 | the content loops keep `success <= total` |
| QualityCheck.RunCheck | scripts/e2e_quality_check.py:107-495 | a check of the common shape returns `CheckOver`: passing with total 0 without items, failing when setup raised, else passed exactly when every item succeeded |
| QualityCheck.YamlBlockOf | scripts/e2e_quality_check.py:75-81 | a README opening with a backtick-free yaml block yields that body |
| QualityCheck.ContextReady | scripts/e2e_quality_check.py:85-105 | a resolved context has a non-blank matter id and the client's ids |
| QualityCheck.AllChecks | scripts/e2e_quality_check.py:573-600 | the eight checks' results, in order, each from its own fetch |
| QualityCheck.Completed | scripts/e2e_quality_check.py:573-600 | the number of leading checks that returned a result |
| QualityCheck.Results | scripts/e2e_quality_check.py:573-600 | the results of the first n checks |
| QualityCheck.QualityChecker.constructor | scripts/e2e_quality_check.py:50-60 | the scenario, the session and empty results |
| QualityCheck.QualityChecker.LoadExpectations | scripts/e2e_quality_check.py:66-83 | a missing README raises FileNotFoundError; otherwise the first yaml block is parsed |
| QualityCheck.QualityChecker.GetTestContext | scripts/e2e_quality_check.py:85-105 | the context of the session and client |
| QualityCheck.QualityChecker.CheckMemoryRetrieval | scripts/e2e_quality_check.py:107-158 | exactly the check result `RetrievalSpec` defines from the expectations and the backend's answers |
| QualityCheck.QualityChecker.CheckMemoryStorage | scripts/e2e_quality_check.py:160-220 | exactly the check result `StorageSpec` defines from the expectations and the backend's answers |
| QualityCheck.QualityChecker.CheckKnowledgeHits | scripts/e2e_quality_check.py:222-239 | exactly the check result `KnowledgeSpec` defines from the expectations and the backend's answers |
| QualityCheck.QualityChecker.CheckMatterRecords | scripts/e2e_quality_check.py:241-332 | exactly the check result `RecordsSpec` defines from the expectations and the backend's answers |
| QualityCheck.QualityChecker.CheckSkillsExecuted | scripts/e2e_quality_check.py:334-385 | exactly the check result `SkillsSpec` defines from the expectations and the backend's answers |
| QualityCheck.QualityChecker.CheckTraceExpectations | scripts/e2e_quality_check.py:387-440 | exactly the check result `TraceSpec` defines from the expectations and the backend's answers |
| QualityCheck.QualityChecker.CheckPhaseGates | scripts/e2e_quality_check.py:442-495 | exactly the check result `PhasesSpec` defines from the expectations and the backend's answers |
| QualityCheck.QualityChecker.CheckDocumentQuality | scripts/e2e_quality_check.py:497-571 | exactly the check result `DocumentSpec` defines from the expectations and the backend's answers |
| QualityCheck.QualityChecker.CheckAt | scripts/e2e_quality_check.py:573-600 | the check at position i |
| QualityCheck.QualityChecker.RunAllChecks | scripts/e2e_quality_check.py:573-600 | the checks run in order, each result appended, stopping at the first raise |
| QualityCheck.CompletedAt | scripts/e2e_quality_check.py:573-600 | the first check that raised is where the completed ones end |
| QualityCheck.ContentRun | scripts/e2e_quality_check.py:549-565 | the two keyword loops give the tally `ContentTally` defines |

## Left out

- Network, HTTP transport, async scheduling and sleeping: the services are oracles that answer the n-th call, and back-off delays are computed but not waited.
- `eventually` (`_support/utils.py`), `wait_for_entity_keys`, `wait_for_memory_facts`, `wait_for_initial_card` and `wait_for_snapshot`: clock-driven polling loops.
- `stable_token` (MD5) and the SHA-256 of `card_signature` and `_card_sig`: each signature is modelled as the value before JSON rendering and hashing.
- JSON parsing and rendering, YAML parsing, regular expressions (`must_not_include`, `extract_citations`), python-docx parsing and the database row counts are function parameters.
- `assert_citations_valid`, `assert_citations_deduped_and_trimmed` and `extract_citations` (assertions.py:72-121): they are regular-expression scans.
- `generate_report` and `main` of the quality checker, and the `main` functions of the debug scripts apart from the legal-opinion drive loop: report texts, printing and file output.
- Exception message texts, and the sample lists they quote, are not modelled; only the kind of exception is.
- Writing the minimal MP4 to disk: `Mp4.MinimalMp4` gives the bytes that would be written.
- `list_case_facts`'s client call and query parameters: `Memory.CaseFacts` models the filtering of the reply.
- `assert_docx_has_no_template_placeholders` is imported by test_template_action_flow.py, but its definition is not part of this model: docx.py does not define it.
- The test bodies (`test_*` functions) outside the loops named above: fixture set-up and free-form asserts on replies.
- Text.Lower: lower-cases ASCII letters only, so `TemplateAction.IsAgenticCall` does not fold non-ASCII capitals as Python's `str.lower` does.
- Timeline.RetrievalSnippets: the snippets are a set, since their order only changes which samples an error message quotes.
- LegalOpinion.Drive: for card data that is truthy but not a dict, `card.get("task_key")` in scripts/run_legal_opinion_flow_debug.py:150-160 raises AttributeError; the model departs from that and answers it as a card with no questions.
- LegalOpinion.Drive: the sequence of replies a real service would give is a parameter.
- LegalOpinion.ProbeAt: `Json.Get` reads a missing field of a non-dict as None, so `data` of a non-dict session or listing reply, `matter_id` of truthy non-dict session data and `deliverables` of truthy non-dict listing data read as None where `.get` at scripts/run_legal_opinion_flow_debug.py:142 and 145-146 raises AttributeError. `LegalOpinion.ReplyAt` reads `data` of a non-dict pending-card reply (line 151) the same way, and `LegalOpinion.FirstErrorEvent` reads `events` of a non-dict reply as none, and a truthy number or `true` as `events` as no events, where lines 165 and 175 raise AttributeError or TypeError. The model carries on where the script would crash.
- LegalOpinion.OpinionCaseTexts: the two fixed case texts are a parameter rather than their literal content.
- TemplateAction.PickTemplate: the templates are the dicts `_extract_templates` returns; non-dict items are filtered out before it.
- Playbooks: the table is written as workflow shapes plus case materials per id; lookups combine the two.
- Integer widths do not matter anywhere in the harness. Python's `True == 1` and `False == 0` are not modelled by structural comparison: `QualityCheck.FieldIs` and `QualityCheck.PyIn` compare JSON values structurally, so they tell `True` from `1` where Python would equate them; only `QualityCheck.BoolExpectation` models the Python equality.
- Json: there are no floating-point numbers; a JSON number is an integer. So the model cannot express the falsiness of `0.0`, `int(2.0)` in `QualityCheck.IntOf`, `1 == 1.0`, or `str(1.5)`.
- Json: an object is a sequence of fields, so object equality, and with it `QualityCheck.FieldIs` and `QualityCheck.PyIn`, depends on field order where Python dict equality does not.
- Json.Get: with duplicate keys it returns the first field, where `json.loads` keeps the last.
- Text.ParseInt: after stripping, accepts an optional sign and ASCII digits only, so it rejects `"1_000"` and non-ASCII digits, which Python's `int()` accepts.
- ApiClient.Terminal: an event that is an unhashable value (a list or a dict) makes `evt in {"end", "complete"}` at client/api_client.py:115 and 124 raise TypeError; the model treats it as not terminal.
- FlowRunner.WorkbenchFlow.RunUntil: the awaited predicate is a pure goal over the check's number and the flow's state. The predicates the tests pass (for example tests/lawyer_workbench/legal_opinion/test_flow.py:65-71) refresh the flow and call the services themselves; those calls, and the state they change, are not modelled, so the log holds only the three calls of each step.
- FlowRunner.WorkbenchFlow.ResumeCard: the resume call carries the pending card and `max_loops`, as tests/lawyer_workbench/_support/flow_runner.py:234 and 242 pass them, but `resume(session_id, user_response)` at client/api_client.py:217-226 accepts neither, so the call as written raises TypeError; the call is modelled as the caller uses it, not as the client defines it.
- BusInjuryV4.ConsumePendingCards: the resume call at scripts/run_bus_injury_v4_e2e.py:267 passes the pending card and `max_loops`, as do scripts/run_multi_documents_flow_debug.py:211 and scripts/run_complex_traffic_accident_flow_debug.py:239; `resume` at client/api_client.py:217-226 accepts neither and would raise TypeError, and the model follows the callers rather than the client.
- FlowRunner.Backend: `hasUserMessage` stands for `assert_has_user_message`, which tests/lawyer_workbench/_support/flow_runner.py:17 imports from sse.py but sse.py does not define; its verdict is a parameter of the backend.
- LitigationFlow.DriveToCause: the cards the loop meets are a sequence; iterations of tests/test_litigation_flow.py:452 that find no card and only poll or nudge spend the 30-iteration budget in the source but not in the model, and the `assert matter_id` check is not modelled.
