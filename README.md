# MetaGPT agent bookkeeping, modelled in Dafny

This project models the deterministic bookkeeping that MetaGPT wraps around its language-model calls, and proves properties of it:

- **Role loop** (`role.dfy`, module `Roles`). A `Role` builds its parallel action and state lists. It picks a state from the model's answer, falling back to 0. It receives messages without duplicates, observes its environment, and acts. `run` then publishes the reply. The role's option merging (`supply_options`, `format_value`) is here too.
- **Messages and schema helpers** (`schema.dfy`, module `Schema`). This covers:
  - the `Message` construction-time normalisation (id, `cause_by`, `send_to`);
  - the FIFO `MessageQueue` with its drain-and-restore `dump`;
  - `Documents.from_iterable` and `Document.get_meta`;
  - `CodeSummarizeContext.loads`;
  - the UML helpers `name_to_visibility` and `UMLClassAttribute.get_mermaid`.
- **Review gate** (`ask_review.dfy`, module `AskReview`). The operator's reply is classified as exit, confirmed or not confirmed.
- **Analysis-code prompts and tool making** (`write_analysis_code.dfy`, module `WriteAnalysisCode`). This covers:
  - `process_msg` normalisation and the system-message merge;
  - recommended-tool filtering;
  - `parse_function_name`;
  - `MakeTools.save`;
  - the bounded retry loop of `MakeTools.run`.
- **Brain memory** (`brain_memory.dfy`, module `BrainMemories`). This covers:
  - history append with the dirty flag;
  - `history_text`, `last_talk` and `get_knowledge`;
  - the redis key format;
  - the id filter of `add_history`;
  - the summary-replacement rule.
- **Bedrock dispatch** (`bedrock_provider.dfy`, module `Bedrock`). This covers:
  - provider lookup by model-id family;
  - the per-provider max-tokens field, request bodies and completion paths.

Helper modules:

- `base.dfy` (`Base`): `Option`, `Result`, and a `PyError` per Python exception class the core raises.
- `strings.dfy` (`Strings`): the Python `str` operations the core uses. `lower` and `isdigit` cover ASCII; `strip`, `isspace` and the regex class `\s` cover the Latin-1 whitespace characters.
- `dicts.dfy` (`Dicts`): an insertion-ordered Python `dict` as a sequence of pairs.
- `json.dfy` (`Json`): JSON values, and the string encoding used by `json.dumps` for a list of strings.

Everything outside the deterministic core becomes a function-typed parameter (an oracle). This covers:

- the language model (`aask`, `aask_code`);
- `Action.run` and `Memory.remember`;
- `input()` and `str.format`;
- message serialisation;
- Bedrock's `messages_to_prompt`.

`uuid4().hex` becomes a caller-supplied non-empty id. `Environment` and `Memory` are not part of this model. They are reduced to what `role.py` calls on them: an environment memory that `publish_message` appends to, a role memory that `add` appends to, and `get_by_actions`, which is modelled as the in-order filter of a memory by cause.

The model follows what the code does, including behaviour a reader of the docstrings and names might not expect:

- Only an exact `exit` (in any case) ends the review. A reply that merely contains "exit" is an ordinary reply.
- `_act` does not set `sent_from`, so the reply's `sent_from` stays "".
- The idle path of `run` still `recv`s every environment message into the role's memory.
- `add_history` compares against `int(last_history_id)`. With the default `last_history_id` of "", every message that has an id raises `ValueError`. `last_history_id` is never advanced.

## Model

| member | source | states |
|---|---|---|
| Schema.CheckId | metagpt/schema.py:198-201 | The id is never empty: a non-empty id is kept, and an empty one is replaced by the fresh id. |
| Schema.CheckCauseBy | metagpt/schema.py:220-223 | `cause_by` is never empty: an empty one becomes the UserRequirement class path. |
| Schema.CheckSendTo | metagpt/schema.py:230-233 | `send_to` is never empty: an empty set becomes `{"<all>"}`, and otherwise the set is kept. |
| Schema.NewMessage | metagpt/schema.py:187-233 | A constructed message is normalised. Content, role, sent_from and instruct_content are as given; id, cause_by and send_to go through their validators. |
| Schema.MessageOf | metagpt/schema.py:253-255 | `Message(content)` is a user message with the fresh id, the UserRequirement cause and send_to `{"<all>"}`. |
| Schema.UserMessage | metagpt/schema.py:305-311 | A normalised message with role "user" and the given content. |
| Schema.SystemMessage | metagpt/schema.py:314-320 | A normalised message with role "system" and the given content. |
| Schema.AIMessage | metagpt/schema.py:323-329 | A normalised message with role "assistant" and the given content. |
| Schema.WithSendTo | metagpt/schema.py:257-267 | Assigning `send_to` changes that field only. |
| Schema.WithCauseBy | metagpt/schema.py:257-267 | Assigning `cause_by` changes that field only. |
| Schema.ToDict | metagpt/schema.py:278-280 | The dict has exactly the keys role and content, in that order, holding the message's role and content. |
| Schema.GetMeta | metagpt/schema.py:134-140 | The copy keeps root_path and filename and has empty content. |
| Schema.FromIterable | metagpt/schema.py:166-175 | The keys are exactly the documents' filenames, and each key maps to the last document with that filename. |
| Schema.MessageQueue.Push | metagpt/schema.py:359-361 | The message is appended at the back. |
| Schema.MessageQueue.Pop | metagpt/schema.py:339-347 | An empty queue gives None and stays empty. Otherwise the oldest message is returned and removed. |
| Schema.MessageQueue.Empty | metagpt/schema.py:363-365 | True exactly when the queue holds no message. |
| Schema.MessageQueue.PopAll | metagpt/schema.py:349-357 | Returns every message in push order and leaves the queue empty. |
| Schema.MessageQueue.Dump | metagpt/schema.py:367-387 | The queue ends as it started. The text is the JSON list of the serialised messages, in order, and is "[]" when the queue is empty. |
| Schema.RepositoriesDisjoint | metagpt/schema.py:458-462 | No path lies under both the system-design repository and the task repository, so the two branches of `loads` never compete. |
| Schema.LastUnder | metagpt/schema.py:457-463 | The result is the last filename under the repository, or "" when there is none. |
| Schema.Loads | metagpt/schema.py:454-464 | design_filename is the last path under docs/system_design and task_filename the last under docs/tasks. The code list and the reason stay empty. |
| Schema.NameToVisibility | metagpt/schema.py:479-487 | The result is "-" exactly for "__"-prefixed names other than `__init__`, and "#" exactly for single-underscore names. Otherwise it is "+". |
| Schema.Tabs | metagpt/schema.py:495 | Exactly `align` tab characters, or none when align is not positive. |
| Schema.TypeSegment | metagpt/schema.py:496-497 | Empty for no type. Otherwise the text before the final space is exactly the type with every space removed. |
| Schema.ShortName | metagpt/schema.py:498 | A name holding ":" loses everything up to its first ":". Other names are kept. |
| Schema.DefaultSegment | metagpt/schema.py:500-505 | Empty without a default. A non-string type gives `=` and the default. A str/string/String type gives `="…"` where the text between the quotes is the default with every double quote removed. |
| Schema.AttributeMermaid | metagpt/schema.py:494-510 | The line is the tabs, the visibility, the type segment and the short name, followed directly by the default segment: it starts with the first four, ends with the last, and its length is the sum. |
| Strings.RemoveChar | metagpt/schema.py:497 | The result holds no such character and is no longer than the text. A text without the character is unchanged, and a one-character text loses itself exactly when it is that character. |
| Strings.RemoveCharAppend | metagpt/schema.py:497 | Removing a character from a concatenation is removing it from each part and concatenating. |
| Strings.Strip | metagpt/provider/bedrock/bedrock_provider.py:66 | The result is a slice of the text that neither starts nor ends with whitespace, and everything cut off on either side is whitespace. |
| Roles.Bind | metagpt/roles/role.py:122-126 | An action class is instantiated with an empty name, and an instance is kept. Both get the role's prefix and profile. |
| Roles.StateLabelNumbers | metagpt/roles/role.py:128 | A state name starts with its index in decimal followed by ". ", and that decimal parses back to the index. |
| Roles.BoundAt | metagpt/roles/role.py:121-127 | Entry i of the appended action list is entry i of the input, bound to the role. |
| Roles.LabelAt | metagpt/roles/role.py:121-128 | Entry i of the appended state list is "i. <entry i>". |
| Roles.GetPrefix | metagpt/roles/role.py:171-175 | A non-empty desc is the prefix. Otherwise the prefix starts with "You are a <profile>, named <name>". |
| Roles.SupplyOptions | metagpt/roles/role.py:277-284 | The result starts with the two default keys. Its keys are the union of the defaults and the supplied keys, and supplied values override the defaults. |
| Roles.ReplacePlaceholdersNoBrace | metagpt/roles/role.py:299-301 | Replacing `{key}` placeholders in a string without "{" leaves it unchanged. |
| Roles.Formatted | metagpt/roles/role.py:286-301 | A string without "{" formats to itself; a KeyError falls back to literal replacement; any other error is the result. |
| Roles.GatherOk | metagpt/roles/role.py:100-104 | Formatting the settings in order succeeds exactly when each setting does, and then setting i becomes the i-th formatted text. |
| Roles.GatherFirstError | metagpt/roles/role.py:100-104 | A failed formatting carries the error of the first setting that fails; all settings before it format. |
| Roles.GatherPrefixErr | metagpt/roles/role.py:100-104 | Once a setting fails, the settings after it do not change the error. |
| Roles.FormatValue | metagpt/roles/role.py:286-301 | Non-strings and strings without "{" come back unchanged. Otherwise the result is `str.format` over the supplied options, the literal `{key}` replacement of every option on a KeyError, and any other formatting error propagates. For a string the outcome is `Formatted`. |
| Roles.ParseDecision | metagpt/roles/role.py:188 | An answer is a valid choice exactly when it is all decimal digits and its value is below the number of states. |
| Roles.ChosenState | metagpt/roles/role.py:179-191 | With one action the state is 0. A valid answer selects its index, and anything else falls back to 0. The state is always in range when there are actions. |
| Roles.DecisionRoundTrip | metagpt/roles/role.py:188-191 | The decimal text of any in-range index parses back to that index. |
| Roles.OutOfRangeFallsBack | metagpt/roles/role.py:188-190 | The answer "7" with three states falls back to state 0. |
| Roles.ByActions | metagpt/roles/role.py:85-88 | Exactly the messages caused by a watched action are kept, and no more messages than given. |
| Roles.ByActionsAppend | metagpt/roles/role.py:85-88 | Filtering a memory with one more message appends that message exactly when its cause is watched, so the filter keeps the memory's order. |
| Roles.Received | metagpt/roles/role.py:243-249 | The message ends up in memory. Memory is unchanged if it was already there; otherwise exactly that message is appended. |
| Roles.ReceivedIdempotent | metagpt/roles/role.py:243-249 | Receiving the same message twice equals receiving it once. |
| Roles.ReceivedAllAppends | metagpt/roles/role.py:222-223 | Receiving many messages keeps the old memory as a prefix. It adds at most one entry per message, and every received message is present. |
| Roles.ReceivedAllNoDuplicates | metagpt/roles/role.py:243-249 | If memory has no duplicates, it still has none after the receive loop. |
| Roles.ReceivedAllPresent | metagpt/roles/role.py:247-248 | Messages already in memory leave memory unchanged. |
| Roles.ReceivedAllIdempotent | metagpt/roles/role.py:222-223 | Repeating the receive loop over the same messages changes nothing. |
| Roles.Environment.PublishMessage | metagpt/roles/role.py:235 | Publishing appends the message to the environment's memory. |
| Roles.RoleContext.ImportantMemory | metagpt/roles/role.py:85-88 | Exactly the memory messages caused by a watched action. The model's filter for `get_by_actions` keeps memory order (by `ByActionsAppend`). |
| Roles.RoleContext.History | metagpt/roles/role.py:90-92 | The whole memory, in order. |
| Roles.ResponseMessage | metagpt/roles/role.py:202-206 | The reply has role = profile and cause_by = the todo's class. Its content comes from the text, or from the ActionOutput's content and instruct_content. |
| Roles.InputMessage | metagpt/roles/role.py:260-266 | A falsy input gives no message. A Message is kept as it is, a str is wrapped, and a list is joined with "\n" and wrapped. |
| Roles.Role.constructor | metagpt/roles/role.py:98-113 | A new role has empty actions and states, the role id "name(profile)", the supplied options, and a fresh empty context. |
| Roles.Role.InitActions | metagpt/roles/role.py:115-128 | Both lists are rebuilt from scratch with equal length. Action i is the bound action, and state i is "i. <action>". |
| Roles.Role.Watch | metagpt/roles/role.py:130-132 | The watched set grows by exactly the given actions. |
| Roles.Role.SetEnv | metagpt/roles/role.py:142-144 | The environment is set. |
| Roles.Role.SetState | metagpt/roles/role.py:136-140 | The state is always set. todo becomes actions[s] (with Python negative indexing) exactly when the index is valid; otherwise an IndexError is raised and todo stays as it was. |
| Roles.Role.Think | metagpt/roles/role.py:177-191 | The state is the one chosen from the model's answer to the role's history. With actions, todo is the action at that state; with none, the state is 0, the call fails and todo is unchanged. |
| Roles.Role.Act | metagpt/roles/role.py:193-210 | Exactly the reply built from running todo on the important memory is appended to memory and returned. |
| Roles.Role.Recv | metagpt/roles/role.py:243-249 | Memory becomes the duplicate-suppressing receive of the message. |
| Roles.Role.Observe | metagpt/roles/role.py:212-228 | With no environment: returns 0 and changes nothing. Otherwise: news is `remember` of the watched environment messages, every environment message is received, and the count of news is returned. |
| Roles.Role.PublishMessage | metagpt/roles/role.py:230-235 | The message reaches the environment's memory only when an environment is attached. |
| Roles.Role.React | metagpt/roles/role.py:237-241 | Think then act. Without actions, IndexError: the state is 0 and memory and todo are unchanged. Otherwise the state is the chosen one, todo is its action, and the reply to it is appended and returned. |
| Roles.Role.Handle | metagpt/roles/role.py:251-256 | The message is received first. Without actions, IndexError: the state is 0, todo is unchanged and memory is the receive. Otherwise the state is the one chosen from the model's answer on that memory, and the reply is the chosen action's response to the important memory. Memory becomes the receive followed by the reply. |
| Roles.Role.ReactAndPublish | metagpt/roles/role.py:272-275 | Without actions, IndexError: the state is 0 and memory, todo and the environment are unchanged. Otherwise the state is the chosen one, todo is its action, and the reply is that action's response (role = profile, the given id). It is appended to memory, and published only to an attached environment. |
| Roles.Role.Run | metagpt/roles/role.py:258-275 | Idle exactly when there is no input and no news; then no state change and no publishing. Without input and with an environment, news is `remember` of the watched environment messages; otherwise news is unchanged. When not idle, memory first receives the input message (or the environment's messages when there is no input). Without actions the outcome is IndexError, the state is 0, todo is unchanged and memory is only that receive. With actions the reply is the chosen action's response, appended to memory and published only to an attached environment. |
| Roles.Role.Create | metagpt/roles/role.py:98-113 | The role is created exactly when all five settings format, and then its setting holds the five formatted texts. Otherwise the error is the first failing setting's. A created role has no actions and the merged options. |
| AskReview.LatestAction | metagpt/actions/ask_review.py:36 | The cause of the last context message, or "" for an empty context. |
| AskReview.ReviewInstruction | metagpt/actions/ask_review.py:37-41 | The "task" trigger selects the task instruction; every other trigger selects the code instruction. |
| AskReview.Prompt | metagpt/actions/ask_review.py:42-47 | The prompt opens with the trigger and the latest action, and contains the review and exit instructions. |
| AskReview.Classify | metagpt/actions/ask_review.py:51-58 | Exit exactly when the lower-cased reply is "exit". Otherwise the verbatim reply is returned, confirmed exactly when its lower case is a continue word or contains "confirm". |
| AskReview.Run | metagpt/actions/ask_review.py:25-58 | The operator is asked with the prompt. The outcome is Exit exactly when the lower-cased reply is "exit". A review keeps the reply verbatim and is confirmed exactly when the lower-cased reply is a continue word or contains "confirm". |
| AskReview.ClassifyIgnoresCase | metagpt/actions/ask_review.py:51-56 | Replies equal up to ASCII case classify alike. |
| AskReview.ContinueWordsConfirm | metagpt/actions/ask_review.py:56 | Every continue word, in any case, confirms. |
| AskReview.ConfirmSentenceConfirms | metagpt/actions/ask_review.py:54-56 | Any reply that contains "confirm" in any case is a confirmation. |
| AskReview.ExitInAnyCase | metagpt/actions/ask_review.py:51 | "EXIT" exits. |
| AskReview.YesConfirms | metagpt/actions/ask_review.py:56 | "Yes" confirms and is returned as "Yes". |
| AskReview.ConfirmWithChangeConfirms | metagpt/actions/ask_review.py:54-56 | "Confirm, then change task 3" confirms. |
| AskReview.ChangeRequestNotConfirmed | metagpt/actions/ask_review.py:56 | "change task 2" is not a confirmation. |
| AskReview.ExitSentenceDoesNotExit | metagpt/actions/ask_review.py:51 | "exit now" does not exit and is not a confirmation. |
| AskReview.YesPleaseNotConfirmed | metagpt/actions/ask_review.py:56 | "yes please" is not a confirmation, because only "confirm" matches as a substring. |
| WriteAnalysisCode.Converted | metagpt/actions/write_analysis_code.py:44-53 | A str becomes a user entry, a dict passes through, a Message becomes its `to_dict`, and any other item is dropped. |
| WriteAnalysisCode.Items | metagpt/actions/write_analysis_code.py:39-41 | A single prompt becomes a one-item list, and a list stays as it is. |
| WriteAnalysisCode.Collected | metagpt/actions/write_analysis_code.py:42-53 | Every entry comes from converting some prompt item, and there are no more entries than items. |
| WriteAnalysisCode.CollectedAppend | metagpt/actions/write_analysis_code.py:44-53 | One more item appends its conversion when it has one and nothing otherwise, so the entries keep the items' order. |
| WriteAnalysisCode.CollectedKeepsConvertible | metagpt/actions/write_analysis_code.py:42-53 | When no item is dropped, entry i is the conversion of item i. |
| WriteAnalysisCode.WithSystem | metagpt/actions/write_analysis_code.py:55-63 | An empty list gives IndexError. KeyError "content" exactly when the first entry has no content, and KeyError "role" exactly when its content lacks the system text and it has no role. A first entry that already contains the text leaves the list unchanged. Otherwise the first entry contains the system text, the length grows by at most one, and the rest is kept. |
| WriteAnalysisCode.WithSystemChanges | metagpt/actions/write_analysis_code.py:56-61 | Without the text: a non-system first entry gets a system entry inserted before it, and a system entry is extended in place. |
| WriteAnalysisCode.WithSystemIdempotent | metagpt/actions/write_analysis_code.py:56-63 | Normalising an already normalised list changes nothing. |
| WriteAnalysisCode.TextPrompt | metagpt/actions/write_analysis_code.py:39-57 | A plain string prompt normalises without error, and ends with that string as the user entry. |
| WriteAnalysisCode.ProcessMsg | metagpt/actions/write_analysis_code.py:36-63 | The loop result is the system merge of the collected items, using the call's system text or the class default. |
| WriteAnalysisCode.InsertSystem | metagpt/actions/write_analysis_code.py:55-63 | The in-place insert or extension of the first entry gives the system merge. |
| WriteAnalysisCode.ParseRecommendTools | metagpt/actions/write_analysis_code.py:121-139 | An unknown module raises KeyError. Otherwise the result holds exactly the recommended names in the catalog, with their catalog schemas. |
| WriteAnalysisCode.SearchFrom | metagpt/actions/write_analysis_code.py:291-296 | A match found from a position is an identifier. |
| WriteAnalysisCode.SearchFromIsLeftmost | metagpt/actions/write_analysis_code.py:291-296 | The search finds nothing exactly when no position from its start matches. Otherwise it returns the match at the first matching position. |
| WriteAnalysisCode.ParseFunctionName | metagpt/actions/write_analysis_code.py:289-298 | A found name is an identifier. |
| WriteAnalysisCode.ParseFunctionNameIsLeftmost | metagpt/actions/write_analysis_code.py:289-298 | None exactly when no position holds `def name(`. Otherwise the name is the one at the first such position. |
| WriteAnalysisCode.ParseFunctionNameOfDef | metagpt/actions/write_analysis_code.py:289-298 | Code that starts with `def name(` yields that name. |
| WriteAnalysisCode.NoDefNoName | metagpt/actions/write_analysis_code.py:289-298 | Code without any "d" yields None. |
| WriteAnalysisCode.SavedPath | metagpt/actions/write_analysis_code.py:300-306 | The saved path lies in the workspace and ends in ".py". |
| WriteAnalysisCode.CodePrompt | metagpt/actions/write_analysis_code.py:311 | The prompt opens with "The following code is about ", contains the description when there is one, and ends with the code. |
| WriteAnalysisCode.MakeAttempts | metagpt/actions/write_analysis_code.py:324-343 | At most three calls. It stops at the first answer with a function name, and adds one "not found" note per failed call. |
| WriteAnalysisCode.SecondAttemptSucceeds | metagpt/actions/write_analysis_code.py:324-343 | A failure followed by a success takes two calls and adds one note. |
| WriteAnalysisCode.MakeAttemptsHistory | metagpt/actions/write_analysis_code.py:324-343 | The answer kept is the model's answer on the context grown by one note per earlier call, and every earlier answer had no function name. The final context is the start plus one note per failed answer. |
| WriteAnalysisCode.MakeAttemptsContext | metagpt/actions/write_analysis_code.py:331-337 | The context the loop leaves is the start followed by exactly one note per failed answer. |
| WriteAnalysisCode.Seeded | metagpt/actions/write_analysis_code.py:318-322 | The context ends with the code prompt. A non-empty context only gains that entry. |
| WriteAnalysisCode.SeededFresh | metagpt/actions/write_analysis_code.py:312-313 | An empty context is seeded with the processed prompt. |
| WriteAnalysisCode.Retry | metagpt/actions/write_analysis_code.py:308-346 | Under the three-attempt retry policy, a returned answer always names a function. |
| WriteAnalysisCode.RetryOfThree | metagpt/actions/write_analysis_code.py:308-346 | The retries give up exactly when all three calls end without a function name. Otherwise the answer is that of the first call whose answer has one, each call running on the context the previous one left. |
| WriteAnalysisCode.MakeTools.constructor | metagpt/actions/write_analysis_code.py:277-287 | A missing or empty workspace falls back to the default. The context starts empty. |
| WriteAnalysisCode.MakeTools.Save | metagpt/actions/write_analysis_code.py:300-306 | Without a function name: ValueError and no file. Otherwise the code is written to `<workspace>/<name>.py` and that path is returned. |
| WriteAnalysisCode.MakeTools.Seed | metagpt/actions/write_analysis_code.py:318-322 | The context becomes the seeded context. |
| WriteAnalysisCode.MakeTools.AskUntilNamed | metagpt/actions/write_analysis_code.py:324-343 | The loop leaves the context and answer of the bounded attempts. |
| WriteAnalysisCode.MakeTools.RunOnce | metagpt/actions/write_analysis_code.py:312-346 | One decorated attempt: seed, ask up to three times, then save or raise ValueError. |
| WriteAnalysisCode.MakeTools.Run | metagpt/actions/write_analysis_code.py:308-346 | The context and outcome are those of the retry policy. A success returns the first named answer and saves it under its function name; after three failed calls the result is RetryError and no file is written. |
| BrainMemories.Contents | metagpt/memory/brain_memory.py:59-66 | The contents of the entries, in order. |
| Strings.JoinAppend | metagpt/memory/brain_memory.py:52 | Joining one more part adds the separator and that part. |
| BrainMemories.HistoryTextOf | metagpt/memory/brain_memory.py:54-68 | Empty history gives "". A non-empty summary opens the text. |
| BrainMemories.HistoryTextAppend | metagpt/memory/brain_memory.py:54-68 | Appending an entry adds the previously last entry's content after a newline, except that the first entry adds only the summary and the second, without a summary, gives the first content alone. |
| BrainMemories.HistoryTextQuotes | metagpt/memory/brain_memory.py:58-68 | Every entry except the last is quoted in the history text. |
| BrainMemories.HistoryTextAfterAppend | metagpt/memory/brain_memory.py:59-68 | After an append, the previously last entry appears in the history text. |
| BrainMemories.LastTalkOf | metagpt/memory/brain_memory.py:70-77 | The last entry's content exactly when there is one and it is tagged TALK. |
| BrainMemories.ToRedisKey | metagpt/memory/brain_memory.py:104-106 | The key is the prefix, ":", the chat id, ":", then the user id. |
| BrainMemories.SplitAtColon | metagpt/memory/brain_memory.py:106 | A colon-free part before the first ":" is determined by the text. |
| BrainMemories.RedisKeyInjective | metagpt/memory/brain_memory.py:104-106 | The key "prefix:chat:user" determines prefix, chat id and user id (when prefix and chat id hold no ":"). |
| BrainMemories.ParseInt | metagpt/memory/brain_memory.py:119 | Digit strings parse to their value, with an optional "+" or "-" sign. The result is None exactly when the text is not an optional sign followed by digits. |
| BrainMemories.ParseIntOfDecimal | metagpt/memory/brain_memory.py:119 | Decimal text, with or without "-", parses back to its integer. |
| BrainMemories.BrainMemory.constructor | metagpt/memory/brain_memory.py:28-38 | Defaults: empty history and knowledge, empty summary and last id, not dirty. |
| BrainMemories.KnowledgeTextOf | metagpt/memory/brain_memory.py:50-52 | Contains the content of every knowledge entry; no entry gives "", and a single entry gives its content exactly. |
| BrainMemories.KnowledgeTextAppend | metagpt/memory/brain_memory.py:50-52 | Appending a knowledge entry adds a newline and its content to the text. |
| BrainMemories.BrainMemory.AddTalk | metagpt/memory/brain_memory.py:40-43 | Appends one TALK-tagged entry and sets dirty, so the last talk is that message's content. |
| BrainMemories.BrainMemory.AddAnswer | metagpt/memory/brain_memory.py:45-48 | Appends one ANSWER-tagged entry and sets dirty. |
| BrainMemories.BrainMemory.AddHistory | metagpt/memory/brain_memory.py:117-122 | ValueError when an id is present and either id is not an integer (always, for the default last id ""). Skipped exactly when the id is below the last id. Otherwise appended with dirty set. |
| BrainMemories.BrainMemory.SetHistorySummary | metagpt/memory/brain_memory.py:108-115 | The same summary changes nothing. A new summary replaces it, empties history, clears dirty, and so empties the history text. |
| Bedrock.ModelName | metagpt/provider/bedrock/bedrock_provider.py:85 | The family is the longest dot-free prefix of the id, or the whole id when it has no ".". |
| Bedrock.ModelNameOfId | metagpt/provider/bedrock/bedrock_provider.py:85 | "family.rest" names the family. |
| Bedrock.GetProvider | metagpt/provider/bedrock/bedrock_provider.py:74-88 | Succeeds exactly for the six table families, with the table's provider. Otherwise KeyError "<family> is not supported!". |
| Bedrock.ProvidersDistinct | metagpt/provider/bedrock/bedrock_provider.py:74-88 | Two ids get the same provider exactly when they share a family. |
| Bedrock.AnthropicIdSelectsAnthropic | metagpt/provider/bedrock/bedrock_provider.py:79-88 | Every "anthropic." id selects the Anthropic provider. |
| Bedrock.MissingFamilyRaises | metagpt/provider/bedrock/bedrock_provider.py:84-87 | Every id whose family is not in the table raises KeyError "<family> is not supported!". |
| Bedrock.OpenAiNotProvided | metagpt/provider/bedrock/bedrock_provider.py:74-81 | "openai" is not a family of the table. |
| Bedrock.ProvidersValuesDistinct | metagpt/provider/bedrock/bedrock_provider.py:74-81 | No provider serves two families. |
| Bedrock.MaxTokensFieldName | metagpt/provider/bedrock/bedrock_provider.py:37-56 | Only Meta, Ai21 and Amazon override the max-tokens field name. |
| Bedrock.GetRequestBody | metagpt/provider/bedrock/bedrock_provider.py:16-63 | Anthropic: the messages and anthropic_version come first, and a key not among the generation arguments keeps its base value, in particular the messages. Amazon: inputText and textGenerationConfig. Other providers fall back to the base body, which is left out. |
| Bedrock.AnthropicBodyWithoutArguments | metagpt/provider/bedrock/bedrock_provider.py:19-22 | Without generation arguments the Anthropic body is exactly the messages and the version. |
| Bedrock.AnthropicArgumentOverrides | metagpt/provider/bedrock/bedrock_provider.py:19-22 | A generation argument `anthropic_version` replaces the version in place; the keys keep their order. |
| Bedrock.Subscript | metagpt/provider/bedrock/bedrock_provider.py:12-66 | A missing key raises KeyError and an out-of-range index raises IndexError; otherwise the value is returned. |
| Bedrock.CompletionPath | metagpt/provider/bedrock/bedrock_provider.py:12-66 | Every completion path starts at a top-level key. |
| Bedrock.GetCompletion | metagpt/provider/bedrock/bedrock_provider.py:64-66 | Amazon strips the text at its path; other providers return the value at their path unchanged. Lookup errors propagate. |
| Bedrock.WalkCanonical | metagpt/provider/bedrock/bedrock_provider.py:12-66 | A response built along a path yields its leaf when walked. |
| Bedrock.CompletionOfCanonical | metagpt/provider/bedrock/bedrock_provider.py:12-66 | Every provider reads back the text placed at its path, stripped for Amazon only. |
| Bedrock.EmptyResponseRaisesKeyError | metagpt/provider/bedrock/bedrock_provider.py:12-66 | An empty response raises KeyError for the provider's first key. |

## Left out

- Language-model calls, `Action.run`, `Memory.remember`, `input()`, `str.format`, message serialisation and Bedrock's `messages_to_prompt` are parameters, because they are external or nondeterministic. `exit()` is the `Exit` outcome.
- `Environment` and `Memory` are not part of this model. Only the calls `role.py` makes on them are modelled: environment memory as an appended list, `memory.add` as an append, and `get_by_actions` (role.py:88 and role.py:218) as the in-order filter of memory by cause (`Roles.ByActions`). `Memory` keeps its own per-action index, and its order with two or more watched actions is not captured by this filter.
- `RoleContext.check` and the long-term memory are left out. They depend on a global configuration.
- `Roles.Role.Think`: an exception raised by the language model's `aask` (role.py:186) is not modelled. In the source it escapes `_react`, `handle` and `run` with state and todo unchanged; here the `decide` oracle always answers.
- `WriteAnalysisCode.MakeTools.Run`: a round that ends early is not modelled. `aask_code` may raise (write_analysis_code.py:331), or its reply may lack a "code" key, which raises KeyError (write_analysis_code.py:332). The retry decorator (write_analysis_code.py:308) retries any exception, so such a round uses up one of the three attempts. The not-found notes it already appended stay in the context, and after the third failed round the result is RetryError. Here the `llm` oracle always returns code, so `Retry`, `MakeTools.AskUntilNamed` and `MakeTools.RunOnce` count only rounds whose final answer has no function name as failures.
- `Roles.Role.Act`: an exception raised by `Action.run` is not modelled. In the source it escapes `_act`, `_react`, `handle` and `run` and no reply is added; here the action oracle always returns a response.
- `Roles.Role.Think`: the state prompt is not built; the oracle receives the history and the state labels instead.
- Action prefix aliasing (`set_prefix` mutating a shared action instance) is not modelled. Each bound action is a value.
- `Roles.ResponseMessage`: responses of a type other than `str` or `ActionOutput` are not modelled.
- `RunInput` of any other type is not modelled.
- `Schema.Loads`: `Path.is_relative_to` is modelled as a component-wise prefix on "/"-separated paths. There is no path normalisation.
- `WriteAnalysisCode.SavedPath`: the path is plain string concatenation.
- `Schema.MessageQueue.Dump`: the asyncio timeout and the `task_done` bookkeeping are left out. Only the drain-and-restore effect and the output are modelled.
- `json.dumps` is modelled for a list of strings only.
- `Message.load`/`dump`, `instruct_content` reconstruction and the serialisation class registry are left out, because they use reflection and dynamic import.
- `UMLClassMethod.get_mermaid`, `UMLClassView` and `load_dot_class_info` are left out. They read attributes that do not exist, or a type that is not part of this model.
- Text handling is limited to ASCII for `lower`, `isdigit` and regex `\w`, and to Latin-1 for `strip`, `isspace` and regex `\s`. Characters beyond those ranges are treated as non-letters, non-digits and non-space. `int()` whitespace and underscores are not modelled.
- `WriteAnalysisCode.ProcessMsg`: message content is typed `str`, so the dict-content branch is not modelled.
- `MakeTools.run` with code given as a list of dicts is not modelled.
- `_load_tools`, `_tool_recommendation` and the `run` methods of WriteCodeWithTools are left out. They are language-model calls and YAML loading.
- `WriteAnalysisCode.MakeTools.Run`: the one-second wait between retries is not modelled.
- `BrainMemories.BrainMemory.SetHistorySummary`: the redis `dumps` call (network I/O) is left out, and so are `loads`.
- The message tags of brain memory are a set on each history entry. The caller's message is not mutated by `add_tag`.
- The `stack`, `solution` and fingerprint fields of `BrainMemory` are left out. No modelled operation reads them.
- `Bedrock.GetRequestBody`: the base provider's request body, `messages_to_prompt` and its default max-tokens field are not part of this model. They return None there.
- Llama prompt building and streaming response parsing are left out.
- The AskReview plan logging is left out. It has no effect on the result.
