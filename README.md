# Smart-home AI engine and file-sorter naming, in Dafny

This project models the decision logic of a home-automation assistant, plus the naming rule of a file sorter.

The assistant (`ai_engine`) works in steps:

- It takes a user's prompt and asks a language model (Ollama) to plan.
- It pulls JSON commands out of the model's reply.
- It resolves the entity each command names against the Home Assistant entity map. An unknown id is corrected by fuzzy matching or by keyword scoring.
- It expands `group.` entities and calls the Home Assistant service.
- It folds the successes and failures of all commands into one summary sentence.

Between requests it keeps process globals:

- a bounded conversation history;
- an area cache with a 300-second expiry;
- the list of entities it last acted upon.

The file sorter (`file_sorter`) decides where a file goes. The folder comes from the file's extension and date. The new name comes from its date, its time and a few descriptive words.

Modules, one per source file:

- `Wrappers`, `Strings` and `Json` hold shared building blocks:
  - `Option` and `Result`;
  - the Python `str` operations the code uses (`split`, `strip`, `lower`, `replace`, `find`, `rfind`, `join`, `isalpha`, `int()`);
  - decoded JSON values with Python truthiness, `dict.get`, `str()` and `repr()`.
- `Utils` models `ai_engine/lib/utils.py`: the command extractor and the entity and area matchers.
- `HaHelpers` models `ai_engine/lib/ha_helpers.py`: group expansion, the guards and payload of the service call, `prettify_states` and `prettify_history`.
- `ToolHelpers` models `ai_engine/lib/tool_helpers.py`: the calculator's sanitiser and messages, and the web-search formatting and fallbacks.
- `App` models `process_prompt` in `ai_engine/app.py`:
  - The globals form a `Globals` value, held by `class Engine` whose fields the methods update.
  - Each method is proved equal to a specification function (`Cycle`, `Planned`, `Dispatched`), and the lemmas about those functions state what the source promises.
  - The command loop is `RunCommands`, a `for` loop proved equal to `RunAll`.
- `PathHelpers` models `generate_new_path_and_name` in `file_sorter/lib/path_helpers.py`, including Python's `posixpath` `splitext`, `basename`, `dirname` and `join`.

Each helper that `ai_engine/app.py` copies from the lib files is the same code. It is modelled once, in the lib module, and `App` uses that version.

The outside world reaches the model as inputs:

- `json.loads`, `difflib.get_close_matches`, the DuckDuckGo search, `numexpr.evaluate` and `call_ollama` are function-typed parameters.
- The order in which Python iterates a set is a function-typed parameter too (`listing`).
- The Home Assistant state list, the area data, the memories and the clock readings are plain values.
- `process_prompt` receives all of these in one `World` value.

`generate_new_path_and_name` takes:

- the EXIF date string with a parser;
- the file's modification time, if there is one;
- "now".

In the code, the prompt "turn on the fan" resolves to no entity at all, given the entities `light.kitchen` ("Kitchen Light") and `switch.fan` ("Hallway Fan"):

- The fan domain bonus needs the id to start with `fan.`, so `switch.fan` does not get it.
- "fan" scores 3 as a name word and 1 as an id word, a total of 4.
- 4 does not exceed the threshold of 5, so no entity is returned.

`Utils.HallwayFanNotFound` states this outcome. `Utils.KitchenLightFound` states that "turn on the kitchen light" resolves to `light.kitchen` with a score of 33.

## Model

| member | source | states |
|---|---|---|
| Utils.FencedBlock | ai_engine/lib/utils.py:9-11 | the fenced-block content holds no fence and carries no whitespace at either end (the regex's `\s*` on both sides) |
| Utils.FencedBlockExists | ai_engine/lib/utils.py:9-10 | a fenced block is found exactly when the text holds an opening fence followed later by a closing one |
| Utils.FencedBlockOfWrapped | ai_engine/lib/utils.py:9-11 | text of the form prefix, fence, optional `json` tag, body, fence, suffix yields exactly the body when the body is trimmed and has no backtick |
| Utils.Commands | ai_engine/lib/utils.py:14-17 | an array parse is returned as its items; an object parse becomes a one-element list |
| Utils.StartIndex | ai_engine/lib/utils.py:36-45 | the last-resort start is -1 exactly when neither `{` nor `[` occurs, and otherwise the first position holding either |
| Utils.LastResort | ai_engine/lib/utils.py:47-59 | with neither bracket the tier gives `[]`; a non-empty result is the commands of a container parsed from the text after the start index |
| Utils.ExtractJsonCommands | ai_engine/lib/utils.py:6-59 | the tiers in order: an unparsable fenced block gives `[]` with no later tier; an array block gives its items, an object block gives `[block]`; no block, or a block that parses to a scalar, falls through to the whole-text tier and then the last-resort tier |
| Utils.LeadingIsFirstMaximum | ai_engine/lib/utils.py:98-132 | the running strict maximum of the loop is the first index with the top score; no index is chosen when no score is positive |
| Utils.ExtractionIsThresholdedFirstMaximum | ai_engine/lib/utils.py:90-138 | extraction returns an id only when the prompt has words left after stop-word removal and the top score exceeds 5; the id is a key of the map, its score is the maximum, and every earlier entity scored less; otherwise the result is (None, 0) |
| Utils.CorrectionOutcomes | ai_engine/lib/utils.py:69-85 | correction mode: a close match that is an id gives (id, 10); one that is a friendly name gives the first id with that name and score 10; no close match gives exactly the extraction-mode result |
| Utils.BestEntityIsKey | ai_engine/lib/utils.py:61-138 | whatever mode runs, a returned id is a key of the entity map |
| Utils.DetectDomain | ai_engine/lib/utils.py:102-107 | the loop with its `break` returns the domain of the first table keyword found among the prompt words |
| Utils.ScoreEntity | ai_engine/lib/utils.py:109-128 | the score is 3 per shared name word, 1 per shared id word, 10 if every name word is in the prompt, 15 if the detected domain prefixes the id |
| Utils.ExtractEntity | ai_engine/lib/utils.py:89-138 | the imperative extraction loop returns the extraction-mode result |
| Utils.FindBestMatchingEntity | ai_engine/lib/utils.py:61-138 | the function as a whole: correction mode when a target is given, falling back to extraction mode |
| Utils.BestAreaIsFirstMaximum | ai_engine/lib/utils.py:140-153 | the best area is the first with the strictly highest word overlap with the prompt, and there is none exactly when no area shares a word |
| Utils.FindBestMatchingArea | ai_engine/lib/utils.py:140-153 | the area loop returns that best area |
| Utils.PromptWordsOf | ai_engine/lib/utils.py:91-93 | a lower-case prompt without `?` and single-spaced has as its prompt words its words minus the stop words |
| Utils.NameWordsOfJoin | ai_engine/lib/utils.py:110-116 | a friendly name that lower-cases to single-spaced words has exactly those name words |
| Utils.IdWordsOfJoin | ai_engine/lib/utils.py:111-117 | an id that lower-cases, once `.` and `_` become spaces, to single-spaced words has exactly those id words |
| Utils.KitchenPromptWords | ai_engine/lib/utils.py:90-93 | "turn on the kitchen light" keeps the words turn, kitchen and light |
| Utils.FanPromptWords | ai_engine/lib/utils.py:90-93 | "turn on the fan" keeps the words turn and fan |
| Utils.FanDomain | ai_engine/lib/utils.py:102-107 | for the words {turn, fan} the detected domain is fan, found at the fourth table entry |
| Utils.KitchenScores | ai_engine/lib/utils.py:109-128 | the kitchen prompt scores the kitchen light 33 and the hallway fan 0 |
| Utils.FanScores | ai_engine/lib/utils.py:109-128 | the fan prompt scores the kitchen light 0 and the hallway fan 4 |
| Utils.KitchenLightFound | ai_engine/lib/utils.py:90-138 | "turn on the kitchen light" resolves to light.kitchen with score 33 |
| Utils.HallwayFanNotFound | ai_engine/lib/utils.py:90-138 | "turn on the fan" resolves to nothing (score 4 does not exceed 5) |
| HaHelpers.FindState | ai_engine/lib/ha_helpers.py:19-21 | the `next(...)` lookup returns a state with the given id, or nothing exactly when no state has that id |
| HaHelpers.FindStateFirst | ai_engine/lib/ha_helpers.py:19-21 | the state found is the first with that id: every state before it has another id |
| HaHelpers.Targets | ai_engine/lib/ha_helpers.py:15 | a list argument is checked item by item; any other argument counts as a one-element list |
| HaHelpers.ExpandFlat | ai_engine/lib/ha_helpers.py:14-31 | a list with no `group.` id expands to the set of its ids |
| HaHelpers.ExpandResultSettled | ai_engine/lib/ha_helpers.py:17-29 | every id in an expansion is settled: not a group, or a group with no state or no member attribute |
| HaHelpers.ExpandIdempotent | ai_engine/lib/ha_helpers.py:14-31 | expanding the listed result of an expansion gives the same set again |
| HaHelpers.SelfMemberedGroupFails | ai_engine/lib/ha_helpers.py:22-25 | a group whose first member is itself never finishes expanding and ends in the recursion-limit error |
| HaHelpers.ExpandHaGroups | ai_engine/lib/ha_helpers.py:12-31 | the loop that adds to and updates a set gives the expansion of the ids |
| HaHelpers.ExpandEntity | ai_engine/lib/ha_helpers.py:17-29 | one loop pass: a plain id is kept, an expandable group is replaced by its members' expansion, any other group is kept |
| HaHelpers.AssignFind | ai_engine/lib/ha_helpers.py:47-49 | after `dict[key] = value`, every key equal to `key` in Python's sense (True equals 1, False equals 0, a number never equals a string) gives the new value, and every other key gives what it gave before |
| HaHelpers.AssignKeys | ai_engine/lib/ha_helpers.py:47-49 | setting a key keeps the key order and the existing key's own form, and appends the key exactly when no equal key is present |
| HaHelpers.AssignAllLookup | ai_engine/lib/ha_helpers.py:48-49 | after `dict.update` a key holds the last value given under an equal key among the parameters, or its old value when no parameter key equals it |
| HaHelpers.CallHomeAssistantApi | ai_engine/lib/ha_helpers.py:33-49 | no token gives the not-configured message before the service is looked at; a falsy or dot-less service gives the invalid-format message and no request; a request is made only for a service with exactly one dot, split into domain and action |
| HaHelpers.ApiTooManyDots | ai_engine/lib/ha_helpers.py:46 | with a token, a string service with two or more dots raises "too many values to unpack (expected 2)" in the split |
| HaHelpers.ValidServicePosts | ai_engine/lib/ha_helpers.py:42-52 | with a token and a one-dot service the call posts to the service's domain and action with the payload built from the target and the parameters, its keys rendered as JSON text only after the merge |
| HaHelpers.ParametersOverrideTarget | ai_engine/lib/ha_helpers.py:47-49 | a parameter named entity_id overrides the target in the payload; without one the payload's entity_id is the target |
| HaHelpers.RenderStringKeyed | ai_engine/lib/ha_helpers.py:52 | for a payload with string keys only, the posted JSON text holds each key under its own name with its value |
| HaHelpers.TrueAndOneMerge | ai_engine/lib/ha_helpers.py:47-49 | parameters `[[true, "a"], [1, "b"]]` merge into one key: the payload keeps the key True with value "b", posted as `"true": "b"` |
| HaHelpers.OneAndStringOneApart | ai_engine/lib/ha_helpers.py:47-49 | parameters `[[1, "a"], ["1", "b"]]` stay two keys, so the posted JSON text names "1" twice |
| HaHelpers.BrightnessPercent | ai_engine/lib/ha_helpers.py:260-262 | the percentage is the integer nearest to the exact value of b / 255 * 100 (within half a unit), which no integer b puts at a tie; this is Python's float result for brightness values below about 2^48 |
| HaHelpers.PrettyAttributesKeys | ai_engine/lib/ha_helpers.py:255-274 | the kept attributes are, in order, brightness (only when it converts), temperature, current_temperature and friendly_name, each present exactly when the source lists it |
| HaHelpers.PrettyBrightness | ai_engine/lib/ha_helpers.py:258-262 | a convertible brightness becomes its percentage text |
| HaHelpers.PrettyTemperature | ai_engine/lib/ha_helpers.py:266-267 | a temperature becomes its text followed by the degree sign |
| HaHelpers.PrettyFriendlyName | ai_engine/lib/ha_helpers.py:273-274 | the friendly name is copied as it is |
| HaHelpers.PrettyEntryFields | ai_engine/lib/ha_helpers.py:255-282 | a state dict becomes an object with exactly the keys entity_id, state and attributes, in that order, the first two copied with `.get` and the last the pretty attributes of its attributes (`{}` when absent); the entry fails exactly when the attributes step does; a non-dict has no `.get` |
| HaHelpers.PrettyListEntries | ai_engine/lib/ha_helpers.py:250-282 | entry k is the pretty entry of the k-th truthy state, one entry per truthy state; the loop fails exactly when some truthy state's entry fails, with the error of the first such state |
| HaHelpers.PrettyStatesShape | ai_engine/lib/ha_helpers.py:245-286 | a non-list input is wrapped; no truthy state gives None, one gives that state's pretty entry itself, more give the list of their pretty entries in order |
| HaHelpers.PrettifyStates | ai_engine/lib/ha_helpers.py:245-286 | the appending loop returns the shaped result |
| HaHelpers.Describe | ai_engine/lib/ha_helpers.py:220-236 | the description table: toggle domains "was turned <state>"; binary_sensor door, window and garage_door "was opened"/"was closed", motion and occupancy "motion was detected"/"motion cleared", lock "was unlocked"/"was locked", split on state "on", any other class "turned <state>"; lock domain "was unlocked" exactly for state "unlocked"; cover "was <state>"; otherwise "changed to '<state>'" |
| HaHelpers.PrettyHistory | ai_engine/lib/ha_helpers.py:191-243 | string input comes back unchanged; a non-iterable fails; event input gives the text of its events described with the id's domain (the text before the first dot) and the device class of the first state with that id, or the fixed notice when that text is empty, and never an empty result |
| HaHelpers.HistoryAppend | ai_engine/lib/ha_helpers.py:209-241 | an event with no last_changed, or one whose time cannot be read, adds nothing; any other event adds exactly its "- At <time>, it <description>.\n" line |
| HaHelpers.NoReadableEvents | ai_engine/lib/ha_helpers.py:209-243 | when no event yields a line the result is "No valid history events to display." |
| HaHelpers.PrettifyHistory | ai_engine/lib/ha_helpers.py:191-243 | the `+=` loop returns the history text |
| ToolHelpers.AllowedCharIsAllowed | ai_engine/lib/tool_helpers.py:42 | a character is kept exactly when it is one of `0123456789.+-*/() ` |
| ToolHelpers.Sanitize | ai_engine/lib/tool_helpers.py:42-43 | the sanitised text is no longer than the input and holds allowed characters only |
| ToolHelpers.SanitizeSubsequence | ai_engine/lib/tool_helpers.py:43 | the sanitised text is a subsequence of the input: order is kept |
| ToolHelpers.SanitizeCounts | ai_engine/lib/tool_helpers.py:43 | every allowed character is kept as often as it occurs, and every other character is dropped |
| ToolHelpers.SanitizeIdempotent | ai_engine/lib/tool_helpers.py:43 | sanitising twice is sanitising once |
| ToolHelpers.SanitizeDropTable | ai_engine/lib/tool_helpers.py:42-43 | "2 + 2; DROP TABLE" becomes "2 + 2  ", spaces surviving |
| ToolHelpers.SanitizeExpressionOfStr | ai_engine/lib/tool_helpers.py:43 | for a string expression the comprehension is the character filter |
| ToolHelpers.PerformCalculation | ai_engine/lib/tool_helpers.py:36-53 | an expression that cannot be iterated, or is empty after sanitisation, gives the "I had a problem calculating that. The error was: ..." message |
| ToolHelpers.CalculationOfString | ai_engine/lib/tool_helpers.py:42-53 | for a string: empty after sanitisation gives the empty-expression message; otherwise the evaluator's result text, or the problem message with its error |
| ToolHelpers.EmptyExpressionNotEvaluated | ai_engine/lib/tool_helpers.py:45-46 | when sanitisation leaves nothing, the result does not depend on the evaluator |
| ToolHelpers.ResultEntries | ai_engine/lib/tool_helpers.py:20-22 | either every search result has a formatted entry, or some result lacks a title or body |
| ToolHelpers.EntriesOfTitledResults | ai_engine/lib/tool_helpers.py:20-22 | results with titles and bodies format as "Title: t\nSnippet: b" entries in order |
| ToolHelpers.HandleWebSearch | ai_engine/lib/tool_helpers.py:7-34 | a failing search gives "I had a problem searching the web."; no results give "I couldn't find any information on that topic."; a result without a title or body gives the apology too; otherwise the answer is the model's stripped reply to the formatted results |
| ToolHelpers.SearchAnswer | ai_engine/lib/tool_helpers.py:29-34 | the model's answer is returned stripped; a failing model call gives the search-problem message |
| ToolHelpers.WebSearchAnswer | ai_engine/lib/tool_helpers.py:16-30 | with results, the model is asked with the query and the entries joined by a blank line, and its stripped answer is returned |
| ToolHelpers.NoResultsNotAsked | ai_engine/lib/tool_helpers.py:16-17 | with no results the answer does not depend on the model |
| App.ModelToUse | ai_engine/app.py:739 | the model is the override, else CUSTOM_MODEL, else DEFAULT_MODEL: the first non-empty one, empty only when all three are |
| App.Remember | ai_engine/app.py:734-736 | appending the user turn and cutting to the last 10 leaves at most 10 turns, the new turn last, and a suffix of the old history plus the turn |
| App.PutFacts | ai_engine/app.py:746 | one dict comprehension entry: key order kept with a new id last, the id maps to its name and other ids keep theirs |
| App.AllEntitiesLastName | ai_engine/app.py:746 | each id of the entity map carries the friendly name of the last state with that id |
| App.StateName | ai_engine/app.py:746 | a string friendly_name is the entity's name; without one the entity id is its name |
| App.AllEntitiesNames | ai_engine/app.py:746 | an id is in the entity map exactly when some state has it, with the friendly name of its last state |
| App.Resolve | ai_engine/app.py:806-816 | a known id is used as it is; a list or dict id fails as unhashable |
| App.ResolveOutcomes | ai_engine/app.py:806-816 | a truthy number or bool fails as not iterable inside difflib; a string that is not a key, or a falsy scalar, takes the matcher's non-empty id, else the device is reported missing |
| App.ResolvedIsKey | ai_engine/app.py:806-816 | when difflib answers with one of its candidates, a resolved id is a key of the entity map |
| App.ActedBeforeResolving | ai_engine/app.py:799-805 | a task past the service check records the model's own entity id as acted upon, whether or not it then resolves |
| App.UnresolvedDevice | ai_engine/app.py:806-816 | an unknown id that correction cannot match gives "could not find a matching device for '<id>'" |
| App.KnownEntityExecuted | ai_engine/app.py:818-823 | a known id is executed and reported "executed <action, _ as space> on the <friendly name>" whatever the service call returned |
| App.EveryCommandAccounted | ai_engine/app.py:777-831 | the loop never stops early: every command leaves exactly one success or failure clause |
| App.RunAllSnoc | ai_engine/app.py:777-831 | each further command adds its own pass to the tally of those before it |
| App.RunCommands | ai_engine/app.py:773-831 | the `for` loop, with its three lists and its `action` variable, computes the tally of all commands |
| App.RunCommand | ai_engine/app.py:778-831 | one pass of the loop: each missing field, unknown action or exception becomes a "failed to execute a command due to: ..." clause |
| App.ResolveEntity | ai_engine/app.py:806-816 | the method resolves an entity id as `Resolve` states |
| App.ExecuteTask | ai_engine/app.py:798-823 | the execute_task branch: resolve, expand the groups, call the service and report |
| App.Summary | ai_engine/app.py:837-849 | the summary is never empty |
| App.OnlyFailures | ai_engine/app.py:842-846 | failures alone give " However, I ...", starting with a space |
| App.WithSuccesses | ai_engine/app.py:840-846 | successes give "Okay, I've a, and b." followed by " However, I ..." when there are failures |
| App.ToolAnswerStandsAlone | ai_engine/app.py:837-839 | a single success with the last action a web search or calculator is returned verbatim |
| App.NoClausesApologises | ai_engine/app.py:837-849 | with nothing to report, or a lone tool answer that is empty, the summary is "I wasn't able to complete that request."; failures beside that empty answer are dropped |
| App.SearchThenMalformed | ai_engine/app.py:779-839 | after an answering search a non-object command fails without resetting `action`, so the search answer is returned alone and the failure is dropped |
| App.BlankPromptChangesNothing | ai_engine/app.py:731-732 | an empty or blank prompt gives "Error: Prompt cannot be empty." and changes no global |
| App.HistoryBounded | ai_engine/app.py:734-851 | a history of at most 11 turns stays at most 11 after a cycle |
| App.UserTurnRecorded | ai_engine/app.py:734-851 | after a non-blank prompt the history is the trimmed history with the user turn, possibly followed by one assistant turn |
| App.NoStatesRecordsOnlyTheTurn | ai_engine/app.py:743-745 | with no states the reply is "Error: Could not get device list." and only the user turn has been recorded |
| App.CacheRefreshedIffStale | ai_engine/app.py:748-751 | the area cache is refetched and its time set to now exactly when it was empty or older than 300 seconds |
| App.PlannedEffect | ai_engine/app.py:763-851 | planning and dispatch leave the cache alone and add at most the assistant turn |
| App.DispatchedEffect | ai_engine/app.py:773-852 | after dispatch the reply is the summary, the assistant turn is appended, and the entity context is replaced only when some entity was acted upon |
| App.DirectAnswer | ai_engine/app.py:765-770 | when the plan holds no command, the direct answer is returned and no assistant turn is appended |
| App.PlanFailure | ai_engine/app.py:854-859 | a planning call (ai_engine/app.py:763) that raises gives "An unexpected error occurred: " and the message; the user's turn and the refreshed cache are kept, no assistant turn is appended |
| App.DirectFailure | ai_engine/app.py:854-859 | a direct-answer call (ai_engine/app.py:767-770) that raises after a plan without commands gives the same unexpected-error reply with the same globals |
| App.ContextOnlyWhenActed | ai_engine/app.py:833-834 | the last-entity context changes only when commands ran and acted on some entity, and then it holds those entities |
| App.Engine.constructor | ai_engine/app.py:35-40 | the globals start empty: no history, empty cache, time 0, no context |
| App.Engine.ProcessPrompt | ai_engine/app.py:723-859 | the method's reply and new globals are those of one cycle, and the history bound is kept |
| App.Engine.Plan | ai_engine/app.py:753-770 | the planning step updates the globals as `Planned` states |
| App.Engine.Dispatch | ai_engine/app.py:773-852 | the dispatch step updates the globals as `Dispatched` states |
| PathHelpers.FileDate | file_sorter/lib/path_helpers.py:21-37 | a parsable EXIF DateTimeOriginal wins, then the modification time, then now |
| PathHelpers.LastIndexAt | file_sorter/lib/path_helpers.py:17-18 | `rfind` gives the last position of the character |
| PathHelpers.Basename | file_sorter/lib/path_helpers.py:18 | the base name holds no `/` |
| PathHelpers.Extension | file_sorter/lib/path_helpers.py:17 | the extension is empty, or a dot followed by text with no dot and no `/` |
| PathHelpers.SplitExtRejoins | file_sorter/lib/path_helpers.py:17 | root and extension put back together give the path |
| PathHelpers.ExtensionOfSuffix | file_sorter/lib/path_helpers.py:17 | a stem not led by a dot followed by a one-dot suffix has that suffix as its extension |
| PathHelpers.JoinedUnder | file_sorter/lib/path_helpers.py:74-77 | joining a folder and a plain name gives folder/name, whose parent is the folder and whose base name is the name |
| PathHelpers.Keywords | file_sorter/lib/path_helpers.py:64 | the kept words are all longer than 4 characters and alphabetic |
| PathHelpers.KeywordsSelected | file_sorter/lib/path_helpers.py:64 | the kept words are, in order, the lower-cased words at the ascending positions of the words longer than 4 characters that are all letters, one kept word per such position |
| PathHelpers.KeywordsComplete | file_sorter/lib/path_helpers.py:64 | no qualifying word is dropped: each one's position is a keyword position and its lower-cased form is kept |
| PathHelpers.FirstThree | file_sorter/lib/path_helpers.py:65 | `words[:3]`: the first three words, or all when there are fewer |
| PathHelpers.DescriptionOrStem | file_sorter/lib/path_helpers.py:59-69 | the descriptive part joins the first three qualifying words with `_`, or is the original stem with spaces as `_` when no word qualifies |
| PathHelpers.PartHasNoSlash | file_sorter/lib/path_helpers.py:59-69 | the descriptive part holds no `/` |
| PathHelpers.NewFilenameShape | file_sorter/lib/path_helpers.py:71 | the new filename is non-empty, holds no `/` and does not start with a dot |
| PathHelpers.FolderEndsInComponent | file_sorter/lib/path_helpers.py:49-57 | the target folder is non-empty and does not end in `/` |
| PathHelpers.PathInFolder | file_sorter/lib/path_helpers.py:17-77 | the returned folder is the target folder for the lower-cased extension, and the path's parent; the path's base name is the new filename; a non-empty extension is kept as the new filename's extension |
| PathHelpers.FilenameKeepsExtension | file_sorter/lib/path_helpers.py:71 | the new filename's extension is the original one |
| PathHelpers.FolderByExtension | file_sorter/lib/path_helpers.py:46-57 | for any base directory, photo extensions go to join(base, Photos)/YYYY/MM-MonthName, document extensions to join(base, Documents)/YYYY, the rest to join(base, Unsorted)/YYYY; a base without a trailing slash reads base/Photos and so on |
| PathHelpers.OcrTextIgnored | file_sorter/lib/path_helpers.py:10-77 | the OCR text never changes the result |
| Strings.WordsOfJoin | ai_engine/lib/utils.py:92 | `split()` of words joined by single spaces gives those words back |
| Strings.ParseIntOfIntToString | ai_engine/lib/ha_helpers.py:260 | the model's `int()` (ASCII digits, no length limit) reads back the decimal text of any integer |

## Left out

- HTTP and process wiring are not modelled: the Flask routes, the server start-up, `file_sorter/main.py`, the prints and the logging.
- The MQTT add-ons are not modelled. Their logic is a one-line state truncation and an ON/OFF service choice.
- ChromaDB memory is not modelled: `retrieve_memories` returns a string input, and storing memories is left out.
- `get_average_temperature` is not modelled, because it averages floating-point values.
- `move_file` is not modelled, because it only calls the filesystem.
- The network and foreign calls are inputs, not code: `call_ollama`, `get_ha_states`, `get_ha_area_data`, `get_entity_history`, the POST in `call_homeassistant_api`, DuckDuckGo, `numexpr`, `difflib` and `json.loads`.
- A returned `call_ollama` string, including its connection-error text, is an `Answer`. An exception escaping it is a `Failure`.
- Time zones and date formatting are not modelled.
  - In `prettify_history`, reading `last_changed` and formatting it in the local time zone is one input function (`stamp`). It gives nothing where `fromisoformat` would raise `ValueError` or `TypeError`.
  - In `generate_new_path_and_name`, `strptime` of the EXIF date is an input parser, and `getmtime` is an optional input date.
- Concurrency is not modelled. The globals are not locked across Flask threads; the model treats requests as sequential calls on one `Engine`.
- JSON numbers are integers only. Floats in state attributes, parameters or history are not represented.
- `str.lower()` and `str.isalpha()` are modelled on ASCII letters only.
- `strftime("%Y")` is modelled as the plain decimal year. Years below 1000 are not zero-padded.
- HaHelpers.Expand: Python's recursion limit is modelled as a fuel of 1000 nested groups (`MaxDepth`). Python's limit of 1000 frames also counts the frames of the callers, so Python gives up at a shallower nesting than the model; an acyclic nesting somewhat under 1000 deep that Python rejects with the recursion error is expanded by the model.
- HaHelpers.BrightnessPercent: the percentage is computed exactly as the integer nearest to 20b/51, while Python computes `round((b / 255) * 100)` in binary floating point. The two agree for every brightness below about 2^48 and first differ near there: for b = 281474976710363 Python gives 110382343807986 and the model 110382343807985. For a brightness above about 4.6e308 Python's `* 100` overflows to infinity and `round` raises `OverflowError`, which the `except (ValueError, TypeError)` at ai_engine/lib/ha_helpers.py:263 does not catch, so `prettify_states` raises; the model emits a brightness field instead.
- ParseIntOfIntToString: the model's `int()` on a string (`Strings.ParseInt`) accepts ASCII decimal digits only and has no length limit. CPython's `int()` also accepts other Unicode decimal digits (`int("١٢٣")` is 123), and since Python 3.11 `int()` and `str()` refuse integers of more than 4300 digits with `ValueError`. So a brightness written in non-ASCII digits is dropped by the model where the source shows it, and one over 4300 digits is shown by the model where the source drops it.
- HaHelpers.State: a state entry always has a string `entity_id` and a dict of attributes. A snapshot entry without them, or with another type, makes the entity map at ai_engine/app.py:746 raise, which process_prompt reports as "An unexpected error occurred: ..."; the model does not have that path.
- ToolHelpers.HandleWebSearch: the search's `max_results=5` cap is the search input's concern, not the model's.
- HaHelpers.PrettyHistory: the time-zone fallback to UTC for an unknown zone name lives in the `stamp` input.
- App.Engine.ProcessPrompt: the prompt and the model override are strings. The HTTP route at ai_engine/app.py:871-877 passes on any truthy JSON value; a number as the prompt makes `.strip()` raise at ai_engine/app.py:731, giving "An unexpected error occurred: 'int' object has no attribute 'strip'", a path the model does not have.
- App.Engine.ProcessPrompt: the `timestamp` of `LAST_ENTITY_CONTEXT` is a clock reading passed in (`finished`).
- App.Engine.ProcessPrompt: the text of the planning and answer templates is not modelled. The prompts are values naming the template and what fills it.
- PathHelpers.PathInFolder: a file with no extension whose name starts with a dot (".profile") keeps its stem, so the new name ends in ".profile". That text then reads as an extension of the new name, so preservation of the extension is stated only for a non-empty extension.
- App.StateName: a `friendly_name` that is not a string is read as its `str()` text. The source instead raises inside the matcher: `AttributeError` on `.lower()` in extraction mode, or a `TypeError` inside `difflib` in correction mode. For such a snapshot the model's scores and failure clauses differ from the source's.
- App.CacheRefreshedIffStale: the clock readings `now` and `finished` are integers, while `time.time()` is a float. A fractional age such as 300.5 seconds, which Python counts as older than 300, is not representable.
- Json.PyRepr: every character above U+00A0 except U+00AD is written unescaped. Python's `repr` also escapes the other non-printable characters, such as U+200B and U+2028. This shows in "Unknown action" clauses and in history descriptions of a non-string action or state.
