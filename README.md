# Azure OpenAI Assistants: a Dafny model of the core

This project models the sequential logic behind a Streamlit front end for
Azure OpenAI assistants, and proves properties of that model. There are four
parts:

- **OpenAPI registry and call planner** (`utilities/openapi_helper.py`,
  module `OpenApiHelper`). It works on a parsed OpenAPI document:
  - it builds the table from `operationId` to path, HTTP method and
    parameters;
  - it builds the list of tool descriptors in OpenAI "function" shape;
  - it rewrites a path template into one candidate URL per server;
  - it tries the candidates in a shuffled order until one answers HTTP 200.
- **Run driver and session store** (`manager.py`, module `Manager`). The
  class `Manager` keeps three maps:
  - session to assistant to thread;
  - per-assistant chat message lists;
  - per-assistant tracked file ids.

  `run_thread` makes sure a thread exists, posts the prompt, starts a run and
  polls it while answering each `submit_tool_outputs` action with one batch of
  tool outputs. When the run completes it collects the thread's messages.
- **`.env` handling** (`utilities/env_helper.py`, module `EnvHelper`).
  - The `KEY=VALUE` reader and writer of `update_env_variable`.
  - The class `EnvHelper` with the settings that `load_vars` derives,
    including the endpoint `https://<resource>.openai.azure.com/`.
- **Assistant directory lookups** (`utilities/assistant_factory.py`, module
  `AssistantFactory`). First match by name, name projection and the
  emptiness test, over the loaded list of JSON records.

Two shared modules support these:

- `Wrappers` holds `Option` and `Result`. A Python exception becomes an
  `Err` carrying `KeyError`, `IndexError`, `TypeError`, `AttributeError` or
  `ValueError`.
- `Text` models the Python `str` operations the code relies on: `replace`,
  `strip` and `split(sep, 1)`.

The remote service, HTTP, the file system, the clock and randomness are not
modelled as behaviour. They appear as arguments instead:

- the thread the service would create;
- the trace of run states that successive polls return;
- the tool invoker;
- the messages the thread holds;
- the outcome of an upload;
- an HTTP oracle `Request -> Response`;
- a `shuffle` function;
- the text of `.env`, or `None` when the file does not exist;
- the process environment, as a map.

Where the code and its description disagree, the model follows the code:

- **Uploads are not de-duplicated.** `track_assistant_file_for_messages`
  appends even when the id is already there (`TrackingKeepsDuplicates`).
- **"failed" and other terminal statuses are polled again.** The loop
  leaves only on "completed" (`TerminalFailureKeepsPolling`).
- **`call_function` raises for an unknown function name.** It returns
  `None` only when every candidate fails.
- **Query parameters raise `TypeError`.** The query branch indexes the
  arguments by the parameter object itself, so any query parameter raises,
  and the model does the same.
- **A missing `parameters` key raises `KeyError`.** URL construction reads
  `parameters` unconditionally, and a JSON `null` leaves the path, braces
  included, as it is. Both are modelled as results, not as preconditions.

## Model

| member | source | states |
|---|---|---|
| OpenApiHelper.ServerList | utilities/openapi_helper.py:19 | one entry per server, in order, each the server URL without its last character (an empty URL stays empty) |
| OpenApiHelper.VerbOpsSound | utilities/openapi_helper.py:30-31 | every operation collected for a path item is present under a verb of get, post, put, delete, patch |
| OpenApiHelper.VerbOpsOrdered | utilities/openapi_helper.py:30-31 | the operations of one path item come in verb order get, post, put, delete, patch |
| OpenApiHelper.VerbOpsComplete | utilities/openapi_helper.py:30-31 | every listed verb present in the path item is collected |
| OpenApiHelper.OperationsMembership | utilities/openapi_helper.py:29-31 | an operation is visited exactly when some path of the document holds it under a listed verb |
| OpenApiHelper.OperationsOrdered | utilities/openapi_helper.py:29-31 | the visiting order is by path in document order, then by verb order |
| OpenApiHelper.FunctionTableSucceeds | utilities/openapi_helper.py:32 | building the table succeeds exactly when every visited operation has an `operationId`, and otherwise raises `KeyError("operationId")` |
| OpenApiHelper.FunctionTableKeys | utilities/openapi_helper.py:26-40 | the keys are exactly the `operationId`s of the visited operations |
| OpenApiHelper.FunctionTableLastWins | utilities/openapi_helper.py:32-38 | for a duplicated `operationId` the entry of the last such operation is kept: its path, its verb, and its `parameters` when present |
| OpenApiHelper.FunctionTableSound | utilities/openapi_helper.py:32-38 | every entry records the path, verb and parameters of an operation with that `operationId` |
| OpenApiHelper.FunctionTableFromDocument | utilities/openapi_helper.py:26-40 | every key is the `operationId` of an operation of the document under a listed verb, and its entry is that operation's path and verb |
| OpenApiHelper.RegisterPathItem | utilities/openapi_helper.py:30-38 | the inner verb loop extends the table built so far exactly as the table of the operations visited so far plus this path item's |
| OpenApiHelper.CreateFunctionDict | utilities/openapi_helper.py:26-40 | the nested loops compute the table of all visited operations, raising exactly when that does |
| OpenApiHelper.ParsePath | utilities/openapi_helper.py:44-65 | a descriptor of type `function` named by `operationId` and described by `summary`; it has a `parameters` object of type `object` exactly when the operation has parameters; a missing `operationId` or `summary` raises `KeyError`, and a null `parameters` raises `TypeError` |
| OpenApiHelper.PropertiesOfKeys | utilities/openapi_helper.py:56-62 | the properties are keyed by exactly the parameter names |
| OpenApiHelper.PropertiesOfLastWins | utilities/openapi_helper.py:62 | a parameter name maps to the description and schema type of its last occurrence |
| OpenApiHelper.ToolsOfShape | utilities/openapi_helper.py:67-75 | one descriptor per visited operation, in visiting order, each that operation's parsed descriptor; it fails exactly when some operation does not parse |
| OpenApiHelper.ExtractPathItem | utilities/openapi_helper.py:70-73 | the inner verb loop appends the descriptors of one path item to those built so far |
| OpenApiHelper.ExtractOpenaiFunctions | utilities/openapi_helper.py:67-75 | the nested loops compute the descriptor list of all visited operations |
| OpenApiHelper.Init | utilities/openapi_helper.py:15-20 | the helper keeps the document, its server list and its function table, and raises exactly when the table does |
| OpenApiHelper.InLocation | utilities/openapi_helper.py:82-83 | exactly the parameters with that `in` value, and no more of them than there were |
| OpenApiHelper.InLocationSnoc | utilities/openapi_helper.py:82-83 | one more parameter is kept at the end exactly when it has that `in` value, so order and repeats are kept |
| OpenApiHelper.SubstituteSucceeds | utilities/openapi_helper.py:85-89 | substituting the path parameters succeeds exactly when every one has an argument |
| OpenApiHelper.SubstitutePath | utilities/openapi_helper.py:85-89 | the substitution loop computes the substitution function, including its `KeyError` |
| OpenApiHelper.RewriteOutcome | utilities/openapi_helper.py:78-97 | a missing `parameters` raises `KeyError`; a null one keeps the path; with listed parameters, a query parameter raises `TypeError`, and otherwise rewriting succeeds exactly when every path parameter has an argument |
| OpenApiHelper.RewriteStripsBraces | utilities/openapi_helper.py:89-97 | a rewritten path has no `{` or `}` and no character the substituted path did not have, so no `?` is appended |
| OpenApiHelper.TemplateFilled | utilities/openapi_helper.py:85-97 | the template `a{name}b` with one path parameter becomes `a` + argument + `b` |
| OpenApiHelper.CallUrls | utilities/openapi_helper.py:99 | exactly one URL per server, in server order, each the server followed by the same rewritten path; errors of the rewrite are passed on |
| OpenApiHelper.ConstructCallFqdns | utilities/openapi_helper.py:77-101 | the method computes the candidate URLs of `CallUrls` |
| OpenApiHelper.FirstSuccessWinner | utilities/openapi_helper.py:126-140 | the result is the body of candidate k exactly when k answers 200 and every candidate tried before it is non-200 or raises |
| OpenApiHelper.FirstSuccessNone | utilities/openapi_helper.py:126-144 | the result is `None` exactly when every candidate fails |
| OpenApiHelper.UnsupportedMethodFails | utilities/openapi_helper.py:129-140 | for a method other than get or post no candidate succeeds and the result is `None` |
| OpenApiHelper.UnknownFunctionRaises | utilities/openapi_helper.py:117 | a function name not in the table raises `KeyError` rather than returning a sentinel |
| OpenApiHelper.BodyComesFromAServer | utilities/openapi_helper.py:123-138 | when the shuffle is a permutation, a returned body is the 200 answer for some server's URL |
| OpenApiHelper.CallFunction | utilities/openapi_helper.py:113-144 | the method computes the outcome of lookup, decoding, planning, shuffling and the candidate loop |
| Manager.ToolOutputsComplete | manager.py:109-122 | a batch succeeds exactly when every tool call does; it then has one output per call, in call order, keyed by that call's id and holding its result |
| Manager.ToolOutputsFirstError | manager.py:109-122 | a failing batch raises what its first raising call raised, and every earlier call succeeded |
| Manager.CollectToolOutputs | manager.py:108-122 | the inner loop computes the batch |
| Manager.Step | manager.py:106-124 | an observation sends a batch exactly when it is a `requires_action` / `submit_tool_outputs` state whose batch succeeds |
| Manager.FirstCompleted | manager.py:104 | the index of the first "completed" state, with no earlier one |
| Manager.PollCompletesOnlyOnCompleted | manager.py:104-128 | the loop ends normally only when it sees "completed" |
| Manager.TerminalFailureKeepsPolling | manager.py:104-128 | a run that never reaches "completed" or "requires_action" is polled again and again and nothing is submitted |
| Manager.PollSubmissionCount | manager.py:104-128 | when nothing raises, the loop completes with one submission per qualifying observation before "completed" |
| Manager.PollIsBatches | manager.py:104-128 | when nothing raises, the loop completes having sent exactly the batches of the qualifying observations before "completed", one each and in trace order |
| Manager.PollSubmissionsAnswerRuns | manager.py:106-124 | each submission answers a qualifying observation: that run's id and thread, and the full batch for its tool calls |
| Manager.OneToolRoundTrip | manager.py:104-128 | the trace in_progress, requires_action, in_progress, completed yields exactly one batch with the one tool output |
| Manager.PollRun | manager.py:104-128 | the `while` loop computes the poll outcome over the trace |
| Manager.MessageInfos | manager.py:130-134 | one `{message_value, message_role}` per message, in order, from `content[0]` text and role; empty content raises `IndexError`, non-text content `AttributeError` |
| Manager.WithThread | manager.py:87-96 | the pair gets its stored thread, or the created one when it has none; all other pairs keep their entries |
| Manager.WithThreadIdempotent | manager.py:87-96 | making sure of the thread a second time changes nothing |
| Manager.Tracked | manager.py:150-156 | the id is appended to that assistant's list, and the other lists are unchanged |
| Manager.TrackingKeepsDuplicates | manager.py:155 | tracking the same id twice lists it twice |
| Manager.Manager.constructor | manager.py:13-18 | empty session container, message lists and file lists, and a sleep time of 1 |
| Manager.Manager.GetMessageList | manager.py:38-42 | the assistant's list, or `None` exactly when it has none |
| Manager.Manager.GetMessageListLength | manager.py:32-36 | the length of that list, or 0 without one; in a valid manager 0 means there is no list |
| Manager.Manager.AppendMessage | manager.py:44-47 | the message goes last in that assistant's list, which is created if needed; other lists and the other state are unchanged |
| Manager.Manager.EnsureThread | manager.py:87-96 | the session container becomes `WithThread` of the old one, and the returned thread is the stored thread or the created one |
| Manager.Manager.RunThread | manager.py:85-134 | the container update; the posted user message with the tracked files (the empty list without an entry); the run started with "Be good"; the poll's submissions; and the reply, a failure, or no return |
| Manager.Manager.UploadFile | manager.py:136-148 | the upload's success flag and file id, passed through |
| Manager.Manager.TrackAssistantFileForMessages | manager.py:150-156 | the file lists become `Tracked` of the old ones, and nothing else changes |
| Manager.Manager.UploadFileForAssistantMessages | manager.py:180-191 | the file is tracked exactly when the upload succeeded; the flag and id are returned |
| Manager.Manager.UploadFileToAssistant | manager.py:158-178 | `(True, file_id)` exactly when the upload and the attachment both succeeded, `None` otherwise, and nothing is tracked |
| Manager.HelperInvokerAnswers | manager.py:114 | with the instance call, a registered tool call with decodable arguments is answered with the first 200 body of the shuffled candidates |
| EnvHelper.Universal | utilities/env_helper.py:39-40 | the text as read in text mode has no `\r` left |
| EnvHelper.UniversalCRLF | utilities/env_helper.py:39-40 | a line break written `\r\n` is read as `\n`, and the rest of the text is read the same way |
| EnvHelper.UniversalCR | utilities/env_helper.py:39-40 | a lone `\r` is read as `\n`, and the rest of the text is read the same way |
| EnvHelper.UniversalPlain | utilities/env_helper.py:39-40 | a text without `\r` is read unchanged |
| EnvHelper.SplitLines | utilities/env_helper.py:40 | every line is non-empty and holds a line break, if any, only as its last character |
| EnvHelper.SplitLinesConcat | utilities/env_helper.py:40 | the lines joined give back the text |
| EnvHelper.SplitLinesEnds | utilities/env_helper.py:40 | every line but the last ends with `\n` |
| EnvHelper.ParseLine | utilities/env_helper.py:41-44 | a line is ignored exactly when, stripped, it is empty, starts with `#` or has no `=`; otherwise it splits at the first `=` |
| EnvHelper.Put | utilities/env_helper.py:44 | a present key keeps its place, a new key goes last, and the key then maps to the new value |
| EnvHelper.PutOthers | utilities/env_helper.py:44 | setting one key leaves every other key's value alone |
| EnvHelper.PutNew | utilities/env_helper.py:49 | a new key is appended as the last entry |
| EnvHelper.ParseLinesUnique | utilities/env_helper.py:40-44 | the dict read holds each key once |
| EnvHelper.LastDuplicateWins | utilities/env_helper.py:40-44 | a key set on several lines has the value of the last one |
| EnvHelper.ReadEnvLine | utilities/env_helper.py:41-44 | one pass of the reading loop sets the parsed key, or leaves the dict alone |
| EnvHelper.ReadLines | utilities/env_helper.py:40-44 | the reading loop computes the dict of the lines |
| EnvHelper.ReadEnvFile | utilities/env_helper.py:37-46 | the file's dict, and the empty dict when there is no file |
| EnvHelper.WriteEnvFile | utilities/env_helper.py:52-54 | the writing loop produces one `key=value` line per entry, in dict order |
| EnvHelper.RewriteEnvFile | utilities/env_helper.py:35-54 | the new file is the old dict with the variable set, written out |
| EnvHelper.MissingFileWritesOneLine | utilities/env_helper.py:45-54 | without a file, exactly the one line `name=value` is written |
| EnvHelper.RoundTrip | utilities/env_helper.py:37-54 | reading back a written dict with distinct, well-formed entries gives that dict |
| EnvHelper.UpdateRoundTrip | utilities/env_helper.py:35-54 | reading the rewritten file gives the updated dict, and the variable reads back as its new value |
| EnvHelper.LoadDotenv | utilities/env_helper.py:16 | the variables of the file are added, and a variable that is already set keeps its value |
| EnvHelper.UpdateIsShadowed | utilities/env_helper.py:16 | after a rewrite, a variable that is already in the environment keeps its old value when the file is loaded |
| EnvHelper.LoadDotenvOverriding | utilities/env_helper.py:16 | the overriding load: every variable of the file takes the file's value, and the others are unchanged |
| EnvHelper.UpdateTakesEffect | utilities/env_helper.py:35-56 | with the overriding load, the rewritten variable reads back as its new value |
| EnvHelper.ApiBaseParts | utilities/env_helper.py:25 | the endpoint is `https://`, the resource name, then `.openai.azure.com/` |
| EnvHelper.ApiBaseInjective | utilities/env_helper.py:25 | two resource names never share an endpoint |
| EnvHelper.EnvHelper.constructor | utilities/env_helper.py:11-13 | the new helper holds the settings loaded, without overriding, from the given environment and file |
| EnvHelper.EnvHelper.SetVars | utilities/env_helper.py:19-32 | the four settings read from the given environment (empty when missing); the endpoint built from the resource name, the key and version copied, and the four SDK variables set on top of it |
| EnvHelper.EnvHelper.LoadVars | utilities/env_helper.py:15-32 | as written: the environment after the non-overriding load, where a variable already set keeps its value, with the four settings read from it (empty when missing); the endpoint built from the resource name, the key and version copied, and the four SDK variables set |
| EnvHelper.EnvHelper.ReloadVars | utilities/env_helper.py:15-32 | corrected: the same settings after the overriding load, where every variable of the file takes the file's value |
| EnvHelper.EnvHelper.UpdateEnvVariable | utilities/env_helper.py:35-56 | the file is rewritten with the variable set and then reloaded with the overriding load; the variable then has its new value in the environment, and a new resource name moves the endpoint |
| AssistantFactory.Field | utilities/assistant_factory.py:24-26 | `record[key]`: the value when present, `KeyError` for a missing key, `TypeError` for a non-object |
| AssistantFactory.Matching | utilities/assistant_factory.py:24 | exactly the records carrying that name, all read; a record without a name raises |
| AssistantFactory.FirstMatch | utilities/assistant_factory.py:24 | the first record kept is the first record of the list with that name |
| AssistantFactory.GetAssistantField | utilities/assistant_factory.py:23-26 | a record without a name raises (`KeyError` or `TypeError`); `IndexError` exactly when every record has a name and none is the one asked for; otherwise the field of a record with that name (the first one, by `FirstAssistantWins`), `KeyError` for a missing field |
| AssistantFactory.FirstAssistantWins | utilities/assistant_factory.py:23-26 | the field is read from the first record with that name, and a missing field raises `KeyError` |
| AssistantFactory.GetAssistantNameList | utilities/assistant_factory.py:29-33 | one name per record, in order; a record without a name raises |
| AssistantFactory.LookupIffListed | utilities/assistant_factory.py:23-33 | the lookup raises `IndexError` exactly when the name is not in the name list |
| AssistantFactory.IsThereAssistants | utilities/assistant_factory.py:35-39 | true exactly when the list is not empty |
| AssistantFactory.AssistantsIffNames | utilities/assistant_factory.py:29-39 | there are assistants exactly when the name list is not empty |
| Text.ReplaceFirst | utilities/openapi_helper.py:89 | `replace` changes the first occurrence of the name, and the scan goes on after it |
| Text.StripBraces | utilities/openapi_helper.py:96-97 | no brace is left, and every other character is kept |
| Text.StripOnePair | utilities/openapi_helper.py:96-97 | one pair of braces around brace-free text is the only thing removed |
| Text.Strip | utilities/env_helper.py:41 | the result neither starts nor ends with white space and holds only characters of the input |
| Text.StripSlice | utilities/env_helper.py:41 | the result is a slice `s[i..j]` of the input, and every character before `i` and from `j` on is white space |
| Text.TrimLeftDrops | utilities/env_helper.py:41 | only white space is dropped from the front |
| Text.TrimRightDrops | utilities/env_helper.py:41 | only white space is dropped from the back |
| Text.ReplacePrefixFree | utilities/env_helper.py:39-40 | a front without the pattern's first character is copied as it is, and the rest is rewritten on its own |
| Text.StripCleanSpace | utilities/env_helper.py:41 | a string that neither starts nor ends with white space, followed by one white-space character such as the line break, strips back to itself |
| Text.SplitFirst | utilities/env_helper.py:43 | `split('=', 1)`: the text before the first separator, which holds none, and the rest |
| Text.SplitFirstAt | utilities/env_helper.py:43 | the split is at the first separator, whatever follows it |

## Left out

- I/O and services are arguments, not behaviour. This covers the Azure OpenAI calls (the `llm_helper` module is not part of this model), HTTP, reading the OpenAPI and assistant JSON files, `time.sleep` and logging. The service's answers are arguments; the requests sent to it are results: the posted message, the started run and the submissions.
- `random.shuffle` is the `shuffle` argument. It is assumed to be a permutation only where a lemma needs that.
- JSON decoding of the tool arguments is a `decode` argument that returns `None` for text that is not JSON (`ValueError`). Argument values are strings, so `str()` of a value is the value itself.
- Malformed parameter objects are not represented: a parameter without `name`, `in`, `description` or `schema.type`, and a `parameters` that is not an array. Nor are a document without `servers` or `paths`, or a server without `url`, which raise `KeyError` at `utilities/openapi_helper.py:19` and `utilities/openapi_helper.py:29`. Operations with a missing `operationId` or `summary` are modelled.
- Manager.PollRun: runs on a finite trace of run states. A trace that ends before "completed" gives `StillPolling`, where the source polls forever. The non-termination appears as that result and as `NeverReturns` from `RunThread`.
- Manager.Manager.GetMessageList: returns the list by value. The Python list is shared, so a caller's later appends would change the manager.
- The manager's assistant-list passthroughs to the remote service (`manager.py:49-83`) are left out. They only forward to `llm_helper`.
- The manager's `openapi_spec` file load (`manager.py:26-27`) is left out.
- `AssistantFactory._load_assistant_files_as_dicts` (`utilities/assistant_factory.py:10-21`) is left out, because it reads a directory. The lookups take the loaded list.
- `load_dotenv` uses the `KEY=VALUE` parser of `update_env_variable`. python-dotenv's own quoting, `export` prefixes and interpolation are not modelled. Two more differences: python-dotenv strips white space around `=`, where this parser keeps it in the key; and python-dotenv drops an inline `#` comment after a value, where this parser keeps it in the value.
- Logging is treated as a `log` call that only prints. The observability helper defines only `log_completion` and `log_message`, so as written every `observability_helper.log` call of `manager.py` (the first at `manager.py:24`) would raise `AttributeError`. The observability helper is not part of this model.
- The `Assistant` record class (`utilities/assistant_factory.py:41-47`) is left out, because nothing in the core reads it.
- Text.ReplaceFirst and OpenApiHelper.TemplateFilled: state the rewrite for a template with one path parameter whose name's first character occurs nowhere else in the template. `Replace` itself models every case; templates with several parameters are described only by `RewriteOutcome` and `RewriteStripsBraces`.
- The pages call `update_env_variable` on the manager, which has no such method. The model offers it on the environment helper only, as the source does.
- The Streamlit pages, `create_assistant.py` and the spec validation script are left out. They are user interface and tooling around the core.
- Integer widths play no part: the only numbers are list lengths and HTTP status codes.

## Findings

| source | as written | input that shows it | evidently intended | confidence | as-written member | corrected member |
|---|---|---|---|---|---|---|
| manager.py:114 | `OpenAPIHelper.call_function(function_name, function_args, self.openapi_spec)` calls the instance method on the class with three arguments, so the function name is bound to `self` and `self.function_dict` raises `AttributeError` | any run that reaches `requires_action` with one tool call | calling `call_function` on an `OpenAPIHelper` instance built from the OpenAPI document, with the name and the argument text | not executed | Manager.StaticCallInvoker, Manager.StaticCallAbortsRun | Manager.HelperInvoker, Manager.HelperInvokerAnswers |
| utilities/env_helper.py:16 | `load_dotenv(EnvHelper.ENV_FILE)` does not override variables that are already set, so the reload at the end of `update_env_variable` keeps the old value of every variable loaded before | environment `AZURE_OPENAI_KEY=old` from a file `AZURE_OPENAI_KEY=old`, then `update_env_variable("AZURE_OPENAI_KEY", "new")`: the key still reads `old` | an overriding load for the reload, so that it picks up the updated file; the start-up load (`EnvHelper.EnvHelper.LoadVars`) stays as written | not executed | EnvHelper.LoadDotenv, EnvHelper.UpdateIsShadowed, EnvHelper.UpdatedKeyStaysStale | EnvHelper.LoadDotenvOverriding, EnvHelper.UpdateTakesEffect, EnvHelper.EnvHelper.ReloadVars, EnvHelper.EnvHelper.UpdateEnvVariable |
