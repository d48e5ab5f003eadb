# A verified model of the llama proxy and its CI scripts

This project models two parts of the repository in Dafny.

**The chat-completion proxy** (`webservices/llama-proxy.py`). It sits in front of a LLaMA backend and serves `POST /v1/chat/completions`:

- The tenant content filter rejects a request whose message content contains "password" (in any case) or is longer than 20000 characters.
- The proxy attaches the three tool schemas to the body and forwards it to the backend.
- While the backend's latest reply asks for declared tools, the proxy handles each matched call in turn:
  - it checks the caller's per-user tool policy;
  - it runs the tool;
  - it appends the backend's assistant message, then a `tool` message holding the result;
  - after the last call it forwards the whole body again.
- It ends by relaying the last backend response. The other replies are 403 (a tenant denial or a tool denial) and 500 "Server error".
- `add_system_message` merges system text into a message list in place. It is modelled as well, although the handler never calls it.

**The CI scripts**:

- two Dockerfile generators, one per Python service in `webservices/`:
  - `generate_dockerfiles/generate_dockerfiles.py` always overwrites, uses python:3.14.0a7-slim and has optional requirements lines;
  - `generate_dockerfile.py` never overwrites and uses python:3.11-slim;
- two pull-request housekeeping scripts that decide whether to merge, delete a branch or open a pull request.

What the model treats as oracles:

- The backend, `json.loads`, the YAML policy files and the tool bodies are oracles held in `Proxy.Env`.
- GitHub is a `GitHub.Repository` object. It records every changing call (merge, delete branch, create pull request), and a set of calls it refuses stands for `GithubException`.
- The working tree the generators write is a `FileSystem.Tree` object holding a path-to-text map.

Python exceptions are values: `Raising<T>` is either `Returned(v)` or `Raised(name)`. Each imperative function of the source is a method proved equal to a specification function. The properties are lemmas about those functions:

- `ProxyChatCompletions` runs the handler step by step, and `Handle` specifies it.
- `ToolRounds` runs the `while` loop, and `ToolLoop` specifies it.
- `MessageList.AddSystemMessage` runs the merge, and `AddSystem` specifies it.
- `GenerateAll` and `GenerateMissing` run the generators' `main`, and `AfterEntries` specifies each.
- `CheckExistingPrs`, `MergeOrDelete` and `CheckRedundant` run the PR scripts.

Notable behaviours of the code as written, which the model keeps:

- A caller without a policy file is not refused with 403. `enforce_user_policy` leaves `tool_allowed` unbound and raises `UnboundLocalError`. The loop's handler swallows that, and the latest backend response is relayed. The same happens with an empty policy file or a `tools` value that is not a mapping (TypeError), and with a tool entry that is not a mapping (AttributeError): only KeyError is caught.
- The 403 body for a refused tool is "Forbidden + Tool not allowed by user policy.". It does not name the tool.
- The tool loop has no iteration cap. A failing tool or a bad argument is swallowed, and the last backend response is returned.
- The older generator's CMD line is not an f-string. It reads `CMD ["python", "/app/{service_name}.py"]` for every service.

## Model

| member | source | states |
|---|---|---|
| ChatModel.SchemasMatchRegistry | webservices/llama-proxy.py:18-62 | the names in the `tools` schema list are exactly the keys of `get_tools()`, three of each |
| ToolMatcher.ToolsMatched | webservices/llama-proxy.py:65-97 | raises exactly when the top choice has no message or no `tool_calls`; otherwise returns the backend's calls whose name is declared |
| ToolMatcher.KeepCalledNames | webservices/llama-proxy.py:90-95 | filtering by `called & declared` equals filtering by the declared names alone |
| ToolMatcher.KeepNamedMembers | webservices/llama-proxy.py:93-95 | a call is kept iff it was requested and its name is declared |
| ToolMatcher.KeepNamedAppend | webservices/llama-proxy.py:93-95 | the filter distributes over concatenation, so the backend's order is kept |
| ToolMatcher.KeepNamedCounts | webservices/llama-proxy.py:93-95 | each declared call is kept as many times as the backend issued it; undeclared calls 0 times |
| ToolMatcher.UndeclaredOnlyMatchesNothing | webservices/llama-proxy.py:92-95 | when no requested name is declared, the match is empty |
| ToolMatcher.MatchedCalls | webservices/llama-proxy.py:86-95 | membership in the match iff requested and declared; with the proxy's own schemas every matched name is registered |
| Policy.EnforceTenantPolicy | webservices/llama-proxy.py:238-254 | the loop over the messages returns the verdict of `TenantVerdict`, and a missing `messages` key scans nothing |
| Policy.AllowedIffAllClean | webservices/llama-proxy.py:243-254 | (True, "Allowed") is returned iff every message passes both tests |
| Policy.FirstOffenderDecides | webservices/llama-proxy.py:244-253 | the first offending message decides the verdict or the exception, whatever follows it |
| Policy.VerdictReasons | webservices/llama-proxy.py:247-254 | allowed iff the reason is "Allowed"; a denial carries the keyword reason or "input too long" |
| Policy.MessageViolationMeaning | webservices/llama-proxy.py:245-253 | the keyword reason iff "password" occurs in the lower-cased text; the length reason iff it does not and the text is over 20000; clean otherwise |
| Policy.CaseInsensitive | webservices/llama-proxy.py:245-247 | for ASCII content (the A-Z case mapping), upper-casing the content changes no verdict |
| Policy.ContentShapes | webservices/llama-proxy.py:245 | a missing content reads as "" and is clean; a non-string content raises AttributeError |
| Policy.EnforceUserPolicy | webservices/llama-proxy.py:204-235 | raises UnboundLocalError without a policy file, TypeError when the document or its `tools` value is not a mapping, AttributeError when the tool's entry is not a mapping; otherwise allows iff the entry's `allowed` is true (a missing `tools` key, tool or `allowed` denies), with the fixed reason exactly when denied |
| Conversation.MessageList.AddSystemMessage | webservices/llama-proxy.py:150-180 | the new list and the raised exception are those of `AddSystem` on the old list |
| Conversation.UpdateFromMergeable | webservices/llama-proxy.py:172-175 | with no raising message the loop visits all messages, updates only system ones, keeps the length and sets the flag iff one is a system message |
| Conversation.UpdateFromInterrupted | webservices/llama-proxy.py:172-175 | at the first raising message the loop stops with its exception; earlier messages are updated and later ones unchanged |
| Conversation.InsertsWhenNoSystem | webservices/llama-proxy.py:170-178 | with no system message, `{"role": "system", "content": new}` is inserted at index 0 and the rest keep their order |
| Conversation.AppendsToEverySystemMessage | webservices/llama-proxy.py:172-175 | each system message gets " \n" + new appended; the length, the order and the other messages are unchanged |
| Conversation.SystemMessagesNotDuplicated | webservices/llama-proxy.py:170-180 | a successful merge leaves max(1, n) system messages where there were n |
| Proxy.Round | webservices/llama-proxy.py:289-319 | a round that hands over to the next round does so with a parsed response |
| Proxy.HandleReachesLoop | webservices/llama-proxy.py:273-289 | once the first backend reply parses, the handler is the tool loop after that first forward |
| Proxy.RunToolCalls | webservices/llama-proxy.py:293-316 | the `for` loop over the matched calls ends as `RunCalls` says |
| Proxy.ToolRound | webservices/llama-proxy.py:290-319 | one pass of the `while` body is `Round` |
| Proxy.ToolLoopStops | webservices/llama-proxy.py:289-328 | a failed `while` test relays the latest response and forwards nothing more |
| Proxy.ToolLoopUnfolds | webservices/llama-proxy.py:289-319 | a passed test either ends the loop with the round's result or continues it from the round's new body and response |
| Proxy.TestAndRound | webservices/llama-proxy.py:289-319 | the `while` test plus one pass of the body agrees with `ToolLoop` |
| Proxy.LoopAdvances | webservices/llama-proxy.py:289-319 | the loop invariant of `ToolRounds` survives one more forwarded body |
| Proxy.ToolRounds | webservices/llama-proxy.py:288-322 | the `while` loop's result is `ToolLoop` |
| Proxy.ProxyChatCompletions | webservices/llama-proxy.py:258-331 | the handler's reply and forwarded bodies are those of `Handle` |
| ProxyProperties.AllRanAppendsPairs | webservices/llama-proxy.py:293-316 | a completed round had every call allowed by the user policy and returning, and its body is the old one with exactly the round's pairs appended; the tool schemas and all earlier messages are unchanged |
| ProxyProperties.PairsLayout | webservices/llama-proxy.py:307-315 | the appended messages are two per call, in call order: the assistant message, then a "tool" message carrying that call's name and result |
| ProxyProperties.AllRanIffPermitted | webservices/llama-proxy.py:293-316 | every call of a round runs iff each one is allowed by the user policy and returns |
| ProxyProperties.DenialReason | webservices/llama-proxy.py:294-298 | a refused round has the fixed reason, and some call in it is not explicitly allowed |
| ProxyProperties.FirstRefusalDenies | webservices/llama-proxy.py:293-298 | the first call the readable policy refuses ends the round with 403 (the first call even for a body without `messages`); later calls never run |
| ProxyProperties.MissingPolicyFileRelays | webservices/llama-proxy.py:220-328 | with no policy file, or one that is empty or whose `tools` value is not a mapping, the latest backend response is relayed and nothing more is forwarded |
| ProxyProperties.CallErrorSwallowed | webservices/llama-proxy.py:293-316 | once the calls before it ran, a call whose policy check raises, or an allowed call whose tool raises (unknown tool, unparsable arguments, failure inside the tool), ends the round unfinished and later calls never run |
| ProxyProperties.CallErrorRelays | webservices/llama-proxy.py:293-322 | such a raising call makes the round relay the latest backend response, and the request ends with nothing more forwarded |
| ProxyProperties.ToolDenialForwardsNothing | webservices/llama-proxy.py:293-298 | a call the user's readable policy refuses ends the request with 403 "Tool not allowed by user policy." and the grown body is never forwarded, even for a body without `messages` when it is the first call |
| ProxyProperties.ReforwardFailureRelays | webservices/llama-proxy.py:316-328 | after a completed round, a failed re-forward relays the previous response and an unparsable new response is relayed as it is, the grown body forwarded once |
| ProxyProperties.MoreFuelSameLoop | webservices/llama-proxy.py:289-322 | an answer reached with some fuel is the same with more fuel |
| ProxyProperties.MoreFuelSameHandle | webservices/llama-proxy.py:258-331 | the same holds for the whole handler |
| ProxyProperties.RoundForwardsGrownBody | webservices/llama-proxy.py:307-318 | the body forwarded after a round strictly extends the previous one and keeps its tool schemas |
| ProxyProperties.LoopForwardsGrowingBodies | webservices/llama-proxy.py:288-322 | across the loop, each forwarded body extends the one before it and keeps the tool schemas |
| ProxyProperties.RoundOutcomes | webservices/llama-proxy.py:293-322 | a round that ends the request ends it with the tool 403 or a relayed response |
| ProxyProperties.LoopOutcomes | webservices/llama-proxy.py:288-328 | the loop ends in a relay or the tool 403 (or, only in the model, out of fuel), never in "Server error" |
| ProxyProperties.NoMatchesRelaysFirst | webservices/llama-proxy.py:281-328 | a first reply with no declared tool call is relayed after exactly one forward of the body with the schemas |
| ProxyProperties.HandleReplies | webservices/llama-proxy.py:273-331 | the reply is a relay, one of the two tenant 403s, the tool 403 or 500; 500 happens after at most one forward; a tenant 403 forwards nothing |
| ProxyProperties.HandleForwards | webservices/llama-proxy.py:276-319 | the first forwarded body is the request body with the schemas attached; every later one extends the one before it |
| ProxyProperties.ArgumentsMustFit | webservices/llama-proxy.py:301-306 | "{}" calls the tool with no argument; any other text is parsed and passed as one argument; an arity mismatch raises TypeError |
| Text.LowerAt | webservices/llama-proxy.py:245 | `str.lower()` lowers each character in place |
| Text.ContainsIffOccurs | webservices/llama-proxy.py:247 | the `in` test holds iff the keyword occurs at some index |
| Text.StripResult | workflow_scripts/shared/check_if_pr_redundant.py:31 | `strip()` gives a middle part of the text with no whitespace at either end |
| Text.SplitJoin | workflow_scripts/shared/check_if_pr_redundant.py:31 | splitting the join of separator-free pieces gives the pieces back |
| Text.JoinSplit | workflow_scripts/shared/check_if_pr_redundant.py:31 | joining the pieces of a split gives the text back |
| DockerfileCommon.PathJoin | workflow_scripts/generate_dockerfiles/generate_dockerfiles.py:10-11 | `os.path.join`: an absolute second part replaces the first; otherwise the result starts with the first part and ends with the second |
| DockerfileCommon.ServiceName | workflow_scripts/generate_dockerfiles/generate_dockerfiles.py:42-43 | the name plus ".py" is the directory entry |
| DockerfileCommon.ServiceNameInEntry | workflow_scripts/generate_dockerfile.py:37-38 | a name cut from an entry holds no "/" |
| DockerfileCommon.DockerfilePath | workflow_scripts/generate_dockerfile.py:9-10 | the path is generated_dockerfiles/<name>/Dockerfile |
| DockerfileCommon.DockerfilePathInjective | workflow_scripts/generate_dockerfiles/generate_dockerfiles.py:10-11 | distinct services never share a Dockerfile path, compared as text |
| DockerfileCommon.DockerfileUnderOutputDir | workflow_scripts/generate_dockerfiles/generate_dockerfiles.py:5-11 | every Dockerfile path starts with generated_dockerfiles/ as text |
| DockerfileCommon.DotEntryPaths | workflow_scripts/generate_dockerfiles/generate_dockerfiles.py:10-11 | the entries ".py", "..py" and "...py" give generated_dockerfiles/Dockerfile, generated_dockerfiles/./Dockerfile and generated_dockerfiles/../Dockerfile: paths are not normalised |
| DockerfileCommon.CmdLineInjective | workflow_scripts/generate_dockerfiles/generate_dockerfiles.py:28 | distinct names give distinct CMD lines |
| DockerfilesGenerator.RequirementsPath | workflow_scripts/generate_dockerfiles/generate_dockerfiles.py:44 | the requirements file is webservices-requirements/<name>.txt |
| DockerfilesGenerator.LinesLayout | workflow_scripts/generate_dockerfiles/generate_dockerfiles.py:16-28 | 5 lines, or 7 with requirements; header, FROM, WORKDIR and the script COPY first; with requirements, the requirements COPY and then the pip install come 5th and 6th, and appear only then; CMD last |
| DockerfilesGenerator.ContentEndsWithNewline | workflow_scripts/generate_dockerfiles/generate_dockerfiles.py:29 | the written content ends in a newline for every service name |
| DockerfilesGenerator.ContentSplitsIntoLines | workflow_scripts/generate_dockerfiles/generate_dockerfiles.py:29 | for a name without a newline, splitting the content at newlines gives the lines and then "" |
| DockerfilesGenerator.GenerateDockerfile | workflow_scripts/generate_dockerfiles/generate_dockerfiles.py:8-32 | the tree afterwards is the old tree with the service's Dockerfile set to the content, overwriting any previous one |
| DockerfilesGenerator.GenerateAll | workflow_scripts/generate_dockerfiles/generate_dockerfiles.py:37-46 | the tree after the loop over the entries is `AfterEntries` of the old tree |
| DockerfilesGenerator.WritesMissRequirements | workflow_scripts/generate_dockerfiles/generate_dockerfiles.py:10-44 | a Dockerfile path is never a requirements path |
| DockerfilesGenerator.AfterEntryKeepsRequirements | workflow_scripts/generate_dockerfiles/generate_dockerfiles.py:42-46 | handling one entry never changes whether a requirements file exists |
| DockerfilesGenerator.RequirementsUnaffected | workflow_scripts/generate_dockerfiles/generate_dockerfiles.py:41-46 | the whole run never changes whether a requirements file exists |
| DockerfilesGenerator.GeneratedKeys | workflow_scripts/generate_dockerfiles/generate_dockerfiles.py:41-46 | afterwards the tree holds the old files plus one Dockerfile per ".py" entry, and nothing else |
| DockerfilesGenerator.OtherFilesKept | workflow_scripts/generate_dockerfiles/generate_dockerfiles.py:41-46 | a file that is no service's Dockerfile keeps its text |
| DockerfilesGenerator.EveryServiceGenerated | workflow_scripts/generate_dockerfiles/generate_dockerfiles.py:41-46 | every service gets its Dockerfile, with the requirements lines iff its requirements file existed before the run |
| DockerfilesGenerator.RegenerationIsIdempotent | workflow_scripts/generate_dockerfiles/generate_dockerfiles.py:37-46 | running `main` a second time over the same listing changes nothing |
| DockerfileGenerator.ContentEndsWithNewline | workflow_scripts/generate_dockerfile.py:18-24 | the content ends in a newline for every service name |
| DockerfileGenerator.ContentIsFiveLines | workflow_scripts/generate_dockerfile.py:18-24 | for a name without a newline, the content is exactly five newline-terminated lines: header, FROM python:3.11-slim, WORKDIR, COPY, CMD |
| DockerfileGenerator.CmdRunsCopiedScriptOnlyForPlaceholder | workflow_scripts/generate_dockerfile.py:22-23 | the CMD runs the copied script iff the service is literally named "{service_name}" |
| DockerfileGenerator.GenerateDockerfile | workflow_scripts/generate_dockerfile.py:7-27 | an existing Dockerfile leaves the tree unchanged; otherwise the Dockerfile is written with the content |
| DockerfileGenerator.GenerateMissing | workflow_scripts/generate_dockerfile.py:32-39 | the tree after the loop over the entries is `AfterEntries` of the old tree |
| DockerfileGenerator.GeneratedKeys | workflow_scripts/generate_dockerfile.py:36-39 | afterwards the tree holds the old files plus one Dockerfile per ".py" entry, and nothing else |
| DockerfileGenerator.ExistingFilesKept | workflow_scripts/generate_dockerfile.py:12-14 | no existing file changes, Dockerfiles included |
| DockerfileGenerator.MissingDockerfilesWritten | workflow_scripts/generate_dockerfile.py:12-39 | a service whose Dockerfile was missing ends with the generated content |
| DockerfileGenerator.NothingLeftToGenerate | workflow_scripts/generate_dockerfile.py:12-39 | once every service has a Dockerfile, `main` changes nothing |
| DockerfileGenerator.RegenerationIsIdempotent | workflow_scripts/generate_dockerfile.py:32-39 | running `main` a second time over the same listing changes nothing |
| FileSystem.Tree.Write | workflow_scripts/generate_dockerfile.py:26-27 | writing sets that one path's text and keeps every other file |
| GitHub.Repository.Request | workflow_scripts/check_if_pr_redundant.py:25-32 | each changing call is recorded in order, and it fails iff GitHub refuses it |
| SharedPrCheck.KeptFolders | workflow_scripts/shared/check_if_pr_redundant.py:31 | every kept folder is non-empty, stripped and comma-free |
| SharedPrCheck.ParsedFolders | workflow_scripts/shared/check_if_pr_redundant.py:31 | every folder the `--folder` parser returns is non-empty, stripped and comma-free |
| SharedPrCheck.KeepFoldersKeeps | workflow_scripts/shared/check_if_pr_redundant.py:31 | folders already in parsed form pass the filter unchanged |
| SharedPrCheck.ParseFoldersJoin | workflow_scripts/shared/check_if_pr_redundant.py:31 | parsing the ","-join of parsed folders gives them back, in order |
| SharedPrCheck.DefaultFolders | workflow_scripts/shared/check_if_pr_redundant.py:27-31 | the default parses to the single folder generated_dockerfiles |
| SharedPrCheck.StartsWithAny | workflow_scripts/shared/check_if_pr_redundant.py:56 | true iff some folder is a prefix of the file name |
| SharedPrCheck.RawPrefixMatch | workflow_scripts/shared/check_if_pr_redundant.py:56 | generated_dockerfiles also matches files under generated_dockerfiles_old/ |
| SharedPrCheck.FirstWithChangesIsFirst | workflow_scripts/shared/check_if_pr_redundant.py:51-59 | the result is the first listed pull request with a matching file; None iff no listed pull request has one |
| SharedPrCheck.NoFoldersNothingFound | workflow_scripts/shared/check_if_pr_redundant.py:56-59 | with no folders nothing is found |
| SharedPrCheck.CheckExistingPrs | workflow_scripts/shared/check_if_pr_redundant.py:51-59 | the nested search returns `FirstWithChanges` |
| SharedPrCheck.Performed | workflow_scripts/shared/check_if_pr_redundant.py:73-87 | the calls made are a prefix of the plan; a shortened run ends at a refused call; the calls before it were accepted |
| SharedPrCheck.PlanShape | workflow_scripts/shared/check_if_pr_redundant.py:73-87 | the branch is deleted exactly once, last; a squash merge "Merge via Github Action" precedes it iff a pull request was found |
| SharedPrCheck.RefusedMergeKeepsBranch | workflow_scripts/shared/check_if_pr_redundant.py:78-81 | a refused merge raises before the delete, so the branch is kept |
| SharedPrCheck.MergeOrDelete | workflow_scripts/shared/check_if_pr_redundant.py:62-87 | the recorded calls are the performed part of the plan, and the run completes iff no planned call is refused |
| PrRedundancy.GeneratedChanges | workflow_scripts/check_if_pr_redundant.py:57-59 | the kept names are exactly the changed files under generated_dockerfiles/ |
| PrRedundancy.CheckRedundant | workflow_scripts/check_if_pr_redundant.py:35-87 | the recorded calls are `Calls`, whether or not GitHub refuses them |
| PrRedundancy.CallsOutcome | workflow_scripts/check_if_pr_redundant.py:50-87 | at most one call; the current branch is deleted iff some open pull request covers the generated files; a pull request is created iff none does and the branch is ahead |
| PrRedundancy.CoversIffNoGeneratedFile | workflow_scripts/check_if_pr_redundant.py:57-61 | a branch covers the generated files iff none of its changed files is under generated_dockerfiles/ |
| PrRedundancy.SiblingFolderIgnored | workflow_scripts/check_if_pr_redundant.py:58 | with the trailing "/", files under generated_dockerfiles_old/ do not count |

## Left out

- Transport and plumbing:
  - the backend transport `llama_request`, modelled as `Env.backend`;
  - httpx and its 60-second timeout;
  - async/await;
  - the FastAPI and uvicorn wiring;
  - `/health`.
- The tool bodies `time_now`, `list_directory` and `file_content`. They read the clock and the filesystem, so they are an oracle from name and argument to a result or an exception.
- YAML loading and `json.loads` are not parsed. The policy files are a map from user to the shape of the loaded document (`Policy.PolicyFile`). `json.loads` is a partial function in `Env`.
- `print` has no effect on behaviour.
- `Env`'s oracles are fixed for the whole request: the policy store cannot change between two tool calls, and a tool's result depends only on its name and argument, so a clock tool cannot advance within a request.
- JSON numbers are integers only, and JSON strings are sequences of code points with no lone surrogates.
- The fuel and `FuelExhausted`. The source loop is unbounded. `Proxy.ToolLoop` and `Proxy.Handle` carry fuel only so that they terminate, and `MoreFuelSameLoop` shows that more fuel never changes an answer already reached.
- Malformed `tool_calls` entries (missing `function` or `name`) are not modelled. Calls are taken as well formed; only a missing `tool_calls` key or top message is modelled.
- An `allowed` value that is not a boolean is not modelled; Python would test its truthiness.
- Non-ASCII case mapping is not modelled. `Text.Lower` maps only A-Z.
- Outside the tool loop, a message list that is not a list, and a JSON body that is not an object, are not modelled.
- Python's dict aliasing is not modelled. The request body is a value local to the handler. Messages appended to it are copies, so a later mutation of the backend's message object is not reflected.
- DockerfileCommon.DockerfilePathInjective: paths are compared as unnormalised text. The entries ".py" and "..py" give two different strings that name the same file (`DotEntryPaths`).
- DockerfileCommon.DockerfileUnderOutputDir: the prefix is textual. The entry "...py" gives generated_dockerfiles/../Dockerfile, which is the repository's root Dockerfile (`DotEntryPaths`).
- DockerfilesGenerator.OtherFilesKept: files are keyed by unnormalised path text, so a file reached through a "." or ".." service name is not treated as the same file.
- DockerfileGenerator.ExistingFilesKept: the existence test compares unnormalised path text, as above.
- DockerfileGenerator.MissingDockerfilesWritten: the "missing" test compares unnormalised path text, as above.
- Directories:
  - `os.makedirs` is not modelled, and directories are not files in `FileSystem.Tree`;
  - a directory already named `Dockerfile` is not modelled;
  - the order of `os.listdir` is a given sequence.
- In the PR scripts:
  - reading calls (`get_repo`, `get_pulls`, `get_files`, `compare`) do not fail; their results are given as values;
  - the repository name hard-coded in workflow_scripts/check_if_pr_redundant.py is not modelled;
  - argument parsing is not modelled, apart from the `--folder` parser and its default.
- Other files are not part of this model:
  - webservices/multiply.py, webservices/test.py, webservices/time_now.py, webservices/ping-llama.py and webservices/mcp.py;
  - clients/python-client.py;
  - workflow_scripts/build_docker_image/build_docker_images.py and generate_requests.py.
