# Cybersecurity analyzer: a Dafny model of its decision and rendering core

The analyzer is a small web service. `POST /api/analyze` takes Python code and runs the `semgrep` static scanner on a temporary copy of it. It renders the scanner's outcome as a plain-text digest, builds a prompt from the code and that digest, and asks an LLM agent for a structured security report. It returns that report with a character-count note put before the agent's summary.

This project models the deterministic logic inside that glue:

- **Scanner adapter** (`Scanner`, from `backend/mcp_servers.py`):
  - how the subprocess ended: exited with a code and output, timed out, or raised;
  - what the JSON decoder made of stdout;
  - the record `run_semgrep_scan` returns, and the exact invocation it hands to the subprocess (argument vector, environment, timeout);
  - the temporary-file discipline, as a `Workspace` class whose `files` map is restored on every exit path unless the unlink fails;
  - the digest renderer `format_semgrep_results_for_agent`, as a method whose loop is proved against a specification function.
- **Prompt builder** (`Prompts`, from `backend/context.py`): the agent's instruction text, the per-request prompt and the summary note.
- **HTTP service** (`Service`, from `backend/server.py`):
  - the two guards and their status codes;
  - the analysis pipeline, as a specification function and the imperative endpoint proved equal to it;
  - the `/env-check` report, the CORS origin list, and the resolution of front-end paths.
- **Helpers**: `Text` writes out the Python string operations the code relies on (`str.strip()`, slicing, `str.join`, `str(int)`). `Wrappers` holds `Option` and `Result`.

External effects enter as parameters:

- the environment is a `map<string, string>`;
- the subprocess is a function from the invocation, and the temporary files it can read, to its outcome;
- `json.loads` is a function from stdout to its decoded value;
- the agent is a function from its configuration and prompt to a report or an error;
- the file system is a pair of existence tests.

The endpoint returns, next to its response, the list of external calls it made, in order. That list is how the model states that a rejected request calls nothing, and that the scanner runs before the agent.

Four behaviours of the code that the model keeps:

- An unexpected scanner exception is reported with its message only. The exception's type name goes only to the debug log.
- The summary note reads "Analyzed N characters of Python code. ".
- The scanner digest is never empty, so the prompt always carries a scanner section.
- A finding whose first location has a `snippet` object without `text` makes the renderer raise `KeyError('text')`. The endpoint turns that into a 500 "Analysis failed: 'text'".

## Model

| member | source | states |
|---|---|---|
| Text.StripEmpty | backend/server.py:61 | `code.strip()` is empty exactly when every character is Python whitespace (both directions) |
| Text.IntToStringRoundTrip | backend/mcp_servers.py:148 | the decimal text of an integer reads back to its value, with a leading '-' for negatives |
| Text.JoinContainsParts | backend/mcp_servers.py:155 | every part occurs in the `sep.join` of the parts, and the first part starts it |
| Scanner.ScanEnv | backend/mcp_servers.py:24-35 | the subprocess environment is the parent's, with `SEMGREP_APP_TOKEN` replaced by its trimmed value when that value is non-empty; no other key changes or appears |
| Scanner.ScanCommand | backend/mcp_servers.py:38-48 | the argument vector has nine elements, runs `uvx ... semgrep` with `--config auto` at positions 4 and 5, `--json` and `--no-git-ignore`, and ends with the temporary file's path |
| Scanner.Classify | backend/mcp_servers.py:52-123 | success exactly when the process exited with non-empty stdout that decodes to a JSON object, whatever the exit code; a success counts the document's findings; a failure always has an error; a return code appears only for an exit and is that exit's code; stdout is at most 500 and stderr at most 2000 characters |
| Scanner.ValidJsonIgnoresExitCode | backend/mcp_servers.py:71-99 | decodable stdout gives the same success record for any two exit codes and any stderr |
| Scanner.CleanExitUnparseable | backend/mcp_servers.py:80-87 | exit 0 with non-empty stdout that does not decode gives "Failed to parse semgrep output: " and the decoder's message, stdout and stderr cut to 500, no return code |
| Scanner.NoUsableOutput | backend/mcp_servers.py:88-110 | empty stdout, or a non-zero exit with stdout that does not decode, gives "Semgrep scan failed" with the return code, stdout cut to 500 and stderr to 2000 |
| Scanner.TimeoutAndExceptionRecords | backend/mcp_servers.py:112-123 | a timeout gives exactly the "Semgrep scan timed out" failure; any other exception gives "Semgrep scan failed: " and its message; neither propagates |
| Scanner.NonObjectOutputRecord | backend/mcp_servers.py:73-123 | stdout that decodes to a JSON value other than an object gives "Semgrep scan failed: " and the `.get` error's message, with no return code or output, whatever the exit code |
| Scanner.Workspace.RunScan | backend/mcp_servers.py:12-129 | the code is written to the temporary file before the subprocess starts, so the scanner sees that file holding the code and every other file unchanged; the subprocess gets exactly the nine-element command, the derived environment and the 120-second timeout; the record is the classification of its outcome; the temporary file is gone afterwards on every path unless its unlink failed |
| Scanner.FailureParts | backend/mcp_servers.py:142-155 | the appended detail list is the error part, then `return_code=` when a code is present (0 included), then stderr when non-empty, then stdout when non-empty |
| Scanner.AppendEntry | backend/mcp_servers.py:166-184 | one loop iteration appends exactly the entry's title, message, optional CWE and optional code lines with the defaults "unknown", "No message", "UNKNOWN", or raises the missing-text error |
| Scanner.FormatForAgent | backend/mcp_servers.py:132-186 | the list-appending renderer with its loop computes exactly the digest function |
| Scanner.EntriesErrorPersists | backend/mcp_servers.py:177 | once one finding's snippet lookup raises, rendering the whole list raises the same `KeyError` |
| Scanner.EntriesSucceed | backend/mcp_servers.py:174-177 | the numbered list renders exactly when no finding's first location has a snippet without text |
| Scanner.EntriesNumbered | backend/mcp_servers.py:166-179 | the rendered lines hold exactly one entry title per finding, the j-th being "\n{j}. {check_id} (Severity: {severity})" for finding j, in input order |
| Scanner.FailureDigest | backend/mcp_servers.py:142-155 | a failure digest renders, starts with "Semgrep scan failed: " and the error (default "Unknown error"), and contains the return code whenever present, the first 500 characters of non-empty stderr and the first 200 of non-empty stdout |
| Scanner.NoFindingsDigest | backend/mcp_servers.py:161-162 | a success with zero findings renders as exactly "Semgrep scan completed successfully but found no security issues." |
| Scanner.FindingsDigest | backend/mcp_servers.py:157-186 | a success with K != 0 findings starts with "Semgrep found K security issue(s):\n" and contains every finding's numbered title; it fails, with "'text'", exactly when some snippet lacks text |
| Scanner.DigestErrorIsMissingText | backend/mcp_servers.py:172-177 | rendering a record can fail only with `KeyError('text')`, whose message is "'text'" |
| Scanner.ScanCountMatchesEntries | backend/mcp_servers.py:159-166 | for a record produced by a scan, the count printed in the header equals the number of numbered entries |
| Scanner.DigestNonEmpty | backend/mcp_servers.py:142-186 | a rendered digest is never empty |
| Scanner.EmptyResultsScenario | backend/mcp_servers.py:161-162 | exit 0 with stdout decoding to `{"results": []}` renders as the no-issues sentence |
| Scanner.TimeoutScenario | backend/mcp_servers.py:112-117 | a timed-out scan renders as "Semgrep scan failed: Semgrep scan timed out", which contains "timed out" |
| Prompts.InstructionsAskForCounts | backend/context.py:13 | the instructions contain "Semgrep found X issues, and I identified Y additional issues" |
| Prompts.InstructionsNameSeverities | backend/context.py:16 | the instructions contain each of "critical", "high", "medium" and "low" |
| Prompts.AnalysisPrompt | backend/context.py:47 | the prompt begins with the fixed header, immediately followed by the code verbatim |
| Prompts.DefaultPrompt | backend/context.py:45-52 | with no scanner results the prompt is exactly the header, the code and "\n\n" |
| Prompts.PromptRoundTrip | backend/context.py:47-50 | code and scanner results are both recovered from the prompt, and the scanner section is present exactly when the results are non-empty |
| Prompts.EnhanceSummary | backend/context.py:54-56 | the summary starts with "Analyzed N characters" and ends with the agent's summary, kept whole |
| Service.ValidateRequest | backend/server.py:59-62 | rejects with 400 "No code provided for analysis" exactly when the code is all whitespace |
| Service.CheckApiKeys | backend/server.py:65-68 | rejects with 500 "OpenAI API key not configured" exactly when the key is unset or empty |
| Service.FormatAnalysisResponse | backend/server.py:101-104 | keeps the issues list and puts the length of the unstripped code before the summary, which is kept whole |
| Service.AnalyzeCode | backend/server.py:107-129 | the step-by-step endpoint gives exactly the pipeline's response and external calls; the temporary file is gone afterwards unless its unlink failed |
| Service.BlankCodeRejected | backend/server.py:116 | blank code gives 400 with no external call, whatever the configuration, since validation comes first |
| Service.MissingKeyRejected | backend/server.py:118 | present code and a missing key give 500 with no external call |
| Service.AcceptedRequestCalls | backend/server.py:81-96 | after both guards the scanner runs first, on the temporary file, which then holds the submitted code while every other file is unchanged; whenever the digest renders, in particular after any scanner failure, the agent is called next with the prompt built from the code and the digest |
| Service.AgentPromptCarriesDigest | backend/server.py:87-96 | the prompt given to the agent always has a scanner section, from which the code and the whole digest are recovered |
| Service.SuccessfulReply | backend/server.py:121-124 | a report is returned exactly when the guards pass, the digest renders and the agent completes; it holds the agent's issues and its summary after "Analyzed N characters", with N the code's length |
| Service.ErrorReplies | backend/server.py:121-129 | every error is 400 or 500, 400 exactly for blank code; after the guards, every failure is a 500 whose detail starts "Analysis failed: ", and no partial report is returned |
| Service.AnalysisFailureDetail | backend/server.py:121-129 | with both guards passed, a digest that does not render gives exactly 500 "Analysis failed: 'text'", and an agent that raises gives exactly 500 "Analysis failed: " followed by its message |
| Service.KeyStatusOf | backend/server.py:196-205 | `set` holds exactly when the value is non-empty; `length` is its length (0 when unset); `prefix` is present exactly when set and is the first 7 characters plus "..." |
| Service.EnvCheck | backend/server.py:192-207 | reports both credentials that way, and ENVIRONMENT or "not set" |
| Service.PrefixDisclosesAtMostSeven | backend/server.py:199 | a reported prefix ends in "...", is at most 10 characters, and shows at most the first 7 characters of the credential |
| Service.CorsOrigins | backend/server.py:19-26 | the list starts with the two development origins; "*" is in it, as a third entry, exactly when ENVIRONMENT is exactly "production" |
| Service.IndexPath | backend/server.py:219 | the entry document is "static/index.html" |
| Service.ServeIndex | backend/server.py:217-222 | serves the entry document when it exists, otherwise 404 "Index file not found" |
| Service.ServeSpa | backend/server.py:224-236 | serves the joined path when it is a file, otherwise the entry document when it exists, otherwise 404 "Page not found" |
| Service.SpaPathResolution | backend/server.py:227 | a relative path resolves to "static/" followed by it; an absolute path resolves to itself |

## Left out

- Running `uvx`/`semgrep`, and enforcing the 120-second timeout. The subprocess is the `run` parameter, which maps the exact invocation and the temporary files to an outcome.
- `json.loads`. It is the `parse` parameter, which gives a JSON object, some other JSON value, or a decode error.
- JSON `null` and values of the wrong shape are not modelled: an optional field is only ever present or absent, with the expected type. In Python they behave as follows:
  - a `null` `check_id`, `message` or `severity` is printed as "None" (backend/mcp_servers.py:167-169, 179-180);
  - a `null` `cwe` or snippet `text` drops that line (backend/mcp_servers.py:181, 183);
  - a CWE entry that is not a string is printed through `str` (backend/mcp_servers.py:182);
  - a `null` or numeric `results` makes `len` raise in the debug print, at backend/mcp_servers.py:74 (exit 0) or :94 (non-zero exit); the handler at backend/mcp_servers.py:118 turns that into a failure record;
  - a `null` `extra` or `metadata` makes the renderer raise `AttributeError` (backend/mcp_servers.py:169-170), a `null` `paths` or `snippet` makes it raise `TypeError` (backend/mcp_servers.py:174, 177); the endpoint turns each into a 500 "Analysis failed: " and the message (backend/server.py:125-129);
  - a string or object `results` passes `len`, and is counted by its length.
- Creating and writing the temporary file. An error there escapes `run_semgrep_scan` before the `try`, and is not modelled. The file's name is an input that is assumed fresh, which `tempfile` guarantees.
- Scanner.Workspace.RunScan: the source unlinks the file in every case; a failed unlink is swallowed. The model shows this with an `unlinkSucceeds` flag. The file is removed only when that flag holds.
- The unused `filename` parameter of `run_semgrep_scan`.
- The debug `print` calls, the stderr log snippet and the traceback logging.
- The OpenAI `Agent`, `Runner.run`, `trace` and `final_output_as`. These form one opaque call, the `agent` parameter, which may complete or raise. `create_security_agent` is the `SecurityAgent` constant that this call receives.
- The `/health`, `/network-test` and `/semgrep-test` endpoints: a fixed payload, network I/O and a CLI probe.
- FastAPI itself. This covers routing, the CORS middleware, the `/static` mount, the `os.path.exists("static")` gate on the front-end routes, `FileResponse`, and `load_dotenv`.
- Async execution and concurrent requests. Requests share no state, so each is modelled alone.
- The `cvss_score` float field of an issue. Nothing in the code constrains it.
- Python's `str()` of an exception. Exception messages are inputs.
- Path confinement. The join does not keep requests inside `static/`, and the model claims nothing of the kind.
