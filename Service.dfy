/** The HTTP service: request validation, the credential check, the analysis
    pipeline behind `POST /api/analyze`, the configuration report of
    `GET /env-check`, the CORS origin list, and the resolution of front-end
    paths. Environment variables are a map handed in; the file system, the
    scanner subprocess and the agent are oracles. */
module Service {
  import opened Wrappers
  import opened Text
  import Scanner
  import Prompts

  /** One issue of the agent's report (its CVSS score is not modelled). */
  datatype Issue = Issue(title: string, description: string, code: string, fix: string, severity: string)
  datatype Report = Report(summary: string, issues: seq<Issue>)

  /** An `HTTPException`: status code and detail. */
  datatype HttpError = HttpError(status: int, detail: string)

  /** A guard that either lets the request through or raises. */
  datatype Check = Pass | Reject(error: HttpError)

  type Env = map<string, string>

  const OpenAiKeyVar := "OPENAI_API_KEY"
  const EnvironmentVar := "ENVIRONMENT"

  /** `os.getenv(name, "")` */
  function GetEnv(env: Env, name: string): string {
    if name in env then env[name] else ""
  }

  // ---------------------------------------------------------------------------
  // The guards

  /** `validate_request`: code that is empty once stripped is refused with 400. */
  function ValidateRequest(code: string): (c: Check)
    ensures c.Reject? <==> AllSpace(code)
    ensures c.Reject? ==> c.error == HttpError(400, "No code provided for analysis")
  {
    StripEmpty(code);
    if Strip(code) == "" then Reject(HttpError(400, "No code provided for analysis")) else Pass
  }

  /** `check_api_keys`: an unset or empty OpenAI key is refused with 500. */
  function CheckApiKeys(env: Env): (c: Check)
    ensures c.Reject? <==> OpenAiKeyVar !in env || env[OpenAiKeyVar] == ""
    ensures c.Reject? ==> c.error == HttpError(500, "OpenAI API key not configured")
  {
    if GetEnv(env, OpenAiKeyVar) == "" then Reject(HttpError(500, "OpenAI API key not configured")) else Pass
  }

  // ---------------------------------------------------------------------------
  // The agent and the pipeline

  /** The agent as `create_security_agent` configures it. */
  datatype AgentConfig = AgentConfig(name: string, instructions: string, model: string)

  const SecurityAgent := AgentConfig("Security Researcher", Prompts.Instructions, "gpt-4.1-mini")

  /** What running the agent on a prompt gives: its report, or the message of
      the exception it raised. */
  datatype AgentResult = Completed(report: Report) | Failed(message: string)

  /** An external call the pipeline makes: the scanner with its invocation and
      the temporary files it can read, or the agent with its prompt. */
  datatype Call =
    | ScannerRun(invocation: Scanner.Invocation, files: map<string, string>)
    | AgentRun(agent: AgentConfig, prompt: string)

  /** What a request produced: the response, and the external calls in order. */
  datatype Reply = Reply(response: Result<Report, HttpError>, calls: seq<Call>)

  /** `format_analysis_response`: the agent's issues unchanged, its summary
      prefixed with the length of the submitted (unstripped) code. */
  function FormatAnalysisResponse(code: string, report: Report): (r: Report)
    ensures r.issues == report.issues
    ensures OccursAt(r.summary, "Analyzed " + IntToString(|code|) + " characters", 0)
    ensures |r.summary| >= |report.summary| && r.summary[|r.summary| - |report.summary|..] == report.summary
  {
    Report(Prompts.EnhanceSummary(|code|, report.summary), report.issues)
  }

  function ScanInvocation(env: Env, tmp: string): Scanner.Invocation {
    Scanner.Invocation(Scanner.ScanCommand(tmp), Scanner.ScanEnv(env), Scanner.TimeoutSeconds)
  }

  function AnalysisFailed(message: string): HttpError {
    HttpError(500, "Analysis failed: " + message)
  }

  /** `analyze_code` with `run_security_analysis` inlined: validate, check the
      key, then scan, render the digest, run the agent and shape the reply;
      any exception after the two guards becomes a 500. `files` is the
      temporary directory before the request, `tmp` the fresh file name. */
  function Analyze(code: string, env: Env, files: map<string, string>, tmp: string,
                   run: Scanner.Runner, parse: string -> Scanner.Decoded,
                   agent: (AgentConfig, string) -> AgentResult): Reply
  {
    match ValidateRequest(code)
    case Reject(e) => Reply(Err(e), [])
    case Pass =>
      match CheckApiKeys(env)
      case Reject(e) => Reply(Err(e), [])
      case Pass =>
        var inv := ScanInvocation(env, tmp);
        var seen := files[tmp := code];
        match Scanner.Digest(Scanner.Classify(run(inv, seen), parse))
        case Err(m) => Reply(Err(AnalysisFailed(m)), [ScannerRun(inv, seen)])
        case Ok(digest) =>
          var prompt := Prompts.AnalysisPrompt(code, digest);
          var calls := [ScannerRun(inv, seen), AgentRun(SecurityAgent, prompt)];
          match agent(SecurityAgent, prompt)
          case Failed(m) => Reply(Err(AnalysisFailed(m)), calls)
          case Completed(report) => Reply(Ok(FormatAnalysisResponse(code, report)), calls)
  }

  /** The endpoint as the source runs it, step by step, in the temporary-file
      workspace `ws`. */
  method AnalyzeCode(ws: Scanner.Workspace, code: string, env: Env, tmp: string,
                     run: Scanner.Runner, parse: string -> Scanner.Decoded,
                     agent: (AgentConfig, string) -> AgentResult, unlinkSucceeds: bool)
    returns (response: Result<Report, HttpError>, calls: seq<Call>)
    requires tmp !in ws.files
    modifies ws
    ensures Reply(response, calls) == Analyze(code, env, old(ws.files), tmp, run, parse, agent)
    ensures ws.files == if calls != [] && !unlinkSucceeds then old(ws.files)[tmp := code] else old(ws.files)
  {
    calls := [];
    var valid := ValidateRequest(code);
    if valid.Reject? {
      return Err(valid.error), calls;
    }
    var keys := CheckApiKeys(env);
    if keys.Reject? {
      return Err(keys.error), calls;
    }

    // try
    var record, inv, seen := ws.RunScan(code, env, tmp, run, parse, unlinkSucceeds);
    calls := calls + [ScannerRun(inv, seen)];
    var digest := Scanner.FormatForAgent(record);
    if digest.Err? {
      return Err(AnalysisFailed(digest.error)), calls;
    }
    var prompt := Prompts.AnalysisPrompt(code, digest.value);
    calls := calls + [AgentRun(SecurityAgent, prompt)];
    var result := agent(SecurityAgent, prompt);
    match result {
      case Failed(m) =>
        response := Err(AnalysisFailed(m));
      case Completed(report) =>
        response := Ok(FormatAnalysisResponse(code, report));
    }
  }

  /** Blank code is refused with 400 before anything else, whatever the
      configuration, and nothing external is called. */
  lemma BlankCodeRejected(code: string, env: Env, files: map<string, string>, tmp: string,
                          run: Scanner.Runner, parse: string -> Scanner.Decoded,
                          agent: (AgentConfig, string) -> AgentResult)
    requires AllSpace(code)
    ensures Analyze(code, env, files, tmp, run, parse, agent) == Reply(Err(HttpError(400, "No code provided for analysis")), [])
  {
  }

  /** With code present but no OpenAI key, the reply is 500 and nothing
      external is called. */
  lemma MissingKeyRejected(code: string, env: Env, files: map<string, string>, tmp: string,
                           run: Scanner.Runner, parse: string -> Scanner.Decoded,
                           agent: (AgentConfig, string) -> AgentResult)
    requires !AllSpace(code) && (OpenAiKeyVar !in env || env[OpenAiKeyVar] == "")
    ensures Analyze(code, env, files, tmp, run, parse, agent) == Reply(Err(HttpError(500, "OpenAI API key not configured")), [])
  {
  }

  /** Once both guards pass, the scanner runs first, on the temporary file with
      the subprocess environment, and sees that file holding the submitted code
      and every other file unchanged; whenever its record renders, and in
      particular whenever the scan failed, the agent is called next with the
      prompt that carries the digest. */
  lemma AcceptedRequestCalls(code: string, env: Env, files: map<string, string>, tmp: string,
                             run: Scanner.Runner, parse: string -> Scanner.Decoded,
                             agent: (AgentConfig, string) -> AgentResult)
    requires !AllSpace(code) && OpenAiKeyVar in env && env[OpenAiKeyVar] != ""
    ensures var reply := Analyze(code, env, files, tmp, run, parse, agent);
            var rec := Scanner.Classify(run(ScanInvocation(env, tmp), files[tmp := code]), parse);
            |reply.calls| >= 1 && reply.calls[0] == ScannerRun(ScanInvocation(env, tmp), files[tmp := code]) &&
            (Scanner.Digest(rec).Ok? ==>
               reply.calls == [ScannerRun(ScanInvocation(env, tmp), files[tmp := code]),
                               AgentRun(SecurityAgent, Prompts.AnalysisPrompt(code, Scanner.Digest(rec).value))]) &&
            (rec.Failure? ==> Scanner.Digest(rec).Ok? && |reply.calls| == 2)
    ensures var call := Analyze(code, env, files, tmp, run, parse, agent).calls[0];
            var path := call.invocation.command[|call.invocation.command| - 1];
            path == tmp && path in call.files && call.files[path] == code &&
            (forall p :: p in files && p != tmp ==> p in call.files && call.files[p] == files[p])
  {
    var rec := Scanner.Classify(run(ScanInvocation(env, tmp), files[tmp := code]), parse);
    if rec.Failure? {
      Scanner.FailureDigest(rec);
    }
  }

  /** The prompt handed to the agent always has a scanner section, and the
      digest is recovered from it whole. */
  lemma AgentPromptCarriesDigest(code: string, env: Env, files: map<string, string>, tmp: string,
                                 run: Scanner.Runner, parse: string -> Scanner.Decoded,
                                 agent: (AgentConfig, string) -> AgentResult)
    ensures var reply := Analyze(code, env, files, tmp, run, parse, agent);
            var rec := Scanner.Classify(run(ScanInvocation(env, tmp), files[tmp := code]), parse);
            |reply.calls| == 2 ==>
              var prompt := reply.calls[1].prompt;
              Scanner.Digest(rec).Ok? &&
              |Prompts.PromptHeader| + |code| + 2 < |prompt| &&
              Prompts.PromptCode(prompt, |code|) == code &&
              Prompts.PromptResults(prompt, |code|) == Scanner.Digest(rec).value
  {
    var reply := Analyze(code, env, files, tmp, run, parse, agent);
    var rec := Scanner.Classify(run(ScanInvocation(env, tmp), files[tmp := code]), parse);
    if |reply.calls| == 2 {
      Scanner.DigestNonEmpty(rec);
      Prompts.PromptRoundTrip(code, Scanner.Digest(rec).value);
    }
  }

  /** A report is returned exactly when the guards pass, the digest renders and
      the agent completes; it then holds the agent's issues and its summary
      behind the character count of the submitted code. */
  lemma SuccessfulReply(code: string, env: Env, files: map<string, string>, tmp: string,
                        run: Scanner.Runner, parse: string -> Scanner.Decoded,
                        agent: (AgentConfig, string) -> AgentResult)
    ensures var reply := Analyze(code, env, files, tmp, run, parse, agent);
            var digest := Scanner.Digest(Scanner.Classify(run(ScanInvocation(env, tmp), files[tmp := code]), parse));
            reply.response.Ok? <==>
              !AllSpace(code) && GetEnv(env, OpenAiKeyVar) != "" && digest.Ok? &&
              agent(SecurityAgent, Prompts.AnalysisPrompt(code, digest.value)).Completed?
    ensures var reply := Analyze(code, env, files, tmp, run, parse, agent);
            var digest := Scanner.Digest(Scanner.Classify(run(ScanInvocation(env, tmp), files[tmp := code]), parse));
            reply.response.Ok? ==>
              var report := agent(SecurityAgent, Prompts.AnalysisPrompt(code, digest.value)).report;
              reply.response.value.issues == report.issues &&
              reply.response.value.summary == Prompts.EnhanceSummary(|code|, report.summary) &&
              OccursAt(reply.response.value.summary, "Analyzed " + IntToString(|code|) + " characters", 0)
  {
  }

  /** Every error reply is a 400 or a 500: 400 exactly for blank code, and any
      failure after the guards is a 500 whose detail starts "Analysis failed: ". */
  lemma ErrorReplies(code: string, env: Env, files: map<string, string>, tmp: string,
                     run: Scanner.Runner, parse: string -> Scanner.Decoded,
                     agent: (AgentConfig, string) -> AgentResult)
    ensures var r := Analyze(code, env, files, tmp, run, parse, agent).response;
            r.Err? ==> (r.error.status == 400 <==> AllSpace(code)) && (r.error.status == 400 || r.error.status == 500)
    ensures var reply := Analyze(code, env, files, tmp, run, parse, agent);
            reply.response.Err? && |reply.calls| > 0 ==>
              reply.response.error.status == 500 && OccursAt(reply.response.error.detail, "Analysis failed: ", 0)
  {
  }

  /** After both guards, a failure's detail is exactly "Analysis failed: "
      followed by the exception's message: the renderer's missing-text
      `KeyError`, or the message the agent raised. */
  lemma AnalysisFailureDetail(code: string, env: Env, files: map<string, string>, tmp: string,
                              run: Scanner.Runner, parse: string -> Scanner.Decoded,
                              agent: (AgentConfig, string) -> AgentResult, rec: Scanner.ScanRecord)
    requires !AllSpace(code) && GetEnv(env, OpenAiKeyVar) != ""
    requires rec == Scanner.Classify(run(ScanInvocation(env, tmp), files[tmp := code]), parse)
    ensures Scanner.Digest(rec).Err? ==>
              Analyze(code, env, files, tmp, run, parse, agent).response ==
              Err(HttpError(500, "Analysis failed: " + Scanner.MissingTextError))
    ensures Scanner.Digest(rec).Ok? && agent(SecurityAgent, Prompts.AnalysisPrompt(code, Scanner.Digest(rec).value)).Failed? ==>
              Analyze(code, env, files, tmp, run, parse, agent).response ==
              Err(HttpError(500, "Analysis failed: " + agent(SecurityAgent, Prompts.AnalysisPrompt(code, Scanner.Digest(rec).value)).message))
  {
    Scanner.DigestErrorIsMissingText(rec);
  }

  // ---------------------------------------------------------------------------
  // GET /env-check

  /** What `/env-check` reports about one credential. */
  datatype KeyStatus = KeyStatus(isSet: bool, length: nat, prefix: Option<string>)

  datatype EnvReport = EnvReport(openAiKey: KeyStatus, semgrepToken: KeyStatus, environment: string)

  function KeyStatusOf(env: Env, name: string): (s: KeyStatus)
    ensures s.isSet <==> name in env && env[name] != ""
    ensures s.length == |GetEnv(env, name)|
    ensures s.prefix.Some? <==> s.isSet
    ensures s.prefix.Some? ==> s.prefix.value == Take(env[name], 7) + "..."
  {
    var value := GetEnv(env, name);
    KeyStatus(value != "", |value|, if value != "" then Some(Take(value, 7) + "...") else None)
  }

  /** `env_check` */
  function EnvCheck(env: Env): (r: EnvReport)
    ensures r.openAiKey == KeyStatusOf(env, OpenAiKeyVar)
    ensures r.semgrepToken == KeyStatusOf(env, Scanner.TokenVar)
    ensures r.environment == if EnvironmentVar in env then env[EnvironmentVar] else "not set"
  {
    EnvReport(KeyStatusOf(env, OpenAiKeyVar), KeyStatusOf(env, Scanner.TokenVar),
              if EnvironmentVar in env then env[EnvironmentVar] else "not set")
  }

  /** The reported prefix discloses at most the first seven characters of a
      credential, and exactly those followed by "...". */
  lemma PrefixDisclosesAtMostSeven(env: Env, name: string)
    ensures var s := KeyStatusOf(env, name);
            s.prefix.Some? ==>
              var p := s.prefix.value;
              var shown := p[..|p| - 3];
              |p| <= 10 && p[|p| - 3..] == "..." &&
              |shown| == (if |env[name]| < 7 then |env[name]| else 7) &&
              shown == env[name][..|shown|]
  {
  }

  // ---------------------------------------------------------------------------
  // CORS

  /** The CORS origin list built at start-up: the two development origins,
      then "*" when, and only when, ENVIRONMENT is exactly "production". */
  method CorsOrigins(env: Env) returns (origins: seq<string>)
    ensures |origins| >= 2 && origins[..2] == ["http://localhost:3000", "http://frontend:3000"]
    ensures "*" in origins <==> EnvironmentVar in env && env[EnvironmentVar] == "production"
    ensures |origins| == if "*" in origins then 3 else 2
  {
    origins := ["http://localhost:3000", "http://frontend:3000"];
    if EnvironmentVar in env && env[EnvironmentVar] == "production" {
      origins := origins + ["*"];
    }
  }

  // ---------------------------------------------------------------------------
  // Front-end paths

  /** The two existence tests the routes make: `os.path.exists` and `os.path.isfile`. */
  datatype FileSystem = FileSystem(pathExists: string -> bool, isFile: string -> bool)

  const StaticDir := "static"

  /** `os.path.join(a, b)` on POSIX for two components. */
  function PathJoin(a: string, b: string): (r: string)
    ensures |b| > 0 && b[0] == '/' ==> r == b
  {
    if |b| > 0 && b[0] == '/' then b
    else if a == "" || a[|a| - 1] == '/' then a + b
    else a + "/" + b
  }

  function IndexPath(): (p: string)
    ensures p == "static/index.html"
  {
    PathJoin(StaticDir, "index.html")
  }

  /** `serve_index` */
  function ServeIndex(fs: FileSystem): (r: Result<string, HttpError>)
    ensures r.Ok? <==> fs.pathExists("static/index.html")
    ensures r.Ok? ==> r.value == "static/index.html"
    ensures r.Err? ==> r.error == HttpError(404, "Index file not found")
  {
    if fs.pathExists(IndexPath()) then Ok(IndexPath()) else Err(HttpError(404, "Index file not found"))
  }

  /** `serve_spa`: the requested file when it is one, else the entry document
      when it exists, else 404. */
  function ServeSpa(fs: FileSystem, fullPath: string): (r: Result<string, HttpError>)
    ensures fs.isFile(PathJoin(StaticDir, fullPath)) ==> r == Ok(PathJoin(StaticDir, fullPath))
    ensures !fs.isFile(PathJoin(StaticDir, fullPath)) && fs.pathExists("static/index.html") ==> r == Ok("static/index.html")
    ensures r.Err? <==> !fs.isFile(PathJoin(StaticDir, fullPath)) && !fs.pathExists("static/index.html")
    ensures r.Err? ==> r.error == HttpError(404, "Page not found")
  {
    var filePath := PathJoin(StaticDir, fullPath);
    if fs.isFile(filePath) then Ok(filePath)
    else if fs.pathExists(IndexPath()) then Ok(IndexPath())
    else Err(HttpError(404, "Page not found"))
  }

  /** A relative request path resolves under the static directory; an absolute
      one is taken as it is, so the join alone does not keep requests inside it. */
  lemma SpaPathResolution(fullPath: string)
    ensures (|fullPath| == 0 || fullPath[0] != '/') ==> PathJoin(StaticDir, fullPath) == "static/" + fullPath
    ensures |fullPath| > 0 && fullPath[0] == '/' ==> PathJoin(StaticDir, fullPath) == fullPath
  {
  }
}
