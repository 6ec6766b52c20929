/** The prompt builder: the agent's fixed instructions, the per-request prompt
    and the post-processing of the agent's summary. Pure string templating. */
module Prompts {
  import opened Text

  /** The system instructions given to the security agent, written as the text
      around the two passages the model proves facts about. */
  const Instructions: string :=
    InstructionsHead + SummaryPhrase + InstructionsMiddle + SeverityLine + InstructionsTail

  /** The sentence the agent is told to put in its summary. */
  const SummaryPhrase := "Semgrep found X issues, and I identified Y additional issues"

  /** "Include all severity levels: critical, high, medium, and low vulnerabilities." */
  const SeverityLine :=
    "Include all severity levels: " + "critical" + ", " + "high" + ", " + "medium" + ", and " + "low" + " vulnerabilities."

  const InstructionsHead: string := @"
You are a cybersecurity researcher. You are given Python code to analyze.
You will receive semgrep scan results to help identify security vulnerabilities.

Your analysis process should be:
1. Review the semgrep scan results provided - count how many issues semgrep found
2. Analyze each semgrep finding and understand its severity and impact
3. Conduct your own additional security analysis to identify issues that semgrep might have missed
4. In your summary, clearly state: """

  const InstructionsMiddle: string := @"""
5. Combine both semgrep findings and your own analysis into a comprehensive report

"

  const InstructionsTail: string := @"

For each vulnerability found (from both semgrep and your own analysis), provide:
- A clear title
- Detailed description of the security issue and potential impact
- The specific vulnerable code snippet
- Recommended fix or mitigation
- CVSS score (0.0-10.0)
- Severity level (critical/high/medium/low)

Be thorough and practical in your analysis. Don't duplicate issues between semgrep results and your own findings.

Common security issues to look for in Python code:
- SQL injection vulnerabilities
- Command injection
- Path traversal
- Insecure deserialization
- Weak cryptography
- Hardcoded credentials
- Unsafe use of eval() or exec()
- Race conditions
- Improper input validation
- Missing authentication/authorization
- Information disclosure
- Cross-site scripting (XSS) in web applications
- Insecure direct object references
- Broken access controls
"

  const PromptHeader := "Please analyze the following Python code for security vulnerabilities:\n\n"
  const ResultsHeader := "\nSemgrep scan results:\n"

  /** The instructions ask for the summary sentence that counts both sources of issues. */
  lemma InstructionsAskForCounts()
    ensures Contains(Instructions, SummaryPhrase)
  {
    var i := |InstructionsHead|;
    OccursAtEnd(InstructionsHead, SummaryPhrase);
    OccursExtend(InstructionsHead + SummaryPhrase, InstructionsMiddle, SummaryPhrase, i);
    OccursExtend(InstructionsHead + SummaryPhrase + InstructionsMiddle, SeverityLine, SummaryPhrase, i);
    OccursExtend(InstructionsHead + SummaryPhrase + InstructionsMiddle + SeverityLine, InstructionsTail, SummaryPhrase, i);
  }

  /** A word of the severity line occurs in the instructions. */
  lemma SeverityWordInInstructions(w: string, k: int)
    requires OccursAt(SeverityLine, w, k)
    ensures Contains(Instructions, w)
  {
    OccursWithin(InstructionsHead + SummaryPhrase + InstructionsMiddle, SeverityLine, InstructionsTail, w, k);
  }

  /** A word standing between `before` and `after` in the severity line occurs in the instructions. */
  lemma SeverityWord(before: string, w: string, after: string)
    requires before + w + after == SeverityLine
    ensures Contains(Instructions, w)
  {
    OccursAtEnd(before, w);
    OccursExtend(before + w, after, w, |before|);
    SeverityWordInInstructions(w, |before|);
  }

  /** The instructions name all four severity levels. */
  lemma InstructionsNameSeverities()
    ensures Contains(Instructions, "critical") && Contains(Instructions, "high")
    ensures Contains(Instructions, "medium") && Contains(Instructions, "low")
  {
    var intro := "Include all severity levels: ";
    var tail := " vulnerabilities.";
    SeverityWord(intro, "critical", ", " + "high" + ", " + "medium" + ", and " + "low" + tail);
    SeverityWord(intro + "critical" + ", ", "high", ", " + "medium" + ", and " + "low" + tail);
    SeverityWord(intro + "critical" + ", " + "high" + ", ", "medium", ", and " + "low" + tail);
    SeverityWord(intro + "critical" + ", " + "high" + ", " + "medium" + ", and ", "low", tail);
  }

  // ---------------------------------------------------------------------------
  // The per-request prompt

  /** `get_analysis_prompt(code, semgrep_results)`: the header, the code
      verbatim, and the scanner section only when there are results. */
  function AnalysisPrompt(code: string, scanResults: string): (prompt: string)
    ensures OccursAt(prompt, PromptHeader + code, 0)
  {
    var base := PromptHeader + code + "\n\n";
    if scanResults != "" then base + ResultsHeader + scanResults + "\n\n" else base
  }

  /** With no scanner results (the default argument) the prompt is the header,
      the code and a blank line, nothing more. */
  lemma DefaultPrompt(code: string)
    ensures AnalysisPrompt(code, "") ==
            "Please analyze the following Python code for security vulnerabilities:\n\n" + code + "\n\n"
  {
  }

  /** The code read back out of a prompt built for code of length `n`. */
  function PromptCode(prompt: string, n: nat): string
    requires |PromptHeader| + n <= |prompt|
  {
    prompt[|PromptHeader|..|PromptHeader| + n]
  }

  /** The scanner results read back out of a prompt built for code of length `n`:
      empty when the prompt ends right after the code. */
  function PromptResults(prompt: string, n: nat): string
    requires |PromptHeader| + n + 2 <= |prompt|
  {
    var start := |PromptHeader| + n + 2 + |ResultsHeader|;
    if |prompt| < start + 2 then "" else prompt[start..|prompt| - 2]
  }

  /** Nothing is lost in the prompt: the code and the scanner results are
      recovered from it, and the scanner section is there exactly when the
      results are non-empty. */
  lemma PromptRoundTrip(code: string, scanResults: string)
    ensures var prompt := AnalysisPrompt(code, scanResults);
            |PromptHeader| + |code| + 2 <= |prompt| &&
            PromptCode(prompt, |code|) == code &&
            PromptResults(prompt, |code|) == scanResults &&
            (|prompt| > |PromptHeader| + |code| + 2 <==> scanResults != "")
  {
    var prompt := AnalysisPrompt(code, scanResults);
    var h := |PromptHeader|;
    assert prompt[h..h + |code|] == code;
    if scanResults != "" {
      var start := h + |code| + 2 + |ResultsHeader|;
      assert prompt[start..|prompt| - 2] == scanResults;
    }
  }

  // ---------------------------------------------------------------------------
  // The summary

  function SummaryPrefix(codeLength: int): string {
    "Analyzed " + IntToString(codeLength) + " characters of Python code. "
  }

  /** `enhance_summary(code_length, agent_summary)`: the agent's summary kept
      whole behind a note of how many characters were analysed. */
  function EnhanceSummary(codeLength: int, summary: string): (r: string)
    ensures OccursAt(r, "Analyzed " + IntToString(codeLength) + " characters", 0)
    ensures |r| == |SummaryPrefix(codeLength)| + |summary|
    ensures r[|SummaryPrefix(codeLength)|..] == summary
  {
    SummaryPrefix(codeLength) + summary
  }
}
