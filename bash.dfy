/** The `bash` tool's handling of a finished command: stdout and stderr are
    combined, a failing exit code is reported, long output is cut and empty
    output gets a placeholder. Running the shell is the environment's part:
    what it produced is a parameter. */
module Bash {
  import opened PyStr

  /** Output beyond this many characters is cut. */
  const MaxOutput: nat := 30000

  const TruncatedMarker: string := "\n\n[Output truncated - exceeded 30000 characters]"

  const NoOutput: string := "[Command completed with no output]"

  /** What `subprocess.run` gave: the captured streams and exit code, a
      timeout (with the minutes as Python's `:.1f` prints them), or another
      exception. */
  datatype Run =
    | Completed(stdout: string, stderr: string, returnCode: int)
    | TimedOut(minutesText: string)
    | Failed(typeName: string, message: string)

  function StatusMessage(code: int): string {
    "\n[Command exited with code " + IntToString(code) + "]"
  }

  /** stdout, then stderr, separated by a newline only when both are present. */
  function Combined(stdout: string, stderr: string): (r: string)
    ensures r == "" <==> stdout == "" && stderr == ""
  {
    if stdout != "" && stderr != "" then stdout + "\n" + stderr else stdout + stderr
  }

  /** The combined streams with the exit status appended when it is not 0. */
  function WithStatus(stdout: string, stderr: string, code: int): string {
    Combined(stdout, stderr) + (if code != 0 then StatusMessage(code) else "")
  }

  function Truncate(output: string): (r: string)
    ensures |output| <= MaxOutput ==> r == output
    ensures |output| > MaxOutput ==> r == output[..MaxOutput] + TruncatedMarker
  {
    if |output| > MaxOutput then output[..MaxOutput] + TruncatedMarker else output
  }

  /** What `bash` returns for the outcome of the command. */
  function BashOutput(run: Run): string {
    match run
    case Completed(out, err, code) =>
      var output := Truncate(WithStatus(out, err, code));
      if output != "" then output else NoOutput
    case TimedOut(minutes) => "Error: Command timed out after " + minutes + " minutes"
    case Failed(t, m) => "Error executing command: " + t + ": " + m
  }

  /** `output` built by concatenation, step by step, as `bash` does. */
  method Assemble(stdout: string, stderr: string, returnCode: int) returns (result: string)
    ensures result == BashOutput(Completed(stdout, stderr, returnCode))
  {
    var output := "";
    if stdout != "" {
      output := output + stdout;
    }
    if stderr != "" {
      if output != "" {
        output := output + "\n";
      }
      output := output + stderr;
    }
    assert output == Combined(stdout, stderr);
    if returnCode != 0 {
      var statusMsg := StatusMessage(returnCode);
      output := if output != "" then output + statusMsg else statusMsg;
    }
    assert output == WithStatus(stdout, stderr, returnCode);
    if |output| > MaxOutput {
      output := output[..MaxOutput] + TruncatedMarker;
    }
    result := if output != "" then output else NoOutput;
  }

  /** `bash` after the command has run. */
  method Bash(run: Run) returns (result: string)
    ensures result == BashOutput(run)
  {
    match run {
      case Completed(out, err, code) =>
        result := Assemble(out, err, code);
      case TimedOut(minutes) =>
        result := "Error: Command timed out after " + minutes + " minutes";
      case Failed(t, m) =>
        result := "Error executing command: " + t + ": " + m;
    }
  }

  /** The exit code can be read back from the status line. */
  lemma {:induction false} StatusCarriesCode(code: int)
    ensures var s := StatusMessage(code);
      var p := |"\n[Command exited with code "|;
      |s| > p && ParseInt(s[p..|s| - 1]) == Some(code)
  {
    var s := StatusMessage(code);
    var p := |"\n[Command exited with code "|;
    assert s[p..|s| - 1] == IntToString(code);
    IntToStringRoundTrip(code);
  }

  /** `bash` never returns an empty string. */
  lemma {:induction false} NeverEmpty(run: Run)
    ensures BashOutput(run) != ""
  {
  }

  /** Within the limit the result is exactly the streams and the status: stdout
      first, stderr after it, and the exit status last when it is not 0. */
  lemma {:induction false} UntruncatedLayout(stdout: string, stderr: string, code: int)
    requires |WithStatus(stdout, stderr, code)| <= MaxOutput
    requires stdout != "" || stderr != "" || code != 0
    ensures var r := BashOutput(Completed(stdout, stderr, code));
      && StartsWith(r, stdout)
      && (code == 0 ==> EndsWith(r, stderr))
      && (code != 0 ==> EndsWith(r, StatusMessage(code)))
  {
    var r := BashOutput(Completed(stdout, stderr, code));
    var c := Combined(stdout, stderr);
    assert r == WithStatus(stdout, stderr, code);
    assert c[..|stdout|] == stdout;
    assert r[..|stdout|] == c[..|stdout|];
    if code == 0 {
      assert r == c;
      assert c[|c| - |stderr|..] == stderr;
    } else {
      var s := StatusMessage(code);
      assert r[|r| - |s|..] == s;
    }
  }

  /** The result never exceeds the limit by more than the marker, and a cut
      result keeps the first 30000 characters of what was produced. */
  lemma {:induction false} TruncationBound(stdout: string, stderr: string, code: int)
    ensures var r := BashOutput(Completed(stdout, stderr, code));
      var w := WithStatus(stdout, stderr, code);
      && |r| <= MaxOutput + |TruncatedMarker|
      && (|w| > MaxOutput ==> r[..MaxOutput] == w[..MaxOutput] && EndsWith(r, TruncatedMarker))
  {
    var r := BashOutput(Completed(stdout, stderr, code));
    var w := WithStatus(stdout, stderr, code);
    if |w| > MaxOutput {
      assert r == w[..MaxOutput] + TruncatedMarker;
      assert r[|r| - |TruncatedMarker|..] == TruncatedMarker;
    }
  }

  /** Only a clean run that printed nothing gives the placeholder. */
  lemma {:induction false} PlaceholderIff(stdout: string, stderr: string, code: int)
    ensures BashOutput(Completed(stdout, stderr, code)) == NoOutput <==>
      (stdout == "" && stderr == "" && code == 0) || WithStatus(stdout, stderr, code) == NoOutput
  {
  }
}
