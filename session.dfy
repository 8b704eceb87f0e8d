/** The interactive session: an append-only conversation, slash commands, and
    the read loop that routes each input line. The graph run is opaque: a
    parameter giving, for the conversation it is started on, the updates it
    streams (an exception part-way through is the updates before it). */
module Session {
  import opened PyStr
  import opened Graph

  /** One streamed chunk: the node that produced it and the messages it carries
      (a chunk without a "messages" entry carries none). */
  datatype Update = Update(node: string, messages: Option<seq<Message>>)

  type Runner = seq<Message> -> seq<Update>

  /** What the prompt returns: a line, Ctrl+C, or Ctrl+D / end of input. */
  datatype InputEvent = Line(text: string) | Interrupt | EndOfInput

  function MessagesOf(u: Update): seq<Message> {
    if u.messages.Some? then u.messages.value else []
  }

  /** Every message of the streamed updates, in stream order. */
  function Streamed(updates: seq<Update>): seq<Message> {
    if |updates| == 0 then []
    else Streamed(updates[..|updates| - 1]) + MessagesOf(updates[|updates| - 1])
  }

  /** One more update adds its messages at the end. */
  lemma {:induction false} StreamedSnoc(updates: seq<Update>, i: nat)
    requires i < |updates|
    ensures Streamed(updates[..i + 1]) == Streamed(updates[..i]) + MessagesOf(updates[i])
  {
    assert updates[..i + 1][..i] == updates[..i];
    assert updates[..i + 1][i] == updates[i];
  }

  /** The normalised command text: `strip().lower()`. */
  function CommandText(input: string): string {
    Lower(Strip(input))
  }

  /** `handle_command`'s answer: only /exit and /quit end the session. */
  predicate IsExit(input: string) {
    CommandText(input) == "/exit" || CommandText(input) == "/quit"
  }

  /** The session state the model tracks: the conversation and whether the
      cached graph exists. */
  datatype State = State(messages: seq<Message>, graphBuilt: bool)

  /** A command's effect on the state: only /clear changes it. */
  function AfterCommand(s: State, input: string): (t: State)
    ensures CommandText(input) == "/clear" ==> t == State([], false)
    ensures CommandText(input) != "/clear" ==> t == s
  {
    if CommandText(input) == "/clear" then State([], false) else s
  }

  /** `process_message`'s effect: the user message, then what the graph streams
      when started on the conversation including it. */
  function AfterMessage(s: State, input: string, runner: Runner): (t: State)
    ensures t.graphBuilt
    ensures |t.messages| > |s.messages| && t.messages[..|s.messages|] == s.messages
    ensures t.messages[|s.messages|] == HumanMsg(input)
  {
    var withInput := s.messages + [HumanMsg(input)];
    State(withInput + Streamed(runner(withInput)), true)
  }

  /** One pass of the `run` loop: the new state and whether the loop ends. */
  function Step(s: State, e: InputEvent, runner: Runner): (State, bool) {
    match e
    case Interrupt => (s, false)
    case EndOfInput => (s, true)
    case Line(t) =>
      if Strip(t) == "" then (s, false)
      else if StartsWith(t, "/") then (AfterCommand(s, t), IsExit(t))
      else (AfterMessage(s, t, runner), false)
  }

  /** The `run` loop over a sequence of inputs: the final state and how many
      inputs were read (running out of input ends the loop like Ctrl+D). */
  function RunFrom(s: State, events: seq<InputEvent>, runner: Runner): (r: (State, nat))
    ensures r.1 <= |events|
    decreases |events|
  {
    if |events| == 0 then (s, 0)
    else
      var (t, stop) := Step(s, events[0], runner);
      if stop then (t, 1)
      else
        var (u, n) := RunFrom(t, events[1..], runner);
        (u, n + 1)
  }

  /** An input the loop hands to `handle_command` that normalises to /clear. */
  predicate IsClearCommand(e: InputEvent) {
    e.Line? && Strip(e.text) != "" && StartsWith(e.text, "/") && CommandText(e.text) == "/clear"
  }

  /** Without /clear the conversation only grows: every earlier message stays
      where it was. */
  lemma {:induction false} RunOnlyAppends(s: State, events: seq<InputEvent>, runner: Runner)
    requires forall k :: 0 <= k < |events| ==> !IsClearCommand(events[k])
    ensures var out := RunFrom(s, events, runner).0.messages;
      |s.messages| <= |out| && out[..|s.messages|] == s.messages
    decreases |events|
  {
    if |events| > 0 {
      var (t, stop) := Step(s, events[0], runner);
      assert |s.messages| <= |t.messages| && t.messages[..|s.messages|] == s.messages;
      if !stop {
        RunOnlyAppends(t, events[1..], runner);
        var out := RunFrom(t, events[1..], runner).0.messages;
        assert out[..|s.messages|] == out[..|t.messages|][..|s.messages|];
      }
    }
  }

  /** Routing of one line: blank lines and Ctrl+C change nothing, a line typed
      with a leading "/" never reaches the conversation (only /clear empties
      it), and any other line adds the user message first. */
  lemma {:induction false} StepRouting(s: State, e: InputEvent, runner: Runner)
    ensures e.Interrupt? || (e.Line? && Strip(e.text) == "") ==> Step(s, e, runner) == (s, false)
    ensures e.Line? && Strip(e.text) != "" && StartsWith(e.text, "/") ==>
      Step(s, e, runner).0 == AfterCommand(s, e.text)
    ensures e.Line? && Strip(e.text) != "" && !StartsWith(e.text, "/") ==>
      && !Step(s, e, runner).1
      && Step(s, e, runner).0.messages[|s.messages|] == HumanMsg(e.text)
    ensures Step(s, e, runner).1 <==> e.EndOfInput? || (e.Line? && Strip(e.text) != "" && StartsWith(e.text, "/") && IsExit(e.text))
  {
  }

  /** The loop reads inputs up to and including the first that ends it. */
  lemma {:induction false} RunStopsAtExit(s: State, events: seq<InputEvent>, runner: Runner, k: nat)
    requires k < |events| && (events[k].EndOfInput? || (events[k].Line? && StartsWith(events[k].text, "/")
      && Strip(events[k].text) != "" && IsExit(events[k].text)))
    ensures RunFrom(s, events, runner).1 <= k + 1
    decreases k
  {
    if k > 0 {
      var (t, stop) := Step(s, events[0], runner);
      if !stop {
        RunStopsAtExit(t, events[1..], runner, k - 1);
      }
    }
  }

  class CopertSession {
    var messages: seq<Message>
    /** Whether the lazily built graph is cached. */
    var graphBuilt: bool

    constructor ()
      ensures messages == [] && !graphBuilt
    {
      messages := [];
      graphBuilt := false;
    }

    function Snapshot(): State
      reads this
    {
      State(messages, graphBuilt)
    }

    method ClearHistory()
      modifies this
      ensures messages == [] && !graphBuilt
    {
      messages := [];
      graphBuilt := false;
    }

    /** `handle_command` */
    method HandleCommand(input: string) returns (exit: bool)
      modifies this
      ensures exit <==> IsExit(input)
      ensures Snapshot() == AfterCommand(old(Snapshot()), input)
    {
      var command := CommandText(input);
      if command == "/exit" || command == "/quit" {
        return true;
      }
      if command == "/clear" {
        ClearHistory();
      }
      return false;
    }

    /** `process_message`: the user message is appended, then every message of
        every streamed update, one at a time, in stream order. */
    method ProcessMessage(input: string, runner: Runner)
      modifies this
      ensures Snapshot() == AfterMessage(old(Snapshot()), input, runner)
    {
      messages := messages + [HumanMsg(input)];
      graphBuilt := true;
      var updates := runner(messages);
      StreamUpdates(updates);
    }

    /** The `for chunk in graph.stream(...)` loop: each update's messages are
        appended in stream order. */
    method StreamUpdates(updates: seq<Update>)
      modifies this
      ensures messages == old(messages) + Streamed(updates) && graphBuilt == old(graphBuilt)
    {
      var i := 0;
      while i < |updates|
        invariant 0 <= i <= |updates| && graphBuilt == old(graphBuilt)
        invariant messages == old(messages) + Streamed(updates[..i])
      {
        StreamedSnoc(updates, i);
        ghost var before := Streamed(updates[..i]);
        var chunk := updates[i];
        if chunk.messages.Some? {
          AppendBatch(chunk.messages.value);
        }
        assert messages == (old(messages) + before) + MessagesOf(updates[i]);
        i := i + 1;
      }
      assert updates[..|updates|] == updates;
    }

    /** One update's messages, appended one by one in order. */
    method AppendBatch(batch: seq<Message>)
      modifies this
      ensures messages == old(messages) + batch && graphBuilt == old(graphBuilt)
    {
      var j := 0;
      while j < |batch|
        invariant 0 <= j <= |batch| && graphBuilt == old(graphBuilt)
        invariant messages == old(messages) + batch[..j]
      {
        assert batch[..j + 1] == batch[..j] + [batch[j]];
        messages := messages + [batch[j]];
        j := j + 1;
      }
      assert batch[..|batch|] == batch;
    }

    /** `run`: reads inputs until /exit, /quit or the end of input. */
    method Run(events: seq<InputEvent>, runner: Runner) returns (read: nat)
      modifies this
      ensures (Snapshot(), read) == RunFrom(old(Snapshot()), events, runner)
    {
      read := 0;
      while read < |events|
        invariant 0 <= read <= |events|
        invariant RunFrom(old(Snapshot()), events, runner) ==
          (RunFrom(Snapshot(), events[read..], runner).0, read + RunFrom(Snapshot(), events[read..], runner).1)
        decreases |events| - read
      {
        assert events[read..][1..] == events[read + 1..];
        var e := events[read];
        read := read + 1;
        match e
        case Interrupt =>
        case EndOfInput =>
          return;
        case Line(text) =>
          if Strip(text) == "" {
          } else if StartsWith(text, "/") {
            var exit := HandleCommand(text);
            if exit {
              return;
            }
          } else {
            ProcessMessage(text, runner);
          }
      }
    }
  }
}
