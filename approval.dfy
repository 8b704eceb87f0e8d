/** The approval gate in front of the destructive tools: an auto-approve flag,
    a yes/no prompt that reads the user's replies in order, and an append-only
    history of the decisions that were prompted for. The prompt session is the
    sequence of replies it will return; the status spinner is the sequence of
    calls made to the status callback. */
module Approval {
  import opened PyStr

  /** The tools the gate prompts for; every other name passes unprompted. */
  const Destructive: seq<string> := ["write_file", "edit_file", "multiedit"]

  /** One entry of `approval_history`; only multiedit entries carry `edit_count`. */
  datatype Record = Record(tool: string, file: string, approved: bool, editCount: Option<nat>)

  /** The fields of one element of a multiedit's `edits` the preview reads. */
  datatype PreviewEdit = PreviewEdit(pat: Option<string>, rep: Option<string>)

  /** The arguments of the tool call the gate reads; any may be absent. */
  datatype Args = Args(filePath: Option<string>, content: Option<string>,
                       edits: Option<seq<PreviewEdit>>)

  /** `args.get('file_path', 'unknown')` */
  function FileOf(args: Args): string {
    if args.filePath.Some? then args.filePath.value else "unknown"
  }

  /** `len(args.get('edits', []))` */
  function EditCountOf(args: Args): nat {
    if args.edits.Some? then |args.edits.value| else 0
  }

  /** A reply after `strip().lower()`: y/yes approves, n/no rejects, anything
      else asks again. */
  function Classify(reply: string): Option<bool> {
    var r := Lower(Strip(reply));
    if r == "y" || r == "yes" then Some(true)
    else if r == "n" || r == "no" then Some(false)
    else None
  }

  /** The position of the first reply at or after `k` that decides, if any. */
  function FirstDecisiveFrom(replies: seq<string>, k: nat): (r: Option<nat>)
    ensures r.Some? ==>
      && k <= r.value < |replies| && Classify(replies[r.value]).Some?
      && forall j :: k <= j < r.value ==> Classify(replies[j]).None?
    ensures r.None? ==> forall j :: k <= j < |replies| ==> Classify(replies[j]).None?
    decreases |replies| - k
  {
    if k >= |replies| then None
    else if Classify(replies[k]).Some? then Some(k)
    else FirstDecisiveFrom(replies, k + 1)
  }

  /** The position of the first reply that decides, if any. */
  function FirstDecisive(replies: seq<string>): (r: Option<nat>)
    ensures r.Some? ==>
      && r.value < |replies| && Classify(replies[r.value]).Some?
      && forall j :: 0 <= j < r.value ==> Classify(replies[j]).None?
    ensures r.None? ==> forall j :: 0 <= j < |replies| ==> Classify(replies[j]).None?
  {
    FirstDecisiveFrom(replies, 0)
  }

  /** The first decisive reply at or after `i` is the one that no reply from
      `i` on pre-empts. */
  lemma {:induction false} FirstDecisiveFromAt(replies: seq<string>, i: nat, k: nat)
    requires i <= k < |replies| && Classify(replies[k]).Some?
    requires forall j :: i <= j < k ==> Classify(replies[j]).None?
    ensures FirstDecisiveFrom(replies, i) == Some(k)
    decreases k - i
  {
    if i < k {
      assert Classify(replies[i]).None?;
      FirstDecisiveFromAt(replies, i + 1, k);
      assert FirstDecisiveFrom(replies, i) == FirstDecisiveFrom(replies, i + 1);
    } else {
      assert Classify(replies[i]).Some?;
    }
  }

  /** The first decisive reply is the one that no earlier reply pre-empts. */
  lemma {:induction false} FirstDecisiveAt(replies: seq<string>, k: nat)
    requires k < |replies| && Classify(replies[k]).Some?
    requires forall j :: 0 <= j < k ==> Classify(replies[j]).None?
    ensures FirstDecisive(replies) == Some(k)
  {
    FirstDecisiveFromAt(replies, 0, k);
  }

  /** The prompt's answer for a sequence of replies: the first decisive one, or
      none when the replies run out (the prompt raises `EOFError`). */
  function Answer(replies: seq<string>): Option<bool> {
    match FirstDecisive(replies)
    case Some(k) => Classify(replies[k])
    case None => None
  }

  /** The replies left once the prompt has returned. */
  function Remaining(replies: seq<string>): seq<string> {
    match FirstDecisive(replies)
    case Some(k) => replies[k + 1..]
    case None => []
  }

  /** What `request_approval` returns (None: the prompt raised): it depends on
      the flag, the tool name and the replies only, never on the history. */
  function Verdict(autoApprove: bool, tool: string, replies: seq<string>): Option<bool> {
    if autoApprove || tool !in Destructive then Some(true) else Answer(replies)
  }

  /** The record a prompted decision appends. */
  function RecordOf(tool: string, args: Args, approved: bool): (r: Record)
    ensures r.tool == tool && r.file == FileOf(args) && r.approved == approved
    ensures r.editCount.Some? <==> tool == "multiedit"
    ensures tool == "multiedit" ==> r.editCount.value == EditCountOf(args)
  {
    Record(tool, FileOf(args), approved, if tool == "multiedit" then Some(EditCountOf(args)) else None)
  }

  class ApprovalManager {
    var autoApprove: bool
    var history: seq<Record>
    /** Whether `set_status_callback` has been called. */
    var callbackSet: bool
    /** The arguments of the calls made to the status callback, in order. */
    var spinner: seq<bool>
    /** The replies the prompt session will still return, in order. */
    var replies: seq<string>

    constructor (autoApprove: bool, replies: seq<string>)
      ensures this.autoApprove == autoApprove && history == []
      ensures !callbackSet && spinner == [] && this.replies == replies
    {
      this.autoApprove := autoApprove;
      history := [];
      callbackSet := false;
      spinner := [];
      this.replies := replies;
    }

    method SetStatusCallback()
      modifies this
      ensures callbackSet
      ensures autoApprove == old(autoApprove) && history == old(history)
      ensures spinner == old(spinner) && replies == old(replies)
    {
      callbackSet := true;
    }

    method SetAutoApprove(enabled: bool)
      modifies this
      ensures autoApprove == enabled
      ensures history == old(history) && callbackSet == old(callbackSet)
      ensures spinner == old(spinner) && replies == old(replies)
    {
      autoApprove := enabled;
    }

    /** The `while True` prompt loop: reads replies until one decides. */
    method Prompt() returns (d: Option<bool>)
      modifies this
      ensures d == Answer(old(replies)) && replies == Remaining(old(replies))
      ensures autoApprove == old(autoApprove) && history == old(history)
      ensures callbackSet == old(callbackSet) && spinner == old(spinner)
    {
      ghost var consumed := 0;
      while |replies| > 0
        invariant 0 <= consumed <= |old(replies)|
        invariant replies == old(replies)[consumed..]
        invariant forall j :: 0 <= j < consumed ==> Classify(old(replies)[j]).None?
        invariant autoApprove == old(autoApprove) && history == old(history)
        invariant callbackSet == old(callbackSet) && spinner == old(spinner)
        decreases |replies|
      {
        var reply := replies[0];
        replies := replies[1..];
        consumed := consumed + 1;
        d := Classify(reply);
        if d.Some? {
          FirstDecisiveAt(old(replies), consumed - 1);
          return;
        }
      }
      d := None;
    }

    /** `request_approval`: auto-approve and non-destructive tools pass without
        prompting or recording; otherwise the spinner is stopped, the user is
        asked, the spinner restarted and exactly one record appended. When the
        replies run out the prompt raises and nothing is recorded. */
    method RequestApproval(tool: string, args: Args) returns (approved: Option<bool>)
      modifies this
      ensures approved == Verdict(old(autoApprove), tool, old(replies))
      ensures autoApprove == old(autoApprove) && callbackSet == old(callbackSet)
      ensures old(autoApprove) || tool !in Destructive ==>
        history == old(history) && replies == old(replies) && spinner == old(spinner)
      ensures !old(autoApprove) && tool in Destructive ==>
        && replies == Remaining(old(replies))
        && history == old(history) + (if approved.Some? then [RecordOf(tool, args, approved.value)] else [])
        && spinner == old(spinner) + (if !callbackSet then [] else if approved.Some? then [false, true] else [false])
    {
      if autoApprove {
        return Some(true);
      }
      if tool !in Destructive {
        return Some(true);
      }
      var before := spinner;
      if callbackSet {
        spinner := spinner + [false];
      }
      approved := Prompt();
      assert approved == Verdict(old(autoApprove), tool, old(replies));
      if approved.None? {
        return;
      }
      if callbackSet {
        spinner := spinner + [true];
        assert spinner == before + [false, true];
      }
      history := history + [RecordOf(tool, args, approved.value)];
    }
  }

  datatype ApprovalStats = ApprovalStats(approved: nat, rejected: nat, total: nat)

  function CountApproved(h: seq<Record>): nat {
    if |h| == 0 then 0 else (if h[0].approved then 1 else 0) + CountApproved(h[1..])
  }

  function CountRejected(h: seq<Record>): nat {
    if |h| == 0 then 0 else (if h[0].approved then 0 else 1) + CountRejected(h[1..])
  }

  /** Every record is either approved or rejected. */
  lemma {:induction false} ApprovedPlusRejected(h: seq<Record>)
    ensures CountApproved(h) + CountRejected(h) == |h|
  {
    if |h| > 0 {
      ApprovedPlusRejected(h[1..]);
    }
  }

  /** `get_approval_stats` */
  function Stats(h: seq<Record>): (s: ApprovalStats)
    ensures s.approved + s.rejected == s.total == |h|
  {
    ApprovedPlusRejected(h);
    ApprovalStats(CountApproved(h), CountRejected(h), |h|)
  }

  lemma {:induction false} CountsAppend(h: seq<Record>, r: Record)
    ensures CountApproved(h + [r]) == CountApproved(h) + (if r.approved then 1 else 0)
    ensures CountRejected(h + [r]) == CountRejected(h) + (if r.approved then 0 else 1)
  {
    if |h| == 0 {
      assert h + [r] == [r];
    } else {
      assert (h + [r])[1..] == h[1..] + [r];
      CountsAppend(h[1..], r);
    }
  }

  /** One more record moves exactly one counter, the one its decision names. */
  lemma {:induction false} StatsAfterDecision(h: seq<Record>, r: Record)
    ensures Stats(h + [r]).total == Stats(h).total + 1
    ensures r.approved ==> Stats(h + [r]) == Stats(h).(approved := Stats(h).approved + 1, total := Stats(h).total + 1)
    ensures !r.approved ==> Stats(h + [r]) == Stats(h).(rejected := Stats(h).rejected + 1, total := Stats(h).total + 1)
  {
    CountsAppend(h, r);
  }

  /** `to_code_block`: a fenced markdown block. */
  function CodeBlock(text: string, language: string): (r: string)
    ensures |r| == |language| + |text| + 8
    ensures StartsWith(r, "```" + language + "\n") && EndsWith(r, "\n```")
    ensures r[|language| + 4..|r| - 4] == text
  {
    "```" + language + "\n" + text + "\n```"
  }

  /** The multiedit preview of one text: its first 200 characters, followed by
      a "\n..." marker when it is longer. */
  function PreviewText(s: string): (r: string)
    ensures |s| <= 200 ==> r == s
    ensures |s| > 200 ==> |r| == 204 && r[..200] == s[..200] && r[200..] == "\n..."
  {
    if |s| > 200 then s[..200] + "\n..." else s
  }

  /** The old and new text shown for each element of a multiedit's `edits`. */
  function MultiEditPreview(edits: seq<PreviewEdit>): (r: seq<(string, string)>)
    ensures |r| == |edits|
    ensures forall i :: 0 <= i < |edits| ==>
      && r[i].0 == PreviewText(if edits[i].pat.Some? then edits[i].pat.value else "")
      && r[i].1 == PreviewText(if edits[i].rep.Some? then edits[i].rep.value else "")
  {
    seq(|edits|, i requires 0 <= i < |edits| =>
      (PreviewText(if edits[i].pat.Some? then edits[i].pat.value else ""),
       PreviewText(if edits[i].rep.Some? then edits[i].rep.value else "")))
  }
}
