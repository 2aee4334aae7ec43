/** apps/daemon/src/daemon.py: the state the daemon starts from, what any run of
    the analyzers keeps true of it, the console summary, and the watcher thread. */
module Daemon {
  import opened Outcomes
  import opened Values
  import opened PyText
  import opened State
  import opened Analysis
  import opened Watcher
  import opened WatcherProperties

  // ------------------------------------------------------------ runs of the analyzers

  /** One call of an analyzer, with the answers from outside the model it meets. */
  datatype Op =
    | FastOp(client: bool, reply: Reply)
    | DeepOp(client: bool, commit: GitCommit, reply: Reply)
    | ScreenOp(client: bool, reply: Reply)
    | InitOp(client: bool, contextReply: ContextReply, contextFile: string)

  function Apply(s: Snapshot, op: Op): Snapshot {
    match op
    case FastOp(client, reply) => FastPathEffect(s, client, reply)
    case DeepOp(client, commit, reply) => DeepPathEffect(s, client, commit, reply)
    case ScreenOp(client, reply) => ScreenEffect(s, client, reply)
    case InitOp(client, contextReply, contextFile) => InitContextEffect(s, client, contextReply, contextFile).state
  }

  /** The state after the calls `ops`, one after the other. */
  function Run(s: Snapshot, ops: seq<Op>): Snapshot
    decreases |ops|
  {
    if ops == [] then s else Run(Apply(s, ops[0]), ops[1..])
  }

  lemma ApplyKeepsConsistent(s: Snapshot, op: Op)
    requires Consistent(s)
    ensures Consistent(Apply(s, op))
  {
    match op
    case FastOp(client, reply) => FastPathKeepsConsistent(s, client, reply);
    case DeepOp(client, commit, reply) => DeepPathKeepsConsistent(s, client, commit, reply);
    case ScreenOp(client, reply) => ScreenKeepsConsistent(s, client, reply);
    case InitOp(client, contextReply, contextFile) => InitContextKeepsConsistent(s, client, contextReply, contextFile);
  }

  lemma {:induction false} RunKeepsConsistent(s: Snapshot, ops: seq<Op>)
    requires Consistent(s)
    ensures Consistent(Run(s, ops))
    decreases |ops|
  {
    if ops != [] {
      ApplyKeepsConsistent(s, ops[0]);
      RunKeepsConsistent(Apply(s, ops[0]), ops[1..]);
    }
  }

  /** From the initial state, whatever the analyzers do, the score is 100 less
      10 per Security issue: never above 100 and always a multiple of 10. */
  lemma ReachableScore(ops: seq<Op>)
    ensures var s := Run(Initial(), ops);
            && s.score == 100 - Penalty * SecurityCount(s.issues)
            && s.score <= 100
            && s.score % 10 == 0
  {
    var s := Run(Initial(), ops);
    RunKeepsConsistent(Initial(), ops);
    TenPointSteps(s.score, SecurityCount(s.issues));
  }

  lemma TenPointSteps(score: int, count: nat)
    requires score == 100 - Penalty * count
    ensures score <= 100 && score % 10 == 0
  {
    assert score == 10 * (10 - count);
  }

  /** `n` copies of `op`. */
  function Repeat(op: Op, n: nat): (r: seq<Op>)
    ensures |r| == n
    ensures forall i :: 0 <= i < n ==> r[i] == op
  {
    if n == 0 then [] else [op] + Repeat(op, n - 1)
  }

  /** A fast-path call whose model answers `text`. */
  function Detection(text: string): Op {
    FastOp(true, Answered(text))
  }

  lemma ApiKeyIsFinding()
    ensures Finding("exposed API key") == Some("exposed API key")
  {
    var t := "exposed API key";
    StripOfTrimmed(t);
    assert Lower(t) != "none" by {
      assert |Lower(t)| == 15;
    }
  }

  /** One such answer costs 10 points. */
  lemma DetectionCosts(s: Snapshot, text: string)
    requires Finding(text).Some?
    ensures Apply(s, Detection(text)).score == s.score - Penalty
  {
    assert Apply(s, Detection(text)) == FastPathEffect(s, true, Answered(text));
  }

  lemma RunFirst(s: Snapshot, ops: seq<Op>)
    requires ops != []
    ensures Run(s, ops) == Run(Apply(s, ops[0]), ops[1..])
  {
  }

  /** Each answer the fast path takes as a finding costs 10 points, with no floor. */
  lemma {:induction false} DetectionsLowerScore(s: Snapshot, text: string, n: nat)
    requires Finding(text).Some?
    ensures Run(s, Repeat(Detection(text), n)).score == s.score - Penalty * n
    decreases n
  {
    if n > 0 {
      var ops := Repeat(Detection(text), n);
      DetectionCosts(s, text);
      RunFirst(s, ops);
      assert ops[0] == Detection(text) && ops[1..] == Repeat(Detection(text), n - 1);
      DetectionsLowerScore(Apply(s, Detection(text)), text, n - 1);
      assert Penalty * n == Penalty + Penalty * (n - 1);
    }
  }

  /** The score is not bounded below: eleven detections take it to -10
      (`ApiKeyIsFinding` gives one answer that is a detection). */
  lemma ScoreCanGoNegative(text: string)
    requires Finding(text).Some?
    ensures Run(Initial(), Repeat(Detection(text), 11)).score == -10
  {
    DetectionsLowerScore(Initial(), text, 11);
  }

  // ------------------------------------------------------------ the watcher thread

  /** `run_watcher_thread` (lines 105-107) for the first `|polls|` iterations.
      The state record never holds a top-level `last_analyzed_commit` entry (the
      deep path writes that key inside the charter), so `state.get` gives the
      watcher None, the catch-up pass never runs, and the commit listing is never
      asked for. */
  method RunWatcher(st: ProjectState, client: bool, startHead: Attempt<string>, polls: seq<Poll>)
    returns (cursors: Option<Cursors>, fastCalls: seq<string>, deepCalls: seq<GitCommit>)
    modifies st
    ensures startHead.Raises? ==> cursors == None && st.Snap() == old(st.Snap())
    ensures startHead.Gives? ==>
              var run := Loop(Progress(old(st.Snap()), Cursors("", startHead.value), [], []), client, polls);
              cursors == Some(run.cursors) && fastCalls == run.fastCalls && deepCalls == run.deepCalls
              && st.Snap() == run.state
    ensures Consistent(old(st.Snap())) ==> Consistent(st.Snap())
  {
    ghost var s0 := st.Snap();
    var replayed;
    replayed, cursors, fastCalls, deepCalls := Start(st, client, startHead, None, Gives([]), polls);
    if startHead.Gives? {
      NoStoredCommitNoCatchUp(startHead.value, Gives([]));
      if Consistent(s0) {
        LoopKeepsConsistent(Progress(s0, Cursors("", startHead.value), [], []), client, polls);
      }
    }
  }

  // ------------------------------------------------------------ the console summary

  const ShownIssues: nat := 5
  const DescriptionWidth: nat := 60
  const CommitWidth: nat := 8

  /** One numbered issue line of the summary: its number, severity, type and the
      first 60 characters of its description. */
  datatype IssueLine = IssueLine(number: nat, severity: string, kind: string, excerpt: string)

  /** The last-analysed-commit line: absent, showing `value[:8]`, or the point
      where slicing a value that is neither a string nor a list raises. */
  datatype CommitLine = NoCommitLine | CommitShown(prefix: Json) | CommitUnprintable

  /** What `print_state_summary` shows. */
  datatype Summary = Summary(score: int, issueCount: nat, lines: seq<IssueLine>, commit: CommitLine)

  /** `enumerate(issues, start)`, one line per issue. */
  function Numbered(issues: seq<Issue>, start: nat): (r: seq<IssueLine>)
    ensures |r| == |issues|
    ensures forall i :: 0 <= i < |issues| ==>
              r[i] == IssueLine(start + i, issues[i].severity, issues[i].kind, Head(issues[i].description, DescriptionWidth))
    decreases |issues|
  {
    if issues == [] then []
    else
      [IssueLine(start, issues[0].severity, issues[0].kind, Head(issues[0].description, DescriptionWidth))]
      + Numbered(issues[1..], start + 1)
  }

  /** `value[:8]` for the value stored under `last_analyzed_commit`. */
  function CommitPrefix(v: Json): CommitLine {
    match v
    case JStr(s) => CommitShown(JStr(Head(s, CommitWidth)))
    case JArr(items) => CommitShown(JArr(Head(items, CommitWidth)))
    case _ => CommitUnprintable
  }

  /** The numbered lines for the last five issues (lines 93-96). */
  function RecentLines(issues: seq<Issue>): (r: seq<IssueLine>)
    ensures |r| == if |issues| < ShownIssues then |issues| else ShownIssues
    ensures forall i :: 0 <= i < |r| ==>
              var issue := issues[|issues| - |r| + i];
              && r[i].number == i + 1
              && r[i].severity == issue.severity && r[i].kind == issue.kind
              && |r[i].excerpt| == (if |issue.description| < DescriptionWidth then |issue.description| else DescriptionWidth)
              && r[i].excerpt == issue.description[..|r[i].excerpt|]
  {
    var shown := if issues == [] then [] else Last(issues, ShownIssues);
    Numbered(shown, 1)
  }

  /** The commit line (lines 98-100) for a charter. */
  function CommitLineOf(charter: map<string, Json>): (c: CommitLine)
    ensures c.NoCommitLine? <==> !(CommitKey in charter && Truthy(charter[CommitKey]))
    ensures CommitKey in charter && charter[CommitKey].JStr? ==> !c.CommitUnprintable?
    ensures CommitKey in charter && charter[CommitKey].JStr? && c.CommitShown? ==>
              var hexsha := charter[CommitKey].s;
              c.prefix == JStr(hexsha[..if |hexsha| < CommitWidth then |hexsha| else CommitWidth])
  {
    match Lookup(charter, CommitKey)
    case Some(value) => if Truthy(value) then CommitPrefix(value) else NoCommitLine
    case None => NoCommitLine
  }

  /** `print_state_summary` (lines 84-102), which only reads the state. */
  function Summarize(s: Snapshot): Summary {
    Summary(s.score, |s.issues|, RecentLines(s.issues), CommitLineOf(s.charter))
  }

  /** On every state the daemon reaches, the summary shows the commit line
      exactly when the charter holds a non-empty commit hash, and never fails. */
  lemma ReachableSummary(ops: seq<Op>)
    ensures var s := Run(Initial(), ops);
            && !Summarize(s).commit.CommitUnprintable?
            && (Summarize(s).commit.CommitShown? <==> CommitKey in s.charter && s.charter[CommitKey] != JStr(""))
  {
    RunKeepsConsistent(Initial(), ops);
  }
}
