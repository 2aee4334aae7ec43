/** The git watcher of apps/daemon/src/watcher.py: the catch-up pass over
    unprocessed commits, then the polling loop, one iteration at a time.
    Every answer GitPython or Gemini would give is an input. */
module Watcher {
  import opened Outcomes
  import opened State
  import opened Analysis

  // ---------------------------------------------------------------- diff text

  /** One entry of `repo.head.commit.diff(None)`: its `diff` is empty or None,
      reading it raises, or it holds a patch (given already decoded). */
  datatype DiffItem = NoPatch | Unreadable | Patch(text: string)

  /** What one entry adds to the diff text. */
  function Contribution(item: DiffItem): string {
    if item.Patch? then item.text else ""
  }

  /** The in-order concatenation of the decoded patches (lines 59-65). */
  function DiffText(items: seq<DiffItem>): string {
    if items == [] then "" else DiffText(items[..|items| - 1]) + Contribution(items[|items| - 1])
  }

  lemma {:induction false} DiffTextAppend(a: seq<DiffItem>, b: seq<DiffItem>)
    ensures DiffText(a + b) == DiffText(a) + DiffText(b)
    decreases |b|
  {
    if b == [] {
      assert a + b == a;
    } else {
      assert (a + b)[..|a + b| - 1] == a + b[..|b| - 1];
      DiffTextAppend(a, b[..|b| - 1]);
    }
  }

  /** A single entry holding a patch contributes exactly that patch. */
  lemma SinglePatch(t: string)
    ensures DiffText([Patch(t)]) == t
  {
    assert [Patch(t)][..0] == [];
  }

  /** An entry without a patch, or one whose patch cannot be read, adds nothing. */
  lemma NoPatchAddsNothing(a: seq<DiffItem>, item: DiffItem, b: seq<DiffItem>)
    requires !item.Patch?
    ensures DiffText(a + [item] + b) == DiffText(a + b)
  {
    assert (a + [item])[..|a|] == a;
    assert DiffText(a + [item]) == DiffText(a);
    DiffTextAppend(a + [item], b);
    DiffTextAppend(a, b);
  }

  /** The diff text is empty exactly when no entry contributes anything. */
  lemma {:induction false} DiffTextEmpty(items: seq<DiffItem>)
    ensures DiffText(items) == "" <==> forall i :: 0 <= i < |items| ==> Contribution(items[i]) == ""
    decreases |items|
  {
    if items != [] {
      var init := items[..|items| - 1];
      DiffTextEmpty(init);
      assert forall i :: 0 <= i < |init| ==> init[i] == items[i];
    }
  }

  /** The `for item in current_diff` loop of lines 59-65. */
  method CollectDiffText(items: seq<DiffItem>) returns (text: string)
    ensures text == DiffText(items)
  {
    text := "";
    for i := 0 to |items|
      invariant text == DiffText(items[..i])
    {
      assert items[..i + 1][..i] == items[..i];
      match items[i]
      case NoPatch =>
      case Unreadable =>
        // the exception is caught at line 64 and the entry skipped
      case Patch(t) =>
        text := text + t;
    }
    assert items[..|items|] == items;
  }

  // ---------------------------------------------------------------- one iteration

  /** The loop's two locals: `last_diff_text` and `last_commit_hash`. */
  datatype Cursors = Cursors(lastDiffText: string, lastCommitHash: string)

  /** What one iteration of `while True` observes. `diff` is the result of
      `repo.head.commit.diff(None)`; `fastReply` is what the fast path's model
      call gives if it is made; `head` is `repo.head.commit.hexsha`; `lookup` is
      `repo.commit(head)`, giving whether that commit can be read; `deepReply`
      is what the deep path's model call gives if it is made. */
  datatype Poll = Poll(
    diff: Attempt<seq<DiffItem>>,
    fastReply: Reply,
    head: Attempt<string>,
    lookup: Attempt<bool>,
    deepReply: Reply)

  /** The decisions of one iteration: the diff text handed to the fast path,
      the commit handed to the deep path, and the cursors afterwards. */
  datatype Plan = Plan(fastArg: Option<string>, deepArg: Option<GitCommit>, next: Cursors)

  /** One iteration of lines 47-92. An exception from GitPython ends the
      iteration where it happens (caught at line 89) with the cursors as they are. */
  function Decide(client: bool, c: Cursors, p: Poll): Plan {
    match p.diff
    case Raises => Plan(None, None, c)
    case Gives(items) =>
      var text := DiffText(items);
      var fastArg := if items != [] && text != "" && text != c.lastDiffText then Some(text) else None;
      var diffCursor := if items == [] then "" else if fastArg.Some? then text else c.lastDiffText;
      var afterDiff := c.(lastDiffText := diffCursor);
      match p.head
      case Raises => Plan(fastArg, None, afterDiff)
      case Gives(head) =>
        if head == c.lastCommitHash then Plan(fastArg, None, afterDiff)
        else match p.lookup
          case Raises => Plan(fastArg, None, afterDiff)
          case Gives(readable) =>
            var commit := GitCommit(head, readable);
            var hash := if DeepPathEscapes(client, commit) then c.lastCommitHash else head;
            Plan(fastArg, Some(commit), afterDiff.(lastCommitHash := hash))
  }

  /** The state after the analyzer calls an iteration makes, fast path first. */
  function StepEffect(s: Snapshot, client: bool, p: Poll, plan: Plan): Snapshot {
    var afterFast := if plan.fastArg.Some? then FastPathEffect(s, client, p.fastReply) else s;
    if plan.deepArg.Some? then DeepPathEffect(afterFast, client, plan.deepArg.value, p.deepReply) else afterFast
  }

  /** The body of the `while True` loop (lines 47-90). Returns the new cursors
      and the arguments of the analyzer calls it made. */
  method Step(st: ProjectState, client: bool, c: Cursors, p: Poll)
    returns (next: Cursors, fastArg: Option<string>, deepArg: Option<GitCommit>)
    modifies st
    ensures Plan(fastArg, deepArg, next) == Decide(client, c, p)
    ensures st.Snap() == StepEffect(old(st.Snap()), client, p, Decide(client, c, p))
  {
    next, fastArg, deepArg := c, None, None;
    match p.diff
    case Raises =>
      return;
    case Gives(items) =>
      if items != [] {
        var text := CollectDiffText(items);
        if text != "" && text != next.lastDiffText {
          FastPath(st, client, p.fastReply);
          fastArg := Some(text);
          next := next.(lastDiffText := text);
        }
      } else if next.lastDiffText != "" {
        next := next.(lastDiffText := "");
      }
    match p.head
    case Raises =>
      return;
    case Gives(head) =>
      if head != next.lastCommitHash {
        match p.lookup
        case Raises =>
          return;
        case Gives(readable) =>
          var commit := GitCommit(head, readable);
          deepArg := Some(commit);
          var escaped := DeepPath(st, client, commit, p.deepReply);
          if escaped {
            return;
          }
          next := next.(lastCommitHash := head);
      }
  }

  // ---------------------------------------------------------------- many iterations

  /** Where the loop has got to: the state, the cursors, and every argument
      handed to the fast path and to the deep path so far, in call order. */
  datatype Progress = Progress(state: Snapshot, cursors: Cursors, fastCalls: seq<string>, deepCalls: seq<GitCommit>)

  function AsList<T>(o: Option<T>): seq<T> {
    if o.Some? then [o.value] else []
  }

  /** The first `|polls|` iterations of the loop, from `start`. */
  function Loop(start: Progress, client: bool, polls: seq<Poll>): Progress
    decreases |polls|
  {
    if polls == [] then start
    else
      var prev := Loop(start, client, polls[..|polls| - 1]);
      var p := polls[|polls| - 1];
      var plan := Decide(client, prev.cursors, p);
      Progress(StepEffect(prev.state, client, p, plan), plan.next,
               prev.fastCalls + AsList(plan.fastArg), prev.deepCalls + AsList(plan.deepArg))
  }

  // ---------------------------------------------------------------- catch-up

  /** A commit listed by `repo.iter_commits`, with what the deep path's model
      call gives when that commit is analysed. */
  datatype Pending = Pending(commit: GitCommit, reply: Reply)

  /** `s` in the opposite order, as `list.reverse()` leaves it. */
  function Reverse<T>(s: seq<T>): seq<T> {
    if s == [] then [] else [s[|s| - 1]] + Reverse(s[..|s| - 1])
  }

  lemma {:induction false} ReverseAt<T>(s: seq<T>, k: nat)
    requires k < |s|
    ensures |Reverse(s)| == |s| && Reverse(s)[k] == s[|s| - 1 - k]
    decreases |s|
  {
    if k > 0 {
      ReverseAt(s[..|s| - 1], k - 1);
    } else if |s| > 1 {
      ReverseAt(s[..|s| - 1], 0);
    } else {
      assert s[..0] == [];
    }
  }

  lemma ReverseLength<T>(s: seq<T>)
    ensures |Reverse(s)| == |s|
  {
    if s != [] {
      ReverseAt(s, 0);
    }
  }

  /** A sequence holding the elements of `was` back to front is `Reverse(was)`. */
  lemma ReversedElementwise<T>(was: seq<T>, now: seq<T>)
    requires |now| == |was|
    requires forall k :: 0 <= k < |was| ==> now[k] == was[|was| - 1 - k]
    ensures now == Reverse(was)
  {
    ReverseLength(was);
    forall k | 0 <= k < |was|
      ensures now[k] == Reverse(was)[k]
    {
      ReverseAt(was, k);
    }
  }

  /** `commits_to_process.reverse()` (line 33), in place. */
  method ReverseInPlace(a: array<Pending>)
    modifies a
    ensures a[..] == Reverse(old(a[..]))
  {
    var n := a.Length;
    var i := 0;
    while i < n / 2
      invariant 0 <= i <= n / 2
      invariant forall k :: 0 <= k < i ==> a[k] == old(a[n - 1 - k]) && a[n - 1 - k] == old(a[k])
      invariant forall k :: i <= k < n - i ==> a[k] == old(a[k])
    {
      a[i], a[n - 1 - i] := a[n - 1 - i], a[i];
      i := i + 1;
    }
    ReversedElementwise(old(a[..]), a[..]);
  }

  /** The commits the catch-up pass works through, in order: none unless the
      stored commit is set and differs from HEAD and the listing succeeds
      (lines 28-33); otherwise the listing of `last..HEAD`, oldest first. */
  function CatchUpQueue(head: string, lastAnalyzed: Option<string>, history: Attempt<seq<Pending>>): seq<Pending> {
    if lastAnalyzed.Some? && lastAnalyzed.value != "" && lastAnalyzed.value != head && history.Gives?
    then Reverse(history.value)
    else []
  }

  /** The commits handed to the deep path by the catch-up pass: the queue in
      order, up to and including the first one that lets an exception out
      (that exception is caught at line 39 and ends the pass). */
  function Replayed(client: bool, queue: seq<Pending>): seq<GitCommit>
  {
    if queue == [] then []
    else if DeepPathEscapes(client, queue[0].commit) then [queue[0].commit]
    else [queue[0].commit] + Replayed(client, queue[1..])
  }

  /** The replayed commits are a prefix of the queue, none but the last lets an
      exception out, and the pass stops short of the end only at such a commit. */
  lemma {:induction false} ReplayedShape(client: bool, queue: seq<Pending>)
    ensures var r := Replayed(client, queue);
            && |r| <= |queue|
            && (forall i :: 0 <= i < |r| ==> r[i] == queue[i].commit)
            && (forall i :: 0 <= i < |r| - 1 ==> !DeepPathEscapes(client, r[i]))
            && (|r| < |queue| ==> r != [] && DeepPathEscapes(client, r[|r| - 1]))
            && (queue != [] ==> r != [])
    decreases |queue|
  {
    if queue != [] && !DeepPathEscapes(client, queue[0].commit) {
      ReplayedShape(client, queue[1..]);
    }
  }

  /** The state after the catch-up pass over `queue`. */
  function CatchUpEffect(s: Snapshot, client: bool, queue: seq<Pending>): Snapshot
    decreases |queue|
  {
    if queue == [] then s
    else
      var next := DeepPathEffect(s, client, queue[0].commit, queue[0].reply);
      if DeepPathEscapes(client, queue[0].commit) then next else CatchUpEffect(next, client, queue[1..])
  }

  lemma QueueStep(s: Snapshot, client: bool, queue: seq<Pending>, i: nat)
    requires i < |queue|
    ensures var next := DeepPathEffect(s, client, queue[i].commit, queue[i].reply);
            CatchUpEffect(s, client, queue[i..])
            == if DeepPathEscapes(client, queue[i].commit) then next else CatchUpEffect(next, client, queue[i + 1..])
    ensures Replayed(client, queue[i..])
            == if DeepPathEscapes(client, queue[i].commit) then [queue[i].commit]
               else [queue[i].commit] + Replayed(client, queue[i + 1..])
  {
    assert queue[i..][1..] == queue[i + 1..];
  }

  /** One turn of the replay loop keeps its two invariants, or ends the pass. */
  lemma ReplayTurn(s0: Snapshot, client: bool, q: seq<Pending>, i: nat, before: Snapshot, after: Snapshot,
                   done: seq<GitCommit>)
    requires i < |q|
    requires CatchUpEffect(s0, client, q) == CatchUpEffect(before, client, q[i..])
    requires Replayed(client, q) == done + Replayed(client, q[i..])
    requires after == DeepPathEffect(before, client, q[i].commit, q[i].reply)
    ensures DeepPathEscapes(client, q[i].commit) ==>
              CatchUpEffect(s0, client, q) == after && Replayed(client, q) == done + [q[i].commit]
    ensures !DeepPathEscapes(client, q[i].commit) ==>
              && CatchUpEffect(s0, client, q) == CatchUpEffect(after, client, q[i + 1..])
              && Replayed(client, q) == (done + [q[i].commit]) + Replayed(client, q[i + 1..])
  {
    QueueStep(before, client, q, i);
  }

  /** The `for commit in commits_to_process` loop of lines 36-38. */
  method Replay(st: ProjectState, client: bool, queue: array<Pending>) returns (replayed: seq<GitCommit>)
    modifies st
    ensures replayed == Replayed(client, queue[..])
    ensures st.Snap() == CatchUpEffect(old(st.Snap()), client, queue[..])
  {
    ghost var q := queue[..];
    ghost var s0 := st.Snap();
    assert q[0..] == q;
    replayed := [];
    var i := 0;
    while i < queue.Length
      invariant 0 <= i <= queue.Length && queue[..] == q
      invariant CatchUpEffect(s0, client, q) == CatchUpEffect(st.Snap(), client, q[i..])
      invariant Replayed(client, q) == replayed + Replayed(client, q[i..])
    {
      var pending := queue[i];
      ghost var before := st.Snap();
      var escaped := DeepPath(st, client, pending.commit, pending.reply);
      ReplayTurn(s0, client, q, i, before, st.Snap(), replayed);
      replayed := replayed + [pending.commit];
      if escaped {
        return;
      }
      i := i + 1;
    }
    assert q[i..] == [];
  }

  /** Lines 24-41. Returns the commits handed to the deep path. */
  method CatchUp(st: ProjectState, client: bool, head: string, lastAnalyzed: Option<string>,
                 history: Attempt<seq<Pending>>)
    returns (replayed: seq<GitCommit>)
    modifies st
    ensures replayed == Replayed(client, CatchUpQueue(head, lastAnalyzed, history))
    ensures st.Snap() == CatchUpEffect(old(st.Snap()), client, CatchUpQueue(head, lastAnalyzed, history))
  {
    replayed := [];
    if lastAnalyzed.Some? && lastAnalyzed.value != "" && lastAnalyzed.value != head {
      match history
      case Raises =>
        // the exception is caught at line 39
      case Gives(commits) =>
        var queue := new Pending[|commits|](i requires 0 <= i < |commits| => commits[i]);
        assert queue[..] == commits;
        ReverseInPlace(queue);
        replayed := Replay(st, client, queue);
    }
  }

  // ---------------------------------------------------------------- the whole watcher

  /** `start` (lines 6-92) run for the first `|polls|` iterations of its loop.
      `startHead` is HEAD at launch (it raises when the path is not a valid
      repository or HEAD cannot be read: the watcher then returns), and
      `lastAnalyzed` is what `state.get('last_analyzed_commit')` gives. */
  method Start(st: ProjectState, client: bool, startHead: Attempt<string>, lastAnalyzed: Option<string>,
               history: Attempt<seq<Pending>>, polls: seq<Poll>)
    returns (replayed: seq<GitCommit>, cursors: Option<Cursors>, fastCalls: seq<string>, deepCalls: seq<GitCommit>)
    modifies st
    ensures startHead.Raises? ==>
              replayed == [] && cursors == None && fastCalls == [] && deepCalls == []
              && st.Snap() == old(st.Snap())
    ensures startHead.Gives? ==>
              var queue := CatchUpQueue(startHead.value, lastAnalyzed, history);
              var run := Loop(Progress(CatchUpEffect(old(st.Snap()), client, queue), Cursors("", startHead.value), [], []),
                              client, polls);
              && replayed == Replayed(client, queue)
              && cursors == Some(run.cursors)
              && fastCalls == run.fastCalls && deepCalls == run.deepCalls
              && st.Snap() == run.state
  {
    match startHead
    case Raises =>
      return [], None, [], [];
    case Gives(head) =>
      replayed := CatchUp(st, client, head, lastAnalyzed, history);
      ghost var start := Progress(st.Snap(), Cursors("", head), [], []);
      var c := Cursors("", head);
      fastCalls, deepCalls := [], [];
      for i := 0 to |polls|
        invariant Progress(st.Snap(), c, fastCalls, deepCalls) == Loop(start, client, polls[..i])
      {
        assert polls[..i + 1][..i] == polls[..i];
        var fastArg, deepArg;
        c, fastArg, deepArg := Step(st, client, c, polls[i]);
        fastCalls := fastCalls + AsList(fastArg);
        deepCalls := deepCalls + AsList(deepArg);
      }
      assert polls[..|polls|] == polls;
      cursors := Some(c);
  }
}

/** What the watcher's decisions guarantee. */
module WatcherProperties {
  import opened Outcomes
  import opened Values
  import opened State
  import opened Analysis
  import opened Watcher

  /** The fast path is called exactly when the diff list is non-empty, its text
      is non-empty and differs from `last_diff_text`; it is handed that text,
      which becomes the new baseline (lines 54-74). */
  lemma FastCallIff(client: bool, c: Cursors, p: Poll)
    ensures var plan := Decide(client, c, p);
            plan.fastArg.Some? <==>
              p.diff.Gives? && p.diff.value != [] && DiffText(p.diff.value) != ""
              && DiffText(p.diff.value) != c.lastDiffText
    ensures var plan := Decide(client, c, p);
            plan.fastArg.Some? ==>
              plan.fastArg.value == DiffText(p.diff.value) && plan.next.lastDiffText == plan.fastArg.value
  {
  }

  /** The same diff seen in two consecutive iterations is analysed at most once. */
  lemma SameDiffTwiceNoSecondCall(client: bool, c: Cursors, p1: Poll, p2: Poll)
    requires p1.diff.Gives? && p2.diff == p1.diff
    ensures Decide(client, Decide(client, c, p1).next, p2).fastArg.None?
  {
  }

  /** Over two iterations with the same diff there is exactly one call when the
      first one sees a change, and none otherwise. */
  lemma {:induction false} SameDiffTwiceOneCall(s: Snapshot, client: bool, c: Cursors, p1: Poll, p2: Poll)
    requires p1.diff.Gives? && p2.diff == p1.diff
    ensures var run := Loop(Progress(s, c, [], []), client, [p1, p2]);
            |run.fastCalls| == if Decide(client, c, p1).fastArg.Some? then 1 else 0
  {
    var start := Progress(s, c, [], []);
    assert [p1, p2][..1] == [p1];
    assert [p1][..0] == [];
    assert Loop(start, client, []) == start;
    var first := Loop(start, client, [p1]);
    assert first.cursors == Decide(client, c, p1).next;
    assert |first.fastCalls| == if Decide(client, c, p1).fastArg.Some? then 1 else 0;
    SameDiffTwiceNoSecondCall(client, c, p1, p2);
  }

  /** An empty diff list makes no call and resets `last_diff_text` (lines 75-79). */
  lemma EmptyListResets(client: bool, c: Cursors, p: Poll)
    requires p.diff == Gives([])
    ensures Decide(client, c, p).fastArg.None?
    ensures Decide(client, c, p).next.lastDiffText == ""
  {
  }

  /** So a diff that was analysed, went away and came back is analysed again. */
  lemma ReturningDiffAnalysedAgain(client: bool, c: Cursors, p1: Poll, p2: Poll)
    requires p1.diff == Gives([])
    requires p2.diff.Gives? && p2.diff.value != [] && DiffText(p2.diff.value) != ""
    ensures Decide(client, Decide(client, c, p1).next, p2).fastArg == Some(DiffText(p2.diff.value))
  {
  }

  /** A non-empty list whose text is empty makes no call and keeps the baseline. */
  lemma BlankDiffKeepsBaseline(client: bool, c: Cursors, p: Poll)
    requires p.diff.Gives? && p.diff.value != []
    requires forall i :: 0 <= i < |p.diff.value| ==> Contribution(p.diff.value[i]) == ""
    ensures Decide(client, c, p).fastArg.None?
    ensures Decide(client, c, p).next.lastDiffText == c.lastDiffText
  {
    DiffTextEmpty(p.diff.value);
  }

  /** The deep path is called exactly when the diff and HEAD can be read, HEAD
      differs from `last_commit_hash` and the commit can be looked up, and only
      on that commit. The cursor becomes HEAD whenever the deep path returns
      normally (its model call may still have failed) and stays put when an
      exception leaves it (lines 82-87). */
  lemma DeepCallIff(client: bool, c: Cursors, p: Poll)
    ensures var plan := Decide(client, c, p);
            plan.deepArg.Some? <==>
              p.diff.Gives? && p.head.Gives? && p.head.value != c.lastCommitHash && p.lookup.Gives?
    ensures var plan := Decide(client, c, p);
            plan.deepArg.Some? ==> plan.deepArg.value == GitCommit(p.head.value, p.lookup.value)
    ensures var plan := Decide(client, c, p);
            plan.next.lastCommitHash ==
              if plan.deepArg.Some? && !DeepPathEscapes(client, plan.deepArg.value) then p.head.value
              else c.lastCommitHash
  {
  }

  /** An exception in an iteration ends only that iteration: reading the diff
      raising changes nothing at all, and reading HEAD raising leaves the commit
      cursor where it was (lines 89-90). */
  lemma RaisingIterationKeepsCursors(client: bool, c: Cursors, p: Poll)
    ensures p.diff.Raises? ==> Decide(client, c, p) == Plan(None, None, c)
    ensures p.head.Raises? || p.lookup.Raises? ==>
              Decide(client, c, p).deepArg.None? && Decide(client, c, p).next.lastCommitHash == c.lastCommitHash
  {
  }

  /** While HEAD stays at the commit seen at launch, the loop never calls the
      deep path and the commit cursor stays at that commit (lines 18, 43). */
  lemma {:induction false} LaunchHeadNeverAnalysed(start: Progress, client: bool, launch: string, polls: seq<Poll>)
    requires start.cursors.lastCommitHash == launch
    requires forall i :: 0 <= i < |polls| ==> polls[i].head == Gives(launch) || polls[i].head.Raises?
    ensures Loop(start, client, polls).deepCalls == start.deepCalls
    ensures Loop(start, client, polls).cursors.lastCommitHash == launch
    decreases |polls|
  {
    if polls != [] {
      var init := polls[..|polls| - 1];
      assert forall i :: 0 <= i < |init| ==> init[i] == polls[i];
      LaunchHeadNeverAnalysed(start, client, launch, init);
    }
  }

  /** That holds only while HEAD stays put: once HEAD has moved to another
      commit and back, the loop deep-analyses the launch commit as well. */
  lemma {:induction false} LaunchHeadAnalysedAfterReturn(s: Snapshot, client: bool, d: string, launch: string,
                                                         x: string, p1: Poll, p2: Poll)
    requires x != launch
    requires p1.diff.Gives? && p1.head == Gives(x) && p1.lookup == Gives(true)
    requires p2.diff.Gives? && p2.head == Gives(launch) && p2.lookup == Gives(true)
    ensures Loop(Progress(s, Cursors(d, launch), [], []), client, [p1, p2]).deepCalls
            == [GitCommit(x, true), GitCommit(launch, true)]
  {
    var start := Progress(s, Cursors(d, launch), [], []);
    assert [p1, p2][..1] == [p1];
    assert [p1][..0] == [];
    assert Loop(start, client, []) == start;
    var plan1 := Decide(client, start.cursors, p1);
    assert plan1.deepArg == Some(GitCommit(x, true)) && plan1.next.lastCommitHash == x;
    var first := Loop(start, client, [p1]);
    assert first.deepCalls == [GitCommit(x, true)] && first.cursors == plan1.next;
    var plan2 := Decide(client, first.cursors, p2);
    assert plan2.deepArg == Some(GitCommit(launch, true));
  }

  // ------------------------------------------------------------ catch-up

  /** No catch-up without a stored commit (lines 25-28). */
  lemma NoStoredCommitNoCatchUp(head: string, history: Attempt<seq<Pending>>)
    ensures CatchUpQueue(head, None, history) == []
    ensures CatchUpQueue(head, Some(head), history) == []
  {
  }

  /** When nothing raises, the catch-up hands every listed commit to the deep
      path, oldest first: `iter_commits` lists newest first, and the reversal
      makes the i-th call analyse the i-th commit from the end (lines 32-38). */
  lemma CatchUpOldestFirst(client: bool, history: seq<Pending>)
    requires forall i :: 0 <= i < |history| ==> !DeepPathEscapes(client, history[i].commit)
    ensures |Replayed(client, Reverse(history))| == |history|
    ensures forall i :: 0 <= i < |history| ==>
              Replayed(client, Reverse(history))[i] == history[|history| - 1 - i].commit
  {
    ReverseLength(history);
    ReplayedShape(client, Reverse(history));
    forall i | 0 <= i < |history|
      ensures Reverse(history)[i] == history[|history| - 1 - i]
    {
      ReverseAt(history, i);
    }
  }

  /** When every analysis of the queue succeeds, the charter ends up naming the
      last commit of the queue. */
  lemma {:induction false} CatchUpRecordsLast(s: Snapshot, queue: seq<Pending>)
    requires queue != []
    requires forall i :: 0 <= i < |queue| ==> queue[i].commit.readable && queue[i].reply.Answered?
    ensures CommitKey in CatchUpEffect(s, true, queue).charter
    ensures CatchUpEffect(s, true, queue).charter[CommitKey] == JStr(queue[|queue| - 1].commit.hexsha)
    decreases |queue|
  {
    var next := DeepPathEffect(s, true, queue[0].commit, queue[0].reply);
    if |queue| > 1 {
      var rest := queue[1..];
      assert forall i :: 0 <= i < |rest| ==> rest[i] == queue[i + 1];
      CatchUpRecordsLast(next, rest);
    }
  }

  /** So after a successful catch-up the charter names the newest commit, HEAD's
      side of the listing. */
  lemma CatchUpEndsAtNewest(s: Snapshot, history: seq<Pending>)
    requires history != []
    requires forall i :: 0 <= i < |history| ==> history[i].commit.readable && history[i].reply.Answered?
    ensures CommitKey in CatchUpEffect(s, true, Reverse(history)).charter
    ensures CatchUpEffect(s, true, Reverse(history)).charter[CommitKey] == JStr(history[0].commit.hexsha)
  {
    ReverseLength(history);
    forall i | 0 <= i < |history|
      ensures Reverse(history)[i] == history[|history| - 1 - i]
    {
      ReverseAt(history, i);
    }
    CatchUpRecordsLast(s, Reverse(history));
  }

  // ------------------------------------------------------------ consistency

  lemma StepKeepsConsistent(s: Snapshot, client: bool, p: Poll, plan: Plan)
    requires Consistent(s)
    ensures Consistent(StepEffect(s, client, p, plan))
  {
    var afterFast := if plan.fastArg.Some? then FastPathEffect(s, client, p.fastReply) else s;
    FastPathKeepsConsistent(s, client, p.fastReply);
    if plan.deepArg.Some? {
      DeepPathKeepsConsistent(afterFast, client, plan.deepArg.value, p.deepReply);
    }
  }

  lemma {:induction false} LoopKeepsConsistent(start: Progress, client: bool, polls: seq<Poll>)
    requires Consistent(start.state)
    ensures Consistent(Loop(start, client, polls).state)
    decreases |polls|
  {
    if polls != [] {
      var prev := Loop(start, client, polls[..|polls| - 1]);
      LoopKeepsConsistent(start, client, polls[..|polls| - 1]);
      var p := polls[|polls| - 1];
      StepKeepsConsistent(prev.state, client, p, Decide(client, prev.cursors, p));
    }
  }

  lemma {:induction false} CatchUpKeepsConsistent(s: Snapshot, client: bool, queue: seq<Pending>)
    requires Consistent(s)
    ensures Consistent(CatchUpEffect(s, client, queue))
    decreases |queue|
  {
    if queue != [] {
      var next := DeepPathEffect(s, client, queue[0].commit, queue[0].reply);
      DeepPathKeepsConsistent(s, client, queue[0].commit, queue[0].reply);
      if !DeepPathEscapes(client, queue[0].commit) {
        CatchUpKeepsConsistent(next, client, queue[1..]);
      }
    }
  }
}
