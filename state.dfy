/** The daemon's shared in-memory state record (`state` in apps/daemon/src/daemon.py)
    and the locked blocks through which the analyzers change it. */
module State {
  import opened Values

  /** The `type` tag of a fast-path issue. */
  const SecurityKind: string := "Security"
  /** The `type` tag of a screen-analysis issue. */
  const SuggestionKind: string := "Proactive Suggestion"
  const Critical: string := "Critical"
  const Medium: string := "Medium"
  /** The charter key the deep path writes. */
  const CommitKey: string := "last_analyzed_commit"
  /** The fixed deduction of one fast-path finding. */
  const Penalty: int := 10

  /** One entry of `active_issues`: the `type`, `description` and `severity` strings. */
  datatype Issue = Issue(kind: string, description: string, severity: string)

  /** The three entries of the state record, as one value. */
  datatype Snapshot = Snapshot(score: int, issues: seq<Issue>, charter: map<string, Json>)

  /** The record the daemon starts from: score 100, no issues, an empty charter. */
  function Initial(): Snapshot {
    Snapshot(100, [], map[])
  }

  /** The number of issues whose `type` is "Security". */
  function SecurityCount(issues: seq<Issue>): (n: nat)
    ensures n <= |issues|
    ensures n == 0 <==> forall i :: 0 <= i < |issues| ==> issues[i].kind != SecurityKind
  {
    if issues == [] then 0
    else
      assert forall i :: 1 <= i < |issues| ==> issues[i] == issues[1..][i - 1];
      (if issues[0].kind == SecurityKind then 1 else 0) + SecurityCount(issues[1..])
  }

  lemma {:induction false} SecurityCountAppend(issues: seq<Issue>, issue: Issue)
    ensures SecurityCount(issues + [issue])
         == SecurityCount(issues) + (if issue.kind == SecurityKind then 1 else 0)
  {
    if issues != [] {
      assert (issues + [issue])[1..] == issues[1..] + [issue];
      SecurityCountAppend(issues[1..], issue);
    }
  }

  /** The score is 100 less 10 for every Security issue recorded. */
  ghost predicate ScoreMatchesIssues(s: Snapshot) {
    s.score == 100 - Penalty * SecurityCount(s.issues)
  }

  /** Whatever the charter holds under `last_analyzed_commit` is a string. */
  predicate CommitIsText(s: Snapshot) {
    CommitKey in s.charter ==> s.charter[CommitKey].JStr?
  }

  /** What every state the daemon reaches satisfies. */
  ghost predicate Consistent(s: Snapshot) {
    ScoreMatchesIssues(s) && CommitIsText(s)
  }

  // The four updates the analyzers make while holding the lock, as functions on snapshots.

  /** analysis.py:70-76: deduct 10 and append one Critical Security issue. */
  function WithSecurityIssue(s: Snapshot, description: string): Snapshot {
    s.(score := s.score - Penalty, issues := s.issues + [Issue(SecurityKind, description, Critical)])
  }

  /** analysis.py:216-221: append one Medium Proactive Suggestion issue. */
  function WithSuggestion(s: Snapshot, description: string): Snapshot {
    s.(issues := s.issues + [Issue(SuggestionKind, description, Medium)])
  }

  /** analysis.py:143-144: store the commit hash in the charter. */
  function WithAnalyzedCommit(s: Snapshot, hexsha: string): Snapshot {
    s.(charter := s.charter[CommitKey := JStr(hexsha)])
  }

  /** analysis.py:431-438: replace the whole charter. */
  function WithCharter(s: Snapshot, charter: map<string, Json>): Snapshot {
    s.(charter := charter)
  }

  lemma SecurityIssueKeepsConsistent(s: Snapshot, description: string)
    requires Consistent(s)
    ensures Consistent(WithSecurityIssue(s, description))
  {
    SecurityCountAppend(s.issues, Issue(SecurityKind, description, Critical));
  }

  lemma SuggestionKeepsConsistent(s: Snapshot, description: string)
    requires Consistent(s)
    ensures Consistent(WithSuggestion(s, description))
  {
    SecurityCountAppend(s.issues, Issue(SuggestionKind, description, Medium));
  }

  lemma AnalyzedCommitKeepsConsistent(s: Snapshot, hexsha: string)
    requires Consistent(s)
    ensures Consistent(WithAnalyzedCommit(s, hexsha))
  {
  }

  lemma CharterKeepsConsistent(s: Snapshot, charter: map<string, Json>)
    requires Consistent(s)
    requires CommitKey in charter ==> charter[CommitKey].JStr?
    ensures Consistent(WithCharter(s, charter))
  {
  }

  /** The state record itself. Each method is one `with lock:` block of the
      source and so happens atomically with respect to every other. */
  class ProjectState {
    var score: int
    var issues: seq<Issue>
    var charter: map<string, Json>

    /** The record as a value. */
    function Snap(): Snapshot
      reads this
    {
      Snapshot(score, issues, charter)
    }

    /** daemon.py:18: the record starts at score 100, with no issues and an empty charter. */
    constructor ()
      ensures Snap() == Initial()
      ensures Consistent(Snap())
    {
      score := 100;
      issues := [];
      charter := map[];
    }

    /** analysis.py:70-76. */
    method RecordSecurityIssue(description: string)
      modifies this
      ensures score == old(score) - Penalty
      ensures issues == old(issues) + [Issue(SecurityKind, description, Critical)]
      ensures charter == old(charter)
      ensures Snap() == WithSecurityIssue(old(Snap()), description)
    {
      score := score - Penalty;
      issues := issues + [Issue(SecurityKind, description, Critical)];
    }

    /** analysis.py:216-221. */
    method RecordSuggestion(description: string)
      modifies this
      ensures score == old(score)
      ensures issues == old(issues) + [Issue(SuggestionKind, description, Medium)]
      ensures charter == old(charter)
      ensures Snap() == WithSuggestion(old(Snap()), description)
    {
      issues := issues + [Issue(SuggestionKind, description, Medium)];
    }

    /** analysis.py:143-144. */
    method MarkAnalyzed(hexsha: string)
      modifies this
      ensures score == old(score) && issues == old(issues)
      ensures charter == old(charter)[CommitKey := JStr(hexsha)]
      ensures Snap() == WithAnalyzedCommit(old(Snap()), hexsha)
    {
      charter := charter[CommitKey := JStr(hexsha)];
    }

    /** analysis.py:431-438. */
    method ReplaceCharter(newCharter: map<string, Json>)
      modifies this
      ensures score == old(score) && issues == old(issues)
      ensures charter == newCharter
      ensures Snap() == WithCharter(old(Snap()), newCharter)
    {
      charter := newCharter;
    }
  }
}
