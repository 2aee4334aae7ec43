# vibe-assist daemon: a Dafny model of its state logic

The vibe-assist daemon watches the one project path given on its command line
and keeps a single global in-memory record for it (`daemon.py:18`). The record holds a security score (starting at 100), a list of active issues and
a project charter. Three background analyzers write to it under one lock:

- the **fast path** checks uncommitted diffs for security problems;
- the **deep path** reviews each new commit;
- the **screen analysis** looks for proactive suggestions.

`initialize_project_context` replaces the charter. A git watcher drives the fast
and deep paths. The console summary prints the record.

This project models that state logic. The Gemini service, GitPython and
the screen are inputs: an answer text or an exception for every model call, and
diff entries, head hashes and commit listings for git.

The modules follow the program's structure:

- `Outcomes` and `Values`: `Option`, the `Attempt` of a call that may raise,
  JSON values with Python truthiness, and `dict.get`.
- `PyText`: `str.strip` with Python's whitespace set, the ASCII part of
  `str.lower`, and the slices `s[:n]` and `s[-n:]`.
- `State`: the issues, the record as a value (`Snapshot`), the initial record, and the invariant every
  reachable record satisfies. It also holds the record as a class,
  `ProjectState`, with one method per locked block: each `with lock:` block is
  one atomic method call.
- `Analysis`: the four analyzers. Each is a module-level method that takes the
  `ProjectState` and changes it only through that class's locked-block
  methods; each is proved equal to a pure effect function on snapshots.
- `Watcher`: the watcher. It covers the diff-text loop, one iteration of the
  polling loop as a decision function plus a method proved against it, and the
  catch-up pass. The catch-up pass reverses the commit list in place in an
  array and then replays it.
- `WatcherProperties`: what the watcher's decisions guarantee.
- `Daemon`: runs of analyzer calls from the initial record, the invariant
  `score == 100 - 10 * (number of Security issues)`, the console summary and the
  watcher thread.

Behaviour modelled as the code has it, where a cleaner design would differ:

- The score is never clamped. Eleven detections take it to -10
  (`Daemon.ScoreCanGoNegative`). Nothing recalculates the score, records
  feedback or clears issues.
- The deep path does not check that the commit cursor only ever moves forward.
  It writes `last_analyzed_commit` inside the charter. It does not merge the
  model's answer into the charter.
- `initialize_project_context` replaces the whole charter, and so drops any
  stored `last_analyzed_commit`.
- Argument counts do not match:
  - `daemon.py:107` calls `watcher.start` with three arguments, but
    `watcher.start` declares five.
  - `watcher.start` calls `analyze_deep_path` with five arguments
    (`watcher.py:38`, `watcher.py:86`), but it declares three (`analysis.py:87`).

  As written, `watcher.start(project_path, state, state_lock)` raises TypeError
  as soon as the watcher thread starts, so no watcher code runs at all. Were it
  called with five arguments, every five-argument `analyze_deep_path` call would
  raise TypeError: in the catch-up pass it is caught at `watcher.py:39` and ends
  the pass, and in the loop it is caught at `watcher.py:89` before line 87, so
  `last_commit_hash` would never advance. The model instead gives the watcher
  and the deep path their three-argument meaning, the evident intent.
- The watcher reads a top-level `last_analyzed_commit` (`watcher.py:26`), but
  the deep path writes the key only inside the charter (`analysis.py:144`). So
  the watcher thread started by the daemon never runs its catch-up pass
  (`Daemon.RunWatcher`).
- Part of the deep path runs before its `try` (`analysis.py:100-111`): reading
  the commit's metadata and its diff against its parent. An exception raised
  there leaves the analyzer, and the watcher then does not advance
  `last_commit_hash`. An exception inside the `try` is caught, and the cursor
  does advance.

## Model

| member | source | states |
|---|---|---|
| Values.Lookup | apps/daemon/src/daemon.py:99 | `d.get(key)` gives a value exactly when the key is present, and that value is the stored one |
| Values.Truthy | apps/daemon/src/daemon.py:99 | Python truthiness of a JSON value: null, false, 0, "", [] and {} are false; `CommitLineOf` and `ReachableSummary` state what it decides |
| Values.GetOr | apps/daemon/src/analysis.py:434-436 | `d.get(key, default)` gives the stored value when the key is present (even a stored null), otherwise the default |
| PyText.LStrip | apps/daemon/src/analysis.py:62 | the result is a suffix of the input, everything dropped is whitespace, and it does not start with whitespace |
| PyText.IsSpace | apps/daemon/src/analysis.py:62 | `str.isspace` on one character: the characters with bidirectional class WS, B or S or category Zs; `Strip`, `LStrip`, `RStrip` and `StripKeepsMiddle` state what is dropped by it |
| PyText.RStrip | apps/daemon/src/analysis.py:62 | the result is a prefix of the input, everything dropped is whitespace, and it does not end with whitespace |
| PyText.Strip | apps/daemon/src/analysis.py:62 | the result is no longer than the input, has no whitespace at either end, and is empty exactly when the input is all whitespace |
| PyText.StripKeepsMiddle | apps/daemon/src/analysis.py:208 | the stripped text is the slice of the input between the leading whitespace and a whitespace-only tail |
| PyText.StripOfTrimmed | apps/daemon/src/analysis.py:208 | a text with non-space ends is left unchanged by strip |
| PyText.StripIdempotent | apps/daemon/src/analysis.py:62 | stripping twice is stripping once |
| PyText.Lower | apps/daemon/src/analysis.py:64 | lowering keeps the length |
| PyText.NoneSpellings | apps/daemon/src/analysis.py:64 | a text lowers to "none" exactly when it is four letters n/N, o/O, n/N, e/E |
| PyText.Head | apps/daemon/src/daemon.py:96 | `s[:n]` has length min(n, len s) and is the prefix of that length |
| PyText.Last | apps/daemon/src/daemon.py:95 | `s[-n:]` has length min(n, len s) and is the suffix of that length |
| State.Initial | apps/daemon/src/daemon.py:18 | the record the daemon starts from: score 100, no issues, an empty charter; the constructor of `ProjectState` builds it and `ReachableScore` starts from it |
| State.WithSecurityIssue | apps/daemon/src/analysis.py:70-76 | the locked block of the fast path as a value update; `RecordSecurityIssue` states it field by field and `SecurityIssueKeepsConsistent` that it keeps the invariant |
| State.WithSuggestion | apps/daemon/src/analysis.py:216-221 | the locked block of the screen analysis as a value update; `RecordSuggestion` states it field by field and `SuggestionKeepsConsistent` that it keeps the invariant |
| State.WithAnalyzedCommit | apps/daemon/src/analysis.py:143-144 | the locked block of the deep path as a value update; `MarkAnalyzed` states it field by field and `AnalyzedCommitKeepsConsistent` that it keeps the invariant |
| State.WithCharter | apps/daemon/src/analysis.py:431-438 | the charter replacement as a value update; `ReplaceCharter` states it field by field and `CharterKeepsConsistent` that it keeps the invariant |
| State.SecurityCount | apps/daemon/src/analysis.py:72-76 | the number of Security issues is at most the number of issues, and is zero exactly when no issue has type "Security"; `SecurityCountAppend` gives how one append changes it |
| State.SecurityCountAppend | apps/daemon/src/analysis.py:72-76 | appending an issue adds one to the Security count exactly when its type is "Security" |
| State.SecurityIssueKeepsConsistent | apps/daemon/src/analysis.py:70-76 | deducting 10 together with appending a Security issue keeps score = 100 - 10 * Security count, and the stored commit stays a string |
| State.SuggestionKeepsConsistent | apps/daemon/src/analysis.py:216-221 | appending a Proactive Suggestion keeps the invariant |
| State.AnalyzedCommitKeepsConsistent | apps/daemon/src/analysis.py:143-144 | storing a commit hash in the charter keeps the invariant |
| State.CharterKeepsConsistent | apps/daemon/src/analysis.py:431-438 | replacing the charter keeps the invariant when the new one holds no non-string commit |
| State.ProjectState.constructor | apps/daemon/src/daemon.py:18 | the record starts at score 100, no issues, an empty charter, and satisfies the invariant |
| State.ProjectState.RecordSecurityIssue | apps/daemon/src/analysis.py:70-76 | score drops by exactly 10, exactly one Critical Security issue with the given description is appended, the charter is unchanged |
| State.ProjectState.RecordSuggestion | apps/daemon/src/analysis.py:216-221 | exactly one Medium Proactive Suggestion issue is appended, and the score and charter are unchanged |
| State.ProjectState.MarkAnalyzed | apps/daemon/src/analysis.py:143-144 | the charter maps `last_analyzed_commit` to the hash, and nothing else changes |
| State.ProjectState.ReplaceCharter | apps/daemon/src/analysis.py:431-438 | the charter becomes the new one, and score and issues are unchanged |
| Analysis.Finding | apps/daemon/src/analysis.py:62-64 | a reply is a finding exactly when it is not all whitespace and its stripped form does not lower to "none"; the finding is the stripped text, non-empty, with non-space ends |
| Analysis.FastPathEffect | apps/daemon/src/analysis.py:28-85 | the state is unchanged exactly when there is no client, the call raised, or the reply is no finding; otherwise the score drops by 10 and one Critical Security issue holding the stripped reply is appended; the charter never changes |
| Analysis.FastPath | apps/daemon/src/analysis.py:28-85 | the method's new state is the fast-path effect on the old one |
| Analysis.DeepPathEscapes | apps/daemon/src/analysis.py:96-111 | an exception leaves the deep path exactly when there is a client and the reads before the `try` fail; `DeepPath` returns it and `DeepCallIff` shows the watcher keeping its cursor then |
| Analysis.DeepPathEffect | apps/daemon/src/analysis.py:87-150 | score and issues never change; only `last_analyzed_commit` can change in the charter, and it is set to the commit's hash exactly when there is a client, the commit can be read and the model call returned |
| Analysis.DeepPath | apps/daemon/src/analysis.py:87-150 | the new state is the deep-path effect; an exception leaves the function exactly when there is a client and the commit's metadata or diff cannot be read |
| Analysis.ScreenEffect | apps/daemon/src/analysis.py:152-231 | the score and charter never change; the state is unchanged exactly when there is no client, the call raised, or the reply (including an empty one) is no finding; otherwise one Medium Proactive Suggestion holding the stripped reply is appended |
| Analysis.ScreenAnalysis | apps/daemon/src/analysis.py:152-231 | the method's new state is the screen effect on the old one, with the empty-reply early return |
| Analysis.NewCharter | apps/daemon/src/analysis.py:431-438 | the charter has exactly the five keys `initialized` (true), `project_name` (default "Unknown"), `description` (default ""), `charter_items` (from `charter`, default []) and `context_file`; it has no `last_analyzed_commit` |
| Analysis.InitContextEffect | apps/daemon/src/analysis.py:288-454 | with no client the result is the "Gemini client not initialized" error and the state is unchanged; the result is an error exactly when there is no client or no parsed reply, and then the state is unchanged; on success the charter is the new charter, the success result carries the path and data, and score and issues never change |
| Analysis.InitializeProjectContext | apps/daemon/src/analysis.py:288-454 | the method's new state and returned dictionary are those of the effect function |
| Analysis.InitContextKeepsConsistent | apps/daemon/src/analysis.py:431-438 | initialising the context keeps the invariant |
| Analysis.FastPathKeepsConsistent | apps/daemon/src/analysis.py:70-76 | the fast path keeps the invariant |
| Analysis.ScreenKeepsConsistent | apps/daemon/src/analysis.py:216-221 | the screen analysis keeps the invariant |
| Analysis.DeepPathKeepsConsistent | apps/daemon/src/analysis.py:143-144 | the deep path keeps the invariant |
| Watcher.DiffTextAppend | apps/daemon/src/watcher.py:59-65 | the diff text of two lists of entries is the concatenation of their diff texts |
| Watcher.NoPatchAddsNothing | apps/daemon/src/watcher.py:61-65 | an entry without a patch, or one whose patch raises, contributes nothing wherever it stands |
| Watcher.SinglePatch | apps/daemon/src/watcher.py:62-63 | an entry holding a patch contributes exactly that patch's text |
| Watcher.DiffText | apps/daemon/src/watcher.py:59-65 | the diff text of the entries; `SinglePatch`, `DiffTextAppend`, `NoPatchAddsNothing` and `DiffTextEmpty` state that it is the in-order concatenation of the patches, to which entries without a readable patch add nothing, and `CollectDiffText` that the loop computes it |
| Watcher.DiffTextEmpty | apps/daemon/src/watcher.py:59-65 | the diff text is empty exactly when no entry contributes anything |
| Watcher.CollectDiffText | apps/daemon/src/watcher.py:59-65 | the loop builds the in-order concatenation of the patches |
| Watcher.Decide | apps/daemon/src/watcher.py:47-90 | the step function of one iteration; its contract is stated by `FastCallIff`, `SameDiffTwiceNoSecondCall`, `EmptyListResets`, `BlankDiffKeepsBaseline`, `DeepCallIff` and `RaisingIterationKeepsCursors` |
| Watcher.StepEffect | apps/daemon/src/watcher.py:73-86 | the state after the analyzer calls of one iteration, fast path first; `StepKeepsConsistent` states that it keeps the invariant, and `Step` that the method leaves this state |
| Watcher.Loop | apps/daemon/src/watcher.py:46-92 | the first n iterations from given cursors; `LoopKeepsConsistent`, `LaunchHeadNeverAnalysed`, `LaunchHeadAnalysedAfterReturn` and `SameDiffTwiceOneCall` state its properties, and `Start` that the method's loop computes it |
| Watcher.Step | apps/daemon/src/watcher.py:47-90 | one iteration makes the calls and cursor updates the decision function gives, and leaves the state its effect function gives |
| Watcher.Reverse | apps/daemon/src/watcher.py:33 | `list.reverse()` as a value; `ReverseAt` and `ReverseLength` state its contract and `ReverseInPlace` that the swap loop computes it |
| Watcher.ReverseAt | apps/daemon/src/watcher.py:33 | element k of the reversed list is element len-1-k of the original |
| Watcher.ReverseLength | apps/daemon/src/watcher.py:33 | reversing keeps the length |
| Watcher.ReversedElementwise | apps/daemon/src/watcher.py:33 | a list holding the elements back to front is the reversed list |
| Watcher.ReverseInPlace | apps/daemon/src/watcher.py:33 | the in-place swap loop leaves the array holding the reverse of its old contents |
| Watcher.CatchUpQueue | apps/daemon/src/watcher.py:28-33 | the commits the catch-up pass works through; `NoStoredCommitNoCatchUp` and `CatchUp` state when it is empty and that it is the reversed listing otherwise |
| Watcher.Replayed | apps/daemon/src/watcher.py:36-41 | the commits the catch-up pass hands to the deep path; `ReplayedShape` and `CatchUpOldestFirst` state its contract |
| Watcher.CatchUpEffect | apps/daemon/src/watcher.py:36-41 | the state after the catch-up pass; `CatchUpRecordsLast`, `CatchUpEndsAtNewest` and `CatchUpKeepsConsistent` state its properties, and `Replay` that the loop computes it |
| Watcher.ReplayedShape | apps/daemon/src/watcher.py:36-41 | the commits handed to the deep path are a prefix of the queue, only the last may raise, and the pass stops early only at one that raises |
| Watcher.Replay | apps/daemon/src/watcher.py:36-38 | the loop hands the deep path the replayed commits, in order, and leaves the state the catch-up effect gives |
| Watcher.CatchUp | apps/daemon/src/watcher.py:24-41 | the catch-up pass replays the reversed listing only when a stored commit is set, differs from HEAD and the listing succeeds |
| Watcher.Start | apps/daemon/src/watcher.py:6-92 | if HEAD cannot be read at launch, nothing happens; otherwise the catch-up pass runs, then the loop starts from cursors ("", launch HEAD), and cursors, calls and state are those of the loop function |
| WatcherProperties.FastCallIff | apps/daemon/src/watcher.py:54-74 | the fast path is called exactly when the diff list is non-empty, its text is non-empty and differs from the baseline; it receives that text, which becomes the baseline |
| WatcherProperties.SameDiffTwiceNoSecondCall | apps/daemon/src/watcher.py:68-74 | the same diff in the next iteration makes no fast-path call |
| WatcherProperties.SameDiffTwiceOneCall | apps/daemon/src/watcher.py:68-74 | two iterations over the same diff make exactly one fast-path call when the first sees a change, and none otherwise |
| WatcherProperties.EmptyListResets | apps/daemon/src/watcher.py:75-79 | an empty diff list makes no call and resets the baseline to "" |
| WatcherProperties.ReturningDiffAnalysedAgain | apps/daemon/src/watcher.py:68-79 | after an empty diff list, any diff with non-empty text is analysed again |
| WatcherProperties.BlankDiffKeepsBaseline | apps/daemon/src/watcher.py:68-74 | a non-empty list whose text is empty makes no call and keeps the baseline |
| WatcherProperties.DeepCallIff | apps/daemon/src/watcher.py:82-87 | the deep path is called exactly when the diff and HEAD can be read, HEAD differs from the commit cursor and the commit can be looked up; it receives the HEAD commit, and the cursor becomes HEAD unless an exception left the deep path |
| WatcherProperties.RaisingIterationKeepsCursors | apps/daemon/src/watcher.py:89-90 | a raising diff read changes nothing; a raising HEAD read or lookup makes no deep call and keeps the commit cursor |
| WatcherProperties.LaunchHeadNeverAnalysed | apps/daemon/src/watcher.py:43 | while HEAD stays at the launch commit, the loop never calls the deep path and the cursor stays there |
| WatcherProperties.LaunchHeadAnalysedAfterReturn | apps/daemon/src/watcher.py:82-87 | once HEAD moves to another commit and back, the loop deep-analyses both, the launch commit included |
| WatcherProperties.NoStoredCommitNoCatchUp | apps/daemon/src/watcher.py:28 | with no stored commit, or one equal to HEAD, the catch-up queue is empty |
| WatcherProperties.CatchUpOldestFirst | apps/daemon/src/watcher.py:32-38 | when nothing raises, every listed commit is handed to the deep path, and the i-th call gets the i-th commit from the end of the newest-first listing |
| WatcherProperties.CatchUpRecordsLast | apps/daemon/src/watcher.py:36-38 | when every analysis succeeds, the charter ends up naming the last commit of the queue |
| WatcherProperties.CatchUpEndsAtNewest | apps/daemon/src/watcher.py:32-38 | so after a successful catch-up the charter names the newest listed commit |
| WatcherProperties.StepKeepsConsistent | apps/daemon/src/watcher.py:68-87 | one iteration keeps the invariant |
| WatcherProperties.LoopKeepsConsistent | apps/daemon/src/watcher.py:46-92 | any number of iterations keeps the invariant |
| WatcherProperties.CatchUpKeepsConsistent | apps/daemon/src/watcher.py:36-41 | the catch-up pass keeps the invariant |
| Daemon.ApplyKeepsConsistent | apps/daemon/src/analysis.py:70-76 | each analyzer call keeps the invariant |
| Daemon.RunKeepsConsistent | apps/daemon/src/analysis.py:70-76 | any sequence of analyzer calls keeps the invariant |
| Daemon.ReachableScore | apps/daemon/src/daemon.py:18 | from the initial record, after any analyzer calls, the score is 100 - 10 * Security count, at most 100 and a multiple of 10 |
| Daemon.ApiKeyIsFinding | apps/daemon/src/analysis.py:62-64 | a reply "exposed API key" is a finding, unchanged by strip |
| Daemon.DetectionCosts | apps/daemon/src/analysis.py:71 | one fast-path finding costs exactly 10 points |
| Daemon.DetectionsLowerScore | apps/daemon/src/analysis.py:71 | n findings lower the score by exactly 10n, with no floor |
| Daemon.ScoreCanGoNegative | apps/daemon/src/analysis.py:71 | eleven findings from the initial record give score -10 |
| Daemon.RunWatcher | apps/daemon/src/daemon.py:105-107 | the watcher thread, with no top-level stored commit, runs no catch-up; it is the loop from the launch HEAD, and it keeps the invariant |
| Daemon.Numbered | apps/daemon/src/daemon.py:95-96 | line i carries number start+i, the severity and type of issue i, and its description cut to 60 characters |
| Daemon.CommitPrefix | apps/daemon/src/daemon.py:100 | `value[:8]` for the stored commit: a prefix for a string or a list, a failure for any other value; `CommitLineOf` states what it shows |
| Daemon.RecentLines | apps/daemon/src/daemon.py:93-96 | the summary lists min(5, len issues) lines, numbered from 1, for the last issues in their original order, each description being its first min(60, len) characters |
| Daemon.CommitLineOf | apps/daemon/src/daemon.py:97-100 | the commit line appears exactly when the charter holds a truthy `last_analyzed_commit`; for a string it shows its first min(8, len) characters |
| Daemon.Summarize | apps/daemon/src/daemon.py:84-102 | the values `print_state_summary` shows, read from the record without changing it; `RecentLines`, `CommitLineOf` and `ReachableSummary` state what it contains |
| Daemon.ReachableSummary | apps/daemon/src/daemon.py:84-102 | on every reachable record the summary never fails on the commit line, and shows it exactly when the stored hash is non-empty |

## Left out

- The Gemini client (`initialize_client`, `generate_content`), the prompt texts and the model configuration. Each call is represented by its outcome: an exception or a text.
- `generate_oracle_prompt` (`analysis.py:233-286`). It only builds a prompt and calls the model; nothing in it touches the state.
- GitPython and the `git`/`find` subprocesses. Diff entries, head hashes, commit lookups and listings are inputs; a readable diff entry is given already decoded (the `utf-8`/`ignore` decoding is not modelled).
- The JSON parsing of the initialisation reply and the writing of `context.md` (`analysis.py:399-428`). Any exception there is part of the `Failed` reply. The context-file path is an input string, so `pathlib` normalisation is not modelled.
- `screen.py` (screen capture and PNG encoding) and `view_gemini_logs.py` (a log viewer). This model does not cover them.
- FastAPI, uvicorn and the HTTP endpoints. `get_state` returns the live record from inside the lock (`daemon.py:50-51`), and FastAPI serialises it after the lock is released, so a response may mix states; concurrency is not modelled. Apart from `/context/initialize`, which calls `initialize_project_context`, no endpoint writes the state: `/oracle/generate_prompt` passes a shallow copy of it to `generate_oracle_prompt`, which is not modelled, and `/health` reads only whether the client exists.
- Threads, the lock and `time.sleep`. Each locked block is one atomic method; interleavings are not modelled.
- Printing, including the changed-file list and the summary's `...` suffix and framing. The summary is modelled as the values it shows.
- The endless `while True` loop. It is modelled as its first `n` iterations for every `n`.
- PyText.Lower: lowers only ASCII letters and keeps the length, because Dafny has no Unicode case tables. Python's `str.lower` does not keep the length (`'\u0130'.lower()` is `'i\u0307'`) and lowers the Kelvin sign to `k`; neither can produce "none" from a text that the model does not also map to "none", so the finding test is unaffected.
- Values.Json: numbers are integers; JSON floats are not modelled.
