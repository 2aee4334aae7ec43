/** The analyzers of apps/daemon/src/analysis.py. The Gemini calls are inputs:
    whether a client exists, and what the call gave back (a text, or an exception). */
module Analysis {
  import opened Outcomes
  import opened Values
  import opened PyText
  import opened State

  /** The outcome of one `generate_content` call: it raised, or it answered
      with `response.text` (a missing text is the empty string). */
  datatype Reply = Raised | Answered(text: string)

  /** A commit handed to the deep path. `readable` says whether printing its
      metadata and reading its diff against its parent (lines 100-111, outside
      the `try`) succeed; when they do not, the exception leaves the analyzer. */
  datatype GitCommit = GitCommit(hexsha: string, readable: bool)

  /** What the JSON-mode call of `initialize_project_context` came to: it (or the
      JSON parsing, or writing context.md) raised with a message, the response
      text was empty, or it parsed to the object `data`. */
  datatype ContextReply = Failed(message: string) | EmptyText | Parsed(data: map<string, Json>)

  /** The dictionary `initialize_project_context` returns. */
  datatype InitResult =
    | InitError(message: string)
    | InitSuccess(contextFile: string, data: map<string, Json>)

  const NoClientError: string := "Gemini client not initialized"
  const EmptyResponseError: string := "Empty response from API"

  /** Lines 62-64 and 208-210: a reply is a finding when its stripped text is
      non-empty and is not "none" in any letter case; the finding is that
      stripped text. */
  function Finding(text: string): (r: Option<string>)
    ensures r.None? <==> AllSpace(text) || Lower(Strip(text)) == "none"
    ensures r.Some? ==> r.value == Strip(text)
    ensures r.Some? ==> r.value != "" && !IsSpace(r.value[0]) && !IsSpace(r.value[|r.value| - 1])
  {
    var result := Strip(text);
    if result != "" && Lower(result) != "none" then Some(result) else None
  }

  /** The effect of `analyze_fast_path` on the state. */
  function FastPathEffect(s: Snapshot, client: bool, reply: Reply): (s': Snapshot)
    ensures s'.charter == s.charter
    ensures s' == s <==> !client || reply.Raised? || Finding(reply.text).None?
    ensures s' != s ==>
              s'.score == s.score - Penalty
              && s'.issues == s.issues + [Issue(SecurityKind, Strip(reply.text), Critical)]
  {
    if client && reply.Answered? && Finding(reply.text).Some? then
      assert |WithSecurityIssue(s, Strip(reply.text)).issues| == |s.issues| + 1;
      WithSecurityIssue(s, Strip(reply.text))
    else
      s
  }

  /** `analyze_fast_path` (lines 28-85). The diff itself only shapes the prompt,
      which is outside the model; `reply` is what the model made of it. */
  method FastPath(st: ProjectState, client: bool, reply: Reply)
    modifies st
    ensures st.Snap() == FastPathEffect(old(st.Snap()), client, reply)
  {
    if !client {
      return;
    }
    match reply
    case Raised =>
      // the exception is caught at line 83
    case Answered(text) =>
      var result := Strip(text);
      if result != "" && Lower(result) != "none" {
        st.RecordSecurityIssue(result);
      }
  }

  /** Whether `analyze_deep_path` lets an exception out to its caller. */
  predicate DeepPathEscapes(client: bool, commit: GitCommit) {
    client && !commit.readable
  }

  /** The effect of `analyze_deep_path` on the state. */
  function DeepPathEffect(s: Snapshot, client: bool, commit: GitCommit, reply: Reply): (s': Snapshot)
    ensures s'.score == s.score && s'.issues == s.issues
    ensures s'.charter.Keys <= s.charter.Keys + {CommitKey}
    ensures forall k :: k in s.charter && k != CommitKey ==> k in s'.charter && s'.charter[k] == s.charter[k]
    ensures client && commit.readable && reply.Answered? ==>
              CommitKey in s'.charter && s'.charter[CommitKey] == JStr(commit.hexsha)
    ensures !(client && commit.readable && reply.Answered?) ==> s' == s
  {
    if client && commit.readable && reply.Answered? then WithAnalyzedCommit(s, commit.hexsha) else s
  }

  /** `analyze_deep_path` (lines 87-150), with the three parameters it declares.
      Returns whether an exception left the function. The read of the charter
      under the lock (lines 106-107) only feeds the prompt. */
  method DeepPath(st: ProjectState, client: bool, commit: GitCommit, reply: Reply) returns (escaped: bool)
    modifies st
    ensures escaped == DeepPathEscapes(client, commit)
    ensures st.Snap() == DeepPathEffect(old(st.Snap()), client, commit, reply)
  {
    if !client {
      return false;
    }
    if !commit.readable {
      return true;
    }
    escaped := false;
    match reply
    case Raised =>
      // the exception is caught at line 148
    case Answered(_) =>
      st.MarkAnalyzed(commit.hexsha);
  }

  /** The effect of `analyze_screen_proactively` on the state. */
  function ScreenEffect(s: Snapshot, client: bool, reply: Reply): (s': Snapshot)
    ensures s'.score == s.score && s'.charter == s.charter
    ensures s' == s <==> !client || reply.Raised? || Finding(reply.text).None?
    ensures s' != s ==> s'.issues == s.issues + [Issue(SuggestionKind, Strip(reply.text), Medium)]
  {
    if client && reply.Answered? && Finding(reply.text).Some? then
      assert |WithSuggestion(s, Strip(reply.text)).issues| == |s.issues| + 1;
      WithSuggestion(s, Strip(reply.text))
    else
      s
  }

  /** `analyze_screen_proactively` (lines 152-231). The locked read of the score
      and issue count (lines 169-171) only feeds the prompt. */
  method ScreenAnalysis(st: ProjectState, client: bool, reply: Reply)
    modifies st
    ensures st.Snap() == ScreenEffect(old(st.Snap()), client, reply)
  {
    if !client {
      return;
    }
    match reply
    case Raised =>
      // the exception is caught at line 227
    case Answered(text) =>
      if text == "" {
        return;
      }
      var result := Strip(text);
      if result != "" && Lower(result) != "none" {
        st.RecordSuggestion(result);
      }
  }

  /** The charter `initialize_project_context` installs (lines 432-438). */
  function NewCharter(data: map<string, Json>, contextFile: string): (c: map<string, Json>)
    ensures c.Keys == {"initialized", "project_name", "description", "charter_items", "context_file"}
    ensures CommitKey !in c
    ensures c["initialized"] == JBool(true) && c["context_file"] == JStr(contextFile)
    ensures c["project_name"] == (if "project_name" in data then data["project_name"] else JStr("Unknown"))
    ensures c["description"] == (if "description" in data then data["description"] else JStr(""))
    ensures c["charter_items"] == (if "charter" in data then data["charter"] else JArr([]))
  {
    map[
      "initialized" := JBool(true),
      "project_name" := GetOr(data, "project_name", JStr("Unknown")),
      "description" := GetOr(data, "description", JStr("")),
      "charter_items" := GetOr(data, "charter", JArr([])),
      "context_file" := JStr(contextFile)
    ]
  }

  /** The state and the returned dictionary after one `initialize_project_context`. */
  datatype InitOutcome = InitOutcome(state: Snapshot, result: InitResult)

  /** The effect of `initialize_project_context`. */
  function InitContextEffect(s: Snapshot, client: bool, reply: ContextReply, contextFile: string): (o: InitOutcome)
    ensures o.state.score == s.score && o.state.issues == s.issues
    ensures !client ==> o == InitOutcome(s, InitError(NoClientError))
    ensures o.result.InitError? <==> !client || !reply.Parsed?
    ensures o.result.InitError? ==> o.state == s
    ensures o.result.InitSuccess? ==>
              o.state.charter == NewCharter(reply.data, contextFile)
              && o.result == InitSuccess(contextFile, reply.data)
  {
    if !client then InitOutcome(s, InitError(NoClientError))
    else match reply
      case Failed(message) => InitOutcome(s, InitError(message))
      case EmptyText => InitOutcome(s, InitError(EmptyResponseError))
      case Parsed(data) => InitOutcome(WithCharter(s, NewCharter(data, contextFile)), InitSuccess(contextFile, data))
  }

  /** `initialize_project_context` (lines 288-454). The git and file-listing
      subprocesses, the prompt and the writing of context.md are outside the
      model; `contextFile` is `str(Path(project_path) / '.vibe-assist' / 'context.md')`. */
  method InitializeProjectContext(st: ProjectState, client: bool, reply: ContextReply, contextFile: string)
    returns (r: InitResult)
    modifies st
    ensures InitOutcome(st.Snap(), r) == InitContextEffect(old(st.Snap()), client, reply, contextFile)
  {
    if !client {
      return InitError(NoClientError);
    }
    match reply
    case Failed(message) =>
      r := InitError(message);
    case EmptyText =>
      r := InitError(EmptyResponseError);
    case Parsed(data) =>
      st.ReplaceCharter(NewCharter(data, contextFile));
      r := InitSuccess(contextFile, data);
  }

  /** The charter installed on success has no `last_analyzed_commit`, so it
      keeps the daemon's state consistent; every failure leaves the state alone. */
  lemma InitContextKeepsConsistent(s: Snapshot, client: bool, reply: ContextReply, contextFile: string)
    requires Consistent(s)
    ensures Consistent(InitContextEffect(s, client, reply, contextFile).state)
  {
  }

  lemma FastPathKeepsConsistent(s: Snapshot, client: bool, reply: Reply)
    requires Consistent(s)
    ensures Consistent(FastPathEffect(s, client, reply))
  {
    if client && reply.Answered? && Finding(reply.text).Some? {
      SecurityIssueKeepsConsistent(s, Strip(reply.text));
    }
  }

  lemma ScreenKeepsConsistent(s: Snapshot, client: bool, reply: Reply)
    requires Consistent(s)
    ensures Consistent(ScreenEffect(s, client, reply))
  {
    if client && reply.Answered? && Finding(reply.text).Some? {
      SuggestionKeepsConsistent(s, Strip(reply.text));
    }
  }

  lemma DeepPathKeepsConsistent(s: Snapshot, client: bool, commit: GitCommit, reply: Reply)
    requires Consistent(s)
    ensures Consistent(DeepPathEffect(s, client, commit, reply))
  {
  }
}
