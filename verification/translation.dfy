/**
 * What importing one Jira issue does, as a function of the run's fixed inputs and the
 * state it changes: the ledger of cases already created in this run, the requests sent
 * to Jira, the calls made to FogBugz and the next FogBugz case number.
 */
module Translation {
  import opened Wrappers
  import opened Types
  import opened Clients
  import opened Mapping

  /** What stays fixed during one run: Jira's answers, the target project and the people. */
  datatype Env = Env(
    results: map<string, seq<Issue>>,
    comments: map<(string, string), Comment>,
    project: string,
    emailMap: map<string, int>,
    defaultAssignee: int)

  /** What an import changes. */
  datatype State = State(ledger: map<string, int>, requests: seq<Request>, log: seq<Call>, nextId: int)

  /** A result together with the state reached, also when the result is an error. */
  datatype Outcome<T> = Outcome(result: Result<T, Error>, state: State)

  /** The comments fetched before the case is created, and the requests that fetched them. */
  datatype Fetched = Fetched(comments: Result<seq<Comment>, Error>, requests: seq<Request>)

  // ---------------------------------------------------------------- dependencies

  /** The keys on the inward side of the links, in link order; outward-only links contribute nothing. */
  function InwardKeys(links: seq<Link>): (keys: seq<string>)
    ensures |keys| <= |links|
    ensures |links| == 1 ==> keys == (if links[0].inward.Some? then [links[0].inward.value] else [])
    ensures forall k :: k in keys <==> exists i :: 0 <= i < |links| && links[i].inward == Some(k)
  {
    if |links| == 0 then []
    else (if links[0].inward.Some? then [links[0].inward.value] else []) + InwardKeys(links[1..])
  }

  /** The inward keys of two runs of links are those of the first run, then those of the second. */
  lemma {:induction false} InwardKeysAppend(a: seq<Link>, b: seq<Link>)
    ensures InwardKeys(a + b) == InwardKeys(a) + InwardKeys(b)
  {
    if |a| > 0 {
      InwardKeysAppend(a[1..], b);
      assert (a + b)[1..] == a[1..] + b;
    } else {
      assert a + b == b;
    }
  }

  /** The keys created before an issue: its declared parent, then its inward links. */
  function ParentRefs(issue: Issue): (refs: seq<string>)
    ensures issue.parent.Some? ==> |refs| > 0 && refs[0] == issue.parent.value
    ensures forall k :: k in refs <==>
              issue.parent == Some(k) || exists i :: 0 <= i < |issue.links| && issue.links[i].inward == Some(k)
  {
    (if issue.parent.Some? then [issue.parent.value] else []) + InwardKeys(issue.links)
  }

  /** After the optional parent come the inward keys, all of them and in link order. */
  lemma ParentRefsOrder(issue: Issue)
    ensures var refs := ParentRefs(issue);
      && |refs| == (if issue.parent.Some? then 1 else 0) + |InwardKeys(issue.links)|
      && refs[|refs| - |InwardKeys(issue.links)|..] == InwardKeys(issue.links)
  {
  }

  /**
   * Every issue that a key lookup of one of `refs` imports has a rank below `bound`. Only
   * a lookup with exactly one result imports anything; any other lookup fails at once.
   */
  ghost predicate RefsBelow(results: map<string, seq<Issue>>, rank: map<string, nat>, refs: seq<string>, bound: nat) {
    forall r, p :: r in refs && p in Search(results, KeyQuery(r)) && |Search(results, KeyQuery(r))| == 1 ==>
      p.key in rank && rank[p.key] < bound
  }

  /** The issues an issue depends on rank below it. */
  ghost predicate RankedBelow(results: map<string, seq<Issue>>, rank: map<string, nat>, issue: Issue) {
    issue.key in rank && RefsBelow(results, rank, ParentRefs(issue), rank[issue.key])
  }

  /**
   * Jira's parent and inward-link graph has no cycles: every issue Jira can return
   * ranks above everything it depends on. The original has no guard against cycles.
   */
  ghost predicate Ranked(results: map<string, seq<Issue>>, rank: map<string, nat>) {
    forall q, p :: q in results && p in results[q] ==> RankedBelow(results, rank, p)
  }

  // ---------------------------------------------------------------- state relations

  /** `b` is `a` with more: the ledger only gains entries, and the logs and the counter only grow. */
  ghost predicate Extends(a: State, b: State) {
    && a.ledger.Keys <= b.ledger.Keys
    && (forall k :: k in a.ledger ==> b.ledger[k] == a.ledger[k])
    && a.requests <= b.requests
    && a.log <= b.log
    && a.nextId <= b.nextId
  }

  /** The ledger entries added between `a` and `b` are for issues ranked below `bound`. */
  ghost predicate NewKeysBelow(a: State, b: State, rank: map<string, nat>, bound: int) {
    forall k :: k in b.ledger && k !in a.ledger ==> k in rank && rank[k] < bound
  }

  // ---------------------------------------------------------------- comments

  /** The comment lookups of one issue, in order, stopping at the first that fails. */
  function FetchComments(store: map<(string, string), Comment>, key: string, ids: seq<string>,
                         acc: seq<Comment>, requests: seq<Request>): (f: Fetched)
    ensures requests <= f.requests
  {
    if |ids| == 0 then Fetched(Ok(acc), requests)
    else
      var requests' := requests + [CommentFetch(key, ids[0])];
      if (key, ids[0]) in store then FetchComments(store, key, ids[1..], acc + [store[(key, ids[0])]], requests')
      else Fetched(Err(CommentUnavailable(key, ids[0])), requests')
  }

  function CommentRequests(key: string, ids: seq<string>): (rs: seq<Request>)
    ensures |rs| == |ids|
  {
    seq(|ids|, i requires 0 <= i < |ids| => CommentFetch(key, ids[i]))
  }

  /** When Jira has every comment, fetching yields them in order after one request each. */
  lemma {:induction false} FetchCommentsFound(store: map<(string, string), Comment>, key: string, ids: seq<string>,
                                              acc: seq<Comment>, requests: seq<Request>)
    requires forall i :: 0 <= i < |ids| ==> (key, ids[i]) in store
    ensures var f := FetchComments(store, key, ids, acc, requests);
      && f.comments.Ok?
      && |f.comments.value| == |acc| + |ids|
      && f.comments.value[..|acc|] == acc
      && (forall i :: 0 <= i < |ids| ==> f.comments.value[|acc| + i] == store[(key, ids[i])])
      && f.requests == requests + CommentRequests(key, ids)
  {
    if |ids| > 0 {
      var acc' := acc + [store[(key, ids[0])]];
      var requests' := requests + [CommentFetch(key, ids[0])];
      FetchCommentsFound(store, key, ids[1..], acc', requests');
      var f := FetchComments(store, key, ids[1..], acc', requests');
      assert FetchComments(store, key, ids, acc, requests) == f;
      assert CommentRequests(key, ids) == [CommentFetch(key, ids[0])] + CommentRequests(key, ids[1..]);
      assert f.comments.value[..|acc'|] == acc';
      forall i | 0 <= i < |ids| ensures f.comments.value[|acc| + i] == store[(key, ids[i])] {
        if i == 0 {
          assert f.comments.value[|acc|] == acc'[|acc|];
        } else {
          assert ids[1..][i - 1] == ids[i];
        }
      }
      assert f.comments.value[..|acc|] == acc'[..|acc|];
    }
  }

  /** Fetching succeeds only when Jira has every comment. */
  lemma {:induction false} FetchCommentsOkOnlyIfFound(store: map<(string, string), Comment>, key: string,
                                                      ids: seq<string>, acc: seq<Comment>, requests: seq<Request>)
    requires FetchComments(store, key, ids, acc, requests).comments.Ok?
    ensures forall i :: 0 <= i < |ids| ==> (key, ids[i]) in store
  {
    if |ids| > 0 {
      FetchCommentsOkOnlyIfFound(store, key, ids[1..], acc + [store[(key, ids[0])]], requests + [CommentFetch(key, ids[0])]);
      forall i | 1 <= i < |ids| ensures (key, ids[i]) in store {
        assert ids[1..][i - 1] == ids[i];
      }
    }
  }

  /**
   * Fetching fails at the first comment Jira does not have, and that comment's request is
   * the last one sent.
   */
  lemma {:induction false} FetchCommentsMissing(store: map<(string, string), Comment>, key: string, ids: seq<string>,
                                                acc: seq<Comment>, requests: seq<Request>, j: nat)
    requires j < |ids| && (key, ids[j]) !in store
    requires forall i :: 0 <= i < j ==> (key, ids[i]) in store
    ensures var f := FetchComments(store, key, ids, acc, requests);
      && f.comments == Err(CommentUnavailable(key, ids[j]))
      && f.requests == requests + CommentRequests(key, ids[..j + 1])
  {
    var requests' := requests + [CommentFetch(key, ids[0])];
    if j == 0 {
      assert CommentRequests(key, ids[..1]) == [CommentFetch(key, ids[0])];
    } else {
      var acc' := acc + [store[(key, ids[0])]];
      FetchCommentsMissing(store, key, ids[1..], acc', requests', j - 1);
      assert ids[1..][..j] == ids[1..j + 1];
      assert CommentRequests(key, ids[..j + 1]) == [CommentFetch(key, ids[0])] + CommentRequests(key, ids[1..j + 1]);
    }
  }

  // ---------------------------------------------------------------- after the case exists

  /** One edit per comment, in comment order. */
  function CommentEdits(id: int, comments: seq<Comment>): (edits: seq<Call>)
    ensures |edits| == |comments|
    ensures forall i :: 0 <= i < |comments| ==> edits[i] == EditCase(id, CommentEvent(comments[i]))
  {
    if |comments| == 0 then []
    else [EditCase(id, CommentEvent(comments[0]))] + CommentEdits(id, comments[1..])
  }

  /** Replaying one more comment appends one more edit. */
  lemma {:induction false} CommentEditsAppend(id: int, comments: seq<Comment>, c: Comment)
    ensures CommentEdits(id, comments + [c]) == CommentEdits(id, comments) + [EditCase(id, CommentEvent(c))]
  {
    if |comments| > 0 {
      assert (comments + [c])[1..] == comments[1..] + [c];
      CommentEditsAppend(id, comments[1..], c);
    } else {
      assert comments + [c] == [c];
    }
  }

  /**
   * The calls that follow `new`: the comment edits, the import note, and a resolve exactly
   * when the issue is resolved, all on the new case and none creating a case.
   */
  function Replay(id: int, key: string, comments: seq<Comment>, resolved: bool): (calls: seq<Call>)
    ensures |calls| == |comments| + 1 + (if resolved then 1 else 0)
    ensures forall i :: 0 <= i < |comments| ==> calls[i] == EditCase(id, CommentEvent(comments[i]))
    ensures calls[|comments|] == EditCase(id, ImportNote(key))
    ensures resolved ==> calls[|comments| + 1] == ResolveCase(id)
    ensures forall c :: c in calls ==> !c.NewCase? && c.id == id
  {
    CommentEdits(id, comments) + [EditCase(id, ImportNote(key))] + (if resolved then [ResolveCase(id)] else [])
  }

  /** `new` with the next case number, the replayed calls, and the ledger entry written last. */
  function Create(st: State, key: string, fields: CaseFields, files: map<string, seq<bv8>>,
                  comments: seq<Comment>, resolved: bool): (o: Outcome<int>)
    ensures o.result == Ok(st.nextId) && o.state.nextId == st.nextId + 1
    ensures o.state.ledger.Keys == st.ledger.Keys + {key} && o.state.ledger[key] == st.nextId
    ensures forall k :: k in st.ledger && k != key ==> o.state.ledger[k] == st.ledger[k]
    ensures o.state.requests == st.requests
    ensures |o.state.log| == |st.log| + 2 + |comments| + (if resolved then 1 else 0)
    ensures o.state.log[..|st.log|] == st.log && o.state.log[|st.log|] == NewCase(fields, files, st.nextId)
    ensures forall c :: c in o.state.log[|st.log| + 1..] ==> !c.NewCase? && c.id == st.nextId
  {
    var id := st.nextId;
    Outcome(Ok(id), State(st.ledger[key := id], st.requests,
                          st.log + [NewCase(fields, files, id)] + Replay(id, key, comments, resolved),
                          id + 1))
  }

  // ---------------------------------------------------------------- the recursive import

  /** Looks one dependency up by key; exactly one match is imported, anything else fails. */
  function ResolveOne(env: Env, ref: string, bound: nat, st: State, rank: map<string, nat>): (o: Outcome<int>)
    requires Ranked(env.results, rank) && RefsBelow(env.results, rank, [ref], bound)
    ensures Extends(st, o.state)
    ensures NewKeysBelow(st, o.state, rank, bound)
    ensures o.result.Ok? ==> o.result.value in o.state.ledger.Values
    ensures |o.state.requests| > |st.requests| && o.state.requests[|st.requests|] == IssueSearch(KeyQuery(ref))
    ensures var found := Search(env.results, KeyQuery(ref));
      |found| != 1 ==>
        o == Outcome(Err(NotExactlyOne(ref, |found|)), st.(requests := st.requests + [IssueSearch(KeyQuery(ref))]))
    ensures var found := Search(env.results, KeyQuery(ref));
      |found| == 1 && o.result.Ok? ==> found[0].key in o.state.ledger && o.state.ledger[found[0].key] == o.result.value
    decreases bound, 0, 0
  {
    var found := Search(env.results, KeyQuery(ref));
    var st1 := st.(requests := st.requests + [IssueSearch(KeyQuery(ref))]);
    if |found| != 1 then Outcome(Err(NotExactlyOne(ref, |found|)), st1)
    else
      assert found[0] in env.results[KeyQuery(ref)];
      assert found[0] in Search(env.results, KeyQuery(ref));
      Translate(env, found[0], st1, rank)
  }

  /**
   * Imports the dependencies in order, stopping at the first failure; the result is the
   * case of the last one imported, or `last` when there is none.
   */
  function ResolveParents(env: Env, refs: seq<string>, bound: nat, st: State, last: Option<int>,
                          rank: map<string, nat>): (o: Outcome<Option<int>>)
    requires Ranked(env.results, rank) && RefsBelow(env.results, rank, refs, bound)
    ensures Extends(st, o.state)
    ensures NewKeysBelow(st, o.state, rank, bound)
    ensures o.result.Ok? ==>
              o.result.value == last || (o.result.value.Some? && o.result.value.value in o.state.ledger.Values)
    ensures o.result.Ok? ==> (o.result.value.Some? <==> last.Some? || |refs| > 0)
    ensures |refs| == 0 ==> o == Outcome(Ok(last), st)
    ensures o.result.Ok? ==> forall i :: 0 <= i < |refs| ==>
              var found := Search(env.results, KeyQuery(refs[i]));
              |found| == 1 && found[0].key in o.state.ledger
    ensures o.result.Ok? && |refs| > 0 ==>
              var found := Search(env.results, KeyQuery(refs[|refs| - 1]));
              |found| == 1 && found[0].key in o.state.ledger && o.result.value == Some(o.state.ledger[found[0].key])
    decreases bound, 1, |refs|
  {
    if |refs| == 0 then Outcome(Ok(last), st)
    else
      assert forall r :: r in [refs[0]] ==> r in refs;
      assert forall r :: r in refs[1..] ==> r in refs;
      var one := ResolveOne(env, refs[0], bound, st, rank);
      match one.result
      case Err(e) => Outcome(Err(e), one.state)
      case Ok(id) =>
        var o := ResolveParents(env, refs[1..], bound, one.state, Some(id), rank);
        assert o.result.Ok? && o.result.value == Some(id) ==> id in o.state.ledger.Values by {
          if o.result.Ok? && o.result.value == Some(id) {
            var k :| k in one.state.ledger && one.state.ledger[k] == id;
            assert o.state.ledger[k] == id;
          }
        }
        o
  }

  /**
   * `fb_create_issue`: an issue already in the ledger gives its recorded case and
   * changes nothing; otherwise the fields are mapped, the comments fetched, the
   * dependencies imported first, and the case created, replayed and recorded.
   */
  function Translate(env: Env, issue: Issue, st: State, rank: map<string, nat>): (o: Outcome<int>)
    requires Ranked(env.results, rank) && RankedBelow(env.results, rank, issue)
    ensures Extends(st, o.state)
    ensures NewKeysBelow(st, o.state, rank, rank[issue.key] + 1)
    ensures o.result.Err? ==> NewKeysBelow(st, o.state, rank, rank[issue.key])
    ensures o.result.Ok? ==> issue.key in o.state.ledger && o.state.ledger[issue.key] == o.result.value
    decreases rank[issue.key], 2, 0
  {
    if issue.key in st.ledger then Outcome(Ok(st.ledger[issue.key]), st)
    else
      match PersonFor(issue.assignee, env.emailMap, env.defaultAssignee)
      case Err(e) => Outcome(Err(e), st)
      case Ok(assignee) =>
        match CategoryOf(issue.issueType)
        case Err(e) => Outcome(Err(e), st)
        case Ok(category) =>
          var fetched := FetchComments(env.comments, issue.key, issue.commentIds, [], st.requests);
          var st1 := st.(requests := fetched.requests);
          match fetched.comments
          case Err(e) => Outcome(Err(e), st1)
          case Ok(comments) =>
            var parents := ResolveParents(env, ParentRefs(issue), rank[issue.key], st1, None, rank);
            match parents.result
            case Err(e) => Outcome(Err(e), parents.state)
            case Ok(parent) =>
              match PersonFor(issue.reporter, env.emailMap, env.defaultAssignee)
              case Err(e) => Outcome(Err(e), parents.state)
              case Ok(editor) =>
                var fields := CaseFieldsOf(issue, env.project, assignee, category, parent, editor);
                Create(parents.state, issue.key, fields, Staged(issue.attachments), comments, issue.resolved)
  }
}
