/**
 * What a run keeps true of its ledger and its FogBugz call log: every case number
 * comes from `new` exactly once, the ledger records every created case under one
 * key, and no call names a case before `new` created it.
 */
module Invariants {
  import opened Wrappers
  import opened Text
  import opened Types
  import opened Clients
  import opened Mapping
  import opened Translation

  /** The case numbers that `new` calls returned, in call order. */
  function CreatedIds(log: seq<Call>): seq<int> {
    if |log| == 0 then []
    else (if log[0].NewCase? then [log[0].id] else []) + CreatedIds(log[1..])
  }

  lemma {:induction false} CreatedIdsAppend(a: seq<Call>, b: seq<Call>)
    ensures CreatedIds(a + b) == CreatedIds(a) + CreatedIds(b)
  {
    if |a| > 0 {
      assert (a + b)[0] == a[0];
      assert (a + b)[1..] == a[1..] + b;
      CreatedIdsAppend(a[1..], b);
    } else {
      assert a + b == b;
    }
  }

  lemma {:induction false} CreatedIdsNone(log: seq<Call>)
    requires forall c :: c in log ==> !c.NewCase?
    ensures CreatedIds(log) == []
  {
    if |log| > 0 {
      assert log[0] in log;
      assert forall c :: c in log[1..] ==> c in log;
      CreatedIdsNone(log[1..]);
    }
  }

  /**
   * The call at position `i` refers only to cases created before it: a new case's
   * parent, and the case an edit or resolve targets.
   */
  predicate InOrder(log: seq<Call>, i: nat)
    requires i < |log|
  {
    match log[i]
    case NewCase(fields, _, _) => fields.parent.Some? ==> fields.parent.value in CreatedIds(log[..i])
    case _ => log[i].id in CreatedIds(log[..i])
  }

  /** Case numbers are handed out once each, below the next one to hand out. */
  predicate FreshIds(created: seq<int>, nextId: int) {
    && (forall i :: 0 <= i < |created| ==> created[i] < nextId)
    && (forall i, j :: 0 <= i < j < |created| ==> created[i] != created[j])
  }

  /** The ledger maps keys one-to-one onto exactly the created cases. */
  ghost predicate LedgerMatches(ledger: map<string, int>, created: seq<int>) {
    && (forall k :: k in ledger ==> ledger[k] in created)
    && (forall id :: id in created ==> id in ledger.Values)
    && (forall k1, k2 :: k1 in ledger && k2 in ledger && ledger[k1] == ledger[k2] ==> k1 == k2)
  }

  predicate Ordered(log: seq<Call>) {
    forall i :: 0 <= i < |log| ==> InOrder(log, i)
  }

  ghost predicate Consistent(st: State) {
    var created := CreatedIds(st.log);
    FreshIds(created, st.nextId) && LedgerMatches(st.ledger, created) && Ordered(st.log)
  }

  /** A run starts with an empty ledger and no calls. */
  lemma InitialConsistent(requests: seq<Request>, firstId: int)
    ensures Consistent(State(map[], requests, [], firstId))
  {
  }

  lemma CreatedAfterCreate(st: State, key: string, fields: CaseFields, files: map<string, seq<bv8>>,
                           comments: seq<Comment>, resolved: bool)
    ensures CreatedIds(Create(st, key, fields, files, comments, resolved).state.log) == CreatedIds(st.log) + [st.nextId]
  {
    var id := st.nextId;
    var replay := Replay(id, key, comments, resolved);
    var head := st.log + [NewCase(fields, files, id)];
    CreatedIdsNone(replay);
    CreatedIdsAppend(head, replay);
    CreatedIdsAppend(st.log, [NewCase(fields, files, id)]);
    assert CreatedIds([NewCase(fields, files, id)]) == [id];
  }

  lemma FreshAfterCreate(created: seq<int>, nextId: int)
    requires FreshIds(created, nextId)
    ensures FreshIds(created + [nextId], nextId + 1)
  {
  }

  lemma LedgerAfterCreate(ledger: map<string, int>, created: seq<int>, key: string, id: int)
    requires LedgerMatches(ledger, created) && key !in ledger && id !in created
    ensures LedgerMatches(ledger[key := id], created + [id])
  {
    var ledger' := ledger[key := id];
    forall c | c in created + [id] ensures c in ledger'.Values {
      if c == id {
        assert ledger'[key] == id;
      } else {
        var k :| k in ledger && ledger[k] == c;
        assert ledger'[k] == c;
      }
    }
  }

  lemma OrderedAfterCreate(st: State, key: string, fields: CaseFields, files: map<string, seq<bv8>>,
                           comments: seq<Comment>, resolved: bool)
    requires Ordered(st.log)
    requires fields.parent.Some? ==> fields.parent.value in CreatedIds(st.log)
    ensures Ordered(Create(st, key, fields, files, comments, resolved).state.log)
  {
    var id := st.nextId;
    var replay := Replay(id, key, comments, resolved);
    var head := st.log + [NewCase(fields, files, id)];
    var log' := Create(st, key, fields, files, comments, resolved).state.log;
    assert log' == head + replay;
    CreatedIdsAppend(st.log, [NewCase(fields, files, id)]);
    assert CreatedIds([NewCase(fields, files, id)]) == [id];
    forall i | 0 <= i < |log'| ensures InOrder(log', i) {
      if i < |st.log| {
        assert log'[..i] == st.log[..i];
        assert log'[i] == st.log[i];
        assert InOrder(st.log, i);
      } else if i == |st.log| {
        assert log'[..i] == st.log;
      } else {
        assert log'[..i] == head + replay[..i - |head|];
        CreatedIdsAppend(head, replay[..i - |head|]);
        assert replay[i - |head|] in replay;
      }
    }
  }

  /** Creating a case for a key not yet imported, under a parent already created, keeps the state consistent. */
  lemma CreateKeepsConsistent(st: State, key: string, fields: CaseFields, files: map<string, seq<bv8>>,
                              comments: seq<Comment>, resolved: bool)
    requires Consistent(st) && key !in st.ledger
    requires fields.parent.Some? ==> fields.parent.value in st.ledger.Values
    ensures Consistent(Create(st, key, fields, files, comments, resolved).state)
  {
    var created := CreatedIds(st.log);
    CreatedAfterCreate(st, key, fields, files, comments, resolved);
    FreshAfterCreate(created, st.nextId);
    assert st.nextId !in created;
    LedgerAfterCreate(st.ledger, created, key, st.nextId);
    if fields.parent.Some? {
      var k :| k in st.ledger && st.ledger[k] == fields.parent.value;
    }
    OrderedAfterCreate(st, key, fields, files, comments, resolved);
  }

  lemma {:induction false} ResolveOneKeepsConsistent(env: Env, ref: string, bound: nat, st: State, rank: map<string, nat>)
    requires Ranked(env.results, rank) && RefsBelow(env.results, rank, [ref], bound) && Consistent(st)
    ensures Consistent(ResolveOne(env, ref, bound, st, rank).state)
    decreases bound, 0, 0
  {
    var found := Search(env.results, KeyQuery(ref));
    var st1 := st.(requests := st.requests + [IssueSearch(KeyQuery(ref))]);
    if |found| == 1 {
      assert found[0] in env.results[KeyQuery(ref)];
      assert found[0] in Search(env.results, KeyQuery(ref));
      TranslateKeepsConsistent(env, found[0], st1, rank);
    }
  }

  lemma {:induction false} ResolveParentsKeepsConsistent(env: Env, refs: seq<string>, bound: nat, st: State,
                                                         last: Option<int>, rank: map<string, nat>)
    requires Ranked(env.results, rank) && RefsBelow(env.results, rank, refs, bound) && Consistent(st)
    ensures Consistent(ResolveParents(env, refs, bound, st, last, rank).state)
    decreases bound, 1, |refs|
  {
    if |refs| > 0 {
      assert forall r :: r in [refs[0]] ==> r in refs;
      assert forall r :: r in refs[1..] ==> r in refs;
      ResolveOneKeepsConsistent(env, refs[0], bound, st, rank);
      var one := ResolveOne(env, refs[0], bound, st, rank);
      if one.result.Ok? {
        ResolveParentsKeepsConsistent(env, refs[1..], bound, one.state, Some(one.result.value), rank);
      }
    }
  }

  /**
   * Importing an issue, with everything it depends on, keeps the ledger and the call
   * log consistent, whether the import succeeds or fails part-way.
   */
  lemma {:induction false} TranslateKeepsConsistent(env: Env, issue: Issue, st: State, rank: map<string, nat>)
    requires Ranked(env.results, rank) && RankedBelow(env.results, rank, issue) && Consistent(st)
    ensures Consistent(Translate(env, issue, st, rank).state)
    decreases rank[issue.key], 2, 0
  {
    var assignee := PersonFor(issue.assignee, env.emailMap, env.defaultAssignee);
    var category := CategoryOf(issue.issueType);
    if issue.key !in st.ledger && assignee.Ok? && category.Ok? {
      var fetched := FetchComments(env.comments, issue.key, issue.commentIds, [], st.requests);
      var st1 := st.(requests := fetched.requests);
      assert Consistent(st1);
      if fetched.comments.Ok? {
        ResolveParentsKeepsConsistent(env, ParentRefs(issue), rank[issue.key], st1, None, rank);
        var parents := ResolveParents(env, ParentRefs(issue), rank[issue.key], st1, None, rank);
        var editor := PersonFor(issue.reporter, env.emailMap, env.defaultAssignee);
        if parents.result.Ok? && editor.Ok? {
          var fields := CaseFieldsOf(issue, env.project, assignee.value, category.value, parents.result.value, editor.value);
          CreateKeepsConsistent(parents.state, issue.key, fields, Staged(issue.attachments),
                                fetched.comments.value, issue.resolved);
        }
      }
    }
  }

  /**
   * An import that fails records nothing for the issue itself, and every case it did
   * create (for dependencies) is recorded under some other key.
   */
  lemma FailedImportCreatesNoCaseForIt(env: Env, issue: Issue, st: State, rank: map<string, nat>)
    requires Ranked(env.results, rank) && RankedBelow(env.results, rank, issue) && Consistent(st)
    requires issue.key !in st.ledger
    ensures var o := Translate(env, issue, st, rank);
      o.result.Err? ==>
        && issue.key !in o.state.ledger
        && forall id :: id in CreatedIds(o.state.log) ==>
             exists k :: k in o.state.ledger && k != issue.key && o.state.ledger[k] == id
  {
    TranslateKeepsConsistent(env, issue, st, rank);
  }

  /** Importing an issue a second time returns the same case and changes nothing. */
  lemma ImportIsIdempotent(env: Env, issue: Issue, st: State, rank: map<string, nat>)
    requires Ranked(env.results, rank) && RankedBelow(env.results, rank, issue)
    ensures var o := Translate(env, issue, st, rank);
      o.result.Ok? ==> Translate(env, issue, o.state, rank) == o
  {
  }

  /** The log after `Create`: `new`, then the replayed calls, at known positions. */
  lemma CreateLog(st: State, key: string, fields: CaseFields, files: map<string, seq<bv8>>,
                  comments: seq<Comment>, resolved: bool)
    ensures var o := Create(st, key, fields, files, comments, resolved);
      var start := |st.log| + 1;
      var n := |comments|;
      && |o.state.log| == start + n + 1 + (if resolved then 1 else 0)
      && o.state.log[start - 1] == NewCase(fields, files, st.nextId)
      && (forall i :: 0 <= i < n ==> o.state.log[start + i] == EditCase(st.nextId, CommentEvent(comments[i])))
      && o.state.log[start + n] == EditCase(st.nextId, ImportNote(key))
      && (resolved ==> o.state.log[start + n + 1] == ResolveCase(st.nextId))
  {
    var o := Create(st, key, fields, files, comments, resolved);
    var replay := Replay(st.nextId, key, comments, resolved);
    var start := |st.log| + 1;
    assert o.state.log == (st.log + [NewCase(fields, files, st.nextId)]) + replay;
    forall i | 0 <= i < |replay| ensures o.state.log[start + i] == replay[i] {
    }
  }

  /** The dependencies imported before a fresh issue's case, after its comments were fetched. */
  ghost function DependenciesOf(env: Env, issue: Issue, st: State, rank: map<string, nat>): Outcome<Option<int>>
    requires Ranked(env.results, rank) && RankedBelow(env.results, rank, issue)
  {
    var fetched := FetchComments(env.comments, issue.key, issue.commentIds, [], st.requests);
    ResolveParents(env, ParentRefs(issue), rank[issue.key], st.(requests := fetched.requests), None, rank)
  }

  /**
   * A first import that succeeds found every comment, mapped the assignee, the reporter
   * and the type, imported the dependencies, and then is `Create` applied to the mapped
   * fields, with a parent exactly when the issue names a parent or an inward link.
   * Together with `CreateLog` and `FetchCommentsFound` this fixes every call it ends with.
   */
  lemma TranslateFresh(env: Env, issue: Issue, st: State, rank: map<string, nat>)
    requires Ranked(env.results, rank) && RankedBelow(env.results, rank, issue)
    requires issue.key !in st.ledger
    ensures var o := Translate(env, issue, st, rank);
      o.result.Ok? ==>
        var assignee := PersonFor(issue.assignee, env.emailMap, env.defaultAssignee);
        var editor := PersonFor(issue.reporter, env.emailMap, env.defaultAssignee);
        var category := CategoryOf(issue.issueType);
        var fetched := FetchComments(env.comments, issue.key, issue.commentIds, [], st.requests);
        var parents := DependenciesOf(env, issue, st, rank);
        && assignee.Ok? && editor.Ok? && category.Ok? && fetched.comments.Ok? && parents.result.Ok?
        && (forall i :: 0 <= i < |issue.commentIds| ==> (issue.key, issue.commentIds[i]) in env.comments)
        && (parents.result.value.Some? <==> ParentRefs(issue) != [])
        && o == Create(parents.state, issue.key,
                       CaseFieldsOf(issue, env.project, assignee.value, category.value, parents.result.value, editor.value),
                       Staged(issue.attachments), fetched.comments.value, issue.resolved)
  {
    var fetched := FetchComments(env.comments, issue.key, issue.commentIds, [], st.requests);
    if fetched.comments.Ok? {
      FetchCommentsOkOnlyIfFound(env.comments, issue.key, issue.commentIds, [], st.requests);
    }
  }

  /**
   * Returns that make no request and no call: an issue already in the ledger gives its
   * recorded case, and an unmapped assignee or an unknown type fails at once.
   */
  lemma EarlyOutcomes(env: Env, issue: Issue, st: State, rank: map<string, nat>)
    requires Ranked(env.results, rank) && RankedBelow(env.results, rank, issue)
    ensures issue.key in st.ledger ==> Translate(env, issue, st, rank) == Outcome(Ok(st.ledger[issue.key]), st)
    ensures issue.key !in st.ledger && issue.assignee.Some? && Lower(issue.assignee.value) !in env.emailMap ==>
              Translate(env, issue, st, rank) == Outcome(Err(UnmappedEmail(Lower(issue.assignee.value))), st)
    ensures issue.key !in st.ledger && PersonFor(issue.assignee, env.emailMap, env.defaultAssignee).Ok?
              && CategoryOf(issue.issueType).Err? ==>
              Translate(env, issue, st, rank) == Outcome(Err(UnknownIssueType(issue.issueType)), st)
  {
  }

  /**
   * The dependencies are imported one after the other: importing `a + b` is importing
   * `a` and then `b` from where `a` left off, and a failure in `a` ends the loop there,
   * so nothing of `b` is looked up or imported.
   */
  lemma {:induction false} ResolveParentsAppend(env: Env, a: seq<string>, b: seq<string>, bound: nat, st: State,
                                                last: Option<int>, rank: map<string, nat>)
    requires Ranked(env.results, rank) && RefsBelow(env.results, rank, a + b, bound)
    ensures RefsBelow(env.results, rank, a, bound) && RefsBelow(env.results, rank, b, bound)
    ensures var first := ResolveParents(env, a, bound, st, last, rank);
      ResolveParents(env, a + b, bound, st, last, rank) ==
        if first.result.Err? then first else ResolveParents(env, b, bound, first.state, first.result.value, rank)
  {
    assert forall r :: r in a ==> r in a + b;
    assert forall r :: r in b ==> r in a + b;
    if |a| == 0 {
      assert a + b == b;
    } else {
      assert (a + b)[0] == a[0];
      assert (a + b)[1..] == a[1..] + b;
      assert forall r :: r in a[1..] + b ==> r in a + b;
      var one := ResolveOne(env, a[0], bound, st, rank);
      if one.result.Ok? {
        ResolveParentsAppend(env, a[1..], b, bound, one.state, Some(one.result.value), rank);
      }
    }
  }
}
