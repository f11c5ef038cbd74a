/**
 * The importer as the original runs it: one object holding the two clients, the
 * project, the people and the ledger of cases already created in this run
 * (`RECENTLY_ADDED_CASES`), with `CreateIssue` doing what `fb_create_issue` does,
 * step by step, and proved to agree with `Translate`.
 */
module Importing {
  import opened Wrappers
  import opened Types
  import opened Clients
  import opened Mapping
  import opened Translation

  class Importer {
    const jira: JiraClient
    const fb: FogBugzClient
    const project: string
    const emailMap: map<string, int>
    const defaultAssignee: int
    /** Jira key to the FogBugz case created for it during this run. */
    var ledger: map<string, int>

    constructor (jira: JiraClient, fb: FogBugzClient, project: string, emailMap: map<string, int>, defaultAssignee: int)
      ensures this.jira == jira && this.fb == fb && this.project == project
      ensures this.emailMap == emailMap && this.defaultAssignee == defaultAssignee
      ensures ledger == map[]
    {
      this.jira := jira;
      this.fb := fb;
      this.project := project;
      this.emailMap := emailMap;
      this.defaultAssignee := defaultAssignee;
      ledger := map[];
    }

    /** What the run cannot change. */
    function Environment(): Env {
      Env(jira.results, jira.comments, project, emailMap, defaultAssignee)
    }

    /** What the run changes, in the terms of `Translate`. */
    ghost function Snapshot(): State
      reads this, jira, fb
    {
      State(ledger, jira.requests, fb.log, fb.nextId)
    }

    /** `fb_create_issue`: imports `issue`, and first every issue it depends on. */
    method CreateIssue(issue: Issue, ghost rank: map<string, nat>) returns (r: Result<int, Error>)
      requires Ranked(jira.results, rank) && RankedBelow(jira.results, rank, issue)
      modifies this, jira, fb
      ensures var o := Translate(Environment(), issue, old(Snapshot()), rank);
        r == o.result && Snapshot() == o.state
      ensures old(issue.key in ledger) ==> r == Ok(old(ledger[issue.key])) && Snapshot() == old(Snapshot())
      ensures r.Ok? ==> issue.key in ledger && ledger[issue.key] == r.value
      decreases rank[issue.key], 2, 0
    {
      if issue.key in ledger {
        return Ok(ledger[issue.key]);
      }
      var assignee :- PersonFor(issue.assignee, emailMap, defaultAssignee);
      var tags := CollectTags(issue.fixVersions, issue.labels);
      var category :- CategoryOf(issue.issueType);
      var files := StageAttachments(issue.attachments);
      var comments :- FetchAllComments(issue.key, issue.commentIds);
      ghost var fetched := Snapshot();
      var parent :- ResolveDependencies(issue, rank);
      ghost var resolved := Snapshot();
      var editor :- PersonFor(issue.reporter, emailMap, defaultAssignee);
      var fields := CaseFields(assignee, Title(issue.summary), StoryText(issue.description, issue.key), project,
                               Timestamp(issue.created), HoursEstimate(issue.originalEstimate),
                               TagsField(tags), category.Name(), issue.priority, parent, editor);
      assert fields == CaseFieldsOf(issue, project, assignee, category, parent, editor);
      var id := CreateCase(issue.key, fields, files, comments, issue.resolved);
      r := Ok(id);
    }

    /**
     * `new` with the collected fields and files, then one edit per comment, the import
     * note, a resolve when the issue is resolved, and the ledger entry.
     */
    method CreateCase(key: string, fields: CaseFields, files: map<string, seq<bv8>>,
                      comments: seq<Comment>, resolved: bool) returns (id: int)
      modifies this, fb
      ensures var o := Create(old(Snapshot()), key, fields, files, comments, resolved);
        Ok(id) == o.result && Snapshot() == o.state
    {
      ghost var before := old(Snapshot());
      id := fb.New(fields, files);
      ghost var created := fb.log;
      var i := 0;
      while i < |comments|
        invariant 0 <= i <= |comments|
        invariant fb.log == created + CommentEdits(id, comments[..i]) && fb.nextId == id + 1
        modifies fb
      {
        fb.Edit(id, CommentEvent(comments[i]));
        assert comments[..i + 1] == comments[..i] + [comments[i]];
        CommentEditsAppend(id, comments[..i], comments[i]);
        i := i + 1;
      }
      assert comments[..i] == comments;
      fb.Edit(id, ImportNote(key));
      assert fb.log == created + (CommentEdits(id, comments) + [EditCase(id, ImportNote(key))]);
      if resolved {
        fb.Resolve(id);
      }
      assert fb.log == created + Replay(id, key, comments, resolved);
      ledger := ledger[key := id];
      assert Snapshot() == State(before.ledger[key := id], before.requests,
                                 before.log + [NewCase(fields, files, id)] + Replay(id, key, comments, resolved), id + 1);
    }

    /** The comment loop: one request per comment, stopping at the first Jira does not have. */
    method FetchAllComments(key: string, ids: seq<string>) returns (r: Result<seq<Comment>, Error>)
      modifies jira
      ensures var f := FetchComments(jira.comments, key, ids, [], old(jira.requests));
        r == f.comments && jira.requests == f.requests
    {
      var comments := [];
      var i := 0;
      while i < |ids|
        invariant 0 <= i <= |ids|
        invariant FetchComments(jira.comments, key, ids, [], old(jira.requests))
               == FetchComments(jira.comments, key, ids[i..], comments, jira.requests)
        modifies jira
      {
        assert ids[i..][1..] == ids[i + 1..];
        var comment :- jira.GetComment(key, ids[i]);
        comments := comments + [comment];
        i := i + 1;
      }
      r := Ok(comments);
    }

    /**
     * The parent lookup and then the inward-link lookups, each importing the one issue
     * found; the last one imported is the parent of the new case.
     */
    method ResolveDependencies(issue: Issue, ghost rank: map<string, nat>) returns (r: Result<Option<int>, Error>)
      requires Ranked(jira.results, rank) && RankedBelow(jira.results, rank, issue)
      modifies this, jira, fb
      ensures var o := ResolveParents(Environment(), ParentRefs(issue), rank[issue.key], old(Snapshot()), None, rank);
        r == o.result && Snapshot() == o.state
      decreases rank[issue.key], 1, 1
    {
      ghost var bound := rank[issue.key];
      ghost var refs := ParentRefs(issue);
      var parent := None;
      if issue.parent.Some? {
        assert refs[0] == issue.parent.value && refs[1..] == InwardKeys(issue.links);
        assert forall x :: x in [issue.parent.value] ==> x in refs;
        assert forall x :: x in refs[1..] ==> x in refs;
        var found := ResolveParent(issue.parent.value, bound, rank);
        if found.Err? {
          return Err(found.error);
        }
        assert ResolveParents(Environment(), refs, bound, old(Snapshot()), None, rank)
            == ResolveParents(Environment(), InwardKeys(issue.links), bound, Snapshot(), Some(found.value), rank);
        parent := Some(found.value);
      } else {
        assert refs == InwardKeys(issue.links);
      }
      r := ResolveLinks(issue.links, bound, parent, rank);
    }

    /** The issue-links loop: each link with an inward issue imports that issue. */
    method ResolveLinks(links: seq<Link>, ghost bound: nat, last: Option<int>, ghost rank: map<string, nat>)
      returns (r: Result<Option<int>, Error>)
      requires Ranked(jira.results, rank) && RefsBelow(jira.results, rank, InwardKeys(links), bound)
      modifies this, jira, fb
      ensures var o := ResolveParents(Environment(), InwardKeys(links), bound, old(Snapshot()), last, rank);
        r == o.result && Snapshot() == o.state
      decreases bound, 1, 0
    {
      var parent := last;
      var j := 0;
      while j < |links|
        invariant 0 <= j <= |links|
        invariant RefsBelow(jira.results, rank, InwardKeys(links[j..]), bound)
        invariant ResolveParents(Environment(), InwardKeys(links), bound, old(Snapshot()), last, rank)
               == ResolveParents(Environment(), InwardKeys(links[j..]), bound, Snapshot(), parent, rank)
      {
        ghost var here := InwardKeys(links[j..]);
        ghost var rest := InwardKeys(links[j + 1..]);
        assert links[j..][1..] == links[j + 1..];
        if links[j].inward.Some? {
          assert here == [links[j].inward.value] + rest;
          assert here[0] == links[j].inward.value && here[1..] == rest;
          assert forall x :: x in [links[j].inward.value] ==> x in here;
          assert forall x :: x in rest ==> x in here;
          ghost var before := Snapshot();
          var found := ResolveParent(links[j].inward.value, bound, rank);
          if found.Err? {
            assert ResolveParents(Environment(), here, bound, before, parent, rank) == Outcome(Err(found.error), Snapshot());
            return Err(found.error);
          }
          assert ResolveParents(Environment(), here, bound, before, parent, rank)
              == ResolveParents(Environment(), rest, bound, Snapshot(), Some(found.value), rank);
          parent := Some(found.value);
        } else {
          assert here == rest;
        }
        j := j + 1;
      }
      assert links[j..] == [];
      r := Ok(parent);
    }

    /** Looks `key` up and imports the one issue found; no match or several is an error. */
    method ResolveParent(key: string, ghost bound: nat, ghost rank: map<string, nat>) returns (r: Result<int, Error>)
      requires Ranked(jira.results, rank) && RefsBelow(jira.results, rank, [key], bound)
      modifies this, jira, fb
      ensures var o := ResolveOne(Environment(), key, bound, old(Snapshot()), rank);
        r == o.result && Snapshot() == o.state
      decreases bound, 0, 0
    {
      var found := jira.SearchIssues(KeyQuery(key));
      if |found| != 1 {
        return Err(NotExactlyOne(key, |found|));
      }
      assert found[0] in jira.results[KeyQuery(key)];
      assert found[0] in Search(jira.results, KeyQuery(key));
      r := CreateIssue(found[0], rank);
    }
  }
}
