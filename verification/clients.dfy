/**
 * The two tracker clients, reduced to what the importer observes: Jira answers
 * queries from a fixed table and records every request; FogBugz records every call
 * and hands out fresh case numbers.
 */
module Clients {
  import opened Wrappers
  import opened Types

  /** A request sent to Jira. */
  datatype Request =
    | IssueSearch(query: string)
    | PageSearch(query: string, startAt: nat, maxResults: nat)
    | CommentFetch(key: string, commentId: string)

  /** A call made to FogBugz; `id` is the case it creates or targets. */
  datatype Call =
    | NewCase(fields: CaseFields, files: map<string, seq<bv8>>, id: int)
    | EditCase(id: int, event: string)
    | ResolveCase(id: int)

  /** All issues Jira returns for a query, in its result order. */
  function Search(results: map<string, seq<Issue>>, query: string): seq<Issue> {
    if query in results then results[query] else []
  }

  /** The exact-match query used to look an issue up by key. */
  function KeyQuery(key: string): (query: string)
    ensures |query| == 4 + |key| && query[..4] == "key=" && query[4..] == key
  {
    "key=" + key
  }

  function Min(a: int, b: int): int {
    if a <= b then a else b
  }

  /** The window of `all` that Jira returns for `startAt` and `maxResults`. */
  function Page(all: seq<Issue>, startAt: nat, maxResults: nat): (page: seq<Issue>)
    ensures |page| <= maxResults
    ensures |page| == 0 <==> startAt >= |all| || maxResults == 0
    ensures startAt < |all| ==> page == all[startAt..Min(startAt + maxResults, |all|)]
  {
    if startAt >= |all| then [] else all[startAt..Min(startAt + maxResults, |all|)]
  }

  class JiraClient {
    const results: map<string, seq<Issue>>
    const comments: map<(string, string), Comment>
    var requests: seq<Request>

    constructor (results: map<string, seq<Issue>>, comments: map<(string, string), Comment>)
      ensures this.results == results && this.comments == comments && requests == []
    {
      this.results := results;
      this.comments := comments;
      requests := [];
    }

    /** `search_issues(query)` with the library's defaults. */
    method SearchIssues(query: string) returns (found: seq<Issue>)
      modifies this
      ensures found == Search(results, query)
      ensures requests == old(requests) + [IssueSearch(query)]
    {
      found := Search(results, query);
      requests := requests + [IssueSearch(query)];
    }

    /** `search_issues(query, startAt=..., maxResults=...)`. */
    method SearchPage(query: string, startAt: nat, maxResults: nat) returns (page: seq<Issue>)
      modifies this
      ensures page == Page(Search(results, query), startAt, maxResults)
      ensures requests == old(requests) + [PageSearch(query, startAt, maxResults)]
    {
      page := Page(Search(results, query), startAt, maxResults);
      requests := requests + [PageSearch(query, startAt, maxResults)];
    }

    /** `comment(key, id)`; a comment Jira does not have raises. */
    method GetComment(key: string, commentId: string) returns (r: Result<Comment, Error>)
      modifies this
      ensures r == if (key, commentId) in comments then Ok(comments[(key, commentId)])
                   else Err(CommentUnavailable(key, commentId))
      ensures requests == old(requests) + [CommentFetch(key, commentId)]
    {
      r := if (key, commentId) in comments then Ok(comments[(key, commentId)])
           else Err(CommentUnavailable(key, commentId));
      requests := requests + [CommentFetch(key, commentId)];
    }
  }

  class FogBugzClient {
    var log: seq<Call>
    var nextId: int

    constructor (firstId: int)
      ensures log == [] && nextId == firstId
    {
      log := [];
      nextId := firstId;
    }

    /** `new(**fields, Files=files)`: creates a case with a fresh number. */
    method New(fields: CaseFields, files: map<string, seq<bv8>>) returns (id: int)
      modifies this
      ensures id == old(nextId) && nextId == id + 1
      ensures log == old(log) + [NewCase(fields, files, id)]
    {
      id := nextId;
      log := log + [NewCase(fields, files, id)];
      nextId := nextId + 1;
    }

    /** `edit(ixBug=id, sEvent=event)`. */
    method Edit(id: int, event: string)
      modifies this
      ensures log == old(log) + [EditCase(id, event)] && nextId == old(nextId)
    {
      log := log + [EditCase(id, event)];
    }

    /** `resolve(ixBug=id)`. */
    method Resolve(id: int)
      modifies this
      ensures log == old(log) + [ResolveCase(id)] && nextId == old(nextId)
    {
      log := log + [ResolveCase(id)];
    }
  }
}
