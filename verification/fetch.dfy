/** `get_jira_issues`: reading every result of a query a page at a time. */
module Paging {
  import opened Types
  import opened Clients

  /** `chunk_size`: both the page size asked for and the step of `start_at`. */
  const ChunkSize: nat := 100

  /** The first `count` page requests: offsets 0, 100, 200, ... with 100 results each. */
  function PageRequests(query: string, count: nat): (requests: seq<Request>)
    ensures |requests| == count
    ensures forall i :: 0 <= i < count ==>
              requests[i].PageSearch? && requests[i].query == query &&
              requests[i].startAt == i * ChunkSize && requests[i].maxResults == ChunkSize
  {
    seq(count, i requires 0 <= i < count => PageSearch(query, i * ChunkSize, ChunkSize))
  }

  /** One more page request extends the requests sent so far by the next offset. */
  lemma PageRequestsAppend(query: string, count: nat)
    ensures PageRequests(query, count + 1) == PageRequests(query, count) + [PageSearch(query, count * ChunkSize, ChunkSize)]
  {
  }

  /**
   * How many pages are requested for `n` results: every non-empty page, then the empty
   * one that stops. The last page requested is the first that starts at or past the end,
   * and every earlier one starts before the end; so a short page is followed by one more
   * request.
   */
  function PageCount(n: nat): (count: nat)
    ensures (count - 1) * ChunkSize >= n
    ensures count >= 2 ==> (count - 2) * ChunkSize < n
    ensures n == 0 <==> count == 1
  {
    var k := (n + ChunkSize - 1) / ChunkSize;
    assert k * ChunkSize <= n + ChunkSize - 1 < (k + 1) * ChunkSize;
    k + 1
  }

  /** `k` pages of 100 were all non-empty and the next one starts at or past the end. */
  lemma PageCountFromStop(n: nat, k: nat)
    requires k * ChunkSize >= n
    requires k == 0 || (k - 1) * ChunkSize < n
    ensures PageCount(n) == k + 1
  {
  }

  /**
   * The paging loop: every result of the query in Jira's order, after one page request
   * per non-empty page and a final request for the empty page that ends it.
   */
  method FetchIssues(jira: JiraClient, query: string) returns (issues: seq<Issue>)
    modifies jira
    ensures issues == Search(jira.results, query)
    ensures jira.requests == old(jira.requests) + PageRequests(query, PageCount(|issues|))
  {
    var all := Search(jira.results, query);
    issues := [];
    var startAt: nat := 0;
    ghost var pages: nat := 0;
    while true
      invariant startAt == pages * ChunkSize
      invariant pages == 0 || (pages - 1) * ChunkSize < |all|
      invariant issues == all[..Min(startAt, |all|)]
      invariant jira.requests == old(jira.requests) + PageRequests(query, pages)
      decreases |all| + ChunkSize - startAt
    {
      var page := jira.SearchPage(query, startAt, ChunkSize);
      PageRequestsAppend(query, pages);
      if |page| == 0 {
        PageCountFromStop(|all|, pages);
        pages := pages + 1;
        break;
      }
      assert all[..Min(startAt + ChunkSize, |all|)] == all[..startAt] + page;
      issues := issues + page;
      startAt := startAt + ChunkSize;
      pages := pages + 1;
    }
    assert issues == all;
  }
}
