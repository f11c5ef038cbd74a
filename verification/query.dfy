/** The JQL query the run reads issues with: the project, then the optional extra filter. */
module Query {
  import opened Text

  const Prefix: string := "project = \""

  /**
   * `'project = "{}"'.format(project)`, followed by `"AND " + filter` when a filter is
   * given; as written there is no space before `AND`.
   */
  function BuildQuery(project: string, filter: string): (query: string)
    ensures IsPrefix(Prefix, query)
    ensures |query| == |Prefix| + |project| + 1 + (if filter != "" then 4 + |filter| else 0)
  {
    Prefix + project + "\"" + (if filter != "" then "AND " + filter else "")
  }

  /** The project a query names: what lies between the opening quote and the next one. */
  function ProjectOf(query: string): string {
    if IsPrefix(Prefix, query) then UpTo(query[|Prefix|..], '"') else ""
  }

  /** The extra filter of a query: what follows the closing quote and `AND `. */
  function FilterOf(query: string): string {
    var rest := |Prefix| + |ProjectOf(query)| + 1;
    if IsPrefix(Prefix, query) && rest <= |query| && IsPrefix("AND ", query[rest..])
    then query[rest + 4..] else ""
  }

  /** A project without a double quote and any filter can be read back from the query. */
  lemma {:induction false} QueryRoundTrip(project: string, filter: string)
    requires '"' !in project
    ensures ProjectOf(BuildQuery(project, filter)) == project
    ensures FilterOf(BuildQuery(project, filter)) == filter
  {
    var tail := if filter != "" then "AND " + filter else "";
    var q := BuildQuery(project, filter);
    assert q == Prefix + (project + ['"'] + tail);
    assert q[..|Prefix|] == Prefix;
    assert q[|Prefix|..] == project + ['"'] + tail;
    UpToFirst(project, '"', tail);
    if filter != "" {
      assert q[|Prefix| + |project| + 1..] == "AND " + filter;
      assert q[|Prefix| + |project| + 1 + 4..] == filter;
    } else {
      assert q[|Prefix| + |project| + 1..] == "";
    }
  }

  /** The project is not escaped: a quote in it lets two different inputs give the same query. */
  lemma QueryNeedsUnquotedProject()
    ensures BuildQuery("A\"AND B", "") == BuildQuery("A", "B\"")
  {
  }
}
