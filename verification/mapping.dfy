/**
 * How one Jira issue's fields become the fields of a FogBugz case: people, title,
 * user-story text, date, estimate, tags, category and attached files.
 */
module Mapping {
  import opened Wrappers
  import opened Text
  import opened Tables
  import opened Types

  // ---------------------------------------------------------------- people

  /**
   * The person id for an optional email address: the fallback when there is none,
   * otherwise the entry for the lower-cased address, which must exist.
   */
  function PersonFor(email: Option<string>, emailMap: map<string, int>, fallback: int): (r: Result<int, Error>)
    ensures r.Err? <==> email.Some? && Lower(email.value) !in emailMap
    ensures r.Err? ==> r.error == UnmappedEmail(Lower(email.value))
    ensures r.Ok? ==> r.value == fallback || r.value in emailMap.Values
  {
    match email
    case None => Ok(fallback)
    case Some(e) =>
      if Lower(e) in emailMap then Ok(emailMap[Lower(e)]) else Err(UnmappedEmail(Lower(e)))
  }

  /** Which id the lookup gives: the fallback without an address, else the mapped person. */
  lemma PersonForCases(email: Option<string>, emailMap: map<string, int>, fallback: int)
    ensures email.None? ==> PersonFor(email, emailMap, fallback) == Ok(fallback)
    ensures email.Some? && Lower(email.value) in emailMap ==>
              PersonFor(email, emailMap, fallback) == Ok(emailMap[Lower(email.value)])
  {
  }

  // ---------------------------------------------------------------- text fields

  /** `sTitle`: the summary, or "No title" when it is empty. */
  function Title(summary: string): (title: string)
    ensures |title| > 0
    ensures summary != "" ==> title == summary
    ensures summary == "" ==> title == "No title"
  {
    if summary != "" then summary else "No title"
  }

  /** The note appended to a non-empty description. */
  function Provenance(key: string): string {
    "\n\n(imported from jira case " + key + ")"
  }

  /** The user-story text: empty for an empty description, else the description and its provenance note. */
  function StoryText(description: string, key: string): (text: string)
    ensures text == "" <==> description == ""
    ensures description != "" ==>
              |text| == |description| + |Provenance(key)| &&
              text[..|description|] == description && text[|description|..] == Provenance(key)
  {
    if description != "" then description + Provenance(key) else ""
  }

  /** Strips the provenance note of `key`, when present, from a user-story text. */
  function OriginalDescription(text: string, key: string): string {
    var note := Provenance(key);
    if |text| >= |note| && text[|text| - |note|..] == note then text[..|text| - |note|] else text
  }

  /** The user-story text keeps the whole description: stripping the note gives it back. */
  lemma StoryTextRoundTrip(description: string, key: string)
    ensures OriginalDescription(StoryText(description, key), key) == description
  {
    var text := StoryText(description, key);
    if description != "" {
      assert text[..|text| - |Provenance(key)|] == description;
      assert text[|text| - |Provenance(key)|..] == Provenance(key);
    }
  }

  /** `dt`: the creation time up to its first '.', marked as UTC with a trailing 'Z'. */
  function Timestamp(created: string): (dt: string)
    ensures |dt| > 0 && dt[|dt| - 1] == 'Z'
    ensures IsPrefix(dt[..|dt| - 1], created) && '.' !in dt[..|dt| - 1]
    ensures |dt| - 1 < |created| ==> created[|dt| - 1] == '.'
  {
    var head := UpTo(created, '.');
    assert (head + "Z")[..|head|] == head;
    head + "Z"
  }

  /** A Jira time with fractional seconds loses exactly the fraction. */
  lemma TimestampDropsFraction(seconds: string, fraction: string)
    requires '.' !in seconds
    ensures Timestamp(seconds + "." + fraction) == seconds + "Z"
  {
    UpToFirst(seconds, '.', fraction);
  }

  /** `hrsCurrEst`: 0 without an estimate or for a zero one, else the seconds as hours (true division). */
  function HoursEstimate(estimate: Option<int>): (hours: real)
    ensures estimate.None? ==> hours == 0.0
    ensures estimate.Some? ==> hours * 3600.0 == estimate.value as real
  {
    if estimate.Some? && estimate.value != 0 then estimate.value as real / 60.0 / 60.0 else 0.0
  }

  /** Estimates are not rounded: under an hour is a fraction of an hour, not 0. */
  lemma HoursEstimateExamples()
    ensures HoursEstimate(Some(0)) == 0.0
    ensures HoursEstimate(Some(3599)) > 0.0
    ensures HoursEstimate(Some(3600)) == 1.0
    ensures HoursEstimate(Some(5400)) == 1.5
  {
  }

  // ---------------------------------------------------------------- tags

  /** The labels other than "export", in order and with repetitions. */
  function KeepLabels(labels: seq<string>): (kept: seq<string>)
    ensures |kept| <= |labels|
    ensures forall l :: l in kept <==> l in labels && l != "export"
  {
    if |labels| == 0 then []
    else (if labels[0] != "export" then [labels[0]] else []) + KeepLabels(labels[1..])
  }

  /** The tag list: every fixVersion name, then every kept label. */
  function TagList(fixVersions: seq<string>, labels: seq<string>): (tags: seq<string>)
    ensures |tags| >= |fixVersions| && tags[..|fixVersions|] == fixVersions
    ensures forall t :: t in tags[|fixVersions|..] <==> t in labels && t != "export"
  {
    fixVersions + KeepLabels(labels)
  }

  /** `sTags`: the comma-joined tags, or no field at all when there are none. */
  function TagsField(tags: seq<string>): (field: Option<string>)
    ensures field.None? <==> tags == []
  {
    if |tags| == 0 then None else Some(Join(",", tags))
  }

  /** Dropping "export" keeps every other label as often as it occurs. */
  lemma {:induction false} KeepLabelsCounts(labels: seq<string>)
    ensures multiset(KeepLabels(labels)) == multiset(labels)["export" := 0]
  {
    if |labels| > 0 {
      KeepLabelsCounts(labels[1..]);
      assert labels == [labels[0]] + labels[1..];
    }
  }

  /** Filtering labels commutes with concatenation, so their order is kept. */
  lemma {:induction false} KeepLabelsAppend(a: seq<string>, b: seq<string>)
    ensures KeepLabels(a + b) == KeepLabels(a) + KeepLabels(b)
  {
    if |a| > 0 {
      KeepLabelsAppend(a[1..], b);
      assert (a + b)[1..] == a[1..] + b;
    } else {
      assert a + b == b;
    }
  }

  /** Splitting `sTags` at ',' recovers the tags. */
  lemma TagsFieldRoundTrip(tags: seq<string>)
    requires forall t :: t in tags ==> ',' !in t
    ensures TagsField(tags).Some? ==> Split(TagsField(tags).value, ',') == tags
  {
    if |tags| > 0 {
      SplitJoin(tags, ',');
    }
  }

  /** Fix versions come first and "export" is dropped: versions ["1.0"], labels ["export", "urgent"]. */
  lemma TagsFixVersionsFirst()
    ensures TagsField(TagList(["1.0"], ["export", "urgent"])) == Some("1.0,urgent")
  {
    assert KeepLabels(["export", "urgent"]) == ["urgent"] by {
      assert ["export", "urgent"][1..] == ["urgent"];
      assert ["urgent"][1..] == [];
    }
    assert TagList(["1.0"], ["export", "urgent"]) == ["1.0", "urgent"];
    assert Join(",", ["1.0", "urgent"]) == "1.0,urgent" by {
      assert ["1.0", "urgent"][1..] == ["urgent"];
    }
  }

  /** A name that is both a fix version and a label is a tag twice. */
  lemma TagsKeepDuplicates()
    ensures TagsField(TagList(["x"], ["x"])) == Some("x,x")
  {
    assert ["x"][1..] == [];
    assert TagList(["x"], ["x"]) == ["x", "x"];
    assert Join(",", ["x", "x"]) == "x,x" by {
      assert ["x", "x"][1..] == ["x"];
    }
  }

  /** Only "export" as a label and no fix versions: `sTags` is left out. */
  lemma TagsOmittedForExportOnly()
    ensures TagsField(TagList([], ["export"])).None?
  {
    assert ["export"][1..] == [];
  }

  /** Builds the tag list with the two loops of the original. */
  method CollectTags(fixVersions: seq<string>, labels: seq<string>) returns (tags: seq<string>)
    ensures tags == TagList(fixVersions, labels)
    ensures multiset(tags) == multiset(fixVersions) + multiset(labels)["export" := 0]
  {
    tags := [];
    var i := 0;
    while i < |fixVersions|
      invariant 0 <= i <= |fixVersions|
      invariant tags == fixVersions[..i]
    {
      tags := tags + [fixVersions[i]];
      i := i + 1;
    }
    assert tags == fixVersions;
    var j := 0;
    while j < |labels|
      invariant 0 <= j <= |labels|
      invariant tags + KeepLabels(labels[j..]) == TagList(fixVersions, labels)
    {
      assert labels[j..][1..] == labels[j + 1..];
      if labels[j] != "export" {
        tags := tags + [labels[j]];
      }
      j := j + 1;
    }
    KeepLabelsCounts(labels);
  }

  // ---------------------------------------------------------------- category

  const FeatureNames: set<string> := {"Story", "Improvement", "Epic", "Theme", "Technical task"}
  const TaskNames: set<string> := {"Sub-task", "Task"}

  /**
   * `sCategory`. The Feature and Task tests compare with whole names; the other four
   * compare with a single parenthesised string, which Python reads as a substring test.
   */
  function CategoryOf(name: string): (r: Result<Category, Error>)
    ensures r.Err? ==> r.error == UnknownIssueType(name)
  {
    if name in FeatureNames then Ok(Feature)
    else if Contains("Bug", name) then Ok(Bug)
    else if name in TaskNames then Ok(Task)
    else if Contains("Improvement Item", name) then Ok(ImprovementItem)
    else if Contains("Documentation Item", name) then Ok(ImprovementItem)
    else if Contains("Testing Item", name) then Ok(TestingItem)
    else Err(UnknownIssueType(name))
  }

  lemma CategoryOfFeatureNames()
    ensures CategoryOf("Story") == Ok(Feature) && CategoryOf("Improvement") == Ok(Feature)
    ensures CategoryOf("Epic") == Ok(Feature) && CategoryOf("Theme") == Ok(Feature)
    ensures CategoryOf("Technical task") == Ok(Feature)
  {
  }

  lemma CategoryOfBugAndTaskNames()
    ensures CategoryOf("Bug") == Ok(Bug)
    ensures CategoryOf("Sub-task") == Ok(Task) && CategoryOf("Task") == Ok(Task)
  {
    assert OccursAt("Bug", "Bug", 0);
    NotContainsLonger("Bug", "Sub-task");
    NotContainsLonger("Bug", "Task");
  }

  lemma CategoryOfItemNames()
    ensures CategoryOf("Improvement Item") == Ok(ImprovementItem)
    ensures CategoryOf("Documentation Item") == Ok(ImprovementItem)
    ensures CategoryOf("Testing Item") == Ok(TestingItem)
  {
    NotContainsLonger("Bug", "Improvement Item");
    assert OccursAt("Improvement Item", "Improvement Item", 0);
    NotContainsLonger("Bug", "Documentation Item");
    NotContainsLonger("Improvement Item", "Documentation Item");
    assert OccursAt("Documentation Item", "Documentation Item", 0);
    NotContainsLonger("Bug", "Testing Item");
    NotContainsFirst("Improvement Item", "Testing Item");
    NotContainsFirst("Documentation Item", "Testing Item");
    assert OccursAt("Testing Item", "Testing Item", 0);
  }

  /** Every whole issue-type name the branches spell out gets the category of its branch. */
  lemma CategoryOfTable()
    ensures CategoryOf("Story") == Ok(Feature) && CategoryOf("Improvement") == Ok(Feature)
    ensures CategoryOf("Epic") == Ok(Feature) && CategoryOf("Theme") == Ok(Feature)
    ensures CategoryOf("Technical task") == Ok(Feature)
    ensures CategoryOf("Bug") == Ok(Bug)
    ensures CategoryOf("Sub-task") == Ok(Task) && CategoryOf("Task") == Ok(Task)
    ensures CategoryOf("Improvement Item") == Ok(ImprovementItem)
    ensures CategoryOf("Documentation Item") == Ok(ImprovementItem)
    ensures CategoryOf("Testing Item") == Ok(TestingItem)
  {
    CategoryOfFeatureNames();
    CategoryOfBugAndTaskNames();
    CategoryOfItemNames();
  }

  /** Fragments of the substring-tested names are accepted too, not only the whole names. */
  lemma CategoryOfFragments()
    ensures CategoryOf("") == Ok(Bug) && CategoryOf("ug") == Ok(Bug)
    ensures CategoryOf("Item") == Ok(ImprovementItem)
    ensures CategoryOf("Documentation") == Ok(ImprovementItem)
    ensures CategoryOf("Test") == Ok(TestingItem)
    ensures CategoryOf("Bugs").Err?
  {
    assert OccursAt("Bug", "", 0);
    assert OccursAt("Bug", "ug", 1);
    NotContainsFirst("Bug", "Item");
    assert OccursAt("Improvement Item", "Item", 12);
    NotContainsLonger("Bug", "Documentation");
    NotContainsFirst("Improvement Item", "Documentation");
    assert OccursAt("Documentation Item", "Documentation", 0);
    NotContainsLonger("Bug", "Test");
    NotContainsFirst("Improvement Item", "Test");
    NotContainsFirst("Documentation Item", "Test");
    assert OccursAt("Testing Item", "Test", 0);
    NotContainsLonger("Bug", "Bugs");
    NotContainsFirst("Improvement Item", "Bugs");
    NotContainsFirst("Documentation Item", "Bugs");
    NotContainsFirst("Testing Item", "Bugs");
  }

  /**
   * Which names get which category: Feature and Task only for the exact names, Bug for
   * every piece of "Bug", the two item categories only for pieces of their strings,
   * and an error for everything else.
   */
  lemma CategoryOfCases(name: string)
    ensures CategoryOf(name) == Ok(Feature) <==> name in FeatureNames
    ensures CategoryOf(name) == Ok(Bug) <==> Contains("Bug", name)
    ensures CategoryOf(name) == Ok(Task) <==> name in TaskNames
    ensures CategoryOf(name) == Ok(ImprovementItem) <==>
              name !in FeatureNames && !Contains("Bug", name) && name !in TaskNames &&
              (Contains("Improvement Item", name) || Contains("Documentation Item", name))
    ensures CategoryOf(name) == Ok(TestingItem) <==>
              name !in FeatureNames && !Contains("Bug", name) && name !in TaskNames &&
              !Contains("Improvement Item", name) && !Contains("Documentation Item", name) &&
              Contains("Testing Item", name)
    ensures CategoryOf(name).Err? <==>
              name !in FeatureNames && name !in TaskNames && !Contains("Bug", name) &&
              !Contains("Improvement Item", name) && !Contains("Documentation Item", name) &&
              !Contains("Testing Item", name)
  {
    if name in FeatureNames || name in TaskNames {
      NotContainsLonger("Bug", name);
    }
  }

  // ---------------------------------------------------------------- attachments

  function FilePairs(attachments: seq<Attachment>): seq<(string, seq<bv8>)> {
    seq(|attachments|, i requires 0 <= i < |attachments| => (attachments[i].filename, attachments[i].content))
  }

  /** The `Files` argument: attachments keyed by file name, a later one replacing an earlier one. */
  function Staged(attachments: seq<Attachment>): (files: map<string, seq<bv8>>)
    ensures forall i :: 0 <= i < |attachments| ==> attachments[i].filename in files
    ensures forall n :: n in files ==> exists i :: 0 <= i < |attachments| && attachments[i].filename == n
    ensures forall i :: 0 <= i < |attachments| ==>
              (forall j :: i < j < |attachments| ==> attachments[j].filename != attachments[i].filename) ==>
              files[attachments[i].filename] == attachments[i].content
  {
    var pairs := FilePairs(attachments);
    AssignLastWins(pairs, map[]);
    assert forall i :: 0 <= i < |attachments| ==> pairs[i] == (attachments[i].filename, attachments[i].content);
    Assign(pairs, map[])
  }

  /** Fills the `Files` dictionary one attachment at a time. */
  method StageAttachments(attachments: seq<Attachment>) returns (files: map<string, seq<bv8>>)
    ensures files == Staged(attachments)
  {
    files := map[];
    var i := 0;
    while i < |attachments|
      invariant 0 <= i <= |attachments|
      invariant Assign(FilePairs(attachments)[i..], files) == Staged(attachments)
    {
      assert FilePairs(attachments)[i..][1..] == FilePairs(attachments)[i + 1..];
      files := files[attachments[i].filename := attachments[i].content];
      i := i + 1;
    }
  }

  // ---------------------------------------------------------------- notes and the record

  /** The event text replaying one Jira comment. */
  function CommentEvent(c: Comment): string {
    "Edited by " + c.author + " " + c.updated + " \n\n" + c.body
  }

  /**
   * The layout of a comment's event: "Edited by ", the author, a space, the update
   * stamp, a space and two newlines, then the body, each at its exact position.
   */
  lemma CommentEventLayout(c: Comment)
    ensures var event, a, u := CommentEvent(c), |c.author|, |c.updated|;
      && |event| == 11 + a + u + 3 + |c.body|
      && event[..10] == "Edited by " && event[10..10 + a] == c.author && event[10 + a] == ' '
      && event[11 + a..11 + a + u] == c.updated
      && event[11 + a + u..14 + a + u] == " \n\n"
      && event[14 + a + u..] == c.body
  {
  }

  /** The event text recording where a case came from. */
  function ImportNote(key: string): (note: string)
    ensures IsPrefix("Imported from jira case ", note)
    ensures note[|"Imported from jira case "|..] == key
  {
    "Imported from jira case " + key
  }

  /** The keyword arguments of `new` once the people, the category and the parent are known. */
  function CaseFieldsOf(issue: Issue, project: string, assignee: int, category: Category,
                        parent: Option<int>, editor: int): (f: CaseFields)
    ensures f.assignedTo == assignee && f.editedBy == editor && f.project == project
    ensures f.category == category.Name() && f.parent == parent && f.priority == issue.priority
    ensures |f.title| > 0 && (issue.summary != "" ==> f.title == issue.summary)
    ensures OriginalDescription(f.storyText, issue.key) == issue.description
    ensures f.tags.None? <==> issue.fixVersions == [] && KeepLabels(issue.labels) == []
  {
    StoryTextRoundTrip(issue.description, issue.key);
    CaseFields(assignee, Title(issue.summary), StoryText(issue.description, issue.key), project,
               Timestamp(issue.created), HoursEstimate(issue.originalEstimate),
               TagsField(TagList(issue.fixVersions, issue.labels)), category.Name(), issue.priority,
               parent, editor)
  }

  /**
   * Every text and number field of the case comes from its mapping function, so it has
   * the properties proved about that function.
   */
  lemma CaseFieldsOfParts(issue: Issue, project: string, assignee: int, category: Category,
                          parent: Option<int>, editor: int)
    ensures var f := CaseFieldsOf(issue, project, assignee, category, parent, editor);
      && f.title == Title(issue.summary)
      && f.storyText == StoryText(issue.description, issue.key)
      && f.dt == Timestamp(issue.created)
      && f.hrsCurrEst == HoursEstimate(issue.originalEstimate)
      && f.tags == TagsField(TagList(issue.fixVersions, issue.labels))
  {
  }
}
