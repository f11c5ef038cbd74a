# jira2fogbugz, modelled in Dafny

jira2fogbugz copies issues from a Jira project into a FogBugz project. For each Jira
issue it:

- maps the fields to a FogBugz case: assignee, title, user-story text, date, estimate,
  tags, category, priority, attachments and editor;
- first imports the issue's declared parent and every inward-linked issue, recursively;
- creates the case;
- replays the Jira comments as edits, adds an import note, and resolves the case when
  the Jira issue is resolved;
- records the Jira key in a run-wide ledger, so that an issue is imported at most once
  per run.

Around this core it pages through Jira's search results, builds the email-to-person map
from FogBugz's people, and builds the JQL query.

The model has two layers.

- **Specification functions** (`Translation`). `Translate`, `ResolveParents` and
  `ResolveOne` describe `fb_create_issue` as a function from the run's fixed inputs
  (`Env`) and the state it changes (`State`) to a result and a new state. The state is:
  - the ledger;
  - the requests sent to Jira;
  - the calls made to FogBugz;
  - FogBugz's next case number.

  `Invariants` proves what every import keeps true:
  - every case number comes from exactly one `new`;
  - the ledger maps keys one-to-one onto the created cases;
  - no call names a case before `new` created it, including a new case's parent;
  - a failed import records nothing for the failed issue;
  - importing an issue again changes nothing.
- **Imperative code** (`Importing`, `Clients`, `Paging`, `People`, `Mapping`). The
  importer is a class:
  - its `ledger` field is updated in place;
  - its Jira and FogBugz clients are objects with request and call logs;
  - its loops (tags, attachments, comments, links, comment edits, pages, people) are
    `while` loops with invariants.

  Each method is proved equal to the specification function it implements. For example,
  `Importer.CreateIssue` ends in exactly the state `Translate` predicts.

Jira's parent and link graph may contain cycles, and the original has no guard against
them. The model requires a ghost rank that strictly decreases from every issue Jira can
return to each issue it depends on (`Ranked`, `RankedBelow`). No cycle error is invented.

### Behaviour that is easy to misread in the code

The model follows what the code does in each case below.

- **Categories.** `name in ('Bug')` reads like a test against a one-element tuple, but
  `('Bug')` is just the string `"Bug"`, so it is a substring test. The same holds for the
  three item categories. So `""`, `"ug"`, `"Item"` and `"Test"` all get a category, while
  `"Bugs"` does not (`Mapping.CategoryOfFragments`, `Mapping.CategoryOfCases`).
- **Tags.** Tags are a list, not a set: fix versions first, then the labels other than
  `export`, with duplicates kept (`Mapping.TagsFixVersionsFirst`,
  `Mapping.TagsKeepDuplicates`).
- **User-story text.** The provenance note is appended only to a non-empty description.
  The text goes to the user-story custom field; the line that would put it in the
  case's event text is commented out.
- **Estimate.** `int(seconds)/60/60` is Python 3 true division, not integer division, so
  3599 seconds is about 0.9997 hours, not 0 (`Mapping.HoursEstimateExamples`).
- **Failures and created cases.** An unmapped reporter fails only after the issue's
  parents have been imported, so their cases exist when the issue itself fails
  (`Invariants.FailedImportCreatesNoCaseForIt` says what is and is not created).
- **Attachments.** Temporary files are not removed when creation fails. This is not
  modelled (see below).

## Model

| member | source | states |
|---|---|---|
| Translation.Translate | src/jira2fogbugz/__init__.py:22-148 | Only adds to the ledger, request log, call log and counter, and adds ledger keys only for the issue and issues ranked below it. On success the ledger maps the issue's key to the returned case. On failure the issue's own key is not added. |
| Translation.InwardKeys | src/jira2fogbugz/__init__.py:105-109 | Exactly the inward keys of the links, one per link at most: a single link gives its inward key, or nothing when it has only an outward side. |
| Translation.ParentRefs | src/jira2fogbugz/__init__.py:96-109 | The declared parent comes first, and the references are exactly the parent and the inward keys. |
| Translation.InwardKeysAppend | src/jira2fogbugz/__init__.py:105-109 | The inward keys of two runs of links are those of the first run followed by those of the second, so link order and repetition are kept. |
| Translation.ParentRefsOrder | src/jira2fogbugz/__init__.py:96-118 | After the optional parent come all the inward keys, in link order, so the last inward link is the last reference. |
| Translation.ResolveParents | src/jira2fogbugz/__init__.py:96-118 | Imports the parent and the inward links in order. With no references it returns `last` and changes nothing. On success every reference was found exactly once and its issue is in the ledger, and the result is the case of the last reference's issue. The parent is set exactly when there was one already or at least one reference. Only adds to the state. |
| Translation.ResolveOne | src/jira2fogbugz/__init__.py:98-102 | The key search is the first request sent. A search that does not return exactly one issue fails with the key and the count, after that one request and nothing else. Otherwise the issue found is imported, and on success the ledger maps its key to the returned case. Only adds to the state. |
| Invariants.ResolveParentsAppend | src/jira2fogbugz/__init__.py:96-118 | Importing two runs of references is importing the first and then the second from where it left off. A failure in the first stops the loop, and nothing of the second is looked up. |
| Translation.FetchComments | src/jira2fogbugz/__init__.py:91-93 | Only appends comment requests to the ones already sent. |
| Translation.FetchCommentsFound | src/jira2fogbugz/__init__.py:91-93 | When Jira has every comment, they come back in order, one request per comment. |
| Translation.FetchCommentsOkOnlyIfFound | src/jira2fogbugz/__init__.py:91-93 | Fetching succeeds only if Jira has every comment. |
| Translation.FetchCommentsMissing | src/jira2fogbugz/__init__.py:91-93 | Fetching fails at the first missing comment, whose request is the last one sent. |
| Translation.CommentEdits | src/jira2fogbugz/__init__.py:136-138 | One edit per comment, in comment order, carrying the comment's author, date and body. |
| Translation.CommentEditsAppend | src/jira2fogbugz/__init__.py:136-138 | One more comment appends exactly one more edit. |
| Translation.Replay | src/jira2fogbugz/__init__.py:136-145 | After `new` come the comment edits in order, then the import note, then a resolve exactly when the issue is resolved. All of them target the new case, and none creates a case. |
| Translation.Create | src/jira2fogbugz/__init__.py:129-148 | Returns the next case number and advances it by one. The ledger gains exactly the new key, mapped to the new case, and keeps every other entry. No Jira request is made. The log gains `new` followed by 1 + (number of comments) + (1 if resolved) calls, none of which creates a case, all of them on the new case. |
| Invariants.InitialConsistent | src/jira2fogbugz/__init__.py:15 | The empty ledger at the start of a run is consistent with an empty call log. |
| Invariants.CreatedIdsAppend | src/jira2fogbugz/__init__.py:129 | The cases created by two call sequences are those of the first, then those of the second. |
| Invariants.CreatedAfterCreate | src/jira2fogbugz/__init__.py:129-145 | Creating a case adds exactly one created case number, the next one. |
| Invariants.FreshAfterCreate | src/jira2fogbugz/__init__.py:129 | Case numbers stay distinct and below the next number to hand out. |
| Invariants.LedgerAfterCreate | src/jira2fogbugz/__init__.py:147 | Recording a new key against a new case keeps the ledger a one-to-one map onto the created cases. |
| Invariants.OrderedAfterCreate | src/jira2fogbugz/__init__.py:129-145 | The parent of the new case and the targets of its edits and resolve were all created earlier in the log. |
| Invariants.CreateKeepsConsistent | src/jira2fogbugz/__init__.py:129-148 | Creating a case for a key not yet imported, under a parent already created, keeps the whole state consistent. |
| Invariants.ResolveOneKeepsConsistent | src/jira2fogbugz/__init__.py:98-102 | Importing one dependency keeps the state consistent. |
| Invariants.ResolveParentsKeepsConsistent | src/jira2fogbugz/__init__.py:96-118 | Importing all dependencies keeps the state consistent, also when one fails. |
| Invariants.TranslateKeepsConsistent | src/jira2fogbugz/__init__.py:22-148 | Importing an issue with everything it depends on keeps the state consistent, whether it succeeds or fails part-way. |
| Invariants.FailedImportCreatesNoCaseForIt | src/jira2fogbugz/__init__.py:96-129 | A failed import records nothing for the issue. Every case created along the way belongs to another key. |
| Invariants.ImportIsIdempotent | src/jira2fogbugz/__init__.py:30-34 | Importing an issue that was imported successfully returns the same case, with no request and no call. |
| Invariants.CreateLog | src/jira2fogbugz/__init__.py:129-145 | Fixes the position of every call `Create` appends: `new` with the fields and files, each comment edit, the note, and the resolve. |
| Invariants.TranslateFresh | src/jira2fogbugz/__init__.py:39-129 | A first import that succeeds had every comment and mapped assignee, type and reporter. It is `Create` applied to the mapped fields after its dependencies, with a parent exactly when the issue names a parent or an inward link. |
| Invariants.EarlyOutcomes | src/jira2fogbugz/__init__.py:30-80 | A ledger hit returns the recorded case. An unmapped assignee or an unknown type fails with its own error. None of these changes the state. |
| Importing.Importer.constructor | src/jira2fogbugz/__init__.py:15 | The ledger starts empty. |
| Importing.Importer.CreateIssue | src/jira2fogbugz/__init__.py:22-148 | Result and new state are exactly those of `Translate`. A ledger hit changes nothing. On success the ledger maps the key to the returned case. |
| Importing.Importer.CreateCase | src/jira2fogbugz/__init__.py:129-148 | `new`, the comment edits, the note and the optional resolve, with the ledger entry written last. The new state is exactly that of `Create`. |
| Importing.Importer.FetchAllComments | src/jira2fogbugz/__init__.py:91-93 | The comment loop returns and logs exactly what `FetchComments` specifies. |
| Importing.Importer.ResolveDependencies | src/jira2fogbugz/__init__.py:96-103 | Imports the parent, then the links. Result and state are those of `ResolveParents` over the parent and the inward links. |
| Importing.Importer.ResolveLinks | src/jira2fogbugz/__init__.py:105-118 | The link loop imports each inward issue in link order and skips outward-only links. It agrees with `ResolveParents`. |
| Importing.Importer.ResolveParent | src/jira2fogbugz/__init__.py:98-102 | The key lookup and the recursive import agree with `ResolveOne`. |
| Clients.Page | src/jira2fogbugz/__init__.py:154-155 | A page holds at most `maxResults` issues. It is empty exactly when it starts past the end, and otherwise it is the matching window of the results. |
| Clients.KeyQuery | src/jira2fogbugz/__init__.py:98 | The lookup query is "key=" followed by the key, which can be read back from it. |
| Clients.JiraClient.SearchIssues | src/jira2fogbugz/__init__.py:98 | Returns every match of the query and logs the request. |
| Clients.JiraClient.SearchPage | src/jira2fogbugz/__init__.py:154-155 | Returns one page of the matches and logs the request. |
| Clients.JiraClient.GetComment | src/jira2fogbugz/__init__.py:93 | Returns the stored comment, or an error when Jira does not have it, and logs the request. |
| Clients.FogBugzClient.New | src/jira2fogbugz/__init__.py:129 | Hands out the next case number and logs `new` with the fields and files. |
| Clients.FogBugzClient.Edit | src/jira2fogbugz/__init__.py:137 | Logs the edit and nothing else changes. |
| Clients.FogBugzClient.Resolve | src/jira2fogbugz/__init__.py:145 | Logs the resolve and nothing else changes. |
| Mapping.PersonForCases | src/jira2fogbugz/__init__.py:39-42 | Without an address the id is the fallback; with a mapped address it is the map's entry for the lower-cased address. |
| Mapping.PersonFor | src/jira2fogbugz/__init__.py:39-42 | Fails exactly for an address whose lower-cased form is not in the map, and the error carries that form. A success is the fallback or an id from the map. |
| Mapping.Title | src/jira2fogbugz/__init__.py:43 | The title is never empty. It is the summary when the summary is non-empty, and "No title" otherwise. |
| Mapping.StoryText | src/jira2fogbugz/__init__.py:44-48 | Empty exactly when the description is. Otherwise the description, followed by the provenance note. |
| Mapping.StoryTextRoundTrip | src/jira2fogbugz/__init__.py:44-48 | Stripping the provenance note gives back the description. |
| Mapping.Timestamp | src/jira2fogbugz/__init__.py:51 | The result ends in 'Z'. Before that comes a dot-free prefix of the created time, which stops at the first '.'. |
| Mapping.TimestampDropsFraction | src/jira2fogbugz/__init__.py:51 | A time with fractional seconds loses exactly the fraction. |
| Mapping.HoursEstimate | src/jira2fogbugz/__init__.py:63-64 | 0 without an estimate. Otherwise hours times 3600 equals the seconds exactly. |
| Mapping.HoursEstimateExamples | src/jira2fogbugz/__init__.py:63-64 | 0 s gives 0, 3599 s gives more than 0, 3600 s gives 1, and 5400 s gives 1.5. |
| Mapping.KeepLabels | src/jira2fogbugz/__init__.py:57-60 | A label is kept exactly when it occurs and is not "export", and no label is added. |
| Mapping.TagList | src/jira2fogbugz/__init__.py:53-60 | The fix versions come first and unchanged. The rest holds exactly the labels other than "export". |
| Mapping.TagsField | src/jira2fogbugz/__init__.py:61-62 | `sTags` is omitted exactly when there are no tags. |
| Mapping.KeepLabelsCounts | src/jira2fogbugz/__init__.py:57-60 | Every label other than "export" is kept as often as it occurs, and "export" never is. |
| Mapping.KeepLabelsAppend | src/jira2fogbugz/__init__.py:57-60 | Label filtering preserves order. |
| Mapping.TagsFieldRoundTrip | src/jira2fogbugz/__init__.py:61-62 | Splitting `sTags` at ',' gives back the tags when no tag contains a comma. |
| Mapping.TagsFixVersionsFirst | src/jira2fogbugz/__init__.py:53-62 | Fix versions come first and "export" is dropped: versions ["1.0"] and labels ["export", "urgent"] give "1.0,urgent". |
| Mapping.TagsKeepDuplicates | src/jira2fogbugz/__init__.py:53-62 | A name that is both a fix version and a label is a tag twice. |
| Mapping.TagsOmittedForExportOnly | src/jira2fogbugz/__init__.py:57-62 | With no fix versions and only "export" as a label, `sTags` is left out. |
| Mapping.CollectTags | src/jira2fogbugz/__init__.py:53-60 | The two loops give the fix versions, then the kept labels. As a multiset, the result is the fix versions plus the labels minus every "export". |
| Mapping.CategoryOf | src/jira2fogbugz/__init__.py:67-80 | An unknown type fails with an error naming the type; which names get which category is stated by `Mapping.CategoryOfCases`. |
| Mapping.CategoryOfTable | src/jira2fogbugz/__init__.py:67-80 | Every whole issue-type name the branches spell out gets the category of its branch. |
| Mapping.CategoryOfFragments | src/jira2fogbugz/__init__.py:69-78 | Substrings of "Bug" and of the item names are accepted. "Bugs" is rejected. |
| Mapping.CategoryOfCases | src/jira2fogbugz/__init__.py:67-80 | Feature holds exactly for the five names, Bug exactly for substrings of "Bug", and Task exactly for the two names. Improvement item holds exactly when no earlier branch applies and the name is a substring of "Improvement Item" or "Documentation Item"; Testing item exactly when no earlier branch applies and it is a substring of "Testing Item". Every other name is an error. |
| Mapping.StageAttachments | src/jira2fogbugz/__init__.py:84-89 | The attachment loop ends with exactly the dictionary `Staged` describes. |
| Mapping.Staged | src/jira2fogbugz/__init__.py:84-89 | Every attachment's file name is a key, and no other key is. The content of the last attachment with a name wins. |
| Mapping.CommentEventLayout | src/jira2fogbugz/__init__.py:136-138 | The event is "Edited by ", the author, a space, the update stamp, a space and two newlines, then the body, each at its exact position and nothing else. |
| Mapping.ImportNote | src/jira2fogbugz/__init__.py:140 | The note is "Imported from jira case " followed by the key, so the key can be read back. |
| Mapping.CaseFieldsOf | src/jira2fogbugz/__init__.py:39-82 | The case gets the given assignee, editor, project and parent, the category's `sCategory` name and the issue's priority. Its title is never empty and is the summary when there is one. The description can be recovered from the user-story text, and there are no tags exactly when there are no fix versions and no kept labels. |
| Mapping.CaseFieldsOfParts | src/jira2fogbugz/__init__.py:43-64 | Title, user-story text, `dt`, `hrsCurrEst` and `sTags` are exactly those of `Title`, `StoryText`, `Timestamp`, `HoursEstimate` and `TagsField` of `TagList`, so each has the properties proved about its function. |
| Paging.PageCount | src/jira2fogbugz/__init__.py:150-160 | The last page requested starts at or past the end, and every earlier page starts before it, so a short page is followed by one more request. No results means one request. |
| Paging.PageRequests | src/jira2fogbugz/__init__.py:153-155 | The i-th page request asks for 100 results of the query starting at offset 100·i. |
| Paging.PageRequestsAppend | src/jira2fogbugz/__init__.py:153-158 | One more page request extends the earlier ones by the next offset. |
| Paging.PageCountFromStop | src/jira2fogbugz/__init__.py:153-158 | Stopping after `k` non-empty pages of 100 means `k + 1` requests. |
| Paging.FetchIssues | src/jira2fogbugz/__init__.py:150-160 | Yields all matches in Jira's order, after requests at offsets 0, 100, 200 and so on. The final request is for the first empty page. |
| Tables.AssignLastWins | src/jira2fogbugz/__init__.py:214 | Filling a dict from pairs adds exactly the pairs' keys, and the last pair with a key sets its value. |
| Tables.Assign | src/jira2fogbugz/__init__.py:89 | Filling keeps every existing key, changes nothing for no pairs, and always leaves the last pair's value under its key. |
| People.EmailMap | src/jira2fogbugz/__init__.py:209-214 | Every person's lower-cased email is a key, and no other key is. The last person with an email wins. |
| People.BuildEmailMap | src/jira2fogbugz/__init__.py:209-214 | The people loop ends with exactly the map `EmailMap` describes. |
| People.EmailMapKeysLower | src/jira2fogbugz/__init__.py:214 | Every key is already lower-case. |
| People.DefaultAssignee | src/jira2fogbugz/__init__.py:215-218 | Found exactly when the lower-cased email is a key. The id is then one of the map's ids. Otherwise the error names the email. |
| People.DefaultAssigneeOfPeople | src/jira2fogbugz/__init__.py:215-218 | The default assignee is found exactly when some person's email matches it ignoring case, and it is the last such person. |
| Text.Lower | src/jira2fogbugz/__init__.py:42 | Lower-casing keeps the length, leaves no capital letter, turns each capital into its small letter, and leaves every other character unchanged. |
| Text.UpToFirst | src/jira2fogbugz/__init__.py:51 | `split(c)[0]` stops at the first `c`. |
| Text.UpTo | src/jira2fogbugz/__init__.py:51 | `split(c)[0]` is a prefix without `c`, and it is followed by `c` unless it is the whole string. |
| Text.Join | src/jira2fogbugz/__init__.py:62 | No parts give the empty string. Otherwise the first part is a prefix, every part fits in the result, and there is room for a separator between each pair of parts. |
| Text.SplitJoin | src/jira2fogbugz/__init__.py:62 | Joining with a separator that no part contains can be undone by splitting. |
| Query.BuildQuery | src/jira2fogbugz/__init__.py:221-223 | The query starts with `project = "`. Its length is that prefix, the project and the closing quote, plus "AND " and the filter when there is a filter. |
| Query.QueryRoundTrip | src/jira2fogbugz/__init__.py:221-223 | The project and the filter can be read back from the query when the project has no double quote. |
| Query.QueryNeedsUnquotedProject | src/jira2fogbugz/__init__.py:221 | The project is not escaped, so a quoted project and a filter can produce the same query. |

## Left out

- The command line and connection setup (lines 163-207, 224-238) are not modelled: argument parsing, client construction, error messages, exit codes, and the loop that calls `fb_create_issue` once per fetched issue. This includes the misspelled `FobBugzLogonError` at line 204.
- `print` output is left out. It has no effect on the import.
- Attachment temporary files (lines 37, 84-89, 132-134) are not modelled: the temporary directory, file writes, closing and removal. Attachments reach `new` as their contents. Downloading an attachment from Jira is not logged as a request.
- The two client libraries are reduced to their observable behaviour. Jira is a fixed table from query to results and from (key, comment id) to comment. FogBugz hands out consecutive case numbers and logs every call.
- `listPeople` and the parsing of `ixPerson` are left out. The people are a parameter of `People.BuildEmailMap`.
- `.lower()` is modelled on ASCII letters only. Unicode case mapping is left out.
- Mapping.HoursEstimate: uses exact rational division, so floating-point rounding is not modelled.
- Paging.FetchIssues: returns all pages at once. The original is a lazy generator (lines 153-160), and the run (lines 226-228) interleaves page requests with the imports of the issues already yielded. When an import raises, the original abandons the generator and never sends the later page requests, while the model has sent every page request before any import. When no import raises, only the relative order of Jira requests differs.
- Translation.Translate: requires a ghost rank that decreases along every parent and inward link of every issue Jira can return, not only of the issues reachable from the one imported. Only key lookups with exactly one result count as links (`RefsBelow`), because any other lookup fails at lines 100 and 112 before importing anything. On a cyclic graph the original either stops with the error of an issue on the cycle that fails before its dependencies are imported (for example an unknown type at line 80 or a missing comment at line 93), or recurses until Python's recursion limit. Neither outcome is modelled.
- Clients.FogBugzClient.New: never fails, and neither do `Edit` and `Resolve`. In the original an exception from `fb.new`, `fb.edit` or `fb.resolve` (lines 129-145) ends the import, possibly after the case exists but before line 147 records it. `Invariants.LedgerMatches`, which says every created case is in the ledger, relies on these calls never failing.
- Translation.Translate: all of an issue's state changes form one functional step. That the ledger entry is written after every tracker call for the issue is shown by `Importing.Importer.CreateCase`, which writes it last.
- Python truthiness of optional fields is modelled with `Option` and empty sequences. An absent assignee, reporter or parent is `None`. An empty summary, description or filter string counts as absent where the code tests it. Absent or empty comments, labels, fix versions, attachments and links are all `[]`.
- The unused `FOGBUGZ_FIELDS` constant (lines 17-19) and `setup.py` are not part of this model.
