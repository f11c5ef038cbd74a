/** The records that flow from Jira to FogBugz. */
module Types {
  import opened Wrappers

  /** A file attached to a Jira issue. */
  datatype Attachment = Attachment(filename: string, content: seq<bv8>)

  /** One entry of an issue's `issuelinks`; either side may be missing. */
  datatype Link = Link(inward: Option<string>, outward: Option<string>)

  /** A Jira comment as returned by the comment lookup. */
  datatype Comment = Comment(author: string, updated: string, body: string)

  /** A FogBugz person as listed by `listPeople`. */
  datatype Person = Person(email: string, id: int)

  /**
   * A Jira issue with the fields the importer reads. Text fields that Jira may leave
   * unset are the empty string, which Python treats as false just like `None`.
   */
  datatype Issue = Issue(
    key: string,
    summary: string,
    description: string,
    created: string,
    issueType: string,
    priority: string,
    assignee: Option<string>,        // the assignee's email address
    reporter: Option<string>,        // the reporter's email address
    fixVersions: seq<string>,
    labels: seq<string>,
    originalEstimate: Option<int>,   // seconds
    resolved: bool,                  // whether `resolution` is set
    attachments: seq<Attachment>,
    commentIds: seq<string>,
    parent: Option<string>,          // the declared parent's key
    links: seq<Link>)

  /** The FogBugz categories the importer can choose, with the `sCategory` name of each. */
  datatype Category = Feature | Bug | Task | ImprovementItem | TestingItem {
    function Name(): (name: string)
      ensures |name| > 0
    {
      match this
      case Feature => "Feature"
      case Bug => "Bug"
      case Task => "Task"
      case ImprovementItem => "Improvement item"
      case TestingItem => "Testing item"
    }
  }

  /**
   * The keyword arguments of the FogBugz `new` call: ixPersonAssignedTo, sTitle, the
   * user-story text custom field, sProject, dt, hrsCurrEst, sTags (left out when None),
   * sCategory, ixPriority, ixBugParent (left out when None) and ixPersonEditedBy.
   */
  datatype CaseFields = CaseFields(
    assignedTo: int,
    title: string,
    storyText: string,
    project: string,
    dt: string,
    hrsCurrEst: real,
    tags: Option<string>,
    category: string,
    priority: string,
    parent: Option<int>,
    editedBy: int)

  /** The exceptions that abort an import. */
  datatype Error =
    | UnmappedEmail(email: string)                       // KeyError on the email map
    | UnknownIssueType(name: string)                     // "Unknown issue type"
    | CommentUnavailable(key: string, commentId: string) // the comment lookup failed
    | NotExactlyOne(key: string, found: nat)             // "Was expecting to find 1 result"
    | UnknownDefaultAssignee(email: string)              // default assignee not in FogBugz
}
