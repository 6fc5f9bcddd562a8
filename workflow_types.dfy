/**
 * The configuration entities of the workflow engine: workflows, their
 * triggers and their actions, plus the context a trigger is matched against.
 * All of them are read-only values while workflows run.
 */
module WorkflowTypes {
  import opened Wrappers
  import opened OrderedIds
  import opened ContentMatch

  /** Trigger types as stored: the ORM field is an integer, so an unknown value can be stored. */
  const CONSUMPTION: int := 1
  const DOCUMENT_ADDED: int := 2
  const DOCUMENT_UPDATED: int := 3

  predicate KnownTriggerType(kind: int) {
    kind == CONSUMPTION || kind == DOCUMENT_ADDED || kind == DOCUMENT_UPDATED
  }

  /** Where a file being consumed came from. */
  datatype DocumentSource = ConsumeFolder | ApiUpload | MailFetch

  /**
   * A trigger: its type and its filters. An empty `sources` list, an empty
   * `filterHasTags` list and `None` mean "no filter"; `algorithm == MatchNone`
   * means no content filter.
   */
  datatype Trigger = Trigger(
    id: Id,
    kind: int,
    sources: seq<DocumentSource>,
    filterMailRule: Option<Id>,
    filterFilename: Option<string>,
    filterPath: Option<string>,
    filterHasTags: seq<Id>,
    filterHasDocumentType: Option<Id>,
    filterHasCorrespondent: Option<Id>,
    algorithm: MatchAlgorithm,
    matchText: string,
    isInsensitive: bool)

  /** An ASSIGNMENT action: single values that overwrite, lists that are added. */
  datatype Assignment = Assignment(
    assignTitle: Option<string>,
    assignCorrespondent: Option<Id>,
    assignDocumentType: Option<Id>,
    assignStoragePath: Option<Id>,
    assignOwner: Option<Id>,
    assignTags: seq<Id>,
    assignViewUsers: seq<Id>,
    assignViewGroups: seq<Id>,
    assignChangeUsers: seq<Id>,
    assignChangeGroups: seq<Id>,
    assignCustomFields: seq<Id>)

  /** A REMOVAL action: listed items to take away and seven remove-everything flags. */
  datatype Removal = Removal(
    removeCorrespondents: set<Id>,
    removeTags: set<Id>,
    removeDocumentTypes: set<Id>,
    removeStoragePaths: set<Id>,
    removeOwners: set<Id>,
    removeCustomFields: set<Id>,
    removeViewUsers: set<Id>,
    removeViewGroups: set<Id>,
    removeChangeUsers: set<Id>,
    removeChangeGroups: set<Id>,
    removeAllCorrespondents: bool,
    removeAllTags: bool,
    removeAllDocumentTypes: bool,
    removeAllStoragePaths: bool,
    removeAllOwners: bool,
    removeAllCustomFields: bool,
    removeAllPermissions: bool)

  datatype Action = Assign(assignment: Assignment) | Remove(removal: Removal)

  datatype Workflow = Workflow(
    id: Id,
    order: int,
    enabled: bool,
    triggers: seq<Trigger>,
    actions: seq<Action>)

  /** What is known about the file or document being matched. */
  datatype MatchContext = MatchContext(
    source: DocumentSource,
    path: string,
    filename: string,
    mailRule: Option<Id>,
    tags: seq<Id>,
    correspondent: Option<Id>,
    documentType: Option<Id>,
    content: string)

  /** Why a trigger did not match: the first criterion that failed, with its values. */
  datatype Reason =
    | SourceNotAllowed(source: DocumentSource, allowed: seq<DocumentSource>)
    | MailRuleMismatch(mailRule: Option<Id>, wanted: Id)
    | FilenameMismatch(filename: string, pattern: string)
    | PathMismatch(path: string, pattern: string)
    | TagsMissing(tags: seq<Id>, required: seq<Id>)
    | DocumentTypeMismatch(documentType: Option<Id>, wanted: Id)
    | CorrespondentMismatch(correspondent: Option<Id>, wanted: Id)
    | ContentMismatch(algorithm: MatchAlgorithm)
    | NoTriggerOfType(kind: int)

  /** One line of the matching log. */
  datatype LogLine =
    | Matched(trigger: Id, workflow: Id)
    | DidNotMatch(workflow: Id)
    | Detail(reason: Reason)

  /** The fatal configuration error: a trigger type the matcher does not know. */
  datatype MatchError = UnsupportedTriggerType(kind: int)
}
