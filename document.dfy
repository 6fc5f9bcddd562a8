/**
 * The document record that workflows change in place.
 */
module DocumentRecord {
  import opened Wrappers
  import opened OrderedIds
  import opened WorkflowTypes
  import opened TitleTemplate
  import opened DocumentActions

  class Document {
    var title: string
    /** The title template chosen so far in the current run; rendered when the run ends. */
    var pendingTitle: Option<string>
    var correspondent: Option<Id>
    var documentType: Option<Id>
    var storagePath: Option<Id>
    var owner: Option<Id>
    var tags: seq<Id>
    var customFields: seq<Id>
    var viewUsers: seq<Id>
    var viewGroups: seq<Id>
    var changeUsers: seq<Id>
    var changeGroups: seq<Id>

    function State(): DocState
      reads this
    {
      DocState(title, pendingTitle, correspondent, documentType, storagePath, owner,
               tags, customFields, viewUsers, viewGroups, changeUsers, changeGroups)
    }

    predicate Valid()
      reads this
    {
      WellFormed(State())
    }

    /** A stored document, with no title template pending. */
    constructor (title: string, correspondent: Option<Id>, documentType: Option<Id>,
                 storagePath: Option<Id>, owner: Option<Id>, tags: seq<Id>, customFields: seq<Id>,
                 viewUsers: seq<Id>, viewGroups: seq<Id>, changeUsers: seq<Id>, changeGroups: seq<Id>)
      requires NoDup(tags) && NoDup(customFields)
      requires NoDup(viewUsers) && NoDup(viewGroups) && NoDup(changeUsers) && NoDup(changeGroups)
      ensures Valid()
      ensures State() == DocState(title, None, correspondent, documentType, storagePath, owner,
                                  tags, customFields, viewUsers, viewGroups, changeUsers, changeGroups)
    {
      this.title := title;
      this.pendingTitle := None;
      this.correspondent := correspondent;
      this.documentType := documentType;
      this.storagePath := storagePath;
      this.owner := owner;
      this.tags := tags;
      this.customFields := customFields;
      this.viewUsers := viewUsers;
      this.viewGroups := viewGroups;
      this.changeUsers := changeUsers;
      this.changeGroups := changeGroups;
    }

    /** `tags.add` of every listed tag the document lacks. */
    method AddTags(ids: seq<Id>)
      modifies this`tags
      ensures tags == Union(old(tags), ids)
    {
      tags := AppendMissing(tags, ids);
    }

    /** Creates a custom field instance for every listed field the document lacks. */
    method AddCustomFields(ids: seq<Id>)
      modifies this`customFields
      ensures customFields == Union(old(customFields), ids)
    {
      customFields := AppendMissing(customFields, ids);
    }

    /** Grants view and change permissions, merged with the ones already given. */
    method GrantPermissions(users: seq<Id>, groups: seq<Id>, changers: seq<Id>, changeGroupIds: seq<Id>)
      modifies this`viewUsers, this`viewGroups, this`changeUsers, this`changeGroups
      ensures viewUsers == Union(old(viewUsers), users) && viewGroups == Union(old(viewGroups), groups)
      ensures changeUsers == Union(old(changeUsers), changers)
      ensures changeGroups == Union(old(changeGroups), changeGroupIds)
    {
      var newViewUsers := AppendMissing(viewUsers, users);
      var newViewGroups := AppendMissing(viewGroups, groups);
      var newChangeUsers := AppendMissing(changeUsers, changers);
      var newChangeGroups := AppendMissing(changeGroups, changeGroupIds);
      viewUsers, viewGroups, changeUsers, changeGroups :=
        newViewUsers, newViewGroups, newChangeUsers, newChangeGroups;
    }

    /** An ASSIGNMENT action: overwrite the references it sets, add what it lists. */
    method ApplyAssignment(a: Assignment)
      modifies this
      ensures title == old(title)
      ensures pendingTitle == (if a.assignTitle.Some? then a.assignTitle else old(pendingTitle))
      ensures correspondent == Overwrite(old(correspondent), a.assignCorrespondent)
      ensures documentType == Overwrite(old(documentType), a.assignDocumentType)
      ensures storagePath == Overwrite(old(storagePath), a.assignStoragePath)
      ensures owner == Overwrite(old(owner), a.assignOwner)
      ensures tags == Union(old(tags), a.assignTags)
      ensures customFields == Union(old(customFields), a.assignCustomFields)
      ensures viewUsers == Union(old(viewUsers), a.assignViewUsers)
      ensures viewGroups == Union(old(viewGroups), a.assignViewGroups)
      ensures changeUsers == Union(old(changeUsers), a.assignChangeUsers)
      ensures changeGroups == Union(old(changeGroups), a.assignChangeGroups)
    {
      SetReferences(a);
      AddItems(a);
    }

    /** The single-valued part of an assignment: the title template and the four references. */
    method SetReferences(a: Assignment)
      modifies this`pendingTitle, this`correspondent, this`documentType, this`storagePath, this`owner
      ensures pendingTitle == (if a.assignTitle.Some? then a.assignTitle else old(pendingTitle))
      ensures correspondent == Overwrite(old(correspondent), a.assignCorrespondent)
      ensures documentType == Overwrite(old(documentType), a.assignDocumentType)
      ensures storagePath == Overwrite(old(storagePath), a.assignStoragePath)
      ensures owner == Overwrite(old(owner), a.assignOwner)
    {
      pendingTitle, correspondent, documentType, storagePath, owner :=
        if a.assignTitle.Some? then a.assignTitle else pendingTitle,
        Overwrite(correspondent, a.assignCorrespondent),
        Overwrite(documentType, a.assignDocumentType),
        Overwrite(storagePath, a.assignStoragePath),
        Overwrite(owner, a.assignOwner);
    }

    /** The many-valued part of an assignment: tags, custom fields and permissions are merged. */
    method AddItems(a: Assignment)
      modifies this`tags, this`customFields, this`viewUsers, this`viewGroups, this`changeUsers, this`changeGroups
      ensures tags == Union(old(tags), a.assignTags)
      ensures customFields == Union(old(customFields), a.assignCustomFields)
      ensures viewUsers == Union(old(viewUsers), a.assignViewUsers)
      ensures viewGroups == Union(old(viewGroups), a.assignViewGroups)
      ensures changeUsers == Union(old(changeUsers), a.assignChangeUsers)
      ensures changeGroups == Union(old(changeGroups), a.assignChangeGroups)
    {
      AddTags(a.assignTags);
      AddCustomFields(a.assignCustomFields);
      GrantPermissions(a.assignViewUsers, a.assignViewGroups, a.assignChangeUsers, a.assignChangeGroups);
    }

    /** Empties the tags under the remove-all flag, else removes the listed ones. */
    method RemoveTags(drop: set<Id>, all: bool)
      modifies this`tags
      ensures tags == Pruned(old(tags), drop, all)
    {
      if all {
        tags := [];
      } else {
        tags := RemoveListed(tags, drop);
      }
    }

    /** Deletes every custom field instance under the remove-all flag, else the listed ones. */
    method RemoveCustomFields(drop: set<Id>, all: bool)
      modifies this`customFields
      ensures customFields == Pruned(old(customFields), drop, all)
    {
      if all {
        customFields := [];
      } else {
        customFields := RemoveListed(customFields, drop);
      }
    }

    /** Withdraws every permission under the remove-all flag, else the listed ones. */
    method RevokePermissions(r: Removal)
      modifies this`viewUsers, this`viewGroups, this`changeUsers, this`changeGroups
      ensures viewUsers == Pruned(old(viewUsers), r.removeViewUsers, r.removeAllPermissions)
      ensures viewGroups == Pruned(old(viewGroups), r.removeViewGroups, r.removeAllPermissions)
      ensures changeUsers == Pruned(old(changeUsers), r.removeChangeUsers, r.removeAllPermissions)
      ensures changeGroups == Pruned(old(changeGroups), r.removeChangeGroups, r.removeAllPermissions)
    {
      if r.removeAllPermissions {
        viewUsers, viewGroups, changeUsers, changeGroups := [], [], [], [];
      } else {
        var newViewUsers := RemoveListed(viewUsers, r.removeViewUsers);
        var newViewGroups := RemoveListed(viewGroups, r.removeViewGroups);
        var newChangeUsers := RemoveListed(changeUsers, r.removeChangeUsers);
        var newChangeGroups := RemoveListed(changeGroups, r.removeChangeGroups);
        viewUsers, viewGroups, changeUsers, changeGroups :=
          newViewUsers, newViewGroups, newChangeUsers, newChangeGroups;
      }
    }

    /** A REMOVAL action: clear listed references, take listed items out, honour the remove-all flags. */
    method ApplyRemoval(r: Removal)
      modifies this
      ensures title == old(title) && pendingTitle == old(pendingTitle)
      ensures correspondent == Cleared(old(correspondent), r.removeCorrespondents, r.removeAllCorrespondents)
      ensures documentType == Cleared(old(documentType), r.removeDocumentTypes, r.removeAllDocumentTypes)
      ensures storagePath == Cleared(old(storagePath), r.removeStoragePaths, r.removeAllStoragePaths)
      ensures owner == Cleared(old(owner), r.removeOwners, r.removeAllOwners)
      ensures tags == Pruned(old(tags), r.removeTags, r.removeAllTags)
      ensures customFields == Pruned(old(customFields), r.removeCustomFields, r.removeAllCustomFields)
      ensures viewUsers == Pruned(old(viewUsers), r.removeViewUsers, r.removeAllPermissions)
      ensures viewGroups == Pruned(old(viewGroups), r.removeViewGroups, r.removeAllPermissions)
      ensures changeUsers == Pruned(old(changeUsers), r.removeChangeUsers, r.removeAllPermissions)
      ensures changeGroups == Pruned(old(changeGroups), r.removeChangeGroups, r.removeAllPermissions)
    {
      ClearReferences(r);
      PruneItems(r);
    }

    /** The single-valued part of a removal: the four references are cleared or kept. */
    method ClearReferences(r: Removal)
      modifies this`correspondent, this`documentType, this`storagePath, this`owner
      ensures correspondent == Cleared(old(correspondent), r.removeCorrespondents, r.removeAllCorrespondents)
      ensures documentType == Cleared(old(documentType), r.removeDocumentTypes, r.removeAllDocumentTypes)
      ensures storagePath == Cleared(old(storagePath), r.removeStoragePaths, r.removeAllStoragePaths)
      ensures owner == Cleared(old(owner), r.removeOwners, r.removeAllOwners)
    {
      correspondent, documentType, storagePath, owner :=
        Cleared(correspondent, r.removeCorrespondents, r.removeAllCorrespondents),
        Cleared(documentType, r.removeDocumentTypes, r.removeAllDocumentTypes),
        Cleared(storagePath, r.removeStoragePaths, r.removeAllStoragePaths),
        Cleared(owner, r.removeOwners, r.removeAllOwners);
    }

    /** The many-valued part of a removal: tags, custom fields and permissions are pruned. */
    method PruneItems(r: Removal)
      modifies this`tags, this`customFields, this`viewUsers, this`viewGroups, this`changeUsers, this`changeGroups
      ensures tags == Pruned(old(tags), r.removeTags, r.removeAllTags)
      ensures customFields == Pruned(old(customFields), r.removeCustomFields, r.removeAllCustomFields)
      ensures viewUsers == Pruned(old(viewUsers), r.removeViewUsers, r.removeAllPermissions)
      ensures viewGroups == Pruned(old(viewGroups), r.removeViewGroups, r.removeAllPermissions)
      ensures changeUsers == Pruned(old(changeUsers), r.removeChangeUsers, r.removeAllPermissions)
      ensures changeGroups == Pruned(old(changeGroups), r.removeChangeGroups, r.removeAllPermissions)
    {
      RemoveTags(r.removeTags, r.removeAllTags);
      RemoveCustomFields(r.removeCustomFields, r.removeAllCustomFields);
      RevokePermissions(r);
    }

    method Perform(act: Action)
      modifies this
      ensures State() == DocumentActions.ApplyAction(old(State()), act)
    {
      ghost var before := State();
      match act {
        case Assign(a) =>
          ApplyAssignment(a);
          AssignStateByFields(before, a, State());
        case Remove(r) =>
          ApplyRemoval(r);
          RemoveStateByFields(before, r, State());
      }
    }

    /** The matched workflows one after another, each one's actions in their order. */
    method ApplyMatched(ws: seq<Workflow>)
      requires Valid()
      modifies this
      ensures Valid()
      ensures State() == DocumentActions.ApplyWorkflows(old(State()), ws)
    {
      ghost var start := State();
      for i := 0 to |ws|
        invariant Valid()
        invariant State() == DocumentActions.ApplyWorkflows(start, ws[..i])
      {
        ghost var before := State();
        var acts := ws[i].actions;
        for j := 0 to |acts|
          invariant Valid()
          invariant State() == ApplyActions(before, acts[..j])
        {
          ApplyActionWellFormed(State(), acts[j]);
          assert acts[..j + 1][..j] == acts[..j];
          Perform(acts[j]);
        }
        assert acts[..|acts|] == acts;
        assert ws[..i + 1][..i] == ws[..i];
      }
      assert ws[..|ws|] == ws;
    }

    /** Renders the pending template; on failure the title stays and the error is returned. */
    method SettleTitle(env: TitleContext) returns (error: Option<TemplateError>)
      modifies this
      ensures State() == DocumentActions.SettleTitle(old(State()), env).state
      ensures error == DocumentActions.SettleTitle(old(State()), env).error
    {
      error := None;
      if pendingTitle.Some? {
        match Format(pendingTitle.value, PlaceholdersOf(State(), env)) {
          case Ok(rendered) => title := rendered;
          case Err(e) => error := Some(e);
        }
        pendingTitle := None;
      }
    }
  }
}

/**
 * One run of the workflow engine for an event: select the workflows that
 * fire, apply their actions to the document one after another, then render
 * the title.
 */
module Orchestrator {
  import opened Wrappers
  import opened WorkflowTypes
  import opened TitleTemplate
  import opened WorkflowSelection
  import opened DocumentActions
  import opened DocumentRecord

  /** What a run reports besides the changed document. */
  datatype Report = Report(log: seq<LogLine>, titleError: Option<TemplateError>)

  datatype Outcome = Outcome(state: DocState, report: Report)

  /** One run, as a function: the specification of `RunWorkflows`. */
  function Run(s: DocState, ws: seq<Workflow>, kind: int, intake: Intake, env: TitleContext): (r: Result<Outcome, MatchError>)
    ensures KnownTriggerType(kind) ==> r.Ok?
    ensures r.Err? ==> r.error == UnsupportedTriggerType(kind)
    ensures r.Ok? ==> r.value.state.pendingTitle.None?
  {
    match MatchWorkflows(ContextOf(s, intake), ws, kind)
    case Err(e) => Err(e)
    case Ok(selection) =>
      var settled := DocumentActions.SettleTitle(ApplyWorkflows(s.(pendingTitle := None), selection.matched), RenderContext(intake, env));
      Ok(Outcome(settled.state, Report(selection.log, settled.error)))
  }

  /**
   * Runs the workflows for one event on a document. A configuration error leaves the
   * document untouched; otherwise the fired workflows' actions are applied and the title
   * is rendered.
   */
  method RunWorkflows(doc: Document, ws: seq<Workflow>, kind: int, intake: Intake, env: TitleContext)
    returns (r: Result<Report, MatchError>)
    requires doc.Valid()
    modifies doc
    ensures doc.Valid()
    ensures match Run(old(doc.State()), ws, kind, intake, env)
      case Err(e) => r == Err(e) && doc.State() == old(doc.State())
      case Ok(o) => r == Ok(o.report) && doc.State() == o.state
  {
    var selection := MatchWorkflows(ContextOf(doc.State(), intake), ws, kind);
    if selection.Err? {
      return Err(selection.error);
    }
    doc.pendingTitle := None;
    doc.ApplyMatched(selection.value.matched);
    var error := doc.SettleTitle(RenderContext(intake, env));
    r := Ok(Report(selection.value.log, error));
  }

  /** When no workflow fires, a run changes nothing but drops a stale pending template. */
  lemma NothingFiresNothingChanges(s: DocState, ws: seq<Workflow>, kind: int, intake: Intake, env: TitleContext)
    requires KnownTriggerType(kind)
    requires forall w :: w in ws ==> !Fires(ContextOf(s, intake), w, kind)
    ensures Run(s, ws, kind, intake, env).Ok?
    ensures Run(s, ws, kind, intake, env).value.state == s.(pendingTitle := None)
    ensures Run(s, ws, kind, intake, env).value.report.titleError.None?
  {
    var ctx := ContextOf(s, intake);
    MatchWorkflowsSpec(ctx, ws, kind);
    var sorted := SortByOrder(ws);
    SortByOrderMembers(ws);
    NoneFiring(ctx, sorted, kind);
    var cleared := s.(pendingTitle := None);
    assert ApplyWorkflows(cleared, []) == cleared;
    assert DocumentActions.SettleTitle(cleared, RenderContext(intake, env)) == Settled(cleared, None);
  }

  /** For an unsupported trigger type a run fails iff an enabled workflow has a trigger of that type. */
  lemma UnsupportedTypeAborts(s: DocState, ws: seq<Workflow>, kind: int, intake: Intake, env: TitleContext)
    requires !KnownTriggerType(kind)
    ensures Run(s, ws, kind, intake, env).Err?
        <==> exists w :: w in ws && w.enabled && exists t :: t in w.triggers && t.kind == kind
    ensures Run(s, ws, kind, intake, env).Err? ==> Run(s, ws, kind, intake, env).error == UnsupportedTriggerType(kind)
  {
    var sorted := SortByOrder(ws);
    SelectUnsupported(ContextOf(s, intake), sorted, kind);
    SortByOrderMembers(ws);
    if exists w :: w in ws && w.enabled && exists t :: t in w.triggers && t.kind == kind {
      var w :| w in ws && w.enabled && exists t :: t in w.triggers && t.kind == kind;
      assert w in sorted;
      var i :| 0 <= i < |sorted| && sorted[i] == w;
      assert Offending(sorted[i], kind);
    }
  }

  /** A template error keeps the original title but every other effect of the actions stays. */
  lemma TitleErrorKeepsOtherEffects(s: DocState, ws: seq<Workflow>, kind: int, intake: Intake, env: TitleContext)
    requires Run(s, ws, kind, intake, env).Ok?
    requires Run(s, ws, kind, intake, env).value.report.titleError.Some?
    ensures var applied := ApplyWorkflows(s.(pendingTitle := None), MatchWorkflows(ContextOf(s, intake), ws, kind).value.matched);
      Run(s, ws, kind, intake, env).value.state == applied.(title := s.title, pendingTitle := None)
  {
    var applied := ApplyWorkflows(s.(pendingTitle := None), MatchWorkflows(ContextOf(s, intake), ws, kind).value.matched);
    ApplyWorkflowsKeepTitle(s.(pendingTitle := None), MatchWorkflows(ContextOf(s, intake), ws, kind).value.matched);
  }

  /** Actions never write the title itself; only rendering the template does. */
  lemma {:induction false} ApplyWorkflowsKeepTitle(s: DocState, ws: seq<Workflow>)
    ensures ApplyWorkflows(s, ws).title == s.title
    decreases |ws|
  {
    if ws != [] {
      ApplyWorkflowsKeepTitle(s, ws[..|ws| - 1]);
      ApplyActionsKeepTitle(ApplyWorkflows(s, ws[..|ws| - 1]), ws[|ws| - 1].actions);
    }
  }

  lemma {:induction false} ApplyActionsKeepTitle(s: DocState, acts: seq<Action>)
    ensures ApplyActions(s, acts).title == s.title
    decreases |acts|
  {
    if acts != [] {
      ApplyActionsKeepTitle(s, acts[..|acts| - 1]);
    }
  }
}
