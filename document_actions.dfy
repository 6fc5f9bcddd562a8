/**
 * What the actions of matched workflows do to a document, as functions on a
 * snapshot of its workflow-relevant fields. These are the specification of
 * the `Document` methods.
 *
 * Actions run in order: matched workflow by matched workflow, action by
 * action. An ASSIGNMENT overwrites the single-valued references it sets and
 * adds its lists in first-seen order; a REMOVAL clears a reference only when
 * its value is listed (or the matching remove-all flag is set) and subtracts
 * listed items from the lists. The title template is remembered, last writer
 * winning, and rendered once all actions have run (`SettleTitle`).
 */
module DocumentActions {
  import opened Wrappers
  import opened OrderedIds
  import opened WorkflowTypes
  import opened TitleTemplate

  /** The fields of a document that workflows read or change. */
  datatype DocState = DocState(
    title: string,
    pendingTitle: Option<string>,
    correspondent: Option<Id>,
    documentType: Option<Id>,
    storagePath: Option<Id>,
    owner: Option<Id>,
    tags: seq<Id>,
    customFields: seq<Id>,
    viewUsers: seq<Id>,
    viewGroups: seq<Id>,
    changeUsers: seq<Id>,
    changeGroups: seq<Id>)

  /** The single-valued references an action can set or clear. */
  datatype RefField = CorrespondentField | DocumentTypeField | StoragePathField | OwnerField

  /** The ordered-set fields an action can add to or subtract from. */
  datatype ListField =
    | TagsField | CustomFieldsField
    | ViewUsersField | ViewGroupsField | ChangeUsersField | ChangeGroupsField

  function Ref(s: DocState, f: RefField): Option<Id> {
    match f
    case CorrespondentField => s.correspondent
    case DocumentTypeField => s.documentType
    case StoragePathField => s.storagePath
    case OwnerField => s.owner
  }

  function Items(s: DocState, f: ListField): seq<Id> {
    match f
    case TagsField => s.tags
    case CustomFieldsField => s.customFields
    case ViewUsersField => s.viewUsers
    case ViewGroupsField => s.viewGroups
    case ChangeUsersField => s.changeUsers
    case ChangeGroupsField => s.changeGroups
  }

  /** No list holds an id twice: one tag link, one custom field instance, one permission each. */
  predicate WellFormed(s: DocState) {
    NoDup(s.tags) && NoDup(s.customFields)
    && NoDup(s.viewUsers) && NoDup(s.viewGroups) && NoDup(s.changeUsers) && NoDup(s.changeGroups)
  }

  function AssignedRef(a: Assignment, f: RefField): Option<Id> {
    match f
    case CorrespondentField => a.assignCorrespondent
    case DocumentTypeField => a.assignDocumentType
    case StoragePathField => a.assignStoragePath
    case OwnerField => a.assignOwner
  }

  function AssignedItems(a: Assignment, f: ListField): seq<Id> {
    match f
    case TagsField => a.assignTags
    case CustomFieldsField => a.assignCustomFields
    case ViewUsersField => a.assignViewUsers
    case ViewGroupsField => a.assignViewGroups
    case ChangeUsersField => a.assignChangeUsers
    case ChangeGroupsField => a.assignChangeGroups
  }

  function ListedRefs(r: Removal, f: RefField): set<Id> {
    match f
    case CorrespondentField => r.removeCorrespondents
    case DocumentTypeField => r.removeDocumentTypes
    case StoragePathField => r.removeStoragePaths
    case OwnerField => r.removeOwners
  }

  function ClearsRef(r: Removal, f: RefField): bool {
    match f
    case CorrespondentField => r.removeAllCorrespondents
    case DocumentTypeField => r.removeAllDocumentTypes
    case StoragePathField => r.removeAllStoragePaths
    case OwnerField => r.removeAllOwners
  }

  function ListedItems(r: Removal, f: ListField): set<Id> {
    match f
    case TagsField => r.removeTags
    case CustomFieldsField => r.removeCustomFields
    case ViewUsersField => r.removeViewUsers
    case ViewGroupsField => r.removeViewGroups
    case ChangeUsersField => r.removeChangeUsers
    case ChangeGroupsField => r.removeChangeGroups
  }

  /** The remove-all flag of a list; the permissions flag covers all four permission lists. */
  function ClearsItems(r: Removal, f: ListField): bool {
    match f
    case TagsField => r.removeAllTags
    case CustomFieldsField => r.removeAllCustomFields
    case _ => r.removeAllPermissions
  }

  function Overwrite(current: Option<Id>, given: Option<Id>): (r: Option<Id>)
    ensures given.Some? ==> r == given
    ensures given.None? ==> r == current
  {
    if given.Some? then given else current
  }

  /** A reference is cleared when the flag is set or its value is listed; otherwise it stays. */
  function Cleared(current: Option<Id>, listed: set<Id>, all: bool): (r: Option<Id>)
    ensures r.None? <==> all || current.None? || current.value in listed
    ensures r.Some? ==> r == current
  {
    if all || (current.Some? && current.value in listed) then None else current
  }

  /** A list is emptied when the flag is set, otherwise the listed items are taken out. */
  function Pruned(current: seq<Id>, listed: set<Id>, all: bool): (r: seq<Id>)
    ensures all ==> r == []
    ensures |r| <= |current|
  {
    if all then [] else Subtract(current, listed)
  }

  /** What stays after pruning: the unlisted items, and nothing under the flag. */
  lemma PrunedMembers(current: seq<Id>, listed: set<Id>, all: bool)
    ensures forall x :: x in Pruned(current, listed, all) <==> x in current && !all && x !in listed
  {
    SubtractMembers(current, listed);
  }

  /** An assignment never writes the title itself, and it only adds to lists: what was held keeps its place. */
  function AssignState(s: DocState, a: Assignment): (r: DocState)
    ensures r.title == s.title
    ensures s.tags <= r.tags && s.customFields <= r.customFields
    ensures s.viewUsers <= r.viewUsers && s.viewGroups <= r.viewGroups
    ensures s.changeUsers <= r.changeUsers && s.changeGroups <= r.changeGroups
  {
    s.(pendingTitle := if a.assignTitle.Some? then a.assignTitle else s.pendingTitle,
       correspondent := Overwrite(s.correspondent, a.assignCorrespondent),
       documentType := Overwrite(s.documentType, a.assignDocumentType),
       storagePath := Overwrite(s.storagePath, a.assignStoragePath),
       owner := Overwrite(s.owner, a.assignOwner),
       tags := Union(s.tags, a.assignTags),
       customFields := Union(s.customFields, a.assignCustomFields),
       viewUsers := Union(s.viewUsers, a.assignViewUsers),
       viewGroups := Union(s.viewGroups, a.assignViewGroups),
       changeUsers := Union(s.changeUsers, a.assignChangeUsers),
       changeGroups := Union(s.changeGroups, a.assignChangeGroups))
  }

  /** A removal never touches the title or the chosen template, and lists only shrink. */
  function RemoveState(s: DocState, r: Removal): (t: DocState)
    ensures t.title == s.title && t.pendingTitle == s.pendingTitle
    ensures |t.tags| <= |s.tags| && |t.customFields| <= |s.customFields|
    ensures |t.viewUsers| <= |s.viewUsers| && |t.viewGroups| <= |s.viewGroups|
    ensures |t.changeUsers| <= |s.changeUsers| && |t.changeGroups| <= |s.changeGroups|
  {
    s.(correspondent := Cleared(s.correspondent, r.removeCorrespondents, r.removeAllCorrespondents),
       documentType := Cleared(s.documentType, r.removeDocumentTypes, r.removeAllDocumentTypes),
       storagePath := Cleared(s.storagePath, r.removeStoragePaths, r.removeAllStoragePaths),
       owner := Cleared(s.owner, r.removeOwners, r.removeAllOwners),
       tags := Pruned(s.tags, r.removeTags, r.removeAllTags),
       customFields := Pruned(s.customFields, r.removeCustomFields, r.removeAllCustomFields),
       viewUsers := Pruned(s.viewUsers, r.removeViewUsers, r.removeAllPermissions),
       viewGroups := Pruned(s.viewGroups, r.removeViewGroups, r.removeAllPermissions),
       changeUsers := Pruned(s.changeUsers, r.removeChangeUsers, r.removeAllPermissions),
       changeGroups := Pruned(s.changeGroups, r.removeChangeGroups, r.removeAllPermissions))
  }

  /** An assignment's effect, field by field. */
  lemma AssignStateByFields(s: DocState, a: Assignment, t: DocState)
    requires t.title == s.title
    requires t.pendingTitle == (if a.assignTitle.Some? then a.assignTitle else s.pendingTitle)
    requires t.correspondent == Overwrite(s.correspondent, a.assignCorrespondent)
    requires t.documentType == Overwrite(s.documentType, a.assignDocumentType)
    requires t.storagePath == Overwrite(s.storagePath, a.assignStoragePath)
    requires t.owner == Overwrite(s.owner, a.assignOwner)
    requires t.tags == Union(s.tags, a.assignTags)
    requires t.customFields == Union(s.customFields, a.assignCustomFields)
    requires t.viewUsers == Union(s.viewUsers, a.assignViewUsers)
    requires t.viewGroups == Union(s.viewGroups, a.assignViewGroups)
    requires t.changeUsers == Union(s.changeUsers, a.assignChangeUsers)
    requires t.changeGroups == Union(s.changeGroups, a.assignChangeGroups)
    ensures t == AssignState(s, a)
  {
  }

  /** A removal's effect, field by field. */
  lemma RemoveStateByFields(s: DocState, r: Removal, t: DocState)
    requires t.title == s.title && t.pendingTitle == s.pendingTitle
    requires t.correspondent == Cleared(s.correspondent, r.removeCorrespondents, r.removeAllCorrespondents)
    requires t.documentType == Cleared(s.documentType, r.removeDocumentTypes, r.removeAllDocumentTypes)
    requires t.storagePath == Cleared(s.storagePath, r.removeStoragePaths, r.removeAllStoragePaths)
    requires t.owner == Cleared(s.owner, r.removeOwners, r.removeAllOwners)
    requires t.tags == Pruned(s.tags, r.removeTags, r.removeAllTags)
    requires t.customFields == Pruned(s.customFields, r.removeCustomFields, r.removeAllCustomFields)
    requires t.viewUsers == Pruned(s.viewUsers, r.removeViewUsers, r.removeAllPermissions)
    requires t.viewGroups == Pruned(s.viewGroups, r.removeViewGroups, r.removeAllPermissions)
    requires t.changeUsers == Pruned(s.changeUsers, r.removeChangeUsers, r.removeAllPermissions)
    requires t.changeGroups == Pruned(s.changeGroups, r.removeChangeGroups, r.removeAllPermissions)
    ensures t == RemoveState(s, r)
  {
  }

  function ApplyAction(s: DocState, act: Action): (r: DocState)
    ensures r.title == s.title
    ensures r.pendingTitle
        == if act.Assign? && act.assignment.assignTitle.Some? then act.assignment.assignTitle else s.pendingTitle
  {
    match act
    case Assign(a) => AssignState(s, a)
    case Remove(r) => RemoveState(s, r)
  }

  /** The actions applied in order, the last one outermost. */
  function ApplyActions(s: DocState, acts: seq<Action>): DocState
    decreases |acts|
  {
    if acts == [] then s
    else ApplyAction(ApplyActions(s, acts[..|acts| - 1]), acts[|acts| - 1])
  }

  /** The actions of the matched workflows, workflow by workflow. */
  function ApplyWorkflows(s: DocState, ws: seq<Workflow>): DocState
    decreases |ws|
  {
    if ws == [] then s
    else ApplyActions(ApplyWorkflows(s, ws[..|ws| - 1]), ws[|ws| - 1].actions)
  }

  function AllActions(ws: seq<Workflow>): (r: seq<Action>)
    decreases |ws|
  {
    if ws == [] then [] else AllActions(ws[..|ws| - 1]) + ws[|ws| - 1].actions
  }

  // ----- How each action treats one field -----

  lemma AssignRef(s: DocState, a: Assignment, f: RefField)
    ensures Ref(AssignState(s, a), f) == Overwrite(Ref(s, f), AssignedRef(a, f))
  {
  }

  lemma AssignItems(s: DocState, a: Assignment, f: ListField)
    ensures Items(AssignState(s, a), f) == Union(Items(s, f), AssignedItems(a, f))
  {
  }

  lemma RemoveRef(s: DocState, r: Removal, f: RefField)
    ensures Ref(RemoveState(s, r), f) == Cleared(Ref(s, f), ListedRefs(r, f), ClearsRef(r, f))
  {
  }

  lemma RemoveItems(s: DocState, r: Removal, f: ListField)
    ensures Items(RemoveState(s, r), f) == Pruned(Items(s, f), ListedItems(r, f), ClearsItems(r, f))
  {
  }

  lemma WellFormedItems(s: DocState, f: ListField)
    requires WellFormed(s)
    ensures NoDup(Items(s, f))
  {
  }

  /** A removal never touches the title, and never affects a field it does not name. */
  lemma RemovalLeavesUnnamed(s: DocState, r: Removal)
    ensures RemoveState(s, r).title == s.title && RemoveState(s, r).pendingTitle == s.pendingTitle
    ensures forall f :: !ClearsRef(r, f) && ListedRefs(r, f) == {} ==> Ref(RemoveState(s, r), f) == Ref(s, f)
    ensures forall f :: !ClearsItems(r, f) && ListedItems(r, f) == {} ==> Items(RemoveState(s, r), f) == Items(s, f)
  {
    forall f | !ClearsItems(r, f) && ListedItems(r, f) == {}
      ensures Items(RemoveState(s, r), f) == Items(s, f)
    {
      SubtractAbsent(Items(s, f), {});
    }
  }

  /** A removal item by item: an id stays iff it was there, is not listed and no remove-all applies. */
  lemma RemovalMembership(s: DocState, r: Removal, f: ListField, x: Id)
    ensures x in Items(RemoveState(s, r), f) <==> x in Items(s, f) && !ClearsItems(r, f) && x !in ListedItems(r, f)
    ensures ClearsItems(r, f) ==> Items(RemoveState(s, r), f) == []
  {
    RemoveItems(s, r, f);
    PrunedMembers(Items(s, f), ListedItems(r, f), ClearsItems(r, f));
  }

  // ----- Composition -----

  lemma {:induction false} ApplyActionsAppend(s: DocState, a: seq<Action>, b: seq<Action>)
    ensures ApplyActions(s, a + b) == ApplyActions(ApplyActions(s, a), b)
    decreases |b|
  {
    if b == [] {
      assert a + b == a;
    } else {
      ApplyActionsAppend(s, a, b[..|b| - 1]);
      assert (a + b)[..|a + b| - 1] == a + b[..|b| - 1];
      assert (a + b)[|a + b| - 1] == b[|b| - 1];
    }
  }

  /** Running the workflows one after another is running all their actions in sequence. */
  lemma {:induction false} ApplyWorkflowsFlatten(s: DocState, ws: seq<Workflow>)
    ensures ApplyWorkflows(s, ws) == ApplyActions(s, AllActions(ws))
    decreases |ws|
  {
    if ws != [] {
      ApplyWorkflowsFlatten(s, ws[..|ws| - 1]);
      ApplyActionsAppend(s, AllActions(ws[..|ws| - 1]), ws[|ws| - 1].actions);
    }
  }

  lemma {:induction false} AllActionsAppend(a: seq<Workflow>, b: seq<Workflow>)
    ensures AllActions(a + b) == AllActions(a) + AllActions(b)
    decreases |b|
  {
    if b == [] {
      assert a + b == a;
    } else {
      var b', last := b[..|b| - 1], b[|b| - 1].actions;
      AllActionsAppend(a, b');
      assert (a + b)[..|a + b| - 1] == a + b';
      assert (a + b)[|a + b| - 1].actions == last;
      assert AllActions(a + b) == (AllActions(a) + AllActions(b')) + last;
      assert AllActions(b) == AllActions(b') + last;
      assert (AllActions(a) + AllActions(b')) + last == AllActions(a) + (AllActions(b') + last);
    }
  }

  /** Workflows matched later continue from the state the earlier ones left. */
  lemma ApplyWorkflowsAppend(s: DocState, a: seq<Workflow>, b: seq<Workflow>)
    ensures ApplyWorkflows(s, a + b) == ApplyWorkflows(ApplyWorkflows(s, a), b)
  {
    ApplyWorkflowsFlatten(s, a + b);
    ApplyWorkflowsFlatten(s, a);
    ApplyWorkflowsFlatten(ApplyWorkflows(s, a), b);
    AllActionsAppend(a, b);
    ApplyActionsAppend(s, AllActions(a), AllActions(b));
  }

  // ----- Single-valued references: last writer wins -----

  /** An action that could change a reference whose value is `v`. */
  predicate Touches(act: Action, f: RefField, v: Id) {
    match act
    case Assign(a) => AssignedRef(a, f).Some?
    case Remove(r) => ClearsRef(r, f) || v in ListedRefs(r, f)
  }

  /**
   * The value assigned by action `i` survives to the end when no later action assigns
   * the same reference or removes that value.
   */
  lemma {:induction false} LastAssignmentWins(s: DocState, acts: seq<Action>, f: RefField, i: nat, v: Id)
    requires i < |acts| && acts[i].Assign? && AssignedRef(acts[i].assignment, f) == Some(v)
    requires forall j :: i < j < |acts| ==> !Touches(acts[j], f, v)
    ensures Ref(ApplyActions(s, acts), f) == Some(v)
    decreases |acts|
  {
    var n := |acts| - 1;
    var before := ApplyActions(s, acts[..n]);
    assert ApplyActions(s, acts) == ApplyAction(before, acts[n]);
    if i == n {
      AssignRef(before, acts[n].assignment, f);
    } else {
      assert forall j :: i < j < n ==> acts[..n][j] == acts[j];
      LastAssignmentWins(s, acts[..n], f, i, v);
      UntouchedStep(before, acts[n], f, v);
    }
  }

  lemma UntouchedStep(s: DocState, act: Action, f: RefField, v: Id)
    requires Ref(s, f) == Some(v) && !Touches(act, f, v)
    ensures Ref(ApplyAction(s, act), f) == Some(v)
  {
    match act {
      case Assign(a) => AssignRef(s, a, f);
      case Remove(r) => RemoveRef(s, r, f);
    }
  }

  /** A reference no action sets and no action clears keeps its value. */
  lemma {:induction false} UntouchedRefKept(s: DocState, acts: seq<Action>, f: RefField)
    requires forall j :: 0 <= j < |acts| ==> match acts[j]
      case Assign(a) => AssignedRef(a, f).None?
      case Remove(r) => !ClearsRef(r, f) && (Ref(s, f).None? || Ref(s, f).value !in ListedRefs(r, f))
    ensures Ref(ApplyActions(s, acts), f) == Ref(s, f)
    decreases |acts|
  {
    if acts != [] {
      var n := |acts| - 1;
      UntouchedRefKept(s, acts[..n], f);
      var before := ApplyActions(s, acts[..n]);
      match acts[n] {
        case Assign(a) => AssignRef(before, a, f);
        case Remove(r) => RemoveRef(before, r, f);
      }
    }
  }

  // ----- The title template: last writer wins -----

  /** Reference definition, read front to back: the template of the last assignment that sets one. */
  function LastTemplate(acts: seq<Action>, current: Option<string>): Option<string>
    decreases |acts|
  {
    if acts == [] then current
    else
      var next := if acts[0].Assign? && acts[0].assignment.assignTitle.Some?
        then acts[0].assignment.assignTitle else current;
      LastTemplate(acts[1..], next)
  }

  lemma {:induction false} LastTemplateSnoc(acts: seq<Action>, act: Action, current: Option<string>)
    ensures LastTemplate(acts + [act], current)
        == if act.Assign? && act.assignment.assignTitle.Some? then act.assignment.assignTitle
           else LastTemplate(acts, current)
    decreases |acts|
  {
    if acts == [] {
      assert ([] + [act])[1..] == [];
    } else {
      var next := if acts[0].Assign? && acts[0].assignment.assignTitle.Some?
        then acts[0].assignment.assignTitle else current;
      assert (acts + [act])[1..] == acts[1..] + [act];
      LastTemplateSnoc(acts[1..], act, next);
    }
  }

  /** The template to render is the one the last title-setting assignment chose. */
  lemma {:induction false} PendingTitleIsLastTemplate(s: DocState, acts: seq<Action>)
    ensures ApplyActions(s, acts).pendingTitle == LastTemplate(acts, s.pendingTitle)
    decreases |acts|
  {
    if acts != [] {
      var n := |acts| - 1;
      var init, last := acts[..n], acts[n];
      assert init + [last] == acts;
      PendingTitleIsLastTemplate(s, init);
      LastTemplateSnoc(init, last, s.pendingTitle);
      assert ApplyActions(s, acts).pendingTitle == ApplyAction(ApplyActions(s, init), last).pendingTitle;
    }
  }

  // ----- Lists: union in first-seen order -----

  predicate AllAssignments(acts: seq<Action>) {
    forall j :: 0 <= j < |acts| ==> acts[j].Assign?
  }

  /** Everything the assignments add to one list, in order. */
  function AssignedSoFar(acts: seq<Action>, f: ListField): seq<Id>
    requires AllAssignments(acts)
    decreases |acts|
  {
    if acts == [] then []
    else AssignedSoFar(acts[..|acts| - 1], f) + AssignedItems(acts[|acts| - 1].assignment, f)
  }

  /**
   * Assignments accumulate: a list ends up as the union, in first-seen order, of what it
   * held and everything assigned to it. In particular nothing it already held is dropped.
   */
  lemma {:induction false} AssignmentsAccumulate(s: DocState, acts: seq<Action>, f: ListField)
    requires AllAssignments(acts)
    ensures Items(ApplyActions(s, acts), f) == Union(Items(s, f), AssignedSoFar(acts, f))
    ensures Items(ApplyActions(s, acts), f)[..|Items(s, f)|] == Items(s, f)
    decreases |acts|
  {
    if acts == [] {
      assert Union(Items(s, f), []) == Items(s, f);
    } else {
      var n := |acts| - 1;
      AssignmentsAccumulate(s, acts[..n], f);
      AssignItems(ApplyActions(s, acts[..n]), acts[n].assignment, f);
      UnionAppend(Items(s, f), AssignedSoFar(acts[..n], f), AssignedItems(acts[n].assignment, f));
    }
  }

  /** Every list stays free of duplicates. */
  lemma {:induction false} ApplyActionsWellFormed(s: DocState, acts: seq<Action>)
    requires WellFormed(s)
    ensures WellFormed(ApplyActions(s, acts))
    decreases |acts|
  {
    if acts != [] {
      var n := |acts| - 1;
      ApplyActionsWellFormed(s, acts[..n]);
      ApplyActionWellFormed(ApplyActions(s, acts[..n]), acts[n]);
    }
  }

  lemma ApplyActionWellFormed(s: DocState, act: Action)
    requires WellFormed(s)
    ensures WellFormed(ApplyAction(s, act))
  {
    match act {
      case Assign(a) =>
        UnionNoDup(s.tags, a.assignTags);
        UnionNoDup(s.customFields, a.assignCustomFields);
        UnionNoDup(s.viewUsers, a.assignViewUsers);
        UnionNoDup(s.viewGroups, a.assignViewGroups);
        UnionNoDup(s.changeUsers, a.assignChangeUsers);
        UnionNoDup(s.changeGroups, a.assignChangeGroups);
      case Remove(r) =>
        SubtractNoDup(s.tags, r.removeTags);
        SubtractNoDup(s.customFields, r.removeCustomFields);
        SubtractNoDup(s.viewUsers, r.removeViewUsers);
        SubtractNoDup(s.viewGroups, r.removeViewGroups);
        SubtractNoDup(s.changeUsers, r.removeChangeUsers);
        SubtractNoDup(s.changeGroups, r.removeChangeGroups);
    }
  }

  /** Repeating an assignment changes nothing: a custom field is never created twice. */
  lemma AssignIdempotent(s: DocState, a: Assignment)
    ensures AssignState(AssignState(s, a), a) == AssignState(s, a)
  {
    UnionIdempotent(s.tags, a.assignTags);
    UnionIdempotent(s.customFields, a.assignCustomFields);
    UnionIdempotent(s.viewUsers, a.assignViewUsers);
    UnionIdempotent(s.viewGroups, a.assignViewGroups);
    UnionIdempotent(s.changeUsers, a.assignChangeUsers);
    UnionIdempotent(s.changeGroups, a.assignChangeGroups);
  }

  /** Assigning items the list already holds leaves it exactly as it was. */
  lemma PresentItemsNotRecreated(s: DocState, a: Assignment, f: ListField)
    requires forall x :: x in AssignedItems(a, f) ==> x in Items(s, f)
    ensures Items(AssignState(s, a), f) == Items(s, f)
  {
    AssignItems(s, a, f);
    UnionPresent(Items(s, f), AssignedItems(a, f));
  }

  // ----- Removals after assignments -----

  /** Everything the removals of a sequence take out of one list. */
  function RemovedSoFar(acts: seq<Action>, f: ListField): set<Id>
    decreases |acts|
  {
    if acts == [] then {}
    else
      var last := acts[|acts| - 1];
      RemovedSoFar(acts[..|acts| - 1], f) + (if last.Remove? then ListedItems(last.removal, f) else {})
  }

  predicate AllRemovals(acts: seq<Action>) {
    forall j :: 0 <= j < |acts| ==> acts[j].Remove?
  }

  /** Removals without remove-all flags take out everything they list, and keep the order. */
  lemma {:induction false} RemovalsSubtract(s: DocState, acts: seq<Action>, f: ListField)
    requires AllRemovals(acts)
    requires forall j :: 0 <= j < |acts| ==> !ClearsItems(acts[j].removal, f)
    ensures Items(ApplyActions(s, acts), f) == Subtract(Items(s, f), RemovedSoFar(acts, f))
    decreases |acts|
  {
    if acts == [] {
      SubtractAbsent(Items(s, f), {});
    } else {
      var n := |acts| - 1;
      RemovalsSubtract(s, acts[..n], f);
      RemoveItems(ApplyActions(s, acts[..n]), acts[n].removal, f);
      SubtractTwice(Items(s, f), RemovedSoFar(acts[..n], f), ListedItems(acts[n].removal, f));
    }
  }

  /** No removal comes before an assignment. */
  predicate AssignmentsFirst(acts: seq<Action>) {
    forall i, j :: 0 <= i < j < |acts| && acts[j].Assign? ==> acts[i].Assign?
  }

  function AssignmentsOf(acts: seq<Action>): (r: seq<Action>)
    ensures AllAssignments(r)
    decreases |acts|
  {
    if acts == [] then []
    else AssignmentsOf(acts[..|acts| - 1]) + (if acts[|acts| - 1].Assign? then [acts[|acts| - 1]] else [])
  }

  function RemovalsOf(acts: seq<Action>): (r: seq<Action>)
    ensures AllRemovals(r)
    decreases |acts|
  {
    if acts == [] then []
    else RemovalsOf(acts[..|acts| - 1]) + (if acts[|acts| - 1].Remove? then [acts[|acts| - 1]] else [])
  }

  lemma {:induction false} NoRemovals(acts: seq<Action>)
    requires AllAssignments(acts)
    ensures RemovalsOf(acts) == [] && AssignmentsOf(acts) == acts
    decreases |acts|
  {
    if acts != [] {
      NoRemovals(acts[..|acts| - 1]);
      assert acts[..|acts| - 1] + [acts[|acts| - 1]] == acts;
    }
  }

  lemma {:induction false} SplitAssignmentsFirst(acts: seq<Action>)
    requires AssignmentsFirst(acts)
    ensures acts == AssignmentsOf(acts) + RemovalsOf(acts)
    decreases |acts|
  {
    if acts != [] {
      var n := |acts| - 1;
      var init := acts[..n];
      SplitAssignmentsFirst(init);
      assert acts == init + [acts[n]];
      if acts[n].Assign? {
        NoRemovals(init);
      }
    }
  }

  /**
   * When every assignment comes before every removal, applying the actions in order is
   * the same as a pass of all assignments followed by a pass of all removals.
   */
  lemma InOrderIsTwoPass(s: DocState, acts: seq<Action>)
    requires AssignmentsFirst(acts)
    ensures ApplyActions(s, acts) == ApplyActions(ApplyActions(s, AssignmentsOf(acts)), RemovalsOf(acts))
  {
    SplitAssignmentsFirst(acts);
    ApplyActionsAppend(s, AssignmentsOf(acts), RemovalsOf(acts));
  }

  // ----- Rendering the title -----

  /** Names of the referenced objects and the dates, as the template sees them. */
  datatype TitleContext = TitleContext(
    correspondentName: Id -> string,
    documentTypeName: Id -> string,
    userName: Id -> string,
    originalFilename: string,
    createdYear: nat,
    addedYear: nat)

  /** A reference as text: an unset one shows as "None". */
  function Shown(ref: Option<Id>, name: Id -> string): string {
    if ref.None? then "None" else name(ref.value)
  }

  function PlaceholdersOf(s: DocState, env: TitleContext): Placeholders {
    Placeholders(
      Shown(s.correspondent, env.correspondentName),
      Shown(s.documentType, env.documentTypeName),
      Shown(s.owner, env.userName),
      env.originalFilename,
      env.createdYear,
      env.addedYear)
  }

  /** The settled document and the template error, if rendering failed. */
  datatype Settled = Settled(state: DocState, error: Option<TemplateError>)

  /**
   * Renders the chosen template against the document as the actions left it. A template
   * that fails to format keeps the original title and reports why.
   */
  function SettleTitle(s: DocState, env: TitleContext): (r: Settled)
    ensures r.state == s.(title := r.state.title, pendingTitle := None)
    ensures r.error.Some? <==> s.pendingTitle.Some? && Format(s.pendingTitle.value, PlaceholdersOf(s, env)).Err?
    ensures r.error.Some? ==> r.state.title == s.title && r.error.value == Format(s.pendingTitle.value, PlaceholdersOf(s, env)).error
    ensures s.pendingTitle.None? ==> r.state.title == s.title
    ensures s.pendingTitle.Some? && r.error.None? ==> Ok(r.state.title) == Format(s.pendingTitle.value, PlaceholdersOf(s, env))
  {
    match s.pendingTitle
    case None => Settled(s, None)
    case Some(t) =>
      match Format(t, PlaceholdersOf(s, env))
      case Ok(title) => Settled(s.(title := title, pendingTitle := None), None)
      case Err(e) => Settled(s.(pendingTitle := None), Some(e))
  }

  /** A template without placeholders, written with doubled braces, becomes the title verbatim. */
  lemma VerbatimTitle(s: DocState, env: TitleContext, text: string)
    requires s.pendingTitle == Some(Escape(text))
    ensures SettleTitle(s, env).state.title == text && SettleTitle(s, env).error.None?
  {
    FormatEscape(text, PlaceholdersOf(s, env));
  }

  /** "<prefix>{correspondent}" shows the correspondent the document has once all actions ran. */
  lemma CorrespondentInTitle(s: DocState, env: TitleContext, prefix: string)
    requires NoBraces(prefix)
    requires s.pendingTitle == Some(prefix + "{correspondent}")
    ensures SettleTitle(s, env).state.title == prefix + Shown(s.correspondent, env.correspondentName)
    ensures SettleTitle(s, env).error.None?
  {
    var values := PlaceholdersOf(s, env);
    var field := "{" + "correspondent" + "}" + "";
    assert prefix + "{correspondent}" == prefix + field;
    assert Lookup("correspondent", values) == Some(values.correspondent);
    FormatField("correspondent", "", values);
    assert Format(field, values) == Ok(values.correspondent) by {
      assert values.correspondent + "" == values.correspondent;
    }
    FormatPlainPrefix(prefix, field, values);
    assert Format(s.pendingTitle.value, values) == Ok(prefix + values.correspondent);
  }

  // ----- The context the triggers see -----

  /** What is known about the file besides the document's own fields. */
  datatype Intake = Intake(
    source: DocumentSource,
    path: string,
    filename: string,
    mailRule: Option<Id>,
    content: string)

  /** The title context of one run: `{original_filename}` shows the name the file arrived under. */
  function RenderContext(intake: Intake, env: TitleContext): TitleContext {
    env.(originalFilename := intake.filename)
  }

  /** In a run, "{original_filename}" renders as the name the triggers matched the file under. */
  lemma FilenameInTitle(s: DocState, intake: Intake, env: TitleContext)
    requires s.pendingTitle == Some("{" + "original_filename" + "}")
    ensures SettleTitle(s, RenderContext(intake, env)).state.title == intake.filename
    ensures SettleTitle(s, RenderContext(intake, env)).error.None?
  {
    var values := PlaceholdersOf(s, RenderContext(intake, env));
    assert "{" + "original_filename" + "}" + "" == "{" + "original_filename" + "}";
    assert Lookup("original_filename", values) == Some(intake.filename);
    FormatField("original_filename", "", values);
    assert intake.filename + "" == intake.filename;
  }

  /** The snapshot triggers are matched against, taken before any action runs. */
  function ContextOf(s: DocState, intake: Intake): (ctx: MatchContext)
    ensures ctx.tags == s.tags && ctx.correspondent == s.correspondent && ctx.documentType == s.documentType
    ensures ctx.source == intake.source && ctx.path == intake.path && ctx.filename == intake.filename
    ensures ctx.mailRule == intake.mailRule && ctx.content == intake.content
  {
    MatchContext(intake.source, intake.path, intake.filename, intake.mailRule,
                 s.tags, s.correspondent, s.documentType, intake.content)
  }
}
