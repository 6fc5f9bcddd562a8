/**
 * Matching one workflow against a file being consumed or a stored document
 * (`document_matches_workflow`).
 *
 * A trigger's filters are combined with AND and checked in a fixed order; the
 * first one that fails is reported as the reason. A CONSUMPTION trigger looks
 * at the intake (source, mail rule, filename, path); a DOCUMENT_ADDED or
 * DOCUMENT_UPDATED trigger looks at the document (filename, path, tags,
 * document type, correspondent, content). A workflow matches when any one of
 * its triggers of the requested type matches; the triggers are tried in
 * order and the first match wins.
 */
module TriggerMatching {
  import opened Wrappers
  import opened OrderedIds
  import opened Text
  import opened Glob
  import opened ContentMatch
  import opened WorkflowTypes

  datatype TriggerVerdict = Pass | Fail(reason: Reason)

  // The individual criteria. An unset filter holds vacuously.

  predicate SourceOk(t: Trigger, ctx: MatchContext) {
    |t.sources| == 0 || ctx.source in t.sources
  }

  /** A configured mail rule must be the one the file came through; no rule never equals one. */
  predicate MailRuleOk(t: Trigger, ctx: MatchContext) {
    t.filterMailRule.None? || ctx.mailRule == t.filterMailRule
  }

  predicate FilenameOk(t: Trigger, ctx: MatchContext) {
    t.filterFilename.None? || GlobMatch(t.filterFilename.value, ctx.filename)
  }

  predicate PathOk(t: Trigger, ctx: MatchContext) {
    t.filterPath.None? || GlobMatch(t.filterPath.value, ctx.path)
  }

  /** The document carries every required tag. */
  predicate TagsOk(t: Trigger, ctx: MatchContext) {
    forall k :: 0 <= k < |t.filterHasTags| ==> t.filterHasTags[k] in ctx.tags
  }

  predicate DocumentTypeOk(t: Trigger, ctx: MatchContext) {
    t.filterHasDocumentType.None? || ctx.documentType == t.filterHasDocumentType
  }

  predicate CorrespondentOk(t: Trigger, ctx: MatchContext) {
    t.filterHasCorrespondent.None? || ctx.correspondent == t.filterHasCorrespondent
  }

  predicate ContentOk(t: Trigger, ctx: MatchContext) {
    MatchesContent(t.algorithm, t.matchText, ctx.content, t.isInsensitive)
  }

  /** A CONSUMPTION trigger holds: all of its intake filters hold. */
  predicate ConsumptionCriteria(t: Trigger, ctx: MatchContext) {
    SourceOk(t, ctx) && MailRuleOk(t, ctx) && FilenameOk(t, ctx) && PathOk(t, ctx)
  }

  /** A DOCUMENT_ADDED or DOCUMENT_UPDATED trigger holds: all of its document filters hold. */
  predicate DocumentCriteria(t: Trigger, ctx: MatchContext) {
    FilenameOk(t, ctx) && PathOk(t, ctx) && TagsOk(t, ctx)
    && DocumentTypeOk(t, ctx) && CorrespondentOk(t, ctx) && ContentOk(t, ctx)
  }

  predicate Criteria(t: Trigger, ctx: MatchContext, kind: int) {
    if kind == CONSUMPTION then ConsumptionCriteria(t, ctx) else DocumentCriteria(t, ctx)
  }

  /** Evaluation of a CONSUMPTION trigger, stopping at the first failing filter. */
  function ConsumptionVerdict(t: Trigger, ctx: MatchContext): (r: TriggerVerdict)
    ensures r.Pass? <==> ConsumptionCriteria(t, ctx)
    ensures r.Fail? ==> match r.reason
      case SourceNotAllowed(_, _) => !SourceOk(t, ctx)
      case MailRuleMismatch(_, _) => SourceOk(t, ctx) && !MailRuleOk(t, ctx)
      case FilenameMismatch(_, _) => SourceOk(t, ctx) && MailRuleOk(t, ctx) && !FilenameOk(t, ctx)
      case PathMismatch(_, _) =>
        SourceOk(t, ctx) && MailRuleOk(t, ctx) && FilenameOk(t, ctx) && !PathOk(t, ctx)
      case _ => false
  {
    if !SourceOk(t, ctx) then Fail(SourceNotAllowed(ctx.source, t.sources))
    else if !MailRuleOk(t, ctx) then Fail(MailRuleMismatch(ctx.mailRule, t.filterMailRule.value))
    else if !FilenameOk(t, ctx) then Fail(FilenameMismatch(ctx.filename, t.filterFilename.value))
    else if !PathOk(t, ctx) then Fail(PathMismatch(ctx.path, t.filterPath.value))
    else Pass
  }

  /** Evaluation of a DOCUMENT_ADDED or DOCUMENT_UPDATED trigger, stopping at the first failing filter. */
  function DocumentVerdict(t: Trigger, ctx: MatchContext): (r: TriggerVerdict)
    ensures r.Pass? <==> DocumentCriteria(t, ctx)
    ensures r.Fail? ==> match r.reason
      case FilenameMismatch(_, _) => !FilenameOk(t, ctx)
      case PathMismatch(_, _) => FilenameOk(t, ctx) && !PathOk(t, ctx)
      case TagsMissing(_, _) => FilenameOk(t, ctx) && PathOk(t, ctx) && !TagsOk(t, ctx)
      case DocumentTypeMismatch(_, _) =>
        FilenameOk(t, ctx) && PathOk(t, ctx) && TagsOk(t, ctx) && !DocumentTypeOk(t, ctx)
      case CorrespondentMismatch(_, _) =>
        FilenameOk(t, ctx) && PathOk(t, ctx) && TagsOk(t, ctx) && DocumentTypeOk(t, ctx)
        && !CorrespondentOk(t, ctx)
      case ContentMismatch(_) =>
        FilenameOk(t, ctx) && PathOk(t, ctx) && TagsOk(t, ctx) && DocumentTypeOk(t, ctx)
        && CorrespondentOk(t, ctx) && !ContentOk(t, ctx)
      case _ => false
  {
    if !FilenameOk(t, ctx) then Fail(FilenameMismatch(ctx.filename, t.filterFilename.value))
    else if !PathOk(t, ctx) then Fail(PathMismatch(ctx.path, t.filterPath.value))
    else if !TagsOk(t, ctx) then Fail(TagsMissing(ctx.tags, t.filterHasTags))
    else if !DocumentTypeOk(t, ctx) then
      Fail(DocumentTypeMismatch(ctx.documentType, t.filterHasDocumentType.value))
    else if !CorrespondentOk(t, ctx) then
      Fail(CorrespondentMismatch(ctx.correspondent, t.filterHasCorrespondent.value))
    else if !ContentOk(t, ctx) then Fail(ContentMismatch(t.algorithm))
    else Pass
  }

  function EvaluateTrigger(t: Trigger, ctx: MatchContext, kind: int): (r: TriggerVerdict)
    ensures r.Pass? <==> Criteria(t, ctx, kind)
  {
    if kind == CONSUMPTION then ConsumptionVerdict(t, ctx) else DocumentVerdict(t, ctx)
  }

  /** The triggers of one type, in their declared order. */
  function TriggersOfType(ts: seq<Trigger>, kind: int): (r: seq<Trigger>)
    ensures forall t :: t in r <==> t in ts && t.kind == kind
    ensures |r| <= |ts|
    decreases |ts|
  {
    if ts == [] then []
    else (if ts[0].kind == kind then [ts[0]] else []) + TriggersOfType(ts[1..], kind)
  }

  /** The outcome of matching one workflow, with the log lines it writes. */
  datatype Verdict = Verdict(matched: bool, log: seq<LogLine>)

  /** Tries the triggers in order; each failure logs "did not match" and its reason, a match stops. */
  function FirstMatch(ts: seq<Trigger>, ctx: MatchContext, workflow: Id, kind: int): (r: Verdict)
    ensures r.log == [] <==> ts == []
    ensures |r.log| <= 2 * |ts|
    decreases |ts|
  {
    if ts == [] then Verdict(false, [])
    else match EvaluateTrigger(ts[0], ctx, kind)
      case Pass => Verdict(true, [Matched(ts[0].id, workflow)])
      case Fail(reason) =>
        var rest := FirstMatch(ts[1..], ctx, workflow, kind);
        Verdict(rest.matched, [DidNotMatch(workflow), Detail(reason)] + rest.log)
  }

  /** `document_matches_workflow(document, workflow, trigger_type)`. */
  function DocumentMatchesWorkflow(ctx: MatchContext, w: Workflow, kind: int): (r: Result<Verdict, MatchError>)
    ensures KnownTriggerType(kind) ==> r.Ok?
    ensures r.Err? ==> r.error == UnsupportedTriggerType(kind)
    ensures r.Ok? ==> r.value.log != []
  {
    var ts := TriggersOfType(w.triggers, kind);
    if ts == [] then Ok(Verdict(false, [DidNotMatch(w.id), Detail(NoTriggerOfType(kind))]))
    else if !KnownTriggerType(kind) then Err(UnsupportedTriggerType(kind))
    else Ok(FirstMatch(ts, ctx, w.id, kind))
  }

  /** The index of the first trigger that holds, if there is one. */
  predicate FirstHolding(ts: seq<Trigger>, ctx: MatchContext, kind: int, j: int) {
    0 <= j < |ts| && Criteria(ts[j], ctx, kind)
    && forall i :: 0 <= i < j ==> !Criteria(ts[i], ctx, kind)
  }

  /** A workflow's triggers match iff one of them holds. */
  lemma {:induction false} FirstMatchIsAny(ts: seq<Trigger>, ctx: MatchContext, workflow: Id, kind: int)
    ensures FirstMatch(ts, ctx, workflow, kind).matched <==> exists i :: 0 <= i < |ts| && Criteria(ts[i], ctx, kind)
    decreases |ts|
  {
    if ts != [] {
      FirstMatchIsAny(ts[1..], ctx, workflow, kind);
      if !Criteria(ts[0], ctx, kind) {
        if exists i :: 0 <= i < |ts| && Criteria(ts[i], ctx, kind) {
          var i :| 0 <= i < |ts| && Criteria(ts[i], ctx, kind);
          assert i > 0 && ts[i] == ts[1..][i - 1];
        }
        if exists i :: 0 <= i < |ts[1..]| && Criteria(ts[1..][i], ctx, kind) {
          var i :| 0 <= i < |ts[1..]| && Criteria(ts[1..][i], ctx, kind);
          assert ts[1..][i] == ts[i + 1];
        }
      }
    }
  }

  /** The position of the first trigger that holds, `|ts|` when none does. */
  function FirstIndex(ts: seq<Trigger>, ctx: MatchContext, kind: int): (j: nat)
    ensures j <= |ts|
    decreases |ts|
  {
    if ts == [] then 0
    else if Criteria(ts[0], ctx, kind) then 0
    else 1 + FirstIndex(ts[1..], ctx, kind)
  }

  /** `FirstIndex` names the first trigger that holds. */
  lemma {:induction false} FirstIndexHolds(ts: seq<Trigger>, ctx: MatchContext, kind: int)
    ensures var j := FirstIndex(ts, ctx, kind);
      j < |ts| ==> FirstHolding(ts, ctx, kind, j)
    ensures forall i :: 0 <= i < FirstIndex(ts, ctx, kind) ==> !Criteria(ts[i], ctx, kind)
    decreases |ts|
  {
    if ts != [] && !Criteria(ts[0], ctx, kind) {
      FirstIndexHolds(ts[1..], ctx, kind);
      forall i | 0 < i < FirstIndex(ts, ctx, kind) ensures !Criteria(ts[i], ctx, kind) {
        assert ts[i] == ts[1..][i - 1];
      }
    }
  }

  /**
   * First match wins: on a match the log is one "did not match" pair per earlier trigger
   * followed by one "matched" line naming the FIRST trigger that holds.
   */
  lemma {:induction false} FirstMatchLog(ts: seq<Trigger>, ctx: MatchContext, workflow: Id, kind: int)
    ensures var v := FirstMatch(ts, ctx, workflow, kind);
      var j := FirstIndex(ts, ctx, kind);
      v.matched ==> j < |ts| && |v.log| == 2 * j + 1 && v.log[2 * j] == Matched(ts[j].id, workflow)
    decreases |ts|
  {
    if ts != [] && !Criteria(ts[0], ctx, kind) {
      var rest := FirstMatch(ts[1..], ctx, workflow, kind);
      FirstMatchLog(ts[1..], ctx, workflow, kind);
      var v := FirstMatch(ts, ctx, workflow, kind);
      assert v.log == [DidNotMatch(workflow), Detail(EvaluateTrigger(ts[0], ctx, kind).reason)] + rest.log;
      if rest.matched {
        var j := FirstIndex(ts[1..], ctx, kind);
        assert ts[j + 1] == ts[1..][j];
        assert v.log[2 * (j + 1)] == rest.log[2 * j];
      }
    }
  }

  /** Without a match the log holds one pair per trigger; every pair opens with "did not match". */
  lemma {:induction false} FirstMatchPairs(ts: seq<Trigger>, ctx: MatchContext, workflow: Id, kind: int)
    ensures var v := FirstMatch(ts, ctx, workflow, kind);
      && (!v.matched ==> |v.log| == 2 * |ts|)
      && (forall k :: 0 <= k < |v.log| / 2 ==> v.log[2 * k] == DidNotMatch(workflow))
    decreases |ts|
  {
    if ts != [] && !Criteria(ts[0], ctx, kind) {
      FirstMatchPairs(ts[1..], ctx, workflow, kind);
      var v := FirstMatch(ts, ctx, workflow, kind);
      var rest := FirstMatch(ts[1..], ctx, workflow, kind);
      assert v.log == [DidNotMatch(workflow), Detail(EvaluateTrigger(ts[0], ctx, kind).reason)] + rest.log;
      forall k | 0 <= k < |v.log| / 2 ensures v.log[2 * k] == DidNotMatch(workflow) {
        if k > 0 {
          assert v.log[2 * k] == rest.log[2 * (k - 1)];
        }
      }
    }
  }

  /**
   * A workflow matches for a known trigger type iff one of its triggers of that type
   * holds (OR across triggers, AND within one).
   */
  lemma WorkflowMatchIsAnyTrigger(ctx: MatchContext, w: Workflow, kind: int)
    requires KnownTriggerType(kind)
    ensures DocumentMatchesWorkflow(ctx, w, kind).Ok?
    ensures DocumentMatchesWorkflow(ctx, w, kind).value.matched
        <==> exists t :: t in w.triggers && t.kind == kind && Criteria(t, ctx, kind)
  {
    var ts := TriggersOfType(w.triggers, kind);
    if ts != [] {
      FirstMatchIsAny(ts, ctx, w.id, kind);
      if exists t :: t in w.triggers && t.kind == kind && Criteria(t, ctx, kind) {
        var t :| t in w.triggers && t.kind == kind && Criteria(t, ctx, kind);
        assert t in ts;
        var i :| 0 <= i < |ts| && ts[i] == t;
      }
    }
  }

  /** Without a trigger of the requested type the workflow is reported as such, whatever the type. */
  lemma NoTriggerOfRequestedType(ctx: MatchContext, w: Workflow, kind: int)
    requires forall t :: t in w.triggers ==> t.kind != kind
    ensures DocumentMatchesWorkflow(ctx, w, kind)
        == Ok(Verdict(false, [DidNotMatch(w.id), Detail(NoTriggerOfType(kind))]))
  {
    NoneOfType(w.triggers, kind);
  }

  lemma {:induction false} NoneOfType(ts: seq<Trigger>, kind: int)
    requires forall t :: t in ts ==> t.kind != kind
    ensures TriggersOfType(ts, kind) == []
    decreases |ts|
  {
    if ts != [] {
      assert ts[0] in ts;
      assert forall t :: t in ts[1..] ==> t in ts;
      NoneOfType(ts[1..], kind);
    }
  }

  /** An unknown trigger type is an error as soon as the workflow has a trigger of that type. */
  lemma UnknownTriggerTypeFails(ctx: MatchContext, w: Workflow, kind: int)
    requires !KnownTriggerType(kind)
    requires exists t :: t in w.triggers && t.kind == kind
    ensures DocumentMatchesWorkflow(ctx, w, kind) == Err(UnsupportedTriggerType(kind))
  {
    var t :| t in w.triggers && t.kind == kind;
    assert t in TriggersOfType(w.triggers, kind);
  }
}
