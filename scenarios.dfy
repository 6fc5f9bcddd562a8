/**
 * The behaviour the workflow test suite pins down, restated on the model.
 *
 * Identifiers follow the fixtures of the suite: correspondents `C` and `C2`,
 * document type `DT`, storage path `SP`, tags `T1`..`T3`, custom fields
 * `CF1`/`CF2`, users `USER2`/`USER3`, groups `GROUP1`/`GROUP2` and the mail
 * rule `RULE1`. The consumed file is `simple.pdf` in a scratch directory; a
 * stored document was originally `sample.pdf`.
 */
module Scenarios {
  import opened Wrappers
  import OrderedIds
  import opened Text
  import opened Glob
  import opened ContentMatch
  import opened WorkflowTypes
  import opened TriggerMatching
  import opened WorkflowSelection
  import opened TitleTemplate
  import opened DocumentActions
  import opened Orchestrator

  const C: nat := 1
  const C2: nat := 2
  const DT: nat := 1
  const SP: nat := 1
  const T1: nat := 1
  const T2: nat := 2
  const T3: nat := 3
  const CF1: nat := 1
  const CF2: nat := 2
  const USER2: nat := 2
  const USER3: nat := 3
  const GROUP1: nat := 1
  const GROUP2: nat := 2
  const RULE1: nat := 1

  const AllSources: seq<DocumentSource> := [ApiUpload, ConsumeFolder, MailFetch]
  const ScratchFile: string := "/tmp/paperless/scratch/simple.pdf"
  const SimpleName: string := "simple.pdf"

  /** A CONSUMPTION trigger with the given intake filters. */
  function Consumption(id: nat, sources: seq<DocumentSource>, mailRule: Option<nat>,
                       filename: Option<string>, path: Option<string>): Trigger {
    Trigger(id, CONSUMPTION, sources, mailRule, filename, path, [], None, None, MatchNone, "", false)
  }

  /** A document trigger with only a filename filter. */
  function ByFilename(id: nat, kind: int, filename: string): Trigger {
    Trigger(id, kind, [], None, Some(filename), None, [], None, None, MatchNone, "", false)
  }

  /** The scratch copy of `simple.pdf` arriving from `source`. */
  function Arriving(source: DocumentSource, mailRule: Option<nat>): MatchContext {
    MatchContext(source, ScratchFile, SimpleName, mailRule, [], None, None, "")
  }

  // ----- Glob filters on the consumed file -----

  /** "*simple*" accepts the file name. */
  lemma SimpleNameFilter()
    ensures GlobMatch("*simple*", SimpleName)
  {
    assert Plain("simple");
    assert "*" + "simple" + "*" == "*simple*";
    assert OccursAt(SimpleName, "simple", 0);
    StarWordStar("simple", SimpleName);
  }

  // "*/scratch/*" accepts the path of the scratch copy.
  lemma ScratchDirFilter()
    ensures GlobMatch("*/scratch/*", ScratchFile)
  {
    assert Plain("/scratch/");
    assert "*" + "/scratch/" + "*" == "*/scratch/*";
    assert OccursAt(ScratchFile, "/scratch/", 14);
    StarWordStar("/scratch/", ScratchFile);
  }

  /** "*scratch*", without the slashes, accepts it as well. */
  lemma ScratchWordFilter()
    ensures GlobMatch("*scratch*", ScratchFile)
  {
    assert Plain("scratch");
    assert "*" + "scratch" + "*" == "*scratch*";
    assert OccursAt(ScratchFile, "scratch", 15);
    StarWordStar("scratch", ScratchFile);
  }

  /** "*foobar*" rejects the file name: it has no `b`. */
  lemma FoobarRejectsName()
    ensures !GlobMatch("*foobar*", SimpleName)
    ensures !GlobMatch("*foobar*", "sample.pdf")
  {
    assert Plain("foobar");
    assert "*" + "foobar" + "*" == "*foobar*";
    StarWordStar("foobar", SimpleName);
    StarWordStar("foobar", "sample.pdf");
    MissingChar(SimpleName, "foobar", 3);
    MissingChar("sample.pdf", "foobar", 3);
  }

  // "*foo/bar*" rejects the path for the same reason: it has no 'b'.
  lemma FooBarRejectsPath()
    ensures !GlobMatch("*foo/bar*", ScratchFile)
  {
    assert Plain("foo/bar");
    assert "*" + "foo/bar" + "*" == "*foo/bar*";
    StarWordStar("foo/bar", ScratchFile);
    NoBInPath();
    MissingChar(ScratchFile, "foo/bar", 4);
  }

  lemma NoBInPath()
    ensures 'b' !in ScratchFile
  {
  }

  /** `w` cannot occur in `s` when one of its characters is nowhere in `s`. */
  lemma MissingChar(s: string, w: string, j: int)
    requires 0 <= j < |w| && w[j] !in s
    ensures !Contains(s, w)
  {
    forall i | 0 <= i <= |s| ensures !OccursAt(s, w, i) {
      if i + |w| <= |s| {
        assert s[i..i + |w|][j] == s[i + j];
      }
    }
  }

  // ----- Verdicts of CONSUMPTION triggers -----

  /** The trigger of the basic consumption test lets the scratch file through. */
  lemma ConsumptionTriggerPasses()
    ensures ConsumptionVerdict(Consumption(1, AllSources, None, Some("*simple*"), Some("*/scratch/*")),
                               Arriving(ConsumeFolder, None)) == Pass
  {
    SimpleNameFilter();
    ScratchDirFilter();
  }

  /** A file dropped in the consume folder with mail rule id `RULE1` passes a trigger for that rule. */
  lemma MailRuleTriggerPasses()
    ensures ConsumptionVerdict(Consumption(1, AllSources, Some(RULE1), None, None),
                               Arriving(ConsumeFolder, Some(RULE1))) == Pass
  {
  }

  /** A filename filter that fails is reported with the file name and the pattern. */
  lemma FilenameMismatchReported()
    ensures ConsumptionVerdict(Consumption(1, AllSources, None, Some("*foobar*"), None),
                               Arriving(ConsumeFolder, None))
        == Fail(FilenameMismatch(SimpleName, "*foobar*"))
  {
    FoobarRejectsName();
  }

  /** A path filter that fails is reported with the path and the pattern. */
  lemma PathMismatchReported()
    ensures ConsumptionVerdict(Consumption(1, AllSources, None, None, Some("*foo/bar*")),
                               Arriving(ConsumeFolder, None))
        == Fail(PathMismatch(ScratchFile, "*foo/bar*"))
  {
    FooBarRejectsPath();
  }

  /** A consume-folder file carrying mail rule id 99 does not satisfy a trigger for rule 1. */
  lemma MailRuleMismatchReported()
    ensures ConsumptionVerdict(Consumption(1, AllSources, Some(RULE1), None, None),
                               Arriving(ConsumeFolder, Some(99)))
        == Fail(MailRuleMismatch(Some(99), RULE1))
  {
  }

  /** An upload is refused by a trigger that only admits the consume folder and mail. */
  lemma SourceNotAllowedReported()
    ensures ConsumptionVerdict(Consumption(1, [ConsumeFolder, MailFetch], None, None, Some("*")),
                               Arriving(ApiUpload, None))
        == Fail(SourceNotAllowed(ApiUpload, [ConsumeFolder, MailFetch]))
  {
  }

  /** The non-matching workflow logs "did not match" and then the reason. */
  lemma FilenameMismatchLog()
    ensures var w := Workflow(1, 0, true, [Consumption(1, AllSources, None, Some("*foobar*"), None)], []);
      DocumentMatchesWorkflow(Arriving(ConsumeFolder, None), w, CONSUMPTION)
        == Ok(Verdict(false, [DidNotMatch(1), Detail(FilenameMismatch(SimpleName, "*foobar*"))]))
  {
    var w := Workflow(1, 0, true, [Consumption(1, AllSources, None, Some("*foobar*"), None)], []);
    FilenameMismatchReported();
    OnlyTriggerFails(Arriving(ConsumeFolder, None), w, CONSUMPTION);
  }

  /** A workflow whose only trigger fails logs one pair: "did not match" and the reason. */
  lemma OnlyTriggerFails(ctx: MatchContext, w: Workflow, kind: int)
    requires KnownTriggerType(kind)
    requires |w.triggers| == 1 && w.triggers[0].kind == kind
    requires EvaluateTrigger(w.triggers[0], ctx, kind).Fail?
    ensures DocumentMatchesWorkflow(ctx, w, kind)
        == Ok(Verdict(false, [DidNotMatch(w.id), Detail(EvaluateTrigger(w.triggers[0], ctx, kind).reason)]))
  {
    var t := w.triggers[0];
    assert w.triggers[1..] == [];
    assert TriggersOfType(w.triggers, kind) == [t];
    assert [t][1..] == [];
    assert FirstMatch([t][1..], ctx, w.id, kind) == Verdict(false, []);
    var reason := EvaluateTrigger(t, ctx, kind).reason;
    var lines := [DidNotMatch(w.id), Detail(reason)];
    assert lines + [] == lines;
    assert FirstMatch([t], ctx, w.id, kind) == Verdict(false, lines);
  }

  /** A workflow whose only trigger holds logs one "matched" line. */
  lemma OnlyTriggerPasses(ctx: MatchContext, w: Workflow, kind: int)
    requires KnownTriggerType(kind)
    requires |w.triggers| == 1 && w.triggers[0].kind == kind
    requires EvaluateTrigger(w.triggers[0], ctx, kind).Pass?
    ensures DocumentMatchesWorkflow(ctx, w, kind) == Ok(Verdict(true, [Matched(w.triggers[0].id, w.id)]))
  {
    assert w.triggers[1..] == [];
    assert TriggersOfType(w.triggers, kind) == [w.triggers[0]];
  }

  // ----- Verdicts of document triggers -----

  /** A stored document: "sample.pdf" with the given tags, correspondent, type and content. */
  function Stored(tags: seq<nat>, correspondent: Option<nat>, documentType: Option<nat>, content: string): MatchContext {
    MatchContext(ConsumeFolder, "", "sample.pdf", None, tags, correspondent, documentType, content)
  }

  function DocumentTrigger(tags: seq<nat>, documentType: Option<nat>, correspondent: Option<nat>,
                           algorithm: MatchAlgorithm, text: string): Trigger {
    Trigger(1, DOCUMENT_ADDED, [], None, None, None, tags, documentType, correspondent, algorithm, text, true)
  }

  /** A workflow with only a CONSUMPTION trigger is reported as having no DOCUMENT_ADDED trigger. */
  lemma NoAddedTriggerReported()
    ensures var w := Workflow(1, 0, true, [Consumption(1, [], None, None, None)], []);
      DocumentMatchesWorkflow(Stored([], Some(C), None, ""), w, DOCUMENT_ADDED)
        == Ok(Verdict(false, [DidNotMatch(1), Detail(NoTriggerOfType(DOCUMENT_ADDED))]))
  {
  }

  /** "*foobar*" also rejects the stored document's original file name. */
  lemma AddedFilenameMismatch()
    ensures DocumentVerdict(ByFilename(1, DOCUMENT_ADDED, "*foobar*"), Stored([], Some(C), None, ""))
        == Fail(FilenameMismatch("sample.pdf", "*foobar*"))
  {
    FoobarRejectsName();
  }

  /** Case-insensitive LITERAL "foo" is found in "Hello world foo bar". */
  lemma LiteralContentFound()
    ensures DocumentVerdict(DocumentTrigger([], None, None, MatchLiteral, "foo"),
                            Stored([], Some(C), None, "Hello world foo bar")) == Pass
  {
    assert LowerStr("foo") == "foo";
    var folded := LowerStr("Hello world foo bar");
    assert folded[12..15] == "foo";
    assert OccursAt(folded, "foo", 12);
  }

  /** ... and not in "Hello world bar", which fails on content. */
  lemma LiteralContentMissing()
    ensures DocumentVerdict(DocumentTrigger([], None, None, MatchLiteral, "foo"),
                            Stored([], Some(C), None, "Hello world bar")) == Fail(ContentMismatch(MatchLiteral))
  {
    assert LowerStr("foo") == "foo";
    LowerStrMissing("Hello world bar", 'f');
    FirstCharAbsent(LowerStr("Hello world bar"), "foo");
  }

  /** A document tagged only T3 lacks the required T1 and T2. */
  lemma TagsMissingReported()
    ensures DocumentVerdict(DocumentTrigger([T1, T2], None, None, MatchNone, ""), Stored([T3], Some(C), None, ""))
        == Fail(TagsMissing([T3], [T1, T2]))
  {
    assert [T1, T2][0] !in [T3];
  }

  /** A document without a type fails a document-type filter. */
  lemma DocumentTypeMismatchReported()
    ensures DocumentVerdict(DocumentTrigger([], Some(DT), None, MatchNone, ""), Stored([], None, None, ""))
        == Fail(DocumentTypeMismatch(None, DT))
  {
  }

  /** A document from C2 fails a filter for correspondent C. */
  lemma CorrespondentMismatchReported()
    ensures DocumentVerdict(DocumentTrigger([], None, Some(C), MatchNone, ""), Stored([], Some(C2), None, ""))
        == Fail(CorrespondentMismatch(Some(C2), C))
  {
  }

  /** Matching for an unknown trigger type 4 is an error, not a non-match. */
  lemma UnknownTypeRaises(ctx: MatchContext)
    ensures var w := Workflow(1, 0, true, [Trigger(1, 4, [], None, None, None, [], None, None, MatchNone, "", false)], []);
      DocumentMatchesWorkflow(ctx, w, 4) == Err(UnsupportedTriggerType(4))
  {
    var w := Workflow(1, 0, true, [Trigger(1, 4, [], None, None, None, [], None, None, MatchNone, "", false)], []);
    UnknownTriggerTypeFails(ctx, w, 4);
  }

  // ----- Whole runs -----

  /** Selecting from a single enabled workflow keeps it iff it matched, with its log. */
  lemma SelectOne(ctx: MatchContext, w: Workflow, kind: int, v: Verdict)
    requires w.enabled && DocumentMatchesWorkflow(ctx, w, kind) == Ok(v)
    ensures MatchWorkflows(ctx, [w], kind) == Ok(Selection(if v.matched then [w] else [], v.log))
  {
    assert SortByOrder([w]) == Insert(w, []) == [w];
    assert [w][1..] == [];
    assert Select(ctx, [w][1..], kind) == Ok(Selection([], []));
    assert v.log + [] == v.log;
    assert (if v.matched then [w] else []) + [] == (if v.matched then [w] else []);
  }

  /** Two workflows of the same order keep the order they are given in. */
  lemma SortPair(w1: Workflow, w2: Workflow)
    requires w1.order == w2.order
    ensures SortByOrder([w1, w2]) == [w1, w2]
  {
    assert [w1, w2][1..] == [w2];
    assert SortByOrder([w2]) == Insert(w2, []) == [w2];
  }

  /** The actions of a single selected workflow. */
  lemma OneWorkflow(s: DocState, w: Workflow)
    ensures ApplyWorkflows(s, [w]) == ApplyActions(s, w.actions)
  {
    assert [w][..0] == [];
  }

  lemma OneAction(s: DocState, act: Action)
    ensures ApplyActions(s, [act]) == ApplyAction(s, act)
  {
    assert [act][..0] == [];
  }

  /** On a document without list items, duplicate-free assigned lists become its lists as given. */
  lemma AssignToEmpty(s: DocState, a: Assignment)
    requires s.tags == [] && s.customFields == [] && s.viewUsers == []
    requires s.viewGroups == [] && s.changeUsers == [] && s.changeGroups == []
    requires OrderedIds.NoDup(a.assignTags) && OrderedIds.NoDup(a.assignCustomFields)
    requires OrderedIds.NoDup(a.assignViewUsers) && OrderedIds.NoDup(a.assignViewGroups)
    requires OrderedIds.NoDup(a.assignChangeUsers) && OrderedIds.NoDup(a.assignChangeGroups)
    ensures AssignState(s, a)
         == s.(pendingTitle := if a.assignTitle.Some? then a.assignTitle else s.pendingTitle,
               correspondent := Overwrite(s.correspondent, a.assignCorrespondent),
               documentType := Overwrite(s.documentType, a.assignDocumentType),
               storagePath := Overwrite(s.storagePath, a.assignStoragePath),
               owner := Overwrite(s.owner, a.assignOwner),
               tags := a.assignTags, customFields := a.assignCustomFields,
               viewUsers := a.assignViewUsers, viewGroups := a.assignViewGroups,
               changeUsers := a.assignChangeUsers, changeGroups := a.assignChangeGroups)
  {
    OrderedIds.UnionFresh([], a.assignTags);
    OrderedIds.UnionFresh([], a.assignCustomFields);
    OrderedIds.UnionFresh([], a.assignViewUsers);
    OrderedIds.UnionFresh([], a.assignViewGroups);
    OrderedIds.UnionFresh([], a.assignChangeUsers);
    OrderedIds.UnionFresh([], a.assignChangeGroups);
  }

  lemma TwoActions(s: DocState, first: Action, second: Action)
    ensures ApplyActions(s, [first, second]) == ApplyAction(ApplyAction(s, first), second)
  {
    assert [first, second][..1] == [first];
    OneAction(s, first);
  }

  /** A template without braces becomes the title as it is. */
  lemma PlainTitle(s: DocState, env: TitleContext, text: string)
    requires NoBraces(text) && s.pendingTitle == Some(text)
    ensures SettleTitle(s, env).state.title == text && SettleTitle(s, env).error.None?
  {
    FormatPlainPrefix(text, "", PlaceholdersOf(s, env));
    assert text + "" == text;
  }

  /** "<prefix>{created_year}" shows the year the document was created. */
  lemma CreatedYearTitle(s: DocState, env: TitleContext, prefix: string)
    requires NoBraces(prefix) && s.pendingTitle == Some(prefix + "{created_year}")
    ensures SettleTitle(s, env).state.title == prefix + NatToString(env.createdYear)
    ensures SettleTitle(s, env).error.None?
  {
    var values := PlaceholdersOf(s, env);
    var field := "{" + "created_year" + "}" + "";
    assert prefix + "{created_year}" == prefix + field;
    FormatField("created_year", "", values);
    var year := NatToString(env.createdYear);
    assert Format(field, values) == Ok(year) by {
      assert year + "" == year;
    }
    FormatPlainPrefix(prefix, field, values);
  }

  /** The title template most tests assign. */
  const FromTemplate: string := "Doc from " + "{correspondent}"

  /** A fresh document as the consumer creates it, before any workflow. */
  const Blank: DocState := DocState("simple", None, None, None, None, None, [], [], [], [], [], [])

  /** The scratch copy of `simple.pdf` handed to the consumer from the consume folder. */
  const FromScratch: Intake := Intake(ConsumeFolder, ScratchFile, SimpleName, None, "")

  function Assigning(title: Option<string>, correspondent: Option<nat>, documentType: Option<nat>,
                     storagePath: Option<nat>, owner: Option<nat>, tags: seq<nat>, viewUsers: seq<nat>,
                     viewGroups: seq<nat>, changeUsers: seq<nat>, changeGroups: seq<nat>,
                     customFields: seq<nat>): Action {
    Assign(Assignment(title, correspondent, documentType, storagePath, owner,
                      tags, viewUsers, viewGroups, changeUsers, changeGroups, customFields))
  }

  /** The assignment of the basic consumption test: every kind of field at once. */
  const AssignEverything: Action :=
    Assigning(Some(FromTemplate), Some(C), Some(DT), Some(SP), Some(USER2),
              [T1, T2, T3], [USER3], [GROUP1], [USER3], [GROUP1], [CF1, CF2])

  /** A run is the selection's log and the selected actions' effect, title rendered last. */
  lemma RunOfSelection(s: DocState, ws: seq<Workflow>, kind: int, intake: Intake, env: TitleContext,
                       sel: Selection, applied: DocState, settled: Settled)
    requires MatchWorkflows(ContextOf(s, intake), ws, kind) == Ok(sel)
    requires ApplyWorkflows(s.(pendingTitle := None), sel.matched) == applied
    requires SettleTitle(applied, RenderContext(intake, env)) == settled
    ensures Run(s, ws, kind, intake, env) == Ok(Outcome(settled.state, Report(sel.log, settled.error)))
  {
  }

  /** An enabled workflow in front of the rest adds its verdict to the selection. */
  lemma SelectCons(ctx: MatchContext, w: Workflow, rest: seq<Workflow>, kind: int, v: Verdict, sel: Selection)
    requires w.enabled && DocumentMatchesWorkflow(ctx, w, kind) == Ok(v)
    requires Select(ctx, rest, kind) == Ok(sel)
    ensures Select(ctx, [w] + rest, kind)
        == Ok(Selection((if v.matched then [w] else []) + sel.matched, v.log + sel.log))
  {
    assert ([w] + rest)[0] == w && ([w] + rest)[1..] == rest;
  }

  /** A pending title of `None` leaves the title alone. */
  lemma NoTemplate(s: DocState, env: TitleContext)
    requires s.pendingTitle.None?
    ensures SettleTitle(s, env) == Settled(s, None)
  {
  }

  /** A fresh document's scratch path and name, as the CONSUMPTION triggers see them. */
  lemma BlankContext()
    ensures ContextOf(Blank, FromScratch) == Arriving(ConsumeFolder, None)
  {
  }

  /** The workflow of the basic consumption test: it matches on name and path and assigns everything. */
  const Basic: Workflow :=
    Workflow(1, 0, true, [Consumption(1, AllSources, None, Some("*simple*"), Some("*/scratch/*"))], [AssignEverything])

  /** The fresh document once the assignment ran, before the title is rendered. */
  const EverythingSet: DocState :=
    DocState("simple", Some(FromTemplate), Some(C), Some(DT), Some(SP), Some(USER2),
             [T1, T2, T3], [CF1, CF2], [USER3], [GROUP1], [USER3], [GROUP1])

  /** Consuming `simple.pdf` fires the workflow and assigns everything; the title shows correspondent C. */
  lemma ConsumptionAssignsEverything(env: TitleContext)
    ensures Run(Blank, [Basic], CONSUMPTION, FromScratch, env)
        == Ok(Outcome(EverythingSet.(title := "Doc from " + env.correspondentName(C), pendingTitle := None),
                      Report([Matched(1, 1)], None)))
  {
    BasicSelected();
    EverythingAssigned();
    EverythingTitled(RenderContext(FromScratch, env));
    RunOfSelection(Blank, [Basic], CONSUMPTION, FromScratch, env, Selection([Basic], [Matched(1, 1)]),
                   EverythingSet, SettleTitle(EverythingSet, RenderContext(FromScratch, env)));
  }

  lemma BasicSelected()
    ensures MatchWorkflows(ContextOf(Blank, FromScratch), [Basic], CONSUMPTION)
        == Ok(Selection([Basic], [Matched(1, 1)]))
  {
    var ctx := ContextOf(Blank, FromScratch);
    BlankContext();
    ConsumptionTriggerPasses();
    OnlyTriggerPasses(ctx, Basic, CONSUMPTION);
    SelectOne(ctx, Basic, CONSUMPTION, Verdict(true, [Matched(1, 1)]));
  }

  /** What the assignment leaves on a fresh document before the title is rendered. */
  lemma EverythingAssigned()
    ensures ApplyWorkflows(Blank.(pendingTitle := None), [Basic]) == EverythingSet
  {
    assert Blank.(pendingTitle := None) == Blank;
    OneWorkflow(Blank, Basic);
    OneAction(Blank, AssignEverything);
    AssignToEmpty(Blank, AssignEverything.assignment);
  }

  lemma EverythingTitled(env: TitleContext)
    ensures SettleTitle(EverythingSet, env)
        == Settled(EverythingSet.(title := "Doc from " + env.correspondentName(C), pendingTitle := None), None)
  {
    CorrespondentInTitle(EverythingSet, env, "Doc from ");
  }

  // Two workflows of the same order: later single values overwrite, lists merge.

  const ByPath: Workflow :=
    Workflow(1, 0, true, [Consumption(1, AllSources, None, None, Some("*/scratch/*"))],
             [Assigning(Some(FromTemplate), Some(C), Some(DT), None, None, [T1, T2], [USER2], [], [], [], [])])

  const ByName: Workflow :=
    Workflow(2, 0, true, [Consumption(2, AllSources, None, Some("*simple*"), None)],
             [Assigning(Some(FromTemplate), Some(C2), None, Some(SP), None, [T3], [USER3], [], [], [], [])])

  const BothSet: DocState :=
    DocState("simple", Some(FromTemplate), Some(C2), Some(DT), Some(SP), None,
             [T1, T2, T3], [], [USER2, USER3], [], [], [])

  /** Both workflows fire, in their given order, and the second one's correspondent wins. */
  lemma MultipleWorkflowsMerge(env: TitleContext)
    ensures Run(Blank, [ByPath, ByName], CONSUMPTION, FromScratch, env)
        == Ok(Outcome(BothSet.(title := "Doc from " + env.correspondentName(C2), pendingTitle := None),
                      Report([Matched(1, 1), Matched(2, 2)], None)))
  {
    BothSelected();
    BothApplied();
    BothTitled(RenderContext(FromScratch, env));
    RunOfSelection(Blank, [ByPath, ByName], CONSUMPTION, FromScratch, env,
                   Selection([ByPath, ByName], [Matched(1, 1), Matched(2, 2)]), BothSet, SettleTitle(BothSet, RenderContext(FromScratch, env)));
  }

  lemma BothTitled(env: TitleContext)
    ensures SettleTitle(BothSet, env)
        == Settled(BothSet.(title := "Doc from " + env.correspondentName(C2), pendingTitle := None), None)
  {
    CorrespondentInTitle(BothSet, env, "Doc from ");
  }

  lemma BothSelected()
    ensures MatchWorkflows(ContextOf(Blank, FromScratch), [ByPath, ByName], CONSUMPTION)
        == Ok(Selection([ByPath, ByName], [Matched(1, 1), Matched(2, 2)]))
  {
    var ctx := ContextOf(Blank, FromScratch);
    SortPair(ByPath, ByName);
    ByPathMatches();
    ByNameSelected();
    SelectCons(ctx, ByPath, [ByName], CONSUMPTION, Verdict(true, [Matched(1, 1)]),
               Selection([ByName], [Matched(2, 2)]));
    assert [ByPath] + [ByName] == [ByPath, ByName];
    assert [Matched(1, 1)] + [Matched(2, 2)] == [Matched(1, 1), Matched(2, 2)];
    assert Select(ctx, [ByPath, ByName], CONSUMPTION) == Ok(Selection([ByPath, ByName], [Matched(1, 1), Matched(2, 2)]));
  }

  lemma ByPathMatches()
    ensures DocumentMatchesWorkflow(ContextOf(Blank, FromScratch), ByPath, CONSUMPTION)
        == Ok(Verdict(true, [Matched(1, 1)]))
  {
    BlankContext();
    ScratchDirFilter();
    OnlyTriggerPasses(ContextOf(Blank, FromScratch), ByPath, CONSUMPTION);
  }

  lemma ByNameSelected()
    ensures Select(ContextOf(Blank, FromScratch), [ByName], CONSUMPTION) == Ok(Selection([ByName], [Matched(2, 2)]))
  {
    var ctx := ContextOf(Blank, FromScratch);
    BlankContext();
    SimpleNameFilter();
    OnlyTriggerPasses(ctx, ByName, CONSUMPTION);
    SelectOne(ctx, ByName, CONSUMPTION, Verdict(true, [Matched(2, 2)]));
    assert SortByOrder([ByName]) == [ByName];
  }

  /** What the first workflow leaves. */
  const PathSet: DocState :=
    DocState("simple", Some(FromTemplate), Some(C), Some(DT), None, None, [T1, T2], [], [USER2], [], [], [])

  lemma BothApplied()
    ensures ApplyWorkflows(Blank.(pendingTitle := None), [ByPath, ByName]) == BothSet
  {
    assert Blank.(pendingTitle := None) == Blank;
    assert [ByPath, ByName][..1] == [ByPath];
    PathApplied();
    OneAction(PathSet, ByName.actions[0]);
    NameAfterPath();
  }

  lemma NameAfterPath()
    ensures ApplyAction(PathSet, ByName.actions[0]) == BothSet
  {
    OrderedIds.UnionFresh([T1, T2], [T3]);
    OrderedIds.UnionFresh([USER2], [USER3]);
  }

  lemma PathApplied()
    ensures ApplyWorkflows(Blank, [ByPath]) == PathSet
  {
    OneWorkflow(Blank, ByPath);
    OneAction(Blank, ByPath.actions[0]);
    AssignToEmpty(Blank, ByPath.actions[0].assignment);
  }

  /** A single enabled workflow whose only trigger holds is selected with one "matched" line. */
  lemma SingleSelected(ctx: MatchContext, w: Workflow, kind: int)
    requires w.enabled && KnownTriggerType(kind)
    requires |w.triggers| == 1 && w.triggers[0].kind == kind
    requires EvaluateTrigger(w.triggers[0], ctx, kind).Pass?
    ensures MatchWorkflows(ctx, [w], kind) == Ok(Selection([w], [Matched(w.triggers[0].id, w.id)]))
  {
    OnlyTriggerPasses(ctx, w, kind);
    SelectOne(ctx, w, kind, Verdict(true, [Matched(w.triggers[0].id, w.id)]));
  }

  // The same custom field assigned twice is added once.

  const Twice: Workflow :=
    Workflow(1, 0, true, [Consumption(1, AllSources, None, Some("*simple*"), None)],
             [Assigning(None, None, None, None, None, [], [], [], [], [], [CF1]),
              Assigning(None, None, None, None, None, [], [], [], [], [], [CF1])])

  lemma RepeatedCustomFieldOnce(env: TitleContext)
    ensures Run(Blank, [Twice], CONSUMPTION, FromScratch, env)
        == Ok(Outcome(Blank.(customFields := [CF1]), Report([Matched(1, 1)], None)))
  {
    TwiceSelected();
    TwiceApplied();
    NoTemplate(Blank.(customFields := [CF1]), RenderContext(FromScratch, env));
    RunOfSelection(Blank, [Twice], CONSUMPTION, FromScratch, env, Selection([Twice], [Matched(1, 1)]),
                   Blank.(customFields := [CF1]), Settled(Blank.(customFields := [CF1]), None));
  }

  lemma TwiceSelected()
    ensures MatchWorkflows(ContextOf(Blank, FromScratch), [Twice], CONSUMPTION) == Ok(Selection([Twice], [Matched(1, 1)]))
  {
    BlankContext();
    SimpleNameFilter();
    SingleSelected(ContextOf(Blank, FromScratch), Twice, CONSUMPTION);
  }

  lemma TwiceApplied()
    ensures ApplyWorkflows(Blank.(pendingTitle := None), [Twice]) == Blank.(customFields := [CF1])
  {
    assert Blank.(pendingTitle := None) == Blank;
    OneWorkflow(Blank, Twice);
    var add := Twice.actions[0];
    assert Twice.actions == [add, add];
    TwoActions(Blank, add, add);
    AssignToEmpty(Blank, add.assignment);
    AssignIdempotent(Blank, add.assignment);
  }

  // ----- Runs on a stored document -----

  /** The stored document "sample test" from correspondent C, originally `sample.pdf`. */
  const SampleDoc: DocState := DocState("sample test", None, Some(C), None, None, None, [], [], [], [], [], [])

  /** "*sample*" accepts the stored document's original file name. */
  lemma SampleNameFilter()
    ensures GlobMatch("*sample*", "sample.pdf")
  {
    assert Plain("sample");
    assert "*" + "sample" + "*" == "*sample*";
    assert OccursAt("sample.pdf", "sample", 0);
    StarWordStar("sample", "sample.pdf");
  }

  /** A DOCUMENT_ADDED workflow filtered on "*sample*". */
  function OnAdded(id: nat, enabled: bool, acts: seq<Action>): Workflow {
    Workflow(id, 0, enabled, [ByFilename(1, DOCUMENT_ADDED, "*sample*")], acts)
  }

  lemma AddedSelected(s: DocState, intake: Intake, id: nat, acts: seq<Action>)
    requires intake.filename == "sample.pdf"
    ensures MatchWorkflows(ContextOf(s, intake), [OnAdded(id, true, acts)], DOCUMENT_ADDED)
        == Ok(Selection([OnAdded(id, true, acts)], [Matched(1, id)]))
  {
    SampleNameFilter();
    SingleSelected(ContextOf(s, intake), OnAdded(id, true, acts), DOCUMENT_ADDED);
  }

  const CreatedTemplate: string := "Doc created in " + "{created_year}"

  const AssignOnAdded: Action :=
    Assigning(Some(CreatedTemplate), Some(C2), Some(DT), Some(SP), Some(USER2),
              [T1, T2, T3], [USER3], [GROUP1], [USER3], [GROUP1], [CF1, CF2])

  const AddedSet: DocState :=
    DocState("sample test", Some(CreatedTemplate), Some(C2), Some(DT), Some(SP), Some(USER2),
             [T1, T2, T3], [CF1, CF2], [USER3], [GROUP1], [USER3], [GROUP1])

  /** An added document gets C2 and the title with its creation year. */
  lemma AddedDocumentAssigned(intake: Intake, env: TitleContext)
    requires intake.filename == "sample.pdf"
    ensures Run(SampleDoc, [OnAdded(1, true, [AssignOnAdded])], DOCUMENT_ADDED, intake, env)
        == Ok(Outcome(AddedSet.(title := "Doc created in " + NatToString(env.createdYear), pendingTitle := None),
                      Report([Matched(1, 1)], None)))
  {
    var w := OnAdded(1, true, [AssignOnAdded]);
    AddedSelected(SampleDoc, intake, 1, [AssignOnAdded]);
    AddedApplied();
    AddedTitled(RenderContext(intake, env));
    RunOfSelection(SampleDoc, [w], DOCUMENT_ADDED, intake, env, Selection([w], [Matched(1, 1)]), AddedSet,
                   SettleTitle(AddedSet, RenderContext(intake, env)));
  }

  lemma AddedTitled(env: TitleContext)
    ensures SettleTitle(AddedSet, env)
        == Settled(AddedSet.(title := "Doc created in " + NatToString(env.createdYear), pendingTitle := None), None)
  {
    CreatedYearTitle(AddedSet, env, "Doc created in ");
  }

  lemma AddedApplied()
    ensures ApplyWorkflows(SampleDoc.(pendingTitle := None), [OnAdded(1, true, [AssignOnAdded])]) == AddedSet
  {
    assert SampleDoc.(pendingTitle := None) == SampleDoc;
    OneWorkflow(SampleDoc, OnAdded(1, true, [AssignOnAdded]));
    OneAction(SampleDoc, AssignOnAdded);
    AssignToEmpty(SampleDoc, AssignOnAdded.assignment);
  }

  /** "Doc {created_year]" never closes its brace. */
  const BrokenTemplate: string := "Doc " + ("{" + "created_year]")

  const AssignBroken: Action := Assigning(Some(BrokenTemplate), None, None, None, None, [], [], [], [], [], [])

  /** A template that does not parse keeps the original title and reports the error. */
  lemma BrokenTemplateKeepsTitle(intake: Intake, env: TitleContext)
    requires intake.filename == "sample.pdf"
    ensures Run(SampleDoc, [OnAdded(1, true, [AssignBroken])], DOCUMENT_ADDED, intake, env)
        == Ok(Outcome(SampleDoc, Report([Matched(1, 1)], Some(UnmatchedOpenBrace))))
  {
    var w := OnAdded(1, true, [AssignBroken]);
    AddedSelected(SampleDoc, intake, 1, [AssignBroken]);
    BrokenApplied();
    BrokenTitled(RenderContext(intake, env));
    RunOfSelection(SampleDoc, [w], DOCUMENT_ADDED, intake, env, Selection([w], [Matched(1, 1)]),
                   SampleDoc.(pendingTitle := Some(BrokenTemplate)), Settled(SampleDoc, Some(UnmatchedOpenBrace)));
  }

  lemma BrokenApplied()
    ensures ApplyWorkflows(SampleDoc.(pendingTitle := None), [OnAdded(1, true, [AssignBroken])])
        == SampleDoc.(pendingTitle := Some(BrokenTemplate))
  {
    assert SampleDoc.(pendingTitle := None) == SampleDoc;
    OneWorkflow(SampleDoc, OnAdded(1, true, [AssignBroken]));
    OneAction(SampleDoc, AssignBroken);
  }

  lemma BrokenTitled(env: TitleContext)
    ensures SettleTitle(SampleDoc.(pendingTitle := Some(BrokenTemplate)), env) == Settled(SampleDoc, Some(UnmatchedOpenBrace))
  {
    var applied := SampleDoc.(pendingTitle := Some(BrokenTemplate));
    var values := PlaceholdersOf(applied, env);
    FormatUnclosed("created_year]", values);
    FailureAfterPlainText("Doc ", "{" + "created_year]", values);
  }

  const AssignOwnerTitle: Action := Assigning(Some("Title assign owner"), None, None, None, Some(USER2), [], [], [], [], [], [])
  const AssignCorrespondentTitle: Action :=
    Assigning(Some("Title assign correspondent"), Some(C2), None, None, None, [], [], [], [], [], [])

  /** Of two workflows sharing a trigger, only the enabled one acts. */
  lemma DisabledWorkflowIgnored(intake: Intake, env: TitleContext)
    requires intake.filename == "sample.pdf"
    ensures Run(SampleDoc, [OnAdded(1, false, [AssignCorrespondentTitle]), OnAdded(2, true, [AssignOwnerTitle])],
                DOCUMENT_ADDED, intake, env)
        == Ok(Outcome(SampleDoc.(title := "Title assign owner", owner := Some(USER2)), Report([Matched(1, 2)], None)))
  {
    var off, on := OnAdded(1, false, [AssignCorrespondentTitle]), OnAdded(2, true, [AssignOwnerTitle]);
    OnlyEnabledSelected(intake);
    OwnerApplied();
    OwnerTitled(RenderContext(intake, env));
    RunOfSelection(SampleDoc, [off, on], DOCUMENT_ADDED, intake, env, Selection([on], [Matched(1, 2)]),
                   SampleDoc.(pendingTitle := Some("Title assign owner"), owner := Some(USER2)),
                   Settled(SampleDoc.(title := "Title assign owner", owner := Some(USER2)), None));
  }

  lemma OnlyEnabledSelected(intake: Intake)
    requires intake.filename == "sample.pdf"
    ensures MatchWorkflows(ContextOf(SampleDoc, intake),
                           [OnAdded(1, false, [AssignCorrespondentTitle]), OnAdded(2, true, [AssignOwnerTitle])],
                           DOCUMENT_ADDED)
        == Ok(Selection([OnAdded(2, true, [AssignOwnerTitle])], [Matched(1, 2)]))
  {
    var off, on := OnAdded(1, false, [AssignCorrespondentTitle]), OnAdded(2, true, [AssignOwnerTitle]);
    SortPair(off, on);
    AddedSelected(SampleDoc, intake, 2, [AssignOwnerTitle]);
    assert SortByOrder([on]) == [on];
    assert [off, on][1..] == [on];
  }

  lemma OwnerApplied()
    ensures ApplyWorkflows(SampleDoc.(pendingTitle := None), [OnAdded(2, true, [AssignOwnerTitle])])
        == SampleDoc.(pendingTitle := Some("Title assign owner"), owner := Some(USER2))
  {
    assert SampleDoc.(pendingTitle := None) == SampleDoc;
    OneWorkflow(SampleDoc, OnAdded(2, true, [AssignOwnerTitle]));
    OneAction(SampleDoc, AssignOwnerTitle);
  }

  lemma OwnerTitled(env: TitleContext)
    ensures SettleTitle(SampleDoc.(pendingTitle := Some("Title assign owner"), owner := Some(USER2)), env)
        == Settled(SampleDoc.(title := "Title assign owner", owner := Some(USER2)), None)
  {
    PlainTitle(SampleDoc.(pendingTitle := Some("Title assign owner"), owner := Some(USER2)), env, "Title assign owner");
  }

  // ----- DOCUMENT_UPDATED runs -----

  /** "sample test" from C after its document type was set to DT. */
  const Retyped: DocState := SampleDoc.(documentType := Some(DT))

  /** A DOCUMENT_UPDATED workflow filtered on document type DT. */
  function OnRetyped(acts: seq<Action>): Workflow {
    Workflow(1, 0, true, [Trigger(1, DOCUMENT_UPDATED, [], None, None, None, [], Some(DT), None, MatchNone, "", false)], acts)
  }

  lemma RetypedSelected(s: DocState, intake: Intake, acts: seq<Action>)
    requires s.documentType == Some(DT)
    ensures MatchWorkflows(ContextOf(s, intake), [OnRetyped(acts)], DOCUMENT_UPDATED)
        == Ok(Selection([OnRetyped(acts)], [Matched(1, 1)]))
  {
    SingleSelected(ContextOf(s, intake), OnRetyped(acts), DOCUMENT_UPDATED);
  }

  const AddField: Action := Assigning(None, None, None, None, None, [], [], [], [], [], [CF1])

  /** Setting the document type fires the workflow, which adds the custom field. */
  lemma UpdateAddsCustomField(intake: Intake, env: TitleContext)
    ensures Run(Retyped, [OnRetyped([AddField])], DOCUMENT_UPDATED, intake, env)
        == Ok(Outcome(Retyped.(customFields := [CF1]), Report([Matched(1, 1)], None)))
  {
    RetypedSelected(Retyped, intake, [AddField]);
    FieldAdded(Retyped, []);
    NoTemplate(Retyped.(customFields := [CF1]), RenderContext(intake, env));
    RunOfSelection(Retyped, [OnRetyped([AddField])], DOCUMENT_UPDATED, intake, env,
                   Selection([OnRetyped([AddField])], [Matched(1, 1)]), Retyped.(customFields := [CF1]),
                   Settled(Retyped.(customFields := [CF1]), None));
  }

  /** A document that already has the field keeps exactly one instance of it. */
  lemma UpdateKeepsExistingField(intake: Intake, env: TitleContext)
    ensures Run(Retyped.(customFields := [CF1]), [OnRetyped([AddField])], DOCUMENT_UPDATED, intake, env)
        == Ok(Outcome(Retyped.(customFields := [CF1]), Report([Matched(1, 1)], None)))
  {
    var s := Retyped.(customFields := [CF1]);
    RetypedSelected(s, intake, [AddField]);
    FieldAdded(Retyped, [CF1]);
    NoTemplate(s, RenderContext(intake, env));
    RunOfSelection(s, [OnRetyped([AddField])], DOCUMENT_UPDATED, intake, env,
                   Selection([OnRetyped([AddField])], [Matched(1, 1)]), s, Settled(s, None));
  }

  /** Adding CF1 to a retyped document without fields or with just CF1 leaves just CF1. */
  lemma FieldAdded(s: DocState, fields: seq<nat>)
    requires s == Retyped && (fields == [] || fields == [CF1])
    ensures ApplyWorkflows(s.(customFields := fields), [OnRetyped([AddField])]) == s.(customFields := [CF1])
  {
    var t := s.(customFields := fields);
    assert t.(pendingTitle := None) == t;
    OneWorkflow(t, OnRetyped([AddField]));
    OneAction(t, AddField);
    if fields == [] {
      OrderedIds.UnionFresh([], [CF1]);
    } else {
      OrderedIds.UnionPresent([CF1], [CF1]);
    }
  }

  const GrantMore: Action := Assigning(None, None, None, None, None, [], [USER3], [GROUP2], [USER3], [], [])

  /** The document as shared before the update: USER2 and GROUP1 may view and change it. */
  const Shared: DocState := Retyped.(viewUsers := [USER2], viewGroups := [GROUP1], changeUsers := [USER2], changeGroups := [GROUP1])

  const MoreShared: DocState :=
    Retyped.(viewUsers := [USER2, USER3], viewGroups := [GROUP1, GROUP2], changeUsers := [USER2, USER3], changeGroups := [GROUP1])

  /** Granted permissions are merged into the existing ones, not substituted for them. */
  lemma UpdateMergesPermissions(intake: Intake, env: TitleContext)
    ensures Run(Shared, [OnRetyped([GrantMore])], DOCUMENT_UPDATED, intake, env)
        == Ok(Outcome(MoreShared, Report([Matched(1, 1)], None)))
  {
    RetypedSelected(Shared, intake, [GrantMore]);
    PermissionsMerged();
    NoTemplate(MoreShared, RenderContext(intake, env));
    RunOfSelection(Shared, [OnRetyped([GrantMore])], DOCUMENT_UPDATED, intake, env,
                   Selection([OnRetyped([GrantMore])], [Matched(1, 1)]), MoreShared, Settled(MoreShared, None));
  }

  lemma PermissionsMerged()
    ensures ApplyWorkflows(Shared.(pendingTitle := None), [OnRetyped([GrantMore])]) == MoreShared
  {
    assert Shared.(pendingTitle := None) == Shared;
    OneWorkflow(Shared, OnRetyped([GrantMore]));
    OneAction(Shared, GrantMore);
    OrderedIds.UnionFresh([USER2], [USER3]);
    OrderedIds.UnionFresh([GROUP1], [GROUP2]);
  }

  // ----- Removal actions -----

  /** "new title" with C, DT, SP, owner USER2, tags T1 and T2, field CF1, shared with USER3 and GROUP1. */
  const Populated: DocState :=
    DocState("new title", None, Some(C), Some(DT), Some(SP), Some(USER2), [T1, T2], [CF1], [USER3], [GROUP1], [USER3], [GROUP1])

  /** A DOCUMENT_UPDATED workflow whose only filter is the path "*". */
  function OnAnyPath(acts: seq<Action>): Workflow {
    Workflow(1, 0, true, [Trigger(1, DOCUMENT_UPDATED, [], None, None, Some("*"), [], None, None, MatchNone, "", false)], acts)
  }

  lemma AnyPathSelected(s: DocState, intake: Intake, acts: seq<Action>)
    ensures MatchWorkflows(ContextOf(s, intake), [OnAnyPath(acts)], DOCUMENT_UPDATED)
        == Ok(Selection([OnAnyPath(acts)], [Matched(1, 1)]))
  {
    StarMatchesAll(intake.path);
    SingleSelected(ContextOf(s, intake), OnAnyPath(acts), DOCUMENT_UPDATED);
  }

  /** Removes C, T1, DT, SP, owner USER2, CF1 and USER3's and GROUP1's permissions. */
  const RemoveListed: Action :=
    Remove(Removal({C}, {T1}, {DT}, {SP}, {USER2}, {CF1}, {USER3}, {GROUP1}, {USER3}, {GROUP1},
                   false, false, false, false, false, false, false))

  /** Every remove-everything flag set. */
  const RemoveEverything: Action :=
    Remove(Removal({}, {}, {}, {}, {}, {}, {}, {}, {}, {}, true, true, true, true, true, true, true))

  /** Everything listed is removed; the unlisted tag T2 stays. */
  lemma RemovalOnUpdate(intake: Intake, env: TitleContext)
    ensures Run(Populated, [OnAnyPath([RemoveListed])], DOCUMENT_UPDATED, intake, env)
        == Ok(Outcome(DocState("new title", None, None, None, None, None, [T2], [], [], [], [], []),
                      Report([Matched(1, 1)], None)))
  {
    var result := DocState("new title", None, None, None, None, None, [T2], [], [], [], [], []);
    AnyPathSelected(Populated, intake, [RemoveListed]);
    ListedRemoved();
    NoTemplate(result, RenderContext(intake, env));
    RunOfSelection(Populated, [OnAnyPath([RemoveListed])], DOCUMENT_UPDATED, intake, env,
                   Selection([OnAnyPath([RemoveListed])], [Matched(1, 1)]), result, Settled(result, None));
  }

  /** Subtraction from a one-member list. */
  lemma DropOne(x: nat, drop: set<nat>)
    ensures OrderedIds.Subtract([x], drop) == if x in drop then [] else [x]
  {
    OrderedIds.SubtractSnoc([], x, drop);
    assert [] + [x] == [x];
  }

  /** Subtraction from a two-member list. */
  lemma DropTwo(x: nat, y: nat, drop: set<nat>)
    ensures OrderedIds.Subtract([x, y], drop) == (if x in drop then [] else [x]) + (if y in drop then [] else [y])
  {
    DropOne(x, drop);
    OrderedIds.SubtractSnoc([x], y, drop);
    assert [x] + [y] == [x, y];
  }

  lemma ListedRemoved()
    ensures ApplyWorkflows(Populated.(pendingTitle := None), [OnAnyPath([RemoveListed])])
        == DocState("new title", None, None, None, None, None, [T2], [], [], [], [], [])
  {
    assert Populated.(pendingTitle := None) == Populated;
    OneWorkflow(Populated, OnAnyPath([RemoveListed]));
    OneAction(Populated, RemoveListed);
    DropTwo(T1, T2, {T1});
    DropOne(CF1, {CF1});
    DropOne(USER3, {USER3});
    DropOne(GROUP1, {GROUP1});
  }

  /** The remove-everything flags clear every reference and every list. */
  lemma RemoveAllOnUpdate(intake: Intake, env: TitleContext)
    ensures Run(Populated, [OnAnyPath([RemoveEverything])], DOCUMENT_UPDATED, intake, env)
        == Ok(Outcome(DocState("new title", None, None, None, None, None, [], [], [], [], [], []),
                      Report([Matched(1, 1)], None)))
  {
    var result := DocState("new title", None, None, None, None, None, [], [], [], [], [], []);
    AnyPathSelected(Populated, intake, [RemoveEverything]);
    assert Populated.(pendingTitle := None) == Populated;
    OneWorkflow(Populated, OnAnyPath([RemoveEverything]));
    OneAction(Populated, RemoveEverything);
    NoTemplate(result, RenderContext(intake, env));
    RunOfSelection(Populated, [OnAnyPath([RemoveEverything])], DOCUMENT_UPDATED, intake, env,
                   Selection([OnAnyPath([RemoveEverything])], [Matched(1, 1)]), result, Settled(result, None));
  }

  /** The assignment of the consumption-with-removal test: permissions for two users and two groups. */
  const AssignShared: Action :=
    Assigning(Some(FromTemplate), Some(C), Some(DT), Some(SP), Some(USER2),
              [T1, T2, T3], [USER2, USER3], [GROUP1, GROUP2], [USER2, USER3], [GROUP1, GROUP2], [CF1, CF2])

  /** A CONSUMPTION workflow on "*simple*" running the given actions. */
  function OnSimple(acts: seq<Action>): Workflow {
    Workflow(1, 0, true, [Consumption(1, [], None, Some("*simple*"), None)], acts)
  }

  lemma SimpleSelected(acts: seq<Action>)
    ensures MatchWorkflows(ContextOf(Blank, FromScratch), [OnSimple(acts)], CONSUMPTION)
        == Ok(Selection([OnSimple(acts)], [Matched(1, 1)]))
  {
    BlankContext();
    SimpleNameFilter();
    SingleSelected(ContextOf(Blank, FromScratch), OnSimple(acts), CONSUMPTION);
  }

  const AssignedThenRemoved: DocState :=
    DocState("simple", Some(FromTemplate), None, None, None, None, [T2, T3], [CF2], [USER2], [GROUP2], [USER2], [GROUP2])

  /**
   * Removal after assignment in one workflow: what was assigned and is listed goes again,
   * and the title, rendered last, shows the removed correspondent as "None".
   */
  lemma AssignThenRemove(env: TitleContext)
    ensures Run(Blank, [OnSimple([AssignShared, RemoveListed])], CONSUMPTION, FromScratch, env)
        == Ok(Outcome(AssignedThenRemoved.(title := "Doc from None", pendingTitle := None), Report([Matched(1, 1)], None)))
  {
    SimpleSelected([AssignShared, RemoveListed]);
    SharedThenRemoved();
    RemovedTitled(AssignedThenRemoved, RenderContext(FromScratch, env));
    RunOfSelection(Blank, [OnSimple([AssignShared, RemoveListed])], CONSUMPTION, FromScratch, env,
                   Selection([OnSimple([AssignShared, RemoveListed])], [Matched(1, 1)]), AssignedThenRemoved,
                   SettleTitle(AssignedThenRemoved, RenderContext(FromScratch, env)));
  }

  /** The correspondent placeholder of a document without one renders as "None". */
  lemma RemovedTitled(s: DocState, env: TitleContext)
    requires s.pendingTitle == Some(FromTemplate) && s.correspondent.None?
    ensures SettleTitle(s, env) == Settled(s.(title := "Doc from None", pendingTitle := None), None)
  {
    CorrespondentInTitle(s, env, "Doc from ");
    assert "Doc from " + "None" == "Doc from None";
  }

  const SharedSet: DocState :=
    DocState("simple", Some(FromTemplate), Some(C), Some(DT), Some(SP), Some(USER2),
             [T1, T2, T3], [CF1, CF2], [USER2, USER3], [GROUP1, GROUP2], [USER2, USER3], [GROUP1, GROUP2])

  lemma SharedThenRemoved()
    ensures ApplyWorkflows(Blank.(pendingTitle := None), [OnSimple([AssignShared, RemoveListed])]) == AssignedThenRemoved
  {
    assert Blank.(pendingTitle := None) == Blank;
    OneWorkflow(Blank, OnSimple([AssignShared, RemoveListed]));
    TwoActions(Blank, AssignShared, RemoveListed);
    SharedAssigned();
    SharedPruned();
  }

  lemma SharedPruned()
    ensures ApplyAction(SharedSet, RemoveListed) == AssignedThenRemoved
  {
    OrderedIds.SubtractSnoc([T1, T2], T3, {T1});
    DropTwo(T1, T2, {T1});
    assert [T1, T2] + [T3] == [T1, T2, T3];
    assert [T2] + [T3] == [T2, T3];
    DropTwo(CF1, CF2, {CF1});
    DropTwo(USER2, USER3, {USER3});
    DropTwo(GROUP1, GROUP2, {GROUP1});
  }

  lemma SharedAssigned()
    ensures ApplyAction(Blank, AssignShared) == SharedSet
  {
    AssignToEmpty(Blank, AssignShared.assignment);
  }

  const AllRemoved: DocState := DocState("simple", Some(FromTemplate), None, None, None, None, [], [], [], [], [], [])

  /** Remove-everything after the assignment clears all it assigned. */
  lemma AssignThenRemoveAll(env: TitleContext)
    ensures Run(Blank, [OnSimple([AssignEverything, RemoveEverything])], CONSUMPTION, FromScratch, env)
        == Ok(Outcome(AllRemoved.(title := "Doc from None", pendingTitle := None), Report([Matched(1, 1)], None)))
  {
    SimpleSelected([AssignEverything, RemoveEverything]);
    EverythingThenRemoved();
    RemovedTitled(AllRemoved, RenderContext(FromScratch, env));
    RunOfSelection(Blank, [OnSimple([AssignEverything, RemoveEverything])], CONSUMPTION, FromScratch, env,
                   Selection([OnSimple([AssignEverything, RemoveEverything])], [Matched(1, 1)]), AllRemoved,
                   SettleTitle(AllRemoved, RenderContext(FromScratch, env)));
  }

  lemma EverythingThenRemoved()
    ensures ApplyWorkflows(Blank.(pendingTitle := None), [OnSimple([AssignEverything, RemoveEverything])]) == AllRemoved
  {
    assert Blank.(pendingTitle := None) == Blank;
    OneWorkflow(Blank, OnSimple([AssignEverything, RemoveEverything]));
    TwoActions(Blank, AssignEverything, RemoveEverything);
    OneWorkflow(Blank, Basic);
    OneAction(Blank, AssignEverything);
    EverythingAssigned();
  }

  /** "sample test" from C once tags T1 and T2 were set on it. */
  const Tagged: DocState := SampleDoc.(tags := [T1, T2])

  const OnTagged: Workflow :=
    Workflow(1, 0, true, [Trigger(1, DOCUMENT_UPDATED, [], None, None, None, [T1], None, None, MatchNone, "", false)],
             [Assigning(None, None, None, None, Some(USER2), [], [], [], [], [], []),
              Remove(Removal({}, {T1}, {}, {}, {}, {}, {}, {}, {}, {}, false, false, false, false, false, false, false))])

  /** A workflow that sets the owner and then removes the tag it matched on does both. */
  lemma OwnerAndTagRemoval(intake: Intake, env: TitleContext)
    ensures Run(Tagged, [OnTagged], DOCUMENT_UPDATED, intake, env)
        == Ok(Outcome(Tagged.(owner := Some(USER2), tags := [T2]), Report([Matched(1, 1)], None)))
  {
    var result := Tagged.(owner := Some(USER2), tags := [T2]);
    TaggedSelected(intake);
    TaggedApplied();
    NoTemplate(result, RenderContext(intake, env));
    RunOfSelection(Tagged, [OnTagged], DOCUMENT_UPDATED, intake, env, Selection([OnTagged], [Matched(1, 1)]),
                   result, Settled(result, None));
  }

  lemma TaggedSelected(intake: Intake)
    ensures MatchWorkflows(ContextOf(Tagged, intake), [OnTagged], DOCUMENT_UPDATED) == Ok(Selection([OnTagged], [Matched(1, 1)]))
  {
    assert T1 in Tagged.tags;
    SingleSelected(ContextOf(Tagged, intake), OnTagged, DOCUMENT_UPDATED);
  }

  lemma TaggedApplied()
    ensures ApplyWorkflows(Tagged.(pendingTitle := None), [OnTagged]) == Tagged.(owner := Some(USER2), tags := [T2])
  {
    assert Tagged.(pendingTitle := None) == Tagged;
    OneWorkflow(Tagged, OnTagged);
    TwoActions(Tagged, OnTagged.actions[0], OnTagged.actions[1]);
    assert ApplyAction(Tagged, OnTagged.actions[0]) == Tagged.(owner := Some(USER2));
    DropTwo(T1, T2, {T1});
  }
}
