# paperless-ngx workflow engine: a Dafny model

paperless-ngx runs *workflows* when a document is consumed from the intake
pipeline (CONSUMPTION), after it has been stored (DOCUMENT_ADDED), or after it
has been edited (DOCUMENT_UPDATED).

A workflow has an order, an enabled flag, a list of triggers and a list of
actions.

- **Triggers** filter on the intake or on the document:
  - the allowed sources;
  - the mail rule;
  - `fnmatch` globs on the file name and on the full path;
  - required tags, document type and correspondent;
  - a content match.
- **Actions** are either:
  - ASSIGNMENT actions, which overwrite single-valued fields and add to tags,
    permissions and custom fields;
  - REMOVAL actions, which take listed items away or clear whole categories.

The engine picks the workflows that fire for an event, in workflow order, and
logs why each did or did not. It applies their actions to the document one
after another. Finally it renders the title template the actions chose; when
the template is malformed the original title is kept.

The behaviour modelled is the one pinned down by the project's workflow test
suite, `src/documents/tests/test_workflows.py`.

The modules follow the engine's structure:

| module (file) | role |
|---|---|
| `OrderedIds` (ordered_ids.dfy) | duplicate-free id lists: `Union` (the ORM's `.add`, first-seen order) and `Subtract`, plus the two loops that perform them |
| `Text`, `Glob`, `ContentMatch` | substrings and ASCII case folding; `fnmatch` globs (`*`, `?`, `[...]`, `[!...]`); LITERAL/ANY/ALL content matching |
| `TitleTemplate` | Python `str.format` over the title placeholders, with its failure cases |
| `WorkflowTypes` | triggers, actions, workflows, the match context (read-only values) |
| `TriggerMatching` | one trigger's verdict with the first failing criterion; `document_matches_workflow` |
| `WorkflowSelection` | stable sort by `order`, skipping disabled workflows, the decision log |
| `DocumentActions` | the effect of assignments and removals on a document's state, and title rendering, as functions |
| `DocumentRecord` | class `Document`: the same effects performed in place on the document's fields, proved equal to the functions |
| `Orchestrator` | one run: select, apply, render; `Run` (function) and `RunWorkflows` (method on a `Document`) |
| `Scenarios` | the suite's test cases restated on the model, with their fixtures as constants |

## Model

| member | source | states |
|---|---|---|
| OrderedIds.Union | src/documents/tests/test_workflows.py:114-122 | assigning keeps the old list as a prefix: nothing held is dropped or moved (membership in `UnionMembers`, the order of new ids in `UnionFresh`) |
| OrderedIds.Subtract | src/documents/tests/test_workflows.py:1391-1400 | a removal never lengthens a list (which members stay: `SubtractMembers`; their order: `SubtractAppend`) |
| OrderedIds.UnionMembers | src/documents/tests/test_workflows.py:381-394 | merged tags and permissions hold exactly the members of the old list or of the assigned list |
| OrderedIds.UnionFresh | src/documents/tests/test_workflows.py:114-153 | members new to the list and pairwise distinct are appended in exactly their assigned order ([t1, t2, t3]) |
| OrderedIds.UnionAppend | src/documents/tests/test_workflows.py:381-394 | adding from one workflow and then another equals adding their concatenation, so tags accumulate across workflows in first-seen order |
| OrderedIds.UnionPresent | src/documents/tests/test_workflows.py:1202-1239 | assigning only members already present leaves the list unchanged |
| OrderedIds.UnionIdempotent | src/documents/tests/test_workflows.py:812-863 | adding the same members twice gives the list of adding them once |
| OrderedIds.UnionNoDup | src/documents/tests/test_workflows.py:857-860 | a duplicate-free list stays duplicate-free after assignments (a field exists once) |
| OrderedIds.SubtractMembers | src/documents/tests/test_workflows.py:1437-1447 | after a removal, exactly the members not listed remain |
| OrderedIds.SubtractNoDup | src/documents/tests/test_workflows.py:1437-1447 | removals keep a list duplicate-free |
| OrderedIds.SubtractAbsent | src/documents/tests/test_workflows.py:1375-1447 | removing items that are not present is a no-op |
| OrderedIds.SubtractAppend | src/documents/tests/test_workflows.py:1596-1601 | subtraction distributes over concatenation, so the kept members keep their relative order ([t2, t3]) |
| OrderedIds.SubtractTwice | src/documents/tests/test_workflows.py:1375-1447 | two removals in a row equal one removal of the union of what they list |
| OrderedIds.AppendMissing | src/documents/tests/test_workflows.py:114-122 | the `.add` loop over an assigned list computes `Union` |
| OrderedIds.RemoveListed | src/documents/tests/test_workflows.py:1391-1400 | the `.remove` loop over listed items computes `Subtract` |
| Text.LowerStrIdempotent | src/documents/tests/test_workflows.py:949-954 | folding twice is folding once |
| Text.NatToStringRoundTrip | src/documents/tests/test_workflows.py:871-911 | the decimal rendering of the created year reads back as that year |
| Text.FirstCharAbsent | src/documents/tests/test_workflows.py:987-1022 | a word whose first character does not occur in a text is not a substring of it |
| Glob.GlobMatch | src/documents/tests/test_workflows.py:101-106 | `fnmatch` on the file name and path; what it accepts is stated by `StarWordStar`, `PlainMatchesItself`, `StarMatchesAll`, `QuestionMatchesOneChar`, `CharacterClass` and `UnclosedBracket` |
| Glob.StarWordStar | src/documents/tests/test_workflows.py:401-447 | `*w*` matches a string exactly when `w` occurs in it, anywhere, across `/` |
| Glob.MatchStarPrefix | src/documents/tests/test_workflows.py:411-414 | a leading `*` matches any prefix, `/` included |
| Glob.PlainMatchesItself | src/documents/tests/test_workflows.py:458-463 | a pattern without wildcards matches exactly itself (whole-string match) |
| Glob.StarMatchesAll | src/documents/tests/test_workflows.py:703-705 | the pattern `*` matches every string |
| Glob.QuestionMatchesOneChar | src/documents/tests/test_workflows.py:401-447 | `?` matches exactly the one-character strings |
| Glob.CharacterClass | src/documents/tests/test_workflows.py:401-447 | `[abc]` matches one listed character and `[!abc]` one unlisted character |
| Glob.UnclosedBracket | src/documents/tests/test_workflows.py:401-447 | an unterminated `[` is an ordinary character |
| ContentMatch.MatchesContent | src/documents/tests/test_workflows.py:949-1022 | the content filter; its properties are stated by `SensitiveImpliesInsensitive`, `InsensitiveIgnoresPatternCase` and `OneWordAlgorithmsAgree` |
| ContentMatch.SensitiveImpliesInsensitive | src/documents/tests/test_workflows.py:949-985 | a case-sensitive LITERAL match is also a case-insensitive one |
| ContentMatch.InsensitiveIgnoresPatternCase | src/documents/tests/test_workflows.py:952-954 | with `is_insensitive` the pattern's case does not matter, for every algorithm |
| ContentMatch.OneWordAlgorithmsAgree | src/documents/tests/test_workflows.py:949-1022 | for a one-word pattern ANY, ALL and LITERAL agree |
| TitleTemplate.Format | src/documents/tests/test_workflows.py:1126-1168 | `str.format` on a title template; stated by the round trip `FormatEscape`, by `FormatPlainPrefix` and `FormatField` for success and by `FormatUnclosed` and `FailureAfterPlainText` for failure |
| TitleTemplate.FormatEscape | src/documents/tests/test_workflows.py:417-444 | a template with every brace doubled formats to the text itself |
| TitleTemplate.FormatPlainPrefix | src/documents/tests/test_workflows.py:191-194 | brace-free text before the rest is copied to the front of the result or the error goes through |
| TitleTemplate.FormatField | src/documents/tests/test_workflows.py:191-194 | a known placeholder becomes its value followed by the rest of the rendering |
| TitleTemplate.FormatUnclosed | src/documents/tests/test_workflows.py:1141-1168 | `{name` without a closing brace fails with `UnmatchedOpenBrace` |
| TitleTemplate.FailureAfterPlainText | src/documents/tests/test_workflows.py:1141-1168 | text before a malformed part does not rescue it: the whole template fails the same way |
| TriggerMatching.ConsumptionVerdict | src/documents/tests/test_workflows.py:449-775 | a CONSUMPTION trigger passes iff the source, mail rule, file name and path criteria all hold; a failure names the first criterion, in that order, that does not |
| TriggerMatching.DocumentVerdict | src/documents/tests/test_workflows.py:913-1124 | a document trigger passes iff the file name, path, tags-superset, document type, correspondent and content criteria all hold; a failure names the first failing one |
| TriggerMatching.EvaluateTrigger | src/documents/tests/test_workflows.py:802-806 | a trigger of any type passes iff its type's criteria hold |
| TriggerMatching.TriggersOfType | src/documents/tests/test_workflows.py:777-810 | exactly the workflow's triggers of the requested type are evaluated |
| TriggerMatching.FirstMatch | src/documents/tests/test_workflows.py:802-806 | trying the triggers in order logs nothing exactly when there is no trigger, and at most a "did not match" line and a reason per trigger (match semantics in `FirstMatchIsAny`, `FirstIndexHolds`, `FirstMatchLog`, `FirstMatchPairs`) |
| TriggerMatching.DocumentMatchesWorkflow | src/documents/tests/test_workflows.py:777-810 | `document_matches_workflow` fails only for an unsupported trigger type, with `UnsupportedTriggerType`, and otherwise always logs; the verdict for supported types is `WorkflowMatchIsAnyTrigger` |
| TriggerMatching.FirstMatchIsAny | src/documents/tests/test_workflows.py:802-806 | the workflow's triggers match iff some trigger's criteria hold |
| TriggerMatching.FirstIndexHolds | src/documents/tests/test_workflows.py:802-806 | the trigger that wins is the first one that holds; none before it holds |
| TriggerMatching.FirstMatchLog | src/documents/tests/test_workflows.py:446-447 | on a match the log ends with "matched" naming the winning trigger and the workflow |
| TriggerMatching.FirstMatchPairs | src/documents/tests/test_workflows.py:519-522 | every failing trigger gives a "did not match" line followed by its reason; on no match there is one such pair per trigger |
| TriggerMatching.WorkflowMatchIsAnyTrigger | src/documents/tests/test_workflows.py:802-806 | for a supported type, `document_matches_workflow` succeeds and matches iff some trigger of that type holds |
| TriggerMatching.NoTriggerOfRequestedType | src/documents/tests/test_workflows.py:777-810 | a workflow without a trigger of the type does not match, with the distinct "no matching triggers with type" reason |
| TriggerMatching.UnknownTriggerTypeFails | src/documents/tests/test_workflows.py:1355-1373 | asking for an unknown type (4) that the workflow has a trigger of raises `UnsupportedTriggerType` |
| WorkflowSelection.SortByOrderPermutes | src/documents/tests/test_workflows.py:306-353 | sorting by `order` neither loses nor duplicates workflows (multiset equality) |
| WorkflowSelection.SortByOrderSorted | src/documents/tests/test_workflows.py:306-353 | the sorted workflows are in ascending `order` |
| WorkflowSelection.SortByOrderStable | src/documents/tests/test_workflows.py:306-353 | workflows with equal `order` keep their creation order (w1 before w2) |
| WorkflowSelection.FiringWorkflows | src/documents/tests/test_workflows.py:306-399 | the firing workflows are exactly the enabled ones with a trigger of the type that holds |
| WorkflowSelection.EnabledOnly | src/documents/tests/test_workflows.py:1309-1353 | exactly the enabled workflows remain |
| WorkflowSelection.Select | src/documents/tests/test_workflows.py:306-399 | for a supported type selection succeeds; an error is always `UnsupportedTriggerType`; no more workflows are selected than given (which ones: `SelectFiring`, `DisabledAreInvisible`) |
| WorkflowSelection.SelectFiring | src/documents/tests/test_workflows.py:306-399 | for a supported type selection succeeds and keeps exactly the firing workflows, in order |
| WorkflowSelection.SelectUnsupported | src/documents/tests/test_workflows.py:1355-1373 | for an unknown type selection fails iff an enabled workflow has a trigger of that type, and then fails with `UnsupportedTriggerType` |
| WorkflowSelection.DisabledAreInvisible | src/documents/tests/test_workflows.py:1309-1353 | selecting among all workflows equals selecting among the enabled ones: disabled workflows neither apply nor log |
| WorkflowSelection.MatchedLinesFollowSelection | src/documents/tests/test_workflows.py:396-399 | the "matched" lines of the log name exactly the selected workflows, in their order |
| WorkflowSelection.WorkflowMatchedLines | src/documents/tests/test_workflows.py:396-399 | one workflow logs one "matched" line iff it matched |
| WorkflowSelection.MatchWorkflows | src/documents/tests/test_workflows.py:306-399 | sorting then selecting succeeds for a supported type and selects at most the stored workflows (order and membership: `MatchWorkflowsSpec`) |
| WorkflowSelection.MatchWorkflowsSpec | src/documents/tests/test_workflows.py:306-399 | the selected workflows are the firing ones in stable `order`, and they are sorted |
| DocumentActions.AssignState | src/documents/tests/test_workflows.py:107-122 | an assignment never writes the title itself and only adds to the six lists: each old list is a prefix of the new one (last writer wins: `LastAssignmentWins`) |
| DocumentActions.RemoveState | src/documents/tests/test_workflows.py:1389-1400 | a removal keeps the title and the chosen template, and every list can only shrink (which items stay: `RemovalMembership`) |
| DocumentActions.ApplyAction | src/documents/tests/test_workflows.py:1574-1576 | no action writes the title, and a removal keeps the chosen template |
| DocumentActions.ApplyActions | src/documents/tests/test_workflows.py:1574-1576 | a workflow's actions in listed order; stated by `ApplyActionsAppend`, `ApplyActionsWellFormed`, `InOrderIsTwoPass` and `Orchestrator.ApplyActionsKeepTitle` |
| DocumentActions.ApplyWorkflows | src/documents/tests/test_workflows.py:306-399 | the matched workflows' actions, workflow by workflow; stated by `ApplyWorkflowsFlatten`, `ApplyWorkflowsAppend`, `AssignmentsAccumulate` and `Orchestrator.ApplyWorkflowsKeepTitle` |
| DocumentActions.Pruned | src/documents/tests/test_workflows.py:1508-1518 | a remove-all flag empties the list; otherwise the list can only shrink |
| DocumentActions.PrunedMembers | src/documents/tests/test_workflows.py:1437-1447 | after pruning, exactly the unlisted members remain, or none under remove-all |
| DocumentActions.RemovalLeavesUnnamed | src/documents/tests/test_workflows.py:1762-1809 | a removal leaves the title and every field it neither lists nor flags exactly as they were |
| DocumentActions.RemovalMembership | src/documents/tests/test_workflows.py:1375-1447 | after a removal an item is present iff it was present, is not listed and its category is not wiped |
| DocumentActions.ApplyActionsAppend | src/documents/tests/test_workflows.py:1574-1576 | running two action lists in turn equals running their concatenation |
| DocumentActions.ApplyWorkflowsFlatten | src/documents/tests/test_workflows.py:306-399 | applying the matched workflows equals applying all their actions in workflow order |
| DocumentActions.AllActionsAppend | src/documents/tests/test_workflows.py:306-399 | the actions of two workflow lists are the concatenation of their actions |
| DocumentActions.ApplyWorkflowsAppend | src/documents/tests/test_workflows.py:306-399 | applying w1 then w2 equals applying both together |
| DocumentActions.LastAssignmentWins | src/documents/tests/test_workflows.py:378-380 | a field set by an assignment keeps that value when no later action sets it or removes it |
| DocumentActions.UntouchedRefKept | src/documents/tests/test_workflows.py:376-377 | a field no action sets or clears keeps its value (the document type stays from w1) |
| DocumentActions.PendingTitleIsLastTemplate | src/documents/tests/test_workflows.py:321-342 | the title template chosen is the one from the last assignment that sets one |
| DocumentActions.AssignmentsAccumulate | src/documents/tests/test_workflows.py:381-394 | after assignments only, each list is the old list unioned with everything assigned, in first-seen order, and keeps the old members as its prefix |
| DocumentActions.ApplyActionsWellFormed | src/documents/tests/test_workflows.py:857-860 | any action sequence keeps every list duplicate-free |
| DocumentActions.ApplyActionWellFormed | src/documents/tests/test_workflows.py:857-860 | a single action keeps every list duplicate-free |
| DocumentActions.AssignIdempotent | src/documents/tests/test_workflows.py:812-863 | performing the same assignment twice equals performing it once |
| DocumentActions.PresentItemsNotRecreated | src/documents/tests/test_workflows.py:1202-1239 | assigning items the document already holds leaves that list unchanged |
| DocumentActions.RemovalsSubtract | src/documents/tests/test_workflows.py:1375-1447 | removals without remove-all subtract everything they list, in order-preserving fashion |
| DocumentActions.AssignmentsOf | src/documents/tests/test_workflows.py:1574-1576 | the assignments of an action list are all assignments |
| DocumentActions.RemovalsOf | src/documents/tests/test_workflows.py:1574-1576 | the removals of an action list are all removals |
| DocumentActions.SplitAssignmentsFirst | src/documents/tests/test_workflows.py:1574-1576 | an action list with assignments first is its assignments followed by its removals |
| DocumentActions.InOrderIsTwoPass | src/documents/tests/test_workflows.py:1520-1649 | when assignments come first, applying actions in order equals an assignment pass followed by a removal pass |
| DocumentActions.VerbatimTitle | src/documents/tests/test_workflows.py:417-444 | a brace-free title is taken literally |
| DocumentActions.CorrespondentInTitle | src/documents/tests/test_workflows.py:1638-1641 | `{correspondent}` renders the correspondent as the actions left it: its name, or "None" when unset |
| DocumentActions.FilenameInTitle | src/documents/tests/test_workflows.py:1126-1168 | in a run, `{original_filename}` renders as the file name the triggers were matched against |
| DocumentRecord.Document.constructor | src/documents/tests/test_workflows.py:1410-1425 | a stored document with duplicate-free lists and no pending template |
| DocumentRecord.Document.AddTags | src/documents/tests/test_workflows.py:114-116 | the tags become their union with the assigned ones; nothing else changes |
| DocumentRecord.Document.AddCustomFields | src/documents/tests/test_workflows.py:121-122 | the custom fields become their union with the assigned ones |
| DocumentRecord.Document.GrantPermissions | src/documents/tests/test_workflows.py:117-120 | each of the four permission lists becomes its union with the granted ids |
| DocumentRecord.Document.SetReferences | src/documents/tests/test_workflows.py:107-113 | the pending template, correspondent, type, storage path and owner are overwritten where the assignment sets them |
| DocumentRecord.Document.AddItems | src/documents/tests/test_workflows.py:114-122 | every list field is unioned with its assigned ids |
| DocumentRecord.Document.ApplyAssignment | src/documents/tests/test_workflows.py:107-122 | the whole new state of the document after one assignment, field by field |
| DocumentRecord.Document.RemoveTags | src/documents/tests/test_workflows.py:1392 | the tags are pruned by the listed ones or wiped |
| DocumentRecord.Document.RemoveCustomFields | src/documents/tests/test_workflows.py:1396 | the custom fields are pruned by the listed ones or wiped |
| DocumentRecord.Document.RevokePermissions | src/documents/tests/test_workflows.py:1397-1400 | each permission list is pruned by its listed ids, or all four are wiped |
| DocumentRecord.Document.ClearReferences | src/documents/tests/test_workflows.py:1391-1395 | each reference is cleared when listed or flagged |
| DocumentRecord.Document.PruneItems | src/documents/tests/test_workflows.py:1392-1400 | every list field is pruned by its listed ids or wiped |
| DocumentRecord.Document.ApplyRemoval | src/documents/tests/test_workflows.py:1389-1400 | the whole new state of the document after one removal, field by field |
| DocumentRecord.Document.Perform | src/documents/tests/test_workflows.py:1574-1576 | performing an action in place yields `ApplyAction` of the old state |
| DocumentRecord.Document.ApplyMatched | src/documents/tests/test_workflows.py:376-394 | the nested loop over workflows and their actions yields `ApplyWorkflows` of the old state and keeps the lists duplicate-free |
| DocumentRecord.Document.SettleTitle | src/documents/tests/test_workflows.py:1160-1168 | rendering in place yields the state and the error of `SettleTitle` |
| Orchestrator.Run | src/documents/tests/test_workflows.py:136-202 | a run fails only for an unsupported trigger type, with `UnsupportedTriggerType`, and always succeeds for a supported one; afterwards no template is pending (effects: `NothingFiresNothingChanges`, `TitleErrorKeepsOtherEffects`, the scenarios) |
| Orchestrator.RunWorkflows | src/documents/tests/test_workflows.py:136-202 | a run on the document does what `Run` says: a configuration error leaves it untouched, otherwise it ends in `Run`'s state and returns its report |
| Orchestrator.NothingFiresNothingChanges | src/documents/tests/test_workflows.py:495-517 | when no workflow fires, no field changes and the title stays |
| Orchestrator.UnsupportedTypeAborts | src/documents/tests/test_workflows.py:1355-1373 | an unknown trigger type aborts the run iff an enabled workflow has a trigger of that type |
| Orchestrator.TitleErrorKeepsOtherEffects | src/documents/tests/test_workflows.py:1126-1168 | a failed title rendering keeps the original title but every other effect of the actions |
| Orchestrator.ApplyWorkflowsKeepTitle | src/documents/tests/test_workflows.py:1165-1168 | actions never touch the title itself, only the pending template |
| Orchestrator.ApplyActionsKeepTitle | src/documents/tests/test_workflows.py:1165-1168 | a workflow's actions never touch the title itself, whatever their number and kind |
| Scenarios.SimpleNameFilter | src/documents/tests/test_workflows.py:101-106 | `*simple*` matches `simple.pdf` |
| Scenarios.ScratchDirFilter | src/documents/tests/test_workflows.py:101-106 | `*/scratch/*` matches the full path of the consumed file |
| Scenarios.ScratchWordFilter | src/documents/tests/test_workflows.py:411-447 | `*scratch*` matches the full path |
| Scenarios.SampleNameFilter | src/documents/tests/test_workflows.py:865-911 | `*sample*` matches `sample.pdf` |
| Scenarios.FoobarRejectsName | src/documents/tests/test_workflows.py:458-463 | `*foobar*` matches neither `simple.pdf` nor `sample.pdf` |
| Scenarios.FooBarRejectsPath | src/documents/tests/test_workflows.py:533-537 | `*foo/bar*` does not match the full path |
| Scenarios.ConsumptionTriggerPasses | src/documents/tests/test_workflows.py:101-106 | the trigger with all sources, `*simple*` and `*/scratch/*` passes for the consumed file |
| Scenarios.MailRuleTriggerPasses | src/documents/tests/test_workflows.py:204-304 | a consume-folder file carrying mail rule id 1 passes a trigger on rule 1 |
| Scenarios.FilenameMismatchReported | src/documents/tests/test_workflows.py:449-522 | `*foobar*` fails with the file-name reason |
| Scenarios.FilenameMismatchLog | src/documents/tests/test_workflows.py:519-522 | the workflow logs "did not match" and then the file-name reason |
| Scenarios.PathMismatchReported | src/documents/tests/test_workflows.py:524-606 | `*foo/bar*` fails with the path reason |
| Scenarios.MailRuleMismatchReported | src/documents/tests/test_workflows.py:608-691 | a consume-folder file carrying mail rule id 99 fails a trigger on rule 1 with the mail-rule reason |
| Scenarios.SourceNotAllowedReported | src/documents/tests/test_workflows.py:693-775 | an API upload against [ConsumeFolder, MailFetch] fails with the source reason naming the allowed list |
| Scenarios.OnlyTriggerFails | src/documents/tests/test_workflows.py:519-522 | a workflow whose single trigger fails logs "did not match" and that trigger's reason |
| Scenarios.OnlyTriggerPasses | src/documents/tests/test_workflows.py:446-447 | a workflow whose single trigger passes logs one "matched" line |
| Scenarios.NoAddedTriggerReported | src/documents/tests/test_workflows.py:777-810 | a CONSUMPTION-only workflow asked for DOCUMENT_ADDED reports "no matching triggers with type" |
| Scenarios.AddedFilenameMismatch | src/documents/tests/test_workflows.py:913-947 | `*foobar*` fails on the stored `sample.pdf` with the file-name reason |
| Scenarios.LiteralContentFound | src/documents/tests/test_workflows.py:949-985 | insensitive LITERAL "foo" passes on "Hello world foo bar" |
| Scenarios.LiteralContentMissing | src/documents/tests/test_workflows.py:987-1022 | insensitive LITERAL "foo" fails on "Hello world bar" with the content reason |
| Scenarios.TagsMissingReported | src/documents/tests/test_workflows.py:1024-1057 | a document tagged {t3} fails a trigger requiring {t1, t2} with the tags reason |
| Scenarios.DocumentTypeMismatchReported | src/documents/tests/test_workflows.py:1059-1090 | a document without a type fails a trigger requiring `dt` |
| Scenarios.CorrespondentMismatchReported | src/documents/tests/test_workflows.py:1092-1124 | a document from `c2` fails a trigger requiring `c` |
| Scenarios.UnknownTypeRaises | src/documents/tests/test_workflows.py:1355-1373 | a workflow with a type-4 trigger asked for type 4 raises |
| Scenarios.ConsumptionAssignsEverything | src/documents/tests/test_workflows.py:92-202 | the consumed file gets c, dt, sp, owner user2, tags [t1, t2, t3], permissions user3/group1, fields [cf1, cf2], title "Doc from" the correspondent's name, and one "matched" line |
| Scenarios.MultipleWorkflowsMerge | src/documents/tests/test_workflows.py:306-399 | with two matching workflows: document type from w1, correspondent and storage path from w2, tags [t1, t2, t3], view users [user2, user3], two "matched" lines in order |
| Scenarios.RepeatedCustomFieldOnce | src/documents/tests/test_workflows.py:812-863 | two actions assigning cf1 leave exactly one cf1 |
| Scenarios.AddedDocumentAssigned | src/documents/tests/test_workflows.py:865-911 | an added document gets c2 and the title "Doc created in" its creation year |
| Scenarios.BrokenTemplateKeepsTitle | src/documents/tests/test_workflows.py:1126-1168 | `Doc {created_year]` keeps "sample test" and reports the template error |
| Scenarios.UpdateAddsCustomField | src/documents/tests/test_workflows.py:1170-1200 | setting the type fires the update workflow, which adds exactly one custom field |
| Scenarios.UpdateKeepsExistingField | src/documents/tests/test_workflows.py:1202-1239 | a custom field the document already has is not re-created |
| Scenarios.UpdateMergesPermissions | src/documents/tests/test_workflows.py:1241-1307 | user3 and group2 are added to the existing user2/group1 permissions; none is removed |
| Scenarios.DisabledWorkflowIgnored | src/documents/tests/test_workflows.py:1309-1353 | the disabled workflow does not apply (correspondent stays c); the enabled one sets owner and title |
| Scenarios.RemovalOnUpdate | src/documents/tests/test_workflows.py:1375-1447 | the listed correspondent, type, path, owner, cf1, t1 and permissions go; t2 stays |
| Scenarios.RemoveAllOnUpdate | src/documents/tests/test_workflows.py:1449-1518 | the seven remove-all flags empty every category |
| Scenarios.AssignThenRemove | src/documents/tests/test_workflows.py:1520-1649 | assignment then removal leaves tags [t2, t3], user2/group2 permissions, fields [cf2], no correspondent, and the title "Doc from None" |
| Scenarios.AssignThenRemoveAll | src/documents/tests/test_workflows.py:1651-1760 | assignment then remove-all leaves every category empty and the title "Doc from None" |
| Scenarios.OwnerAndTagRemoval | src/documents/tests/test_workflows.py:1762-1809 | a tags-only removal after an owner assignment keeps the owner and leaves [t2] |

## Left out

- REGEX, FUZZY and AUTO content matching: they depend on Python's regex and edit-distance libraries. The content filter also allows ANY and ALL, modelled on whitespace-separated words.
- Persistence: the Django ORM, `save`, `refresh_from_db` and model `__str__`. A document is a record (`DocState`) or a `Document` object.
- The consumption pipeline (`consume_file`, file copying, progress reporting), the HTTP PATCH that fires DOCUMENT_UPDATED, and mail fetching beyond the rule id. Each event is modelled as one call of `Run`/`RunWorkflows` with the intake as a parameter.
- Permissions: the guardian backend is modelled as four id lists (view users, view groups, change users, change groups). `get_groups_with_perms` does not distinguish view from change; the model keeps the two group lists apart.
- Dates: the created and added years are inputs (`TitleContext`). Clocks and timezones are left out. Placeholders other than correspondent, document type, owner user name, original file name and the two years are left out, and so are format specifications such as `{created:%Y}`.
- Log text: each log line is a tagged value (`Matched`, `DidNotMatch`, `Detail(reason)`) instead of formatted text. The content-match success line ("matched on document because it contains …") is not modelled.
- Glob.ClassItems: a class body is read left to right as ranges `x-y` and single characters. Python's special handling of chained ranges (`a-c-e`) and of reversed ranges is not reproduced. Matching is case-sensitive, as `fnmatch` is on POSIX.
- Scenarios: the scratch directory of the suite is a temporary directory. The model stands for it with the fixed path `/tmp/paperless/scratch/simple.pdf`, and for its last component with `scratch`.
- Custom-field values are left out; only which fields a document has is modelled.
- Text.Lower / Text.IsSpace: case folding covers only the ASCII letters 'A'..'Z', while Python's `str.lower()` and `re.IGNORECASE` also fold non-ASCII letters such as 'Ä'. Words for ANY and ALL are split on space, tab, newline and carriage return only, while Python's `str.split()` splits on all Unicode whitespace.

### Behaviour the tests leave open

- Each workflow's actions run in the order they are listed (lines 1574-1576). The tests only ever put removals after assignments. `DocumentActions.InOrderIsTwoPass` proves that this equals an assignment pass followed by a removal pass whenever assignments come first.
- Every failing trigger logs one "did not match" line followed by its reason. The tests only use workflows with a single trigger.
- Selection filters only on the `enabled` flag before matching. A workflow without a trigger of the requested type is therefore logged with the "no matching triggers" reason (`TriggerMatching.NoTriggerOfRequestedType`), as the test at line 777 expects.
