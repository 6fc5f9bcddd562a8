/**
 * Choosing the workflows that fire for one event.
 *
 * Workflows are taken in ascending `order`, ties keeping their creation
 * order; disabled workflows are skipped without a word; every other workflow
 * is matched (`DocumentMatchesWorkflow`) and its log lines are collected. An
 * unsupported trigger type aborts the whole selection.
 */
module WorkflowSelection {
  import opened Wrappers
  import opened OrderedIds
  import opened WorkflowTypes
  import opened TriggerMatching

  // ----- Ordering by `order`, stable -----

  predicate SortedByOrder(ws: seq<Workflow>) {
    forall i, j :: 0 <= i < j < |ws| ==> ws[i].order <= ws[j].order
  }

  /** Puts `w` in front of the first workflow whose order is not smaller. */
  function Insert(w: Workflow, ws: seq<Workflow>): (r: seq<Workflow>)
    ensures |r| == |ws| + 1
    decreases |ws|
  {
    if ws == [] || w.order <= ws[0].order then [w] + ws
    else [ws[0]] + Insert(w, ws[1..])
  }

  /** The workflows in evaluation order (insertion sort). */
  function SortByOrder(ws: seq<Workflow>): (r: seq<Workflow>)
    ensures |r| == |ws|
    decreases |ws|
  {
    if ws == [] then [] else Insert(ws[0], SortByOrder(ws[1..]))
  }

  /** Inserting adds exactly the one workflow. */
  lemma {:induction false} InsertPermutes(w: Workflow, ws: seq<Workflow>)
    ensures multiset(Insert(w, ws)) == multiset(ws) + multiset{w}
    decreases |ws|
  {
    if ws != [] && w.order > ws[0].order {
      InsertPermutes(w, ws[1..]);
      assert ws == [ws[0]] + ws[1..];
    }
  }

  /** Sorting neither loses nor duplicates a workflow. */
  lemma {:induction false} SortByOrderPermutes(ws: seq<Workflow>)
    ensures multiset(SortByOrder(ws)) == multiset(ws)
    decreases |ws|
  {
    if ws != [] {
      SortByOrderPermutes(ws[1..]);
      InsertPermutes(ws[0], SortByOrder(ws[1..]));
      assert ws == [ws[0]] + ws[1..];
    }
  }

  /** The sorted workflows are the stored ones. */
  lemma SortByOrderMembers(ws: seq<Workflow>)
    ensures forall w :: w in SortByOrder(ws) <==> w in ws
  {
    SortByOrderPermutes(ws);
    forall w ensures w in SortByOrder(ws) <==> w in ws {
      assert w in SortByOrder(ws) <==> w in multiset(SortByOrder(ws));
      assert w in ws <==> w in multiset(ws);
    }
  }

  /** The workflows of one `order` value, in the order given. */
  function WithOrder(ws: seq<Workflow>, k: int): (r: seq<Workflow>)
    decreases |ws|
  {
    if ws == [] then []
    else (if ws[0].order == k then [ws[0]] else []) + WithOrder(ws[1..], k)
  }

  lemma {:induction false} InsertSorted(w: Workflow, ws: seq<Workflow>)
    requires SortedByOrder(ws)
    ensures SortedByOrder(Insert(w, ws))
    decreases |ws|
  {
    if ws != [] && w.order > ws[0].order {
      InsertSorted(w, ws[1..]);
      InsertPermutes(w, ws[1..]);
      var r := Insert(w, ws);
      var tail := Insert(w, ws[1..]);
      assert r == [ws[0]] + tail;
      forall k | 0 <= k < |tail| ensures ws[0].order <= tail[k].order {
        assert tail[k] in multiset(ws[1..]) + multiset{w};
        assert tail[k] == w || tail[k] in ws[1..];
      }
    }
  }

  lemma {:induction false} InsertWithOrder(w: Workflow, ws: seq<Workflow>, k: int)
    ensures WithOrder(Insert(w, ws), k) == (if w.order == k then [w] else []) + WithOrder(ws, k)
    decreases |ws|
  {
    if ws == [] || w.order <= ws[0].order {
      WithOrderCons(w, ws, k);
    } else {
      var rest := Insert(w, ws[1..]);
      InsertWithOrder(w, ws[1..], k);
      WithOrderCons(ws[0], rest, k);
      assert [ws[0]] + ws[1..] == ws;
      WithOrderCons(ws[0], ws[1..], k);
      if w.order == k {
        assert ws[0].order != k;
      }
    }
  }

  lemma WithOrderCons(w: Workflow, ws: seq<Workflow>, k: int)
    ensures WithOrder([w] + ws, k) == (if w.order == k then [w] else []) + WithOrder(ws, k)
  {
    assert ([w] + ws)[0] == w && ([w] + ws)[1..] == ws;
  }

  /** The sort orders by `order`. */
  lemma {:induction false} SortByOrderSorted(ws: seq<Workflow>)
    ensures SortedByOrder(SortByOrder(ws))
    decreases |ws|
  {
    if ws != [] {
      SortByOrderSorted(ws[1..]);
      InsertSorted(ws[0], SortByOrder(ws[1..]));
    }
  }

  /** The sort is stable: workflows of equal `order` keep their relative (creation) order. */
  lemma {:induction false} SortByOrderStable(ws: seq<Workflow>, k: int)
    ensures WithOrder(SortByOrder(ws), k) == WithOrder(ws, k)
    decreases |ws|
  {
    if ws != [] {
      SortByOrderStable(ws[1..], k);
      InsertWithOrder(ws[0], SortByOrder(ws[1..]), k);
    }
  }

  // ----- Selection -----

  /** A workflow fires: it is enabled and one of its triggers of the type holds. */
  predicate Fires(ctx: MatchContext, w: Workflow, kind: int) {
    w.enabled && exists t :: t in w.triggers && t.kind == kind && Criteria(t, ctx, kind)
  }

  /** A workflow that makes selection fail for an unsupported trigger type. */
  predicate Offending(w: Workflow, kind: int) {
    w.enabled && !KnownTriggerType(kind) && exists t :: t in w.triggers && t.kind == kind
  }

  /** The workflows that fire, in the order given. */
  function FiringWorkflows(ctx: MatchContext, ws: seq<Workflow>, kind: int): (r: seq<Workflow>)
    ensures |r| <= |ws|
    ensures forall w :: w in r <==> w in ws && Fires(ctx, w, kind)
    decreases |ws|
  {
    if ws == [] then []
    else (if Fires(ctx, ws[0], kind) then [ws[0]] else []) + FiringWorkflows(ctx, ws[1..], kind)
  }

  /** When no workflow fires, nothing is selected. */
  lemma {:induction false} NoneFiring(ctx: MatchContext, ws: seq<Workflow>, kind: int)
    requires forall w :: w in ws ==> !Fires(ctx, w, kind)
    ensures FiringWorkflows(ctx, ws, kind) == []
    decreases |ws|
  {
    if ws != [] {
      assert ws[0] in ws;
      assert forall w :: w in ws[1..] ==> w in ws;
      NoneFiring(ctx, ws[1..], kind);
    }
  }

  function EnabledOnly(ws: seq<Workflow>): (r: seq<Workflow>)
    ensures forall w :: w in r <==> w in ws && w.enabled
    decreases |ws|
  {
    if ws == [] then []
    else (if ws[0].enabled then [ws[0]] else []) + EnabledOnly(ws[1..])
  }

  /** The selected workflows and the log lines written while choosing them. */
  datatype Selection = Selection(matched: seq<Workflow>, log: seq<LogLine>)

  /** Matches the workflows in the order given. */
  function Select(ctx: MatchContext, ws: seq<Workflow>, kind: int): (r: Result<Selection, MatchError>)
    ensures KnownTriggerType(kind) ==> r.Ok?
    ensures r.Err? ==> r.error == UnsupportedTriggerType(kind)
    ensures r.Ok? ==> |r.value.matched| <= |ws|
    decreases |ws|
  {
    if ws == [] then Ok(Selection([], []))
    else if !ws[0].enabled then Select(ctx, ws[1..], kind)
    else match DocumentMatchesWorkflow(ctx, ws[0], kind)
      case Err(e) => Err(e)
      case Ok(v) =>
        match Select(ctx, ws[1..], kind)
        case Err(e) => Err(e)
        case Ok(rest) =>
          Ok(Selection((if v.matched then [ws[0]] else []) + rest.matched, v.log + rest.log))
  }

  /** Selection over the stored workflows: sort by `order`, then match. */
  function MatchWorkflows(ctx: MatchContext, ws: seq<Workflow>, kind: int): (r: Result<Selection, MatchError>)
    ensures KnownTriggerType(kind) ==> r.Ok?
    ensures r.Err? ==> r.error == UnsupportedTriggerType(kind)
    ensures r.Ok? ==> |r.value.matched| <= |ws|
  {
    Select(ctx, SortByOrder(ws), kind)
  }

  /** For a supported trigger type selection succeeds and keeps exactly the firing workflows, in order. */
  lemma {:induction false} SelectFiring(ctx: MatchContext, ws: seq<Workflow>, kind: int)
    requires KnownTriggerType(kind)
    ensures Select(ctx, ws, kind).Ok?
    ensures Select(ctx, ws, kind).value.matched == FiringWorkflows(ctx, ws, kind)
    decreases |ws|
  {
    if ws != [] {
      SelectFiring(ctx, ws[1..], kind);
      if ws[0].enabled {
        WorkflowMatchIsAnyTrigger(ctx, ws[0], kind);
      }
    }
  }

  /** For an unsupported trigger type selection fails iff some enabled workflow has a trigger of it. */
  lemma {:induction false} SelectUnsupported(ctx: MatchContext, ws: seq<Workflow>, kind: int)
    requires !KnownTriggerType(kind)
    ensures Select(ctx, ws, kind).Err? <==> exists i :: 0 <= i < |ws| && Offending(ws[i], kind)
    ensures Select(ctx, ws, kind).Err? ==> Select(ctx, ws, kind).error == UnsupportedTriggerType(kind)
    ensures Select(ctx, ws, kind).Ok? ==> Select(ctx, ws, kind).value.matched == []
    decreases |ws|
  {
    if ws != [] {
      SelectUnsupported(ctx, ws[1..], kind);
      if Offending(ws[0], kind) {
        UnknownTriggerTypeFails(ctx, ws[0], kind);
      } else if ws[0].enabled {
        NoTriggerOfRequestedType(ctx, ws[0], kind);
      }
      if exists i :: 0 <= i < |ws| && Offending(ws[i], kind) {
        var i :| 0 <= i < |ws| && Offending(ws[i], kind);
        if i > 0 {
          assert ws[1..][i - 1] == ws[i];
        }
      }
      if exists i :: 0 <= i < |ws[1..]| && Offending(ws[1..][i], kind) {
        var i :| 0 <= i < |ws[1..]| && Offending(ws[1..][i], kind);
        assert ws[i + 1] == ws[1..][i];
      }
    }
  }

  /** Disabled workflows neither fire nor write a log line: dropping them changes nothing. */
  lemma {:induction false} DisabledAreInvisible(ctx: MatchContext, ws: seq<Workflow>, kind: int)
    ensures Select(ctx, ws, kind) == Select(ctx, EnabledOnly(ws), kind)
    decreases |ws|
  {
    if ws != [] {
      DisabledAreInvisible(ctx, ws[1..], kind);
      var e := EnabledOnly(ws);
      if ws[0].enabled {
        assert e[0] == ws[0] && e[1..] == EnabledOnly(ws[1..]);
      } else {
        assert e == EnabledOnly(ws[1..]);
      }
    }
  }

  /** The workflows named by the "matched" lines of a log, in order. */
  function MatchedWorkflowIds(log: seq<LogLine>): (r: seq<Id>)
    ensures |r| <= |log|
    decreases |log|
  {
    if log == [] then []
    else (if log[0].Matched? then [log[0].workflow] else []) + MatchedWorkflowIds(log[1..])
  }

  function Ids(ws: seq<Workflow>): (r: seq<Id>)
    ensures |r| == |ws|
    ensures forall i :: 0 <= i < |ws| ==> r[i] == ws[i].id
    decreases |ws|
  {
    if ws == [] then [] else [ws[0].id] + Ids(ws[1..])
  }

  lemma {:induction false} MatchedIdsAppend(a: seq<LogLine>, b: seq<LogLine>)
    ensures MatchedWorkflowIds(a + b) == MatchedWorkflowIds(a) + MatchedWorkflowIds(b)
    decreases |a|
  {
    if a == [] {
      assert a + b == b;
    } else {
      var head := if a[0].Matched? then [a[0].workflow] else [];
      var x, y := MatchedWorkflowIds(a[1..]), MatchedWorkflowIds(b);
      MatchedIdsAppend(a[1..], b);
      assert (a + b)[0] == a[0] && (a + b)[1..] == a[1..] + b;
      assert MatchedWorkflowIds(a + b) == head + (x + y);
      assert head + (x + y) == (head + x) + y;
    }
  }

  /** One workflow's log holds one "matched" line, for that workflow, exactly when it matched. */
  lemma {:induction false} FirstMatchMatchedLines(ts: seq<Trigger>, ctx: MatchContext, workflow: Id, kind: int)
    ensures var v := FirstMatch(ts, ctx, workflow, kind);
      MatchedWorkflowIds(v.log) == if v.matched then [workflow] else []
    decreases |ts|
  {
    if ts != [] {
      FirstMatchMatchedLines(ts[1..], ctx, workflow, kind);
      var v := FirstMatch(ts, ctx, workflow, kind);
      if !EvaluateTrigger(ts[0], ctx, kind).Pass? {
        var rest := FirstMatch(ts[1..], ctx, workflow, kind);
        var pair := [DidNotMatch(workflow), Detail(EvaluateTrigger(ts[0], ctx, kind).reason)];
        MatchedIdsAppend(pair, rest.log);
        assert MatchedWorkflowIds(pair) == [] by {
          assert pair[1..][1..] == [];
        }
      }
    }
  }

  /** The "matched" lines of the log name the selected workflows, one each, in order. */
  lemma {:induction false} MatchedLinesFollowSelection(ctx: MatchContext, ws: seq<Workflow>, kind: int)
    requires Select(ctx, ws, kind).Ok?
    ensures MatchedWorkflowIds(Select(ctx, ws, kind).value.log) == Ids(Select(ctx, ws, kind).value.matched)
    decreases |ws|
  {
    if ws != [] {
      MatchedLinesFollowSelection(ctx, ws[1..], kind);
      if ws[0].enabled {
        var v := DocumentMatchesWorkflow(ctx, ws[0], kind).value;
        var rest := Select(ctx, ws[1..], kind).value;
        MatchedIdsAppend(v.log, rest.log);
        WorkflowMatchedLines(ctx, ws[0], kind);
        var here := if v.matched then [ws[0]] else [];
        assert Ids(here + rest.matched) == Ids(here) + Ids(rest.matched);
      }
    }
  }

  /** A workflow's own log holds its "matched" line exactly when it matched. */
  lemma WorkflowMatchedLines(ctx: MatchContext, w: Workflow, kind: int)
    requires DocumentMatchesWorkflow(ctx, w, kind).Ok?
    ensures var v := DocumentMatchesWorkflow(ctx, w, kind).value;
      MatchedWorkflowIds(v.log) == if v.matched then [w.id] else []
  {
    var v := DocumentMatchesWorkflow(ctx, w, kind).value;
    var ts := TriggersOfType(w.triggers, kind);
    if ts == [] {
      assert v.log[1..][1..] == [];
    } else {
      FirstMatchMatchedLines(ts, ctx, w.id, kind);
    }
  }

  /** End to end: selection fires the enabled workflows with a holding trigger, in `order`. */
  lemma MatchWorkflowsSpec(ctx: MatchContext, ws: seq<Workflow>, kind: int)
    requires KnownTriggerType(kind)
    ensures MatchWorkflows(ctx, ws, kind).Ok?
    ensures var m := MatchWorkflows(ctx, ws, kind).value.matched;
      m == FiringWorkflows(ctx, SortByOrder(ws), kind) && SortedByOrder(m)
  {
    SelectFiring(ctx, SortByOrder(ws), kind);
    SortByOrderSorted(ws);
    FiringKeepsSorted(ctx, SortByOrder(ws), kind);
  }

  lemma {:induction false} FiringKeepsSorted(ctx: MatchContext, ws: seq<Workflow>, kind: int)
    requires SortedByOrder(ws)
    ensures SortedByOrder(FiringWorkflows(ctx, ws, kind))
    ensures forall w :: w in FiringWorkflows(ctx, ws, kind) <==> w in ws && Fires(ctx, w, kind)
    decreases |ws|
  {
    if ws != [] {
      FiringKeepsSorted(ctx, ws[1..], kind);
      var rest := FiringWorkflows(ctx, ws[1..], kind);
      forall k | 0 <= k < |rest| ensures ws[0].order <= rest[k].order {
        assert rest[k] in ws[1..];
      }
    }
  }
}
