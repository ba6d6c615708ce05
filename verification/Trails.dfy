// Passes that have not returned, and may never: what they have done so far. As more
// nesting is made available the trail of a pass only grows, so that even a cascade
// without an end is one definite sequence of deeds.

module Trails {
  import opened Options
  import opened Exprs
  import opened Rules
  import opened Deeds

  // ---------- where a computation stops that runs out of nesting ----------

  function AssignStop(depth: nat, a: Assign, s: Setup, st: State): State
    requires AssignApply(depth, a, s, st).None?
    decreases depth, 0
  {
    if !Writes(a, s, st) then st
    else if depth == 0 then Written(a, st)
    else PassStop(depth - 1, 0, Some(a.id), s, Written(a, st))
  }

  function BlockStop(depth: nat, i: nat, entries: seq<LabelEntry>, s: Setup, st: State): State
    requires i <= |entries| && BlockApply(depth, i, entries, s, st).None?
    decreases depth, 1, |entries| - i
  {
    var c := Eval(depth, entries[i].cond, s.world, st.vars);
    if c.None? then st
    else if c.value.v == 0.0 then BlockStop(depth, i + 1, entries, s, st)
    else AssignStop(depth, entries[i].ass, s, st)
  }

  function AssignAllStop(depth: nat, i: nat, ass: seq<Assign>, first: Option<Error>, s: Setup, st: State): State
    requires i <= |ass| && AssignAll(depth, i, ass, first, s, st).None?
    decreases depth, 1, |ass| - i
  {
    var d := AssignApply(depth, ass[i], s, st);
    if d.None? then AssignStop(depth, ass[i], s, st)
    else
      AssignAllStop(depth, i + 1, ass, if first.None? then d.value.error else first, s,
                    Note(d.value, TriggerTriggered(ass[i].id)))
  }

  function RuleStop(depth: nat, r: Rule, s: Setup, st: State): State
    requires RuleApply(depth, r, s, st).None?
    decreases depth, 2
  {
    match r
    case LabelBlock(entries) => BlockStop(depth, 0, entries, s, st)
    case Trigger(cond, ass) =>
      if Eval(depth, cond, s.world, st.vars).None? then st else AssignAllStop(depth, 0, ass, None, s, st)
  }

  function PassStop(depth: nat, i: nat, id: Option<Name>, s: Setup, st: State): State
    requires i <= |s.rules| && Pass(depth, i, id, s, st).None?
    decreases depth, 3, |s.rules| - i
  {
    var woken := Woken(depth, s.rules[i], id, st.vars);
    if woken.None? then st
    else if !woken.value then PassStop(depth, i + 1, id, s, st)
    else
      var step := RuleApply(depth, s.rules[i], s, st);
      if step.None? then RuleStop(depth, s.rules[i], s, st) else PassStop(depth, i + 1, id, s, step.value.st)
  }

  // ---------- how far it has come, whether it has returned or not ----------

  ghost function AssignTrail(depth: nat, a: Assign, s: Setup, st: State): State {
    var d := AssignApply(depth, a, s, st);
    if d.Some? then d.value.st else AssignStop(depth, a, s, st)
  }

  ghost function BlockTrail(depth: nat, i: nat, entries: seq<LabelEntry>, s: Setup, st: State): State
    requires i <= |entries|
  {
    var step := BlockApply(depth, i, entries, s, st);
    if step.Some? then step.value.st else BlockStop(depth, i, entries, s, st)
  }

  ghost function AssignAllTrail(depth: nat, i: nat, ass: seq<Assign>, first: Option<Error>, s: Setup, st: State): State
    requires i <= |ass|
  {
    var step := AssignAll(depth, i, ass, first, s, st);
    if step.Some? then step.value.st else AssignAllStop(depth, i, ass, first, s, st)
  }

  ghost function RuleTrail(depth: nat, r: Rule, s: Setup, st: State): State {
    var step := RuleApply(depth, r, s, st);
    if step.Some? then step.value.st else RuleStop(depth, r, s, st)
  }

  ghost function PassTrail(depth: nat, i: nat, id: Option<Name>, s: Setup, st: State): State
    requires i <= |s.rules|
  {
    var end := Pass(depth, i, id, s, st);
    if end.Some? then end.value else PassStop(depth, i, id, s, st)
  }

  // ---------- what it has done by then ----------

  lemma {:induction false} AssignStopGrows(depth: nat, a: Assign, s: Setup, st: State) returns (ds: seq<Deed>)
    requires AssignApply(depth, a, s, st).None?
    ensures Grows(st, AssignStop(depth, a, s, st), ds)
    decreases depth, 0
  {
    GrowsNot(st);
    ds := [];
    if Writes(a, s, st) {
      GrowsByWrite(a, st);
      ds := [Write(Binding(a.id, a.rval))];
      if depth > 0 {
        var more := PassStopGrows(depth - 1, 0, Some(a.id), s, Written(a, st));
        GrowsOn(st, Written(a, st), AssignStop(depth, a, s, st), ds, more);
        ds := ds + more;
      }
    }
  }

  lemma {:induction false} BlockStopGrows(depth: nat, i: nat, entries: seq<LabelEntry>, s: Setup, st: State) returns (ds: seq<Deed>)
    requires i <= |entries| && BlockApply(depth, i, entries, s, st).None?
    ensures Grows(st, BlockStop(depth, i, entries, s, st), ds)
    decreases depth, 1, |entries| - i
  {
    GrowsNot(st);
    hide Grows;
    var c := Eval(depth, entries[i].cond, s.world, st.vars);
    if c.None? { ds := []; }
    else if c.value.v == 0.0 { ds := BlockStopGrows(depth, i + 1, entries, s, st); }
    else { ds := AssignStopGrows(depth, entries[i].ass, s, st); }
  }

  lemma {:induction false} AssignAllStopGrows(depth: nat, i: nat, ass: seq<Assign>, first: Option<Error>, s: Setup, st: State)
    returns (ds: seq<Deed>)
    requires i <= |ass| && AssignAll(depth, i, ass, first, s, st).None?
    ensures Grows(st, AssignAllStop(depth, i, ass, first, s, st), ds)
    decreases depth, 1, |ass| - i
  {
    hide Grows;
    var d := AssignApply(depth, ass[i], s, st);
    if d.None? { ds := AssignStopGrows(depth, ass[i], s, st); }
    else {
      var here := AssignDeeds(depth, ass[i], s, st, s, st);
      var note := TriggerTriggered(ass[i].id);
      GrowsByNote(st, d.value, note, here);
      var more := AssignAllStopGrows(depth, i + 1, ass, if first.None? then d.value.error else first, s, Note(d.value, note));
      GrowsOn(st, Note(d.value, note), AssignAllStop(depth, i, ass, first, s, st), here, more);
      ds := here + more;
    }
  }

  lemma {:induction false} RuleStopGrows(depth: nat, r: Rule, s: Setup, st: State) returns (ds: seq<Deed>)
    requires RuleApply(depth, r, s, st).None?
    ensures Grows(st, RuleStop(depth, r, s, st), ds)
    decreases depth, 2
  {
    GrowsNot(st);
    hide Grows;
    match r
    case LabelBlock(entries) => ds := BlockStopGrows(depth, 0, entries, s, st);
    case Trigger(cond, ass) =>
      if Eval(depth, cond, s.world, st.vars).None? { ds := []; } else { ds := AssignAllStopGrows(depth, 0, ass, None, s, st); }
  }

  lemma {:induction false} PassStopGrows(depth: nat, i: nat, id: Option<Name>, s: Setup, st: State) returns (ds: seq<Deed>)
    requires i <= |s.rules| && Pass(depth, i, id, s, st).None?
    ensures Grows(st, PassStop(depth, i, id, s, st), ds)
    decreases depth, 3, |s.rules| - i
  {
    GrowsNot(st);
    hide Grows;
    var woken := Woken(depth, s.rules[i], id, st.vars);
    if woken.None? { ds := []; }
    else if !woken.value { ds := PassStopGrows(depth, i + 1, id, s, st); }
    else {
      var step := RuleApply(depth, s.rules[i], s, st);
      if step.None? { ds := RuleStopGrows(depth, s.rules[i], s, st); }
      else {
        var here := RuleDeeds(depth, s.rules[i], s, st, s, st);
        var more := PassStopGrows(depth, i + 1, id, s, step.value.st);
        GrowsOn(st, step.value.st, PassStop(depth, i, id, s, st), here, more);
        ds := here + more;
      }
    }
  }

  lemma AssignTrailGrows(depth: nat, a: Assign, s: Setup, st: State) returns (ds: seq<Deed>)
    ensures Grows(st, AssignTrail(depth, a, s, st), ds)
  {
    if AssignApply(depth, a, s, st).Some? { ds := AssignDeeds(depth, a, s, st, s, st); }
    else { ds := AssignStopGrows(depth, a, s, st); }
  }

  lemma BlockTrailGrows(depth: nat, i: nat, entries: seq<LabelEntry>, s: Setup, st: State) returns (ds: seq<Deed>)
    requires i <= |entries|
    ensures Grows(st, BlockTrail(depth, i, entries, s, st), ds)
  {
    if BlockApply(depth, i, entries, s, st).Some? { ds := BlockDeeds(depth, i, entries, s, st, s, st); }
    else { ds := BlockStopGrows(depth, i, entries, s, st); }
  }

  lemma AssignAllTrailGrows(depth: nat, i: nat, ass: seq<Assign>, first: Option<Error>, s: Setup, st: State) returns (ds: seq<Deed>)
    requires i <= |ass|
    ensures Grows(st, AssignAllTrail(depth, i, ass, first, s, st), ds)
  {
    if AssignAll(depth, i, ass, first, s, st).Some? { ds := AssignAllDeeds(depth, i, ass, first, first, s, st, s, st); }
    else { ds := AssignAllStopGrows(depth, i, ass, first, s, st); }
  }

  lemma RuleTrailGrows(depth: nat, r: Rule, s: Setup, st: State) returns (ds: seq<Deed>)
    ensures Grows(st, RuleTrail(depth, r, s, st), ds)
  {
    if RuleApply(depth, r, s, st).Some? { ds := RuleDeeds(depth, r, s, st, s, st); }
    else { ds := RuleStopGrows(depth, r, s, st); }
  }

  lemma PassTrailGrows(depth: nat, i: nat, id: Option<Name>, s: Setup, st: State) returns (ds: seq<Deed>)
    requires i <= |s.rules|
    ensures Grows(st, PassTrail(depth, i, id, s, st), ds)
  {
    if Pass(depth, i, id, s, st).Some? { ds := PassDeeds(depth, i, id, s, st, s, st); }
    else { ds := PassStopGrows(depth, i, id, s, st); }
  }

  // A pass keeps an acyclic table acyclic at every moment, whether it ever returns or
  // not, exactly if none of the writes that it makes on its way is of an expression
  // that depends on the variable it is written to.
  lemma PassStaysAcyclicIff(depth: nat, id: Option<Name>, s: Setup, st: State) returns (ds: seq<Deed>)
    requires Acyclic(st.vars)
    ensures Grows(st, PassTrail(depth, 0, id, s, st), ds)
    ensures AlwaysAcyclic(st.vars, WritesOf(ds)) <==> NeverCircular(st.vars, WritesOf(ds))
  {
    ds := PassTrailGrows(depth, 0, id, s, st);
    RunStaysAcyclicIff(st.vars, WritesOf(ds));
  }

  // ---------- more nesting only leads further ----------

  lemma WriteTrail(d: nat, a: Assign, s: Setup, st: State)
    requires Writes(a, s, st)
    ensures AssignTrail(d, a, s, st)
         == if d == 0 then Written(a, st) else PassTrail(d - 1, 0, Some(a.id), s, Written(a, st))
  {
    hide Pass, PassStop;
  }

  lemma {:induction false} AssignLeads(d: nat, d': nat, a: Assign, s: Setup, st: State)
    requires d <= d'
    ensures AssignTrail(d, a, s, st).log <= AssignTrail(d', a, s, st).log
    decreases d, 0
  {
    if Writes(a, s, st) {
      WriteTrail(d, a, s, st);
      WriteTrail(d', a, s, st);
      hide *;
      if d > 0 { PassLeads(d - 1, d' - 1, 0, Some(a.id), s, Written(a, st)); }
      else if d' > 0 {
        var ds := PassTrailGrows(d' - 1, 0, Some(a.id), s, Written(a, st));
        GrowingLog(Written(a, st), PassTrail(d' - 1, 0, Some(a.id), s, Written(a, st)), ds);
      }
    } else if AssignApply(d, a, s, st).Some? {
      AssignMonotone(d, d', a, s, st);
      hide AssignApply;
    } else {
      var ds := AssignTrailGrows(d', a, s, st);
      hide AssignApply;
    }
  }

  lemma GrowingLog(st: State, st': State, ds: seq<Deed>)
    requires Grows(st, st', ds)
    ensures st.log <= st'.log
  {
  }

  lemma {:induction false} BlockLeads(d: nat, d': nat, i: nat, entries: seq<LabelEntry>, s: Setup, st: State)
    requires i <= |entries| && d <= d'
    ensures BlockTrail(d, i, entries, s, st).log <= BlockTrail(d', i, entries, s, st).log
    decreases d, 1, |entries| - i
  {
    if BlockApply(d, i, entries, s, st).Some? { BlockMonotone(d, d', i, entries, s, st); }
    else {
      var c := Eval(d, entries[i].cond, s.world, st.vars);
      if c.None? { var ds := BlockTrailGrows(d', i, entries, s, st); }
      else {
        EvalMonotone(d, d', entries[i].cond, s.world, st.vars);
        if c.value.v == 0.0 { BlockLeads(d, d', i + 1, entries, s, st); }
        else { AssignLeads(d, d', entries[i].ass, s, st); }
      }
    }
  }

  lemma {:induction false} AssignAllLeads(d: nat, d': nat, i: nat, ass: seq<Assign>, first: Option<Error>, s: Setup, st: State)
    requires i <= |ass| && d <= d'
    ensures AssignAllTrail(d, i, ass, first, s, st).log <= AssignAllTrail(d', i, ass, first, s, st).log
    decreases d, 1, |ass| - i
  {
    if AssignAll(d, i, ass, first, s, st).Some? { AssignAllMonotone(d, d', i, ass, first, s, st); }
    else if AssignApply(d, ass[i], s, st).Some? {
      AssignMonotone(d, d', ass[i], s, st);
      var done := AssignApply(d, ass[i], s, st).value;
      AssignAllLeads(d, d', i + 1, ass, if first.None? then done.error else first, s, Note(done, TriggerTriggered(ass[i].id)));
    } else {
      AssignLeads(d, d', ass[i], s, st);
      if AssignApply(d', ass[i], s, st).Some? {
        var done := AssignApply(d', ass[i], s, st).value;
        var next := if first.None? then done.error else first;
        var ds := AssignAllTrailGrows(d', i + 1, ass, next, s, Note(done, TriggerTriggered(ass[i].id)));
      }
    }
  }

  lemma {:induction false} RuleLeads(d: nat, d': nat, r: Rule, s: Setup, st: State)
    requires d <= d'
    ensures RuleTrail(d, r, s, st).log <= RuleTrail(d', r, s, st).log
    decreases d, 2
  {
    if RuleApply(d, r, s, st).Some? { RuleMonotone(d, d', r, s, st); }
    else {
      match r
      case LabelBlock(entries) => BlockLeads(d, d', 0, entries, s, st);
      case Trigger(cond, ass) =>
        if Eval(d, cond, s.world, st.vars).None? { var ds := RuleTrailGrows(d', r, s, st); }
        else {
          EvalMonotone(d, d', cond, s.world, st.vars);
          AssignAllLeads(d, d', 0, ass, None, s, st);
        }
    }
  }

  // The trail of a pass at greater depth begins with the one at smaller depth.
  lemma {:induction false} PassLeads(d: nat, d': nat, i: nat, id: Option<Name>, s: Setup, st: State)
    requires i <= |s.rules| && d <= d'
    ensures PassTrail(d, i, id, s, st).log <= PassTrail(d', i, id, s, st).log
    decreases d, 3, |s.rules| - i
  {
    if Pass(d, i, id, s, st).Some? { PassMonotone(d, d', i, id, s, st); }
    else {
      var r := s.rules[i];
      if Woken(d, r, id, st.vars).None? { var ds := PassTrailGrows(d', i, id, s, st); }
      else {
        if id.Some? { AnyRefMonotone(d, d', RuleExprs(r), id.value, st.vars); }
        if !Woken(d, r, id, st.vars).value { PassLeads(d, d', i + 1, id, s, st); }
        else if RuleApply(d, r, s, st).Some? {
          RuleMonotone(d, d', r, s, st);
          PassLeads(d, d', i + 1, id, s, RuleApply(d, r, s, st).value.st);
        } else {
          RuleLeads(d, d', r, s, st);
          if RuleApply(d', r, s, st).Some? { var ds := PassTrailGrows(d', i + 1, id, s, RuleApply(d', r, s, st).value.st); }
        }
      }
    }
  }
}
