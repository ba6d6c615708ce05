// The dependency filter against a full pass. After a change of one point both write
// the same variables in the same order, and all that the full pass does beyond the
// filtered one is to repeat requests.

module Filtering {
  import opened Options
  import opened Exprs
  import opened Rules
  import opened Deeds
  import opened RequestSafety
  import opened Stratification
  import opened Reactivity
  import opened Cascades

  // ---------- settled rules, at any sufficient depth ----------

  lemma {:induction false} BlockFiredAtBound(depth: nat, i: nat, entries: seq<LabelEntry>, w: World, vars: Vars, g: Strata)
    requires i <= |entries| && Stratified(g, vars) && g.bound <= depth
    ensures BlockFired(depth, i, entries, w, vars) == BlockFired(g.bound, i, entries, w, vars)
    decreases |entries| - i
  {
    if i < |entries| {
      SameAnswer(depth, entries[i].cond, w, vars, g);
      BlockFiredAtBound(depth, i + 1, entries, w, vars, g);
    }
  }

  lemma FiredAtBound(depth: nat, r: Rule, w: World, vars: Vars, g: Strata)
    requires Stratified(g, vars) && g.bound <= depth
    ensures Fired(depth, r, w, vars) == Fired(g.bound, r, w, vars)
  {
    hide Stratified, Eval, BlockFired;
    match r
    case LabelBlock(entries) => BlockFiredAtBound(depth, 0, entries, w, vars, g);
    case Trigger(cond, _) => SameAnswer(depth, cond, w, vars, g);
  }

  lemma AssignSettledAtBound(depth: nat, a: Assign, w: World, vars: Vars, q: iset<Request>, g: Strata)
    requires Stratified(g, vars) && g.bound <= depth
    ensures AssignSettled(depth, a, w, vars, q) <==> AssignSettled(g.bound, a, w, vars, q)
  {
    RequestAtBound(depth, a, w, vars, g);
    hide Stratified, RequestOf;
  }

  lemma SettledAtBound(depth: nat, r: Rule, w: World, vars: Vars, q: iset<Request>, g: Strata)
    requires Stratified(g, vars) && g.bound <= depth
    ensures Settled(depth, r, w, vars, q) <==> Settled(g.bound, r, w, vars, q)
  {
    hide Stratified, Fired, AssignSettled;
    FiredAtBound(depth, r, w, vars, g);
    forall a ensures AssignSettled(depth, a, w, vars, q) <==> AssignSettled(g.bound, a, w, vars, q) {
      AssignSettledAtBound(depth, a, w, vars, q, g);
    }
  }

  // Requests of q, and nothing else.
  ghost predicate OnlyAsks(ds: seq<Deed>, q: iset<Request>) {
    forall x :: x in ds ==> x.Ask? && x.request in q
  }

  lemma {:induction false} OnlyAsksWriteNothing(ds: seq<Deed>, q: iset<Request>)
    requires OnlyAsks(ds, q)
    ensures WritesOf(ds) == []
    decreases |ds|
  {
    if ds != [] {
      assert ds[0] in ds;
      OnlyAsksWriteNothing(ds[1..], q);
    }
  }

  lemma SettledRuleOnlyAsks(depth: nat, r: Rule, q: iset<Request>, s: Setup, st: State, g: Strata) returns (step: Step, ds: seq<Deed>)
    requires Stratified(g, st.vars) && g.bound <= depth && Settled(g.bound, r, s.world, st.vars, q)
    requires RuleApply(depth, r, s, st).Some?
    ensures RuleApply(depth, r, s, st) == Some(step) && step.st.vars == st.vars
    ensures Grows(st, step.st, ds) && OnlyAsks(ds, q)
  {
    SettledAtBound(depth, r, s.world, st.vars, q, g);
    step := RuleApply(depth, r, s, st).value;
    ds := AsksOf(depth, Fired(depth, r, s.world, st.vars), s.world, st.vars);
    SettledRuleAsks(depth, r, s, st);
    AsksOfSettled(depth, Fired(depth, r, s.world, st.vars), s.world, st.vars, q);
  }

  // ---------- in step ----------

  // ds is es without some requests of q.
  ghost predicate Thins(es: seq<Deed>, ds: seq<Deed>, q: iset<Request>)
    decreases |es|
  {
    if es == [] then ds == []
    else
      || (ds != [] && ds[0] == es[0] && Thins(es[1..], ds[1..], q))
      || (es[0].Ask? && es[0].request in q && Thins(es[1..], ds, q))
  }

  lemma {:induction false} ThinsKeepsWrites(es: seq<Deed>, ds: seq<Deed>, q: iset<Request>)
    requires Thins(es, ds, q)
    ensures WritesOf(ds) == WritesOf(es)
    decreases |es|
  {
    if es != [] {
      if ds != [] && ds[0] == es[0] && Thins(es[1..], ds[1..], q) { ThinsKeepsWrites(es[1..], ds[1..], q); }
      else { ThinsKeepsWrites(es[1..], ds, q); }
    }
  }

  lemma {:induction false} ThinsItself(ds: seq<Deed>, q: iset<Request>)
    ensures Thins(ds, ds, q)
    decreases |ds|
  {
    if ds != [] { ThinsItself(ds[1..], q); }
  }

  lemma {:induction false} ThinsAway(es: seq<Deed>, q: iset<Request>)
    requires OnlyAsks(es, q)
    ensures Thins(es, [], q)
    decreases |es|
  {
    if es != [] { ThinsAway(es[1..], q); }
  }

  lemma {:induction false} ThinsSum(es: seq<Deed>, ds: seq<Deed>, es': seq<Deed>, ds': seq<Deed>, q: iset<Request>)
    requires Thins(es, ds, q) && Thins(es', ds', q)
    ensures Thins(es + es', ds + ds', q)
    decreases |es|
  {
    if es == [] {
      assert es + es' == es' && ds + ds' == ds';
    } else {
      assert (es + es')[1..] == es[1..] + es';
      if ds != [] && ds[0] == es[0] && Thins(es[1..], ds[1..], q) {
        assert (ds + ds')[1..] == ds[1..] + ds';
        ThinsSum(es[1..], ds[1..], es', ds', q);
      } else {
        ThinsSum(es[1..], ds, es', ds', q);
      }
    }
  }

  lemma {:induction false} ThinsInMore(es: seq<Deed>, ds: seq<Deed>, q: iset<Request>, q': iset<Request>)
    requires Thins(es, ds, q) && q <= q'
    ensures Thins(es, ds, q')
    decreases |es|
  {
    if es != [] {
      if ds != [] && ds[0] == es[0] && Thins(es[1..], ds[1..], q) { ThinsInMore(es[1..], ds[1..], q, q'); }
      else { ThinsInMore(es[1..], ds, q, q'); }
    }
  }

  // Rule i in the filtered pass, from f, and in the full pass, from u.
  lemma RuleInStep(depth: nat, i: nat, id: Name, base: iset<Request>, s: Setup, f: State, u: State, g: Strata)
    returns (f1: State, u1: State, ds: seq<Deed>, es: seq<Deed>)
    requires i < |s.rules| && Sane(s, g) && Fits(g, f.vars) && u.vars == f.vars && depth >= 2 * g.bound + 1
    requires CoveredIn(g, s, [] + [Frame(i, Some(id))], {}, base, f)
    ensures Pass(depth, i, Some(id), s, f) == Pass(depth, i + 1, Some(id), s, f1)
    ensures Pass(depth, i, None, s, u) == Pass(depth, i + 1, None, s, u1)
    ensures Fits(g, f1.vars) && u1.vars == f1.vars && CoveredIn(g, s, [] + [Frame(i + 1, Some(id))], {}, base, f1)
    ensures Grows(f, f1, ds) && Grows(u, u1, es) && Thins(es, ds, Known(base, f1))
  {
    hide Thins, Covered, Settled, OnlyAsks, CoveredIn, Known, RuleApply;
    var r := s.rules[i];
    SearchOfRuleEnds(depth, r, Some(id), f.vars, g);
    WokenAtBound(depth, r, Some(id), f.vars, g);
    if Woken(depth, r, Some(id), f.vars).value {
      var step := WokenRuleCovers(depth, i, Some(id), [], {}, base, s, f, g);
      ds := RuleDeeds(depth, r, s, f, s, u);
      es := ds;
      f1, u1 := step.st, RuleApply(depth, r, s, u).value.st;
      ThinsItself(ds, Known(base, f1));
    } else {
      LeftOutIsSettled(depth, i, id, base, s, f, g);
      var ended := FullRuleEnds(depth, i, s, u, g);
      var step, asks := SettledRuleOnlyAsks(depth, r, Known(base, f), s, u, g);
      f1, u1, ds, es := f, step.st, [], asks;
      GrowsNot(f);
      ThinsAway(asks, Known(base, f));
    }
  }

  // The filtered pass from f and the full pass from u, rule by rule.
  lemma {:induction false} PassesInStep(depth: nat, i: nat, id: Name, base: iset<Request>, s: Setup, f: State, u: State, g: Strata)
    returns (f': State, u': State, ds: seq<Deed>, es: seq<Deed>)
    requires i <= |s.rules| && Sane(s, g) && Fits(g, f.vars) && u.vars == f.vars && depth >= 2 * g.bound + 1
    requires CoveredIn(g, s, [] + [Frame(i, Some(id))], {}, base, f)
    ensures Pass(depth, i, Some(id), s, f) == Some(f') && Pass(depth, i, None, s, u) == Some(u') && u'.vars == f'.vars
    ensures Grows(f, f', ds) && Grows(u, u', es) && Thins(es, ds, Known(base, f'))
    decreases |s.rules| - i
  {
    hide Thins, CoveredIn, Sane, Fits, Known, Grows;
    if i == |s.rules| {
      ThinsItself([], Known(base, f));
      GrowsNot(f);
      GrowsNot(u);
      return f, u, [], [];
    }
    hide Pass;
    var f1, u1, here, here' := RuleInStep(depth, i, id, base, s, f, u, g);
    var more, more': seq<Deed>;
    f', u', more, more' := PassesInStep(depth, i + 1, id, base, s, f1, u1, g);
    ds, es := here + more, here' + more';
    GrowsOn(f, f1, f', here, more);
    GrowsOn(u, u1, u', here', more');
    ThinsOn(base, f1, f', here', here, more', more);
  }

  lemma ThinsOn(base: iset<Request>, f1: State, f': State, es: seq<Deed>, ds: seq<Deed>, es': seq<Deed>, ds': seq<Deed>)
    requires Grows(f1, f', ds') && Thins(es, ds, Known(base, f1)) && Thins(es', ds', Known(base, f'))
    ensures Thins(es + es', ds + ds', Known(base, f'))
  {
    KnownGrows(base, f1, f');
    ThinsInMore(es, ds, Known(base, f1), Known(base, f'));
    ThinsSum(es, ds, es', ds', Known(base, f'));
  }

  lemma LeftOutIsSettled(depth: nat, i: nat, id: Name, base: iset<Request>, s: Setup, f: State, g: Strata)
    requires i < |s.rules| && Stratified(g, f.vars) && g.bound <= depth
    requires CoveredIn(g, s, [] + [Frame(i, Some(id))], {}, base, f)
    requires Woken(depth, s.rules[i], Some(id), f.vars) == Some(false)
    ensures Settled(g.bound, s.rules[i], s.world, f.vars, Known(base, f))
    ensures CoveredIn(g, s, [] + [Frame(i + 1, Some(id))], {}, base, f)
  {
    hide Settled;
    WokenAtBound(depth, s.rules[i], Some(id), f.vars, g);
    assert Covered(g, s.rules, [] + [Frame(i, Some(id))], {}, i, s.world, f.vars, Known(base, f));
    FrameAdvances(g, s.rules, [], i, Some(id), {}, {}, s.world, f.vars, Known(base, f));
  }

  lemma FullRuleEnds(depth: nat, i: nat, s: Setup, u: State, g: Strata) returns (step: Step)
    requires i < |s.rules| && Sane(s, g) && Fits(g, u.vars) && depth >= 2 * g.bound + 1
    ensures RuleApply(depth, s.rules[i], s, u) == Some(step)
  {
    assert g.profiles[i] == ProfileOf(s.rules[i]);
    WokenMayRun(depth, s.rules[i], i, None, u.vars, g);
    step := RuleEnds(depth, s.rules[i], 0, s, u, g);
  }

  // ---------- the result ----------

  // If the rules that the filter leaves out are settled, the two passes end with the
  // same variables, having written the same ones in the same order. The full pass makes
  // the same requests, too, and besides only some of q or some that the filtered pass
  // makes as well.
  lemma PassesDoAlike(depth: nat, id: Name, q: iset<Request>, s: Setup, st: State, g: Strata)
    returns (filtered: State, full: State, ds: seq<Deed>, es: seq<Deed>)
    requires Sane(s, g) && Fits(g, st.vars) && depth >= 2 * g.bound + 1
    requires LeftOutSettled(g.bound, s.rules, Some(id), s.world, st.vars, q)
    ensures Pass(depth, 0, Some(id), s, st) == Some(filtered) && Grows(st, filtered, ds)
    ensures Pass(depth, 0, None, s, st) == Some(full) && Grows(st, full, es)
    ensures filtered.vars == full.vars && Thins(es, ds, With(q, ds)) && WritesOf(ds) == WritesOf(es)
  {
    var blank := State(st.vars, []);
    assert Known(q, blank) == q;
    hide CoveredIn, LeftOutSettled, Grows, Thins, WritesOf;
    LeftOutIsCovered(Some(id), q, s, blank, g);
    var f, u;
    f, u, ds, es := PassesInStep(depth, 0, id, q, s, blank, blank, g);
    KnownAfter(q, blank, f, ds);
    ThinsKeepsWrites(es, ds, With(q, ds));
    var ds' := PassDeeds(depth, 0, Some(id), s, blank, s, st);
    var es' := PassDeeds(depth, 0, None, s, blank, s, st);
    SameDeeds(blank, f, ds, ds');
    SameDeeds(blank, u, es, es');
    filtered, full := Pass(depth, 0, Some(id), s, st).value, Pass(depth, 0, None, s, st).value;
    SameEnds(st, filtered, full, ds, es);
  }

  lemma KnownAfter(q: iset<Request>, st: State, st': State, ds: seq<Deed>)
    requires Grows(st, st', ds) && st.log == []
    ensures Known(q, st') == With(q, ds)
  {
  }

  lemma SameEnds(st: State, a: State, b: State, ds: seq<Deed>, es: seq<Deed>)
    requires Grows(st, a, ds) && Grows(st, b, es) && WritesOf(ds) == WritesOf(es)
    ensures a.vars == b.vars
  {
  }

  // From rules that were settled before id changed, and none of which is left out and
  // would set id itself: the filter is invisible but for requests that the full pass
  // makes again.
  lemma FilteredDoesAsFull(depth: nat, id: Name, w: World, q: iset<Request>, s: Setup, st: State, g: Strata)
    returns (filtered: State, full: State, ds: seq<Deed>, es: seq<Deed>)
    requires Sane(s, g) && Fits(g, st.vars) && depth >= 2 * g.bound + 1
    requires Prepared(g, s.rules, Some(id), w, s.world, st.vars, q)
    ensures Pass(depth, 0, Some(id), s, st) == Some(filtered) && Grows(st, filtered, ds)
    ensures Pass(depth, 0, None, s, st) == Some(full) && Grows(st, full, es)
    ensures filtered.vars == full.vars && Thins(es, ds, With(Standing(q, Some(id)), ds)) && WritesOf(ds) == WritesOf(es)
  {
    PreparedIsLeftOut(g, s.rules, Some(id), w, s.world, st.vars, q);
    filtered, full, ds, es := PassesDoAlike(depth, id, Standing(q, Some(id)), s, st, g);
  }

  // What is said of variables needs nothing of the rules' own targets.
  lemma FilteredWritesAsFull(depth: nat, id: Name, w: World, s: Setup, st: State, g: Strata)
    returns (filtered: State, full: State, ds: seq<Deed>, es: seq<Deed>)
    requires Sane(s, g) && Fits(g, st.vars) && depth >= 2 * g.bound + 1
    requires PointUpdated(id, w, s.world) && AllSettled(g, s.rules, w, st.vars, ANY)
    ensures Pass(depth, 0, Some(id), s, st) == Some(filtered) && Grows(st, filtered, ds)
    ensures Pass(depth, 0, None, s, st) == Some(full) && Grows(st, full, es)
    ensures filtered.vars == full.vars && WritesOf(ds) == WritesOf(es)
  {
    hide Settled;
    LeftOutWriteNothing(g.bound, s.rules, id, w, s.world, st.vars);
    filtered, full, ds, es := PassesDoAlike(depth, id, ANY, s, st, g);
  }

  // From rules that would do nothing, and with no rule left out that sets id itself,
  // both passes make the same set of requests.
  lemma FilteredAsksAsFull(depth: nat, id: Name, w: World, s: Setup, st: State, g: Strata)
    returns (filtered: State, full: State, ds: seq<Deed>, es: seq<Deed>)
    requires Sane(s, g) && Fits(g, st.vars) && depth >= 2 * g.bound + 1
    requires Prepared(g, s.rules, Some(id), w, s.world, st.vars, iset{})
    ensures Pass(depth, 0, Some(id), s, st) == Some(filtered) && Grows(st, filtered, ds)
    ensures Pass(depth, 0, None, s, st) == Some(full) && Grows(st, full, es)
    ensures filtered.vars == full.vars && WritesOf(ds) == WritesOf(es)
    ensures forall x :: x in es <==> x in ds
  {
    filtered, full, ds, es := FilteredDoesAsFull(depth, id, w, iset{}, s, st, g);
    hide Prepared, Thins, WritesOf;
    ThinsInside(es, ds, With(Standing(iset{}, Some(id)), ds));
  }

  lemma {:induction false} ThinsInside(es: seq<Deed>, ds: seq<Deed>, q: iset<Request>)
    requires Thins(es, ds, q)
    ensures forall x :: x in ds ==> x in es
    ensures forall x :: x in es ==> x in ds || (x.Ask? && x.request in q)
    decreases |es|
  {
    if es != [] {
      assert forall x :: x in es <==> x == es[0] || x in es[1..];
      if ds != [] && ds[0] == es[0] && Thins(es[1..], ds[1..], q) {
        assert forall x :: x in ds <==> x == ds[0] || x in ds[1..];
        ThinsInside(es[1..], ds[1..], q);
      } else {
        ThinsInside(es[1..], ds, q);
      }
    }
  }

  // ---------- settled means that a full pass adds nothing ----------

  lemma {:induction false} SettledPassOnlyAsks(depth: nat, i: nat, q: iset<Request>, s: Setup, st: State, g: Strata)
    returns (end: State, es: seq<Deed>)
    requires i <= |s.rules| && Sane(s, g) && Fits(g, st.vars) && depth >= 2 * g.bound + 1
    requires AllSettled(g, s.rules, s.world, st.vars, q)
    ensures Pass(depth, i, None, s, st) == Some(end) && Grows(st, end, es) && OnlyAsks(es, q)
    decreases |s.rules| - i
  {
    if i == |s.rules| {
      GrowsNot(st);
      return st, [];
    }
    var ended := FullRuleEnds(depth, i, s, st, g);
    var step, here := SettledRuleOnlyAsks(depth, s.rules[i], q, s, st, g);
    var more;
    end, more := SettledPassOnlyAsks(depth, i + 1, q, s, step.st, g);
    es := here + more;
    GrowsOn(st, step.st, end, here, more);
  }

  // The rules are settled up to requests of q exactly when a full pass would write no
  // variable and make no other requests: no request at all for the empty q.
  lemma SettledIffFullPassOnlyAsks(depth: nat, q: iset<Request>, s: Setup, st: State, g: Strata) returns (end: State, es: seq<Deed>)
    requires Sane(s, g) && Fits(g, st.vars) && depth >= 2 * g.bound + 1
    ensures Pass(depth, 0, None, s, st) == Some(end) && Grows(st, end, es)
    ensures AllSettled(g, s.rules, s.world, st.vars, q) <==> OnlyAsks(es, q)
  {
    end, es := PassSettles(depth, None, q, s, st, g);
    if AllSettled(g, s.rules, s.world, st.vars, q) {
      var end1, es1 := SettledPassOnlyAsks(depth, 0, q, s, st, g);
      SameDeeds(st, end, es, es1);
    }
    if OnlyAsks(es, q) {
      OnlyAsksWriteNothing(es, q);
      assert With(q, es) == q;
    }
  }

  // After the filtered pass a full pass has no variable left to write and no request to
  // make that does not stand or was made already.
  lemma FilterMissesNothing(depth: nat, id: Name, w: World, q: iset<Request>, s: Setup, st: State, g: Strata)
    returns (filtered: State, full: State, ds: seq<Deed>, es: seq<Deed>)
    requires Sane(s, g) && Fits(g, st.vars) && depth >= 2 * g.bound + 1
    requires Prepared(g, s.rules, Some(id), w, s.world, st.vars, q)
    ensures Pass(depth, 0, Some(id), s, st) == Some(filtered) && Grows(st, filtered, ds)
    ensures Pass(depth, 0, None, s, filtered) == Some(full) && Grows(filtered, full, es)
    ensures OnlyAsks(es, With(Standing(q, Some(id)), ds)) && full.vars == filtered.vars
  {
    filtered, ds := PassResettles(depth, Some(id), w, q, s, st, g);
    hide Prepared, AllSettled;
    full, es := SettledIffFullPassOnlyAsks(depth, With(Standing(q, Some(id)), ds), s, filtered, g);
    OnlyAsksWriteNothing(es, With(Standing(q, Some(id)), ds));
  }

  // ---------- without variable writes: exactly when the passes are the same ----------

  // An assignment leaves no trace exactly when it is settled up to no request.
  lemma AssignRestsIff(depth: nat, a: Assign, s: Setup, st: State)
    requires AssignApply(depth, a, s, st).Some?
    ensures var d := AssignApply(depth, a, s, st).value;
            && st.log <= d.st.log && (d.st.log == st.log ==> d.st == st && !d.applied)
            && (d.st == st <==> AssignSettled(depth, a, s.world, st.vars, iset{}))
  {
    AssignAdvances(depth, a, s, st);
    var d := AssignApply(depth, a, s, st).value;
    if Writes(a, s, st) {
      PassAdvances(depth - 1, 0, Some(a.id), s, Written(a, st));
    } else {
      RequestDeeds(depth, a, s, st);
      if a.flagBit != 0 { FlagRests(depth, a, s, st); }
    }
  }

  lemma FlagRests(depth: nat, a: Assign, s: Setup, st: State)
    requires a.flagBit != 0 && AssignFlag(depth, a, s, st).Some?
    ensures var d := AssignFlag(depth, a, s, st).value;
            if RequestOf(depth, a, s.world, st.vars).None? then d.st == st && !d.applied else |d.st.log| > |st.log|
  {
  }

  lemma {:induction false} BlockRestsIff(depth: nat, i: nat, entries: seq<LabelEntry>, s: Setup, st: State)
    requires i <= |entries| && BlockApply(depth, i, entries, s, st).Some?
    ensures var end := BlockApply(depth, i, entries, s, st).value.st;
            && st.log <= end.log && (end.log == st.log ==> end == st)
            && (end == st <==> forall a :: a in BlockFired(depth, i, entries, s.world, st.vars) ==>
                                 AssignSettled(depth, a, s.world, st.vars, iset{}))
    decreases |entries| - i
  {
    if i < |entries| {
      if Eval(depth, entries[i].cond, s.world, st.vars) == Some(Value(0.0)) { BlockRestsIff(depth, i + 1, entries, s, st); }
      else if Holds(depth, entries[i].cond, s.world, st.vars) { AssignRestsIff(depth, entries[i].ass, s, st); }
    }
  }

  lemma {:induction false} AssignAllRestsIff(depth: nat, i: nat, ass: seq<Assign>, first: Option<Error>, s: Setup, st: State)
    requires i <= |ass| && AssignAll(depth, i, ass, first, s, st).Some?
    ensures var end := AssignAll(depth, i, ass, first, s, st).value.st;
            && st.log <= end.log && (end.log == st.log ==> end == st)
            && (end == st <==> forall j :: i <= j < |ass| ==> AssignSettled(depth, ass[j], s.world, st.vars, iset{}))
    decreases |ass| - i
  {
    if i < |ass| {
      AssignRestsIff(depth, ass[i], s, st);
      var d := AssignApply(depth, ass[i], s, st).value;
      AssignAllRestsIff(depth, i + 1, ass, if first.None? then d.error else first, s, Note(d, TriggerTriggered(ass[i].id)));
    }
  }

  lemma RuleRestsIff(depth: nat, r: Rule, s: Setup, st: State)
    requires RuleApply(depth, r, s, st).Some?
    ensures var end := RuleApply(depth, r, s, st).value.st;
            && st.log <= end.log && (end.log == st.log ==> end == st)
            && (end == st <==> Settled(depth, r, s.world, st.vars, iset{}))
  {
    match r
    case LabelBlock(entries) => BlockRestsIff(depth, 0, entries, s, st);
    case Trigger(cond, ass) => if Holds(depth, cond, s.world, st.vars) { AssignAllRestsIff(depth, 0, ass, None, s, st); }
  }

  lemma {:induction false} RestingPass(depth: nat, i: nat, s: Setup, st: State)
    requires i <= |s.rules| && Pass(depth, i, None, s, st) == Some(st)
    ensures forall k :: i <= k < |s.rules| ==> Settled(depth, s.rules[k], s.world, st.vars, iset{})
    decreases |s.rules| - i
  {
    if i < |s.rules| {
      var st' := RuleApply(depth, s.rules[i], s, st).value.st;
      RuleRestsIff(depth, s.rules[i], s, st);
      PassAdvances(depth, i + 1, None, s, st');
      RestingPass(depth, i + 1, s, st);
    }
  }

  // No rule would write a variable.
  ghost predicate NoWrites(d: nat, rules: seq<Rule>, w: World, vars: Vars) {
    forall k :: 0 <= k < |rules| ==> Settled(d, rules[k], w, vars, ANY)
  }

  // Rule k is left out and would do something.
  ghost predicate Missed(d: nat, rules: seq<Rule>, k: nat, id: Name, w: World, vars: Vars)
    requires k < |rules|
  {
    Woken(d, rules[k], Some(id), vars) == Some(false) && !Settled(d, rules[k], w, vars, iset{})
  }

  lemma {:induction false} SamePass(depth: nat, i: nat, id: Name, s: Setup, st: State)
    requires i <= |s.rules| && NoWrites(depth, s.rules, s.world, st.vars)
    requires Pass(depth, i, Some(id), s, st).Some? && Pass(depth, i, None, s, st).Some?
    requires forall k :: i <= k < |s.rules| ==> !Missed(depth, s.rules, k, id, s.world, st.vars)
    ensures Pass(depth, i, Some(id), s, st) == Pass(depth, i, None, s, st)
    decreases |s.rules| - i
  {
    if i < |s.rules| {
      var st' := RuleApply(depth, s.rules[i], s, st).value.st;
      RuleRestsIff(depth, s.rules[i], s, st);
      SettledRuleAsks(depth, s.rules[i], s, st);
      assert !Missed(depth, s.rules, i, id, s.world, st.vars);
      SamePass(depth, i + 1, id, s, st');
    }
  }

  lemma {:induction false} NoAsksIsSettled(d: nat, ass: seq<Assign>, w: World, vars: Vars)
    requires AsksOf(d, ass, w, vars) == []
    ensures forall a :: a in ass ==> RequestOf(d, a, w, vars).None?
    decreases |ass|
  {
    if ass != [] { NoAsksIsSettled(d, ass[1..], w, vars); }
  }

  // What the two passes do at rule i.
  lemma RulesInStep(depth: nat, i: nat, id: Name, s: Setup, f: State, u: State)
    returns (f1: State, u1: State, ds: seq<Deed>, es: seq<Deed>)
    requires i < |s.rules| && Settled(depth, s.rules[i], s.world, f.vars, ANY) && u.vars == f.vars
    requires Pass(depth, i, Some(id), s, f).Some? && Pass(depth, i, None, s, u).Some?
    ensures Pass(depth, i, Some(id), s, f) == Pass(depth, i + 1, Some(id), s, f1) && f1.vars == f.vars
    ensures Pass(depth, i, None, s, u) == Pass(depth, i + 1, None, s, u1) && u1.vars == f.vars
    ensures Grows(f, f1, ds) && Grows(u, u1, es)
    ensures |es| >= |ds| && (Missed(depth, s.rules, i, id, s.world, f.vars) ==> |es| > |ds|)
  {
    var r := s.rules[i];
    u1 := RuleApply(depth, r, s, u).value.st;
    es := AsksOf(depth, Fired(depth, r, s.world, f.vars), s.world, f.vars);
    SettledRuleAsks(depth, r, s, u);
    if Woken(depth, r, Some(id), f.vars).value {
      SettledRuleAsks(depth, r, s, f);
      f1, ds := RuleApply(depth, r, s, f).value.st, es;
    } else {
      GrowsNot(f);
      f1, ds := f, [];
      if es == [] { NoAsksIsSettled(depth, Fired(depth, r, s.world, f.vars), s.world, f.vars); }
    }
  }

  // The full pass has at least as many deeds, and more if a rule is missed.
  lemma {:induction false} FullDoesMore(depth: nat, i: nat, id: Name, s: Setup, f: State, u: State) returns (ds: seq<Deed>, es: seq<Deed>)
    requires i <= |s.rules| && NoWrites(depth, s.rules, s.world, f.vars) && u.vars == f.vars
    requires Pass(depth, i, Some(id), s, f).Some? && Pass(depth, i, None, s, u).Some?
    ensures Grows(f, Pass(depth, i, Some(id), s, f).value, ds) && Grows(u, Pass(depth, i, None, s, u).value, es)
    ensures |es| >= |ds|
    ensures (exists k :: i <= k < |s.rules| && Missed(depth, s.rules, k, id, s.world, f.vars)) ==> |es| > |ds|
    decreases |s.rules| - i
  {
    hide Grows, Missed;
    if i == |s.rules| {
      GrowsNot(f);
      GrowsNot(u);
      return [], [];
    }
    hide Pass, Settled;
    var f1, u1, here, here' := RulesInStep(depth, i, id, s, f, u);
    var more, more' := FullDoesMore(depth, i + 1, id, s, f1, u1);
    ds, es := here + more, here' + more';
    GrowsOn(f, f1, Pass(depth, i, Some(id), s, f).value, here, more);
    GrowsOn(u, u1, Pass(depth, i, None, s, u).value, here', more');
  }

  // When the full pass would do nothing before a change of id, and would write no
  // variable after it, the filtered pass is the full pass, answers and log included,
  // exactly if no rule that it leaves out would set id itself.
  lemma FilteredIsFullIff(depth: nat, id: Name, w: World, s: Setup, st: State)
    requires PointUpdated(id, w, s.world) && Pass(depth, 0, None, s.(world := w), st) == Some(st)
    requires NoWrites(depth, s.rules, s.world, st.vars)
    requires Pass(depth, 0, Some(id), s, st).Some? && Pass(depth, 0, None, s, st).Some?
    ensures Pass(depth, 0, Some(id), s, st) == Pass(depth, 0, None, s, st)
       <==> NoOwnTarget(depth, s.rules, id, s.world, st.vars)
  {
    RestingPass(depth, 0, s.(world := w), st);
    hide Settled, OwnSettled, Pass, NoWrites, Grows;
    LeftOutSettledIff(depth, s.rules, id, w, s.world, st.vars, iset{});
    assert Standing(iset{}, Some(id)) == iset{};
    NothingMissedIff(depth, s.rules, id, s.world, st.vars);
    hide Missed, NoOwnTarget, LeftOutSettled;
    if NoOwnTarget(depth, s.rules, id, s.world, st.vars) {
      SamePass(depth, 0, id, s, st);
    } else {
      var ds, es := FullDoesMore(depth, 0, id, s, st, st);
      MoreDeedsEndElsewhere(st, Pass(depth, 0, Some(id), s, st).value, Pass(depth, 0, None, s, st).value, ds, es);
    }
  }

  lemma MoreDeedsEndElsewhere(st: State, a: State, b: State, ds: seq<Deed>, es: seq<Deed>)
    requires Grows(st, a, ds) && Grows(st, b, es) && |ds| < |es|
    ensures a != b
  {
  }

  lemma NothingMissedIff(d: nat, rules: seq<Rule>, id: Name, w: World, vars: Vars)
    ensures LeftOutSettled(d, rules, Some(id), w, vars, iset{})
       <==> forall k :: 0 <= k < |rules| ==> !Missed(d, rules, k, id, w, vars)
  {
    hide Settled, Woken;
    if LeftOutSettled(d, rules, Some(id), w, vars, iset{}) {
      forall k | 0 <= k < |rules| ensures !Missed(d, rules, k, id, w, vars) {}
    } else {
      var k :| 0 <= k < |rules| && Woken(d, rules[k], Some(id), vars) == Some(false) && !Settled(d, rules[k], w, vars, iset{});
      assert Missed(d, rules, k, id, w, vars);
    }
  }
}
