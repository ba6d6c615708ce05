// The invariant of nested passes, and the main results about filtered ones.

module Cascades {
  import opened Options
  import opened Exprs
  import opened Rules
  import opened Deeds
  import opened RequestSafety
  import opened Stratification
  import opened Reactivity

  // A pass that is under way: it will still consider the rules from `from` on.
  datatype Frame = Frame(from: nat, id: Option<Name>)

  // Some pass under way has yet to reach rule k, and would wake it now.
  ghost predicate Due(g: Strata, rules: seq<Rule>, frames: seq<Frame>, k: nat, vars: Vars)
    requires k < |rules|
  {
    exists j :: 0 <= j < |frames| && DueIn(g, rules, frames[j], k, vars)
  }

  ghost predicate DueIn(g: Strata, rules: seq<Rule>, frame: Frame, k: nat, vars: Vars)
    requires k < |rules|
  {
    frame.from <= k && Woken(g.bound, rules[k], frame.id, vars) == Some(true)
  }

  ghost predicate Covered(g: Strata, rules: seq<Rule>, frames: seq<Frame>, busy: set<nat>, k: nat, w: World, vars: Vars, q: iset<Request>)
    requires k < |rules|
  {
    k in busy || Settled(g.bound, rules[k], w, vars, q) || Due(g, rules, frames, k, vars)
  }

  // Every rule is settled, unless it is being applied or is still to be woken.
  ghost predicate AllCovered(g: Strata, rules: seq<Rule>, frames: seq<Frame>, busy: set<nat>, w: World, vars: Vars, q: iset<Request>) {
    forall k: nat {:trigger Covered(g, rules, frames, busy, k, w, vars, q)} :: k < |rules| ==>
      Covered(g, rules, frames, busy, k, w, vars, q)
  }

  lemma CoveredByMore(g: Strata, rules: seq<Rule>, frames: seq<Frame>, busy: set<nat>, w: World, vars: Vars, q: iset<Request>, q': iset<Request>)
    requires AllCovered(g, rules, frames, busy, w, vars, q) && q <= q'
    ensures AllCovered(g, rules, frames, busy, w, vars, q')
  {
    forall k: nat | k < |rules| ensures Covered(g, rules, frames, busy, k, w, vars, q') {
      assert Covered(g, rules, frames, busy, k, w, vars, q);
    }
  }

  lemma WokenEnds(g: Strata, r: Rule, id: Option<Name>, vars: Vars)
    requires Stratified(g, vars)
    ensures Woken(g.bound, r, id, vars).Some?
  {
    SearchOfRuleEnds(g.bound, r, id, vars, g);
  }

  // ---------- one write ----------

  lemma DueIgnores(g: Strata, rules: seq<Rule>, frames: seq<Frame>, k: nat, t: Name, vars: Vars, vars': Vars)
    requires k < |rules| && SameBut(vars, vars', t)
    requires Woken(g.bound, rules[k], Some(t), vars) == Some(false) && Due(g, rules, frames, k, vars)
    ensures Due(g, rules, frames, k, vars')
  {
    var j :| 0 <= j < |frames| && DueIn(g, rules, frames[j], k, vars);
    if frames[j].id.Some? {
      AnyRefIgnores(g.bound, g.bound, RuleExprs(rules[k]), t, frames[j].id.value, vars, vars');
    }
    assert DueIn(g, rules, frames[j], k, vars');
  }

  lemma DueInMore(g: Strata, rules: seq<Rule>, frames: seq<Frame>, more: Frame, k: nat, vars: Vars)
    requires k < |rules|
    requires Due(g, rules, frames, k, vars) || DueIn(g, rules, more, k, vars)
    ensures Due(g, rules, frames + [more], k, vars)
  {
    if Due(g, rules, frames, k, vars) {
      var j :| 0 <= j < |frames| && DueIn(g, rules, frames[j], k, vars);
      assert (frames + [more])[j] == frames[j];
    } else {
      assert (frames + [more])[|frames|] == more;
    }
  }

  // Rule b writes t: whoever that unsettles is woken by the pass for t.
  lemma WriteCovers(g: Strata, rules: seq<Rule>, frames: seq<Frame>, busy: set<nat>, b: nat, t: Name, e: Expr, w: World, vars: Vars, q: iset<Request>)
    requires Stratified(g, vars) && Describes(g, rules) && SingleWriter(g, rules)
    requires b in busy && b < |g.profiles| && t in g.profiles[b].targets && t in g.keys
    requires AllCovered(g, rules, frames, busy, w, vars, q)
    ensures AllCovered(g, rules, frames + [Frame(0, Some(t))], busy, w, vars[t := e], q)
  {
    var vars' := vars[t := e];
    forall k: nat | k < |rules| ensures Covered(g, rules, frames + [Frame(0, Some(t))], busy, k, w, vars', q) {
      assert Covered(g, rules, frames, busy, k, w, vars, q);
      if k !in busy {
        assert g.profiles[k] == ProfileOf(rules[k]);
        assert t !in Targets(rules[k]) by {
          if k < b { assert t !in g.profiles[k].targets; } else { assert t !in g.profiles[k].targets; }
        }
        WokenEnds(g, rules[k], Some(t), vars);
        AnyRefRebound(g.bound, RuleExprs(rules[k]), t, vars, vars');
        if Woken(g.bound, rules[k], Some(t), vars).value {
          DueInMore(g, rules, frames, Frame(0, Some(t)), k, vars');
        } else {
          if Settled(g.bound, rules[k], w, vars, q) { SettledIgnoresWrite(g.bound, rules[k], t, w, vars, vars', q); }
          if Due(g, rules, frames, k, vars) {
            DueIgnores(g, rules, frames, k, t, vars, vars');
            DueInMore(g, rules, frames, Frame(0, Some(t)), k, vars');
          }
        }
      }
    }
  }

  // ---------- passes, rule by rule ----------

  // The pass for id has gone by rule i, which it did not wake or has applied.
  lemma FrameAdvances(g: Strata, rules: seq<Rule>, frames: seq<Frame>, i: nat, id: Option<Name>, busy: set<nat>, busy': set<nat>,
                      w: World, vars: Vars, q: iset<Request>)
    requires i < |rules| && busy <= busy' && AllCovered(g, rules, frames + [Frame(i, id)], busy, w, vars, q)
    requires i in busy' || Woken(g.bound, rules[i], id, vars) == Some(false)
    ensures AllCovered(g, rules, frames + [Frame(i + 1, id)], busy', w, vars, q)
  {
    var next := frames + [Frame(i + 1, id)];
    forall k: nat | k < |rules| ensures Covered(g, rules, next, busy', k, w, vars, q) {
      assert Covered(g, rules, frames + [Frame(i, id)], busy, k, w, vars, q);
      if k !in busy' && Due(g, rules, frames + [Frame(i, id)], k, vars) {
        LastFrame(g, rules, frames, Frame(i, id), k, vars);
        DueInMore(g, rules, frames, Frame(i + 1, id), k, vars);
      }
    }
  }

  lemma LastFrame(g: Strata, rules: seq<Rule>, frames: seq<Frame>, last: Frame, k: nat, vars: Vars)
    requires k < |rules| && Due(g, rules, frames + [last], k, vars)
    ensures Due(g, rules, frames, k, vars) || DueIn(g, rules, last, k, vars)
  {
  }

  lemma FrameEnds(g: Strata, rules: seq<Rule>, frames: seq<Frame>, id: Option<Name>, busy: set<nat>, w: World, vars: Vars, q: iset<Request>)
    requires AllCovered(g, rules, frames + [Frame(|rules|, id)], busy, w, vars, q)
    ensures AllCovered(g, rules, frames, busy, w, vars, q)
  {
    forall k: nat | k < |rules| ensures Covered(g, rules, frames, busy, k, w, vars, q) {
      assert Covered(g, rules, frames + [Frame(|rules|, id)], busy, k, w, vars, q);
      if k !in busy && Due(g, rules, frames + [Frame(|rules|, id)], k, vars) {
        LastFrame(g, rules, frames, Frame(|rules|, id), k, vars);
      }
    }
  }

  lemma RuleLeaves(g: Strata, rules: seq<Rule>, frames: seq<Frame>, busy: set<nat>, k: nat, w: World, vars: Vars, q: iset<Request>)
    requires k < |rules| && AllCovered(g, rules, frames, busy + {k}, w, vars, q) && Settled(g.bound, rules[k], w, vars, q)
    ensures AllCovered(g, rules, frames, busy, w, vars, q)
  {
    forall j: nat | j < |rules| ensures Covered(g, rules, frames, busy, j, w, vars, q) {
      assert Covered(g, rules, frames, busy + {k}, j, w, vars, q);
    }
  }

  // What every step needs of its surroundings.
  ghost predicate Sane(s: Setup, g: Strata) {
    Sound(g) && Describes(g, s.rules) && SingleWriter(g, s.rules)
  }

  // The invariant of nested passes, with the requests made so far.
  ghost predicate CoveredIn(g: Strata, s: Setup, frames: seq<Frame>, busy: set<nat>, base: iset<Request>, st: State) {
    AllCovered(g, s.rules, frames, busy, s.world, st.vars, Known(base, st))
  }

  lemma CoveredLater(g: Strata, s: Setup, frames: seq<Frame>, busy: set<nat>, base: iset<Request>, st: State, st': State)
    requires CoveredIn(g, s, frames, busy, base, st) && st'.vars == st.vars && st.log <= st'.log
    ensures CoveredIn(g, s, frames, busy, base, st')
  {
    KnownGrows(base, st, st');
    CoveredByMore(g, s.rules, frames, busy, s.world, st.vars, Known(base, st), Known(base, st'));
  }

  lemma CascadeStarts(depth: nat, a: Assign, k: nat, n: nat, frames: seq<Frame>, busy: set<nat>, base: iset<Request>, s: Setup, st: State, g: Strata)
    requires Sane(s, g) && Fits(g, st.vars) && Writes(a, s, st)
    requires k in busy && k < |g.profiles| && MayRun(depth, g, g.profiles[k], n)
    requires Mentions(a.rval) <= g.profiles[k].names && a.id in g.profiles[k].targets
    requires CoveredIn(g, s, frames, busy, base, st)
    ensures depth >= 1 + g.bound + Need(g, Level(g, Some(a.id))) && Fits(g, Written(a, st).vars)
    ensures CoveredIn(g, s, frames + [Frame(0, Some(a.id))], busy, base, Written(a, st))
  {
    assert RuleFits(g, g.profiles[k]);
    TargetMayRun(depth, g, g.profiles[k], n, a.id);
    WriteKeeps(a, g.profiles[k], g, n, st);
    WriteCovers(g, s.rules, frames, busy, k, a.id, a.rval, s.world, st.vars, Known(base, st));
    KnownGrows(base, st, Written(a, st));
    CoveredByMore(g, s.rules, frames + [Frame(0, Some(a.id))], busy, s.world, Written(a, st).vars, Known(base, st), Known(base, Written(a, st)));
  }

  lemma {:induction false} AssignCovers(depth: nat, a: Assign, k: nat, n: nat, frames: seq<Frame>, busy: set<nat>,
                                        base: iset<Request>, s: Setup, st: State, g: Strata) returns (d: Done)
    requires Sane(s, g) && Fits(g, st.vars) && g.bound <= depth
    requires k in busy && k < |g.profiles| && MayRun(depth, g, g.profiles[k], n)
    requires Mentions(a.rval) <= g.profiles[k].names && (a.flagBit == 0 ==> a.id in g.profiles[k].targets)
    requires CoveredIn(g, s, frames, busy, base, st)
    ensures AssignApply(depth, a, s, st) == Some(d) && Fits(g, d.st.vars)
    ensures CoveredIn(g, s, frames, busy, base, d.st)
    decreases depth, 0
  {
    hide CoveredIn, AssignFlag, AssignOutput, MayRun;
    assert RuleFits(g, g.profiles[k]);
    d := AssignEnds(depth, a, g.profiles[k], n, s, st, g);
    if Writes(a, s, st) {
      CascadeStarts(depth, a, k, n, frames, busy, base, s, st, g);
      var end := PassCovers(depth - 1, 0, Some(a.id), frames, busy, base, s, Written(a, st), g);
    } else {
      AssignAdvances(depth, a, s, st);
      NoWriteNoChange(depth, a, s, st);
      CoveredLater(g, s, frames, busy, base, st, d.st);
    }
  }

  lemma {:induction false} BlockCovers(depth: nat, i: nat, k: nat, n: nat, frames: seq<Frame>, busy: set<nat>,
                                       base: iset<Request>, s: Setup, st: State, g: Strata) returns (end: Step)
    requires Sane(s, g) && Fits(g, st.vars) && g.bound <= depth
    requires k in busy && k < |s.rules| && g.profiles[k] == ProfileOf(s.rules[k]) && MayRun(depth, g, g.profiles[k], n)
    requires s.rules[k].LabelBlock? && i <= |s.rules[k].entries|
    requires CoveredIn(g, s, frames, busy, base, st)
    ensures BlockApply(depth, i, s.rules[k].entries, s, st) == Some(end)
    ensures CoveredIn(g, s, frames, busy, base, end.st)
    decreases depth, 1, |s.rules[k].entries| - i
  {
    var entries := s.rules[k].entries;
    if i == |entries| { return Step(st, None); }
    ExprEnds(depth, entries[i].cond, s.world, st.vars, g);
    var c := Eval(depth, entries[i].cond, s.world, st.vars).value;
    if c.Failed? { end := Step(st, Some(c.error)); }
    else if c.v == 0.0 { end := BlockCovers(depth, i + 1, k, n, frames, busy, base, s, st, g); }
    else {
      EntryMentions(i, entries);
      var d := AssignCovers(depth, entries[i].ass, k, n, frames, busy, base, s, st, g);
      end := Step(Note(d, RuleTriggered(entries[i].ass.id)), d.error);
      CoveredLater(g, s, frames, busy, base, d.st, end.st);
    }
  }

  lemma {:induction false} AssignAllCovers(depth: nat, i: nat, first: Option<Error>, k: nat, n: nat, frames: seq<Frame>, busy: set<nat>,
                                           base: iset<Request>, s: Setup, st: State, g: Strata) returns (end: Step)
    requires Sane(s, g) && Fits(g, st.vars) && g.bound <= depth
    requires k in busy && k < |s.rules| && g.profiles[k] == ProfileOf(s.rules[k]) && MayRun(depth, g, g.profiles[k], n)
    requires s.rules[k].Trigger? && i <= |s.rules[k].ass|
    requires CoveredIn(g, s, frames, busy, base, st)
    ensures AssignAll(depth, i, s.rules[k].ass, first, s, st) == Some(end)
    ensures CoveredIn(g, s, frames, busy, base, end.st)
    decreases depth, 1, |s.rules[k].ass| - i
  {
    var r := s.rules[k];
    if i == |r.ass| { return Step(st, first); }
    TriggerMentions(r.cond, r.ass);
    AssignMentions(i, r.ass);
    var d := AssignCovers(depth, r.ass[i], k, n, frames, busy, base, s, st, g);
    var st' := Note(d, TriggerTriggered(r.ass[i].id));
    CoveredLater(g, s, frames, busy, base, d.st, st');
    end := AssignAllCovers(depth, i + 1, if first.None? then d.error else first, k, n, frames, busy, base, s, st', g);
  }

  lemma {:induction false} RuleCovers(depth: nat, k: nat, n: nat, frames: seq<Frame>, busy: set<nat>, base: iset<Request>,
                                      s: Setup, st: State, g: Strata) returns (end: Step)
    requires Sane(s, g) && Fits(g, st.vars) && g.bound <= depth
    requires k in busy && k < |s.rules| && g.profiles[k] == ProfileOf(s.rules[k]) && MayRun(depth, g, g.profiles[k], n)
    requires CoveredIn(g, s, frames, busy, base, st)
    ensures RuleApply(depth, s.rules[k], s, st) == Some(end)
    ensures CoveredIn(g, s, frames, busy, base, end.st)
    decreases depth, 2, 0
  {
    match s.rules[k]
    case LabelBlock(entries) => end := BlockCovers(depth, 0, k, n, frames, busy, base, s, st, g);
    case Trigger(cond, ass) =>
      ExprEnds(depth, cond, s.world, st.vars, g);
      var c := Eval(depth, cond, s.world, st.vars).value;
      if c.Failed? { end := Step(st, Some(c.error)); }
      else if c.v == 0.0 { end := Step(st, None); }
      else { end := AssignAllCovers(depth, 0, None, k, n, frames, busy, base, s, st, g); }
  }

  // The pass for id applies rule i.
  lemma {:induction false} WokenRuleCovers(depth: nat, i: nat, id: Option<Name>, frames: seq<Frame>, busy: set<nat>,
                                           base: iset<Request>, s: Setup, st: State, g: Strata) returns (step: Step)
    requires i < |s.rules| && Sane(s, g) && Fits(g, st.vars)
    requires depth >= g.bound + Need(g, Level(g, id)) && Woken(depth, s.rules[i], id, st.vars) == Some(true)
    requires CoveredIn(g, s, frames + [Frame(i, id)], busy, base, st)
    ensures RuleApply(depth, s.rules[i], s, st) == Some(step) && Fits(g, step.st.vars)
    ensures CoveredIn(g, s, frames + [Frame(i + 1, id)], busy, base, step.st)
    decreases depth, 2, 1
  {
    assert g.profiles[i] == ProfileOf(s.rules[i]);
    WokenMayRun(depth, s.rules[i], i, id, st.vars, g);
    FrameAdvances(g, s.rules, frames, i, id, busy, busy + {i}, s.world, st.vars, Known(base, st));
    step := RuleCovers(depth, i, Level(g, id), frames + [Frame(i + 1, id)], busy + {i}, base, s, st, g);
    var ended := RuleEnds(depth, s.rules[i], Level(g, id), s, st, g);
    var settled := RuleSettles(depth, i, Level(g, id), base, s, st, g);
    RuleLeaves(g, s.rules, frames + [Frame(i + 1, id)], busy, i, s.world, step.st.vars, Known(base, step.st));
  }

  lemma {:induction false} PassCovers(depth: nat, i: nat, id: Option<Name>, frames: seq<Frame>, busy: set<nat>,
                                      base: iset<Request>, s: Setup, st: State, g: Strata) returns (end: State)
    requires i <= |s.rules| && Sane(s, g) && Fits(g, st.vars)
    requires depth >= g.bound + Need(g, Level(g, id))
    requires CoveredIn(g, s, frames + [Frame(i, id)], busy, base, st)
    ensures Pass(depth, i, id, s, st) == Some(end)
    ensures CoveredIn(g, s, frames, busy, base, end)
    decreases depth, 3, |s.rules| - i
  {
    if i == |s.rules| {
      FrameEnds(g, s.rules, frames, id, busy, s.world, st.vars, Known(base, st));
      return st;
    }
    SearchOfRuleEnds(depth, s.rules[i], id, st.vars, g);
    WokenAtBound(depth, s.rules[i], id, st.vars, g);
    if !Woken(depth, s.rules[i], id, st.vars).value {
      FrameAdvances(g, s.rules, frames, i, id, busy, busy, s.world, st.vars, Known(base, st));
      end := PassCovers(depth, i + 1, id, frames, busy, base, s, st, g);
    } else {
      var step := WokenRuleCovers(depth, i, id, frames, busy, base, s, st, g);
      end := PassCovers(depth, i + 1, id, frames, busy, base, s, step.st, g);
    }
  }

  lemma WokenAtBound(depth: nat, r: Rule, id: Option<Name>, vars: Vars, g: Strata)
    requires Stratified(g, vars) && g.bound <= depth
    ensures Woken(g.bound, r, id, vars) == Woken(depth, r, id, vars)
  {
    WokenEnds(g, r, id, vars);
    if id.Some? { AnyRefMonotone(g.bound, depth, RuleExprs(r), id.value, vars); }
  }

  // ---------- the result ----------

  ghost predicate AllSettled(g: Strata, rules: seq<Rule>, w: World, vars: Vars, q: iset<Request>) {
    forall k :: 0 <= k < |rules| ==> Settled(g.bound, rules[k], w, vars, q)
  }

  // The rules that a pass for id leaves out are settled at w.
  ghost predicate LeftOutSettled(d: nat, rules: seq<Rule>, id: Option<Name>, w: World, vars: Vars, q: iset<Request>) {
    id.Some? ==>
      forall k :: 0 <= k < |rules| && Woken(d, rules[k], id, vars) == Some(false) ==> Settled(d, rules[k], w, vars, q)
  }

  // No rule that a change of id leaves out would set id itself to something else.
  ghost predicate NoOwnTarget(d: nat, rules: seq<Rule>, id: Name, w: World, vars: Vars) {
    forall k :: 0 <= k < |rules| && Woken(d, rules[k], Some(id), vars) == Some(false) ==>
      OwnSettled(d, rules[k], id, w, vars, iset{})
  }

  // If all rules were settled before id changed, those left out are settled after it
  // exactly if none of them would set id itself.
  lemma LeftOutSettledIff(d: nat, rules: seq<Rule>, id: Name, w: World, w': World, vars: Vars, q: iset<Request>)
    requires PointUpdated(id, w, w') && forall k :: 0 <= k < |rules| ==> Settled(d, rules[k], w, vars, q)
    ensures LeftOutSettled(d, rules, Some(id), w', vars, Standing(q, Some(id))) <==> NoOwnTarget(d, rules, id, w', vars)
  {
    forall k | 0 <= k < |rules| && Woken(d, rules[k], Some(id), vars) == Some(false)
      ensures Settled(d, rules[k], w', vars, Standing(q, Some(id))) <==> OwnSettled(d, rules[k], id, w', vars, iset{})
    {
      SettledStands(d, rules[k], id, w, w', vars, q);
    }
  }

  // With all requests allowed, nothing has to be asked of the rules that are left out.
  lemma LeftOutWriteNothing(d: nat, rules: seq<Rule>, id: Name, w: World, w': World, vars: Vars)
    requires PointUpdated(id, w, w') && forall k :: 0 <= k < |rules| ==> Settled(d, rules[k], w, vars, ANY)
    ensures LeftOutSettled(d, rules, Some(id), w', vars, ANY)
  {
    forall k | 0 <= k < |rules| && Woken(d, rules[k], Some(id), vars) == Some(false)
      ensures Settled(d, rules[k], w', vars, ANY)
    {
      FiresAlike(d, rules[k], id, w, w', vars, vars);
      forall a | a in Fired(d, rules[k], w', vars) ensures AssignSettled(d, a, w', vars, ANY) {
        assert AssignSettled(d, a, w, vars, ANY);
      }
    }
  }

  lemma LeftOutIsCovered(id: Option<Name>, base: iset<Request>, s: Setup, st: State, g: Strata)
    requires Sane(s, g) && Fits(g, st.vars) && LeftOutSettled(g.bound, s.rules, id, s.world, st.vars, Known(base, st))
    ensures CoveredIn(g, s, [] + [Frame(0, id)], {}, base, st)
  {
    hide Settled;
    var frames, q := [] + [Frame(0, id)], Known(base, st);
    forall k: nat | k < |s.rules| ensures Covered(g, s.rules, frames, {}, k, s.world, st.vars, q) {
      WokenEnds(g, s.rules[k], id, st.vars);
      if Woken(g.bound, s.rules[k], id, st.vars).value { assert DueIn(g, s.rules, frames[0], k, st.vars); }
    }
  }

  // A full pass settles every rule, from any table at all; a pass for id does so if the
  // rules that it leaves out are settled.
  lemma PassSettles(depth: nat, id: Option<Name>, q: iset<Request>, s: Setup, st: State, g: Strata)
    returns (end: State, ds: seq<Deed>)
    requires Sane(s, g) && Fits(g, st.vars) && depth >= 2 * g.bound + 1
    requires LeftOutSettled(g.bound, s.rules, id, s.world, st.vars, q)
    ensures Pass(depth, 0, id, s, st) == Some(end) && Fits(g, end.vars) && Grows(st, end, ds)
    ensures AllSettled(g, s.rules, s.world, end.vars, With(q, ds))
  {
    var blank := State(st.vars, []);
    assert Known(q, blank) == q;
    LeftOutIsCovered(id, q, s, blank, g);
    end := PassEnds(depth, 0, id, s, st, g);
    var end' := PassCovers(depth, 0, id, [], {}, q, s, blank, g);
    ds := PassDeeds(depth, 0, id, s, blank, s, st);
    forall k | 0 <= k < |s.rules| ensures Settled(g.bound, s.rules[k], s.world, end.vars, With(q, ds)) {
      assert Covered(g, s.rules, [], {}, k, s.world, end'.vars, Known(q, end'));
    }
  }

  // What has to hold before the pass for id: everything was settled before id changed,
  // and no rule that is not woken would set id itself to something else.
  ghost predicate Prepared(g: Strata, rules: seq<Rule>, id: Option<Name>, w: World, w': World, vars: Vars, q: iset<Request>) {
    id.Some? ==>
      && PointUpdated(id.value, w, w') && AllSettled(g, rules, w, vars, q)
      && NoOwnTarget(g.bound, rules, id.value, w', vars)
  }

  lemma PreparedIsLeftOut(g: Strata, rules: seq<Rule>, id: Option<Name>, w: World, w': World, vars: Vars, q: iset<Request>)
    requires Prepared(g, rules, id, w, w', vars, q)
    ensures LeftOutSettled(g.bound, rules, id, w', vars, Standing(q, id))
  {
    hide Settled, OwnSettled, PointUpdated;
    if id.Some? { LeftOutSettledIff(g.bound, rules, id.value, w, w', vars, q); }
  }

  // From settled rules, after one change: the pass with all the passes it nests settles
  // every rule again. No variable is left to write, and no request to make but such as
  // were made in this pass, or before and still stand.
  lemma PassResettles(depth: nat, id: Option<Name>, w: World, q: iset<Request>, s: Setup, st: State, g: Strata)
    returns (end: State, ds: seq<Deed>)
    requires Sane(s, g) && Fits(g, st.vars) && depth >= 2 * g.bound + 1
    requires Prepared(g, s.rules, id, w, s.world, st.vars, q)
    ensures Pass(depth, 0, id, s, st) == Some(end) && Fits(g, end.vars) && Grows(st, end, ds)
    ensures AllSettled(g, s.rules, s.world, end.vars, With(Standing(q, id), ds))
  {
    PreparedIsLeftOut(g, s.rules, id, w, s.world, st.vars, q);
    end, ds := PassSettles(depth, id, Standing(q, id), s, st, g);
  }

  // As to variables nothing is asked of the rules' own targets.
  lemma PassResettlesVariables(depth: nat, id: Option<Name>, w: World, s: Setup, st: State, g: Strata) returns (end: State)
    requires Sane(s, g) && Fits(g, st.vars) && depth >= 2 * g.bound + 1
    requires id.Some? ==> PointUpdated(id.value, w, s.world) && AllSettled(g, s.rules, w, st.vars, ANY)
    ensures Pass(depth, 0, id, s, st) == Some(end) && Fits(g, end.vars)
    ensures AllSettled(g, s.rules, s.world, end.vars, ANY)
  {
    hide Settled;
    if id.Some? { LeftOutWriteNothing(g.bound, s.rules, id.value, w, s.world, st.vars); }
    var ds;
    end, ds := PassSettles(depth, id, ANY, s, st, g);
    assert With(ANY, ds) == ANY;
  }

  // ---------- what a settled rule does ----------

  // The requests of assignments that write nothing, in order.
  function AsksOf(d: nat, ass: seq<Assign>, w: World, vars: Vars): seq<Deed> {
    if ass == [] then [] else Asks(RequestOf(d, ass[0], w, vars)) + AsksOf(d, ass[1..], w, vars)
  }

  lemma {:induction false} AsksOfSettled(d: nat, ass: seq<Assign>, w: World, vars: Vars, q: iset<Request>)
    requires forall a :: a in ass ==> AssignSettled(d, a, w, vars, q)
    ensures forall x :: x in AsksOf(d, ass, w, vars) ==> x.Ask? && x.request in q
    ensures WritesOf(AsksOf(d, ass, w, vars)) == []
    decreases |ass|
  {
    if ass != [] {
      assert AssignSettled(d, ass[0], w, vars, q);
      AsksOfSettled(d, ass[1..], w, vars, q);
      assert WritesOf(Asks(RequestOf(d, ass[0], w, vars))) == [];
      WritesSplit(Asks(RequestOf(d, ass[0], w, vars)), AsksOf(d, ass[1..], w, vars));
    }
  }

  lemma SettledAssignAsks(depth: nat, a: Assign, note: Event, s: Setup, st: State)
    requires AssignApply(depth, a, s, st).Some? && AssignSettled(depth, a, s.world, st.vars, ANY)
    requires note.RuleTriggered? || note.TriggerTriggered?
    ensures var st' := Note(AssignApply(depth, a, s, st).value, note);
            Grows(st, st', Asks(RequestOf(depth, a, s.world, st.vars))) && st'.vars == st.vars
  {
    NoWriteNoChange(depth, a, s, st);
    RequestDeeds(depth, a, s, st);
    hide *;
    GrowsByNote(st, AssignApply(depth, a, s, st).value, note, Asks(RequestOf(depth, a, s.world, st.vars)));
  }

  lemma {:induction false} SettledAssignsAsk(depth: nat, i: nat, ass: seq<Assign>, first: Option<Error>, s: Setup, st: State)
    requires i <= |ass| && AssignAll(depth, i, ass, first, s, st).Some?
    requires forall a :: a in ass ==> AssignSettled(depth, a, s.world, st.vars, ANY)
    ensures Grows(st, AssignAll(depth, i, ass, first, s, st).value.st, AsksOf(depth, ass[i..], s.world, st.vars))
    ensures AssignAll(depth, i, ass, first, s, st).value.st.vars == st.vars
    decreases |ass| - i
  {
    hide Grows, AssignSettled, AssignApply;
    GrowsNot(st);
    if i < |ass| {
      var d := AssignApply(depth, ass[i], s, st).value;
      var st' := Note(d, TriggerTriggered(ass[i].id));
      SettledAssignAsks(depth, ass[i], TriggerTriggered(ass[i].id), s, st);
      var next := if first.None? then d.error else first;
      SettledAssignsAsk(depth, i + 1, ass, next, s, st');
      assert ass[i..][1..] == ass[i + 1..];
      GrowsOn(st, st', AssignAll(depth, i + 1, ass, next, s, st').value.st, Asks(RequestOf(depth, ass[i], s.world, st.vars)),
              AsksOf(depth, ass[i + 1..], s.world, st.vars));
    }
  }

  lemma {:induction false} SettledBlockAsks(depth: nat, i: nat, entries: seq<LabelEntry>, s: Setup, st: State)
    requires i <= |entries| && BlockApply(depth, i, entries, s, st).Some?
    requires forall a :: a in BlockFired(depth, i, entries, s.world, st.vars) ==> AssignSettled(depth, a, s.world, st.vars, ANY)
    ensures Grows(st, BlockApply(depth, i, entries, s, st).value.st,
                  AsksOf(depth, BlockFired(depth, i, entries, s.world, st.vars), s.world, st.vars))
    ensures BlockApply(depth, i, entries, s, st).value.st.vars == st.vars
    decreases |entries| - i
  {
    GrowsNot(st);
    if i < |entries| {
      if Eval(depth, entries[i].cond, s.world, st.vars) == Some(Value(0.0)) { SettledBlockAsks(depth, i + 1, entries, s, st); }
      else if Holds(depth, entries[i].cond, s.world, st.vars) {
        var ass := entries[i].ass;
        assert AsksOf(depth, [ass], s.world, st.vars) == Asks(RequestOf(depth, ass, s.world, st.vars));
        SettledAssignAsks(depth, ass, RuleTriggered(ass.id), s, st);
      }
    }
  }

  // A rule that would write no variable makes exactly the requests of what it fires.
  lemma SettledRuleAsks(depth: nat, r: Rule, s: Setup, st: State)
    requires RuleApply(depth, r, s, st).Some? && Settled(depth, r, s.world, st.vars, ANY)
    ensures Grows(st, RuleApply(depth, r, s, st).value.st, AsksOf(depth, Fired(depth, r, s.world, st.vars), s.world, st.vars))
    ensures RuleApply(depth, r, s, st).value.st.vars == st.vars
  {
    match r
    case LabelBlock(entries) => SettledBlockAsks(depth, 0, entries, s, st);
    case Trigger(cond, ass) =>
      GrowsNot(st);
      if Holds(depth, cond, s.world, st.vars) {
        assert ass[0..] == ass;
        SettledAssignsAsk(depth, 0, ass, None, s, st);
      }
  }
}
