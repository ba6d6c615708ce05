// Where the guarantees of the other modules stop: for each hypothesis, a small
// set of rules for which the conclusion fails without it.

module Limits {
  import opened Options
  import opened Exprs
  import opened Rules
  import opened Deeds
  import opened Trails

  const NO_POINTS: World := World(map[], map[])

  function Equals(x: Name, v: real): Expr {
    Op(Eq, Ref(x), Literal(v))
  }

  // ---------- a rule is not woken by its own target ----------

  // lamp { SET 1 WHEN TRUE }: the filter leaves the rule out when a peer turns the
  // lamp off, where a full pass would turn it on again.
  const LAMP_RULE: Rule := LabelBlock([LabelEntry(Literal(1.0), Assign("lamp", Literal(1.0), 0))])

  function LampAt(val: real): Setup {
    Setup([LAMP_RULE], World(map[], map["lamp" := Point(val, 0)]), _ => true)
  }

  lemma OwnTargetIsNotReasserted(depth: nat)
    ensures var st := State(map[], []);
            && Pass(depth, 0, None, LampAt(1.0), st) == Some(st)
            && Pass(depth, 0, Some("lamp"), LampAt(0.0), st) == Some(st)
            && Pass(depth, 0, None, LampAt(0.0), st)
                 == Some(State(map[], [Sent(SetOutput("lamp", 1.0, 0), true), RuleTriggered("lamp")]))
  {
    var st := State(map[], []);
    var ass := Assign("lamp", Literal(1.0), 0);
    assert EntryExprs([LabelEntry(Literal(1.0), ass)][1..]) == [];
    var es := RuleExprs(LAMP_RULE);
    assert es == [Literal(1.0), Literal(1.0)];
    assert es[1..] == [Literal(1.0)] && es[1..][1..] == [];
    assert AnyRef(depth, es[1..][1..], "lamp", st.vars) == Some(false);
    assert AnyRef(depth, es[1..], "lamp", st.vars) == Some(false);
    assert Woken(depth, LAMP_RULE, Some("lamp"), st.vars) == Some(false);
    assert Pass(depth, 1, Some("lamp"), LampAt(0.0), st) == Some(st);
    assert Eval(depth, Literal(1.0), LampAt(1.0).world, st.vars) == Some(Value(1.0));
    assert AssignApply(depth, ass, LampAt(1.0), st) == Some(Done(st, false, None));
    assert BlockApply(depth, 0, LAMP_RULE.entries, LampAt(1.0), st) == Some(Step(st, None));
    assert Pass(depth, 1, None, LampAt(1.0), st) == Some(st);
    var s := LampAt(0.0);
    var sent := st.(log := st.log + [Sent(SetOutput("lamp", 1.0, 0), true)]);
    assert (st.log + [Sent(SetOutput("lamp", 1.0, 0), true)]) + [RuleTriggered("lamp")]
        == [Sent(SetOutput("lamp", 1.0, 0), true), RuleTriggered("lamp")];
    assert AssignApply(depth, ass, s, st) == Some(Done(sent, true, None));
    assert BlockApply(depth, 0, LAMP_RULE.entries, s, st) == Some(Step(Note(Done(sent, true, None), RuleTriggered("lamp")), None));
    assert RuleApply(depth, LAMP_RULE, s, st) == Some(Step(Note(Done(sent, true, None), RuleTriggered("lamp")), None));
    assert Pass(depth, 1, None, s, Note(Done(sent, true, None), RuleTriggered("lamp")))
        == Some(Note(Done(sent, true, None), RuleTriggered("lamp")));
  }

  // ---------- a variable write can make a full pass repeat itself ----------

  // v { SET 1 WHEN i == 1 }   o { SET v WHEN TRUE }
  const VAR_RULE: Rule := LabelBlock([LabelEntry(Equals("i", 1.0), Assign("v", Literal(1.0), 0))])
  const OUT_RULE: Rule := LabelBlock([LabelEntry(Literal(1.0), Assign("o", Ref("v"), 0))])

  function RelayAt(val: real): Setup {
    Setup([VAR_RULE, OUT_RULE], World(map["i" := Point(val, 0)], map["o" := Point(0.0, 0)]), _ => true)
  }

  const RELAYED: seq<Event> :=
    [VarChanged("v", Literal(1.0)), Sent(SetOutput("o", 1.0, 0), true), RuleTriggered("o"), RuleTriggered("v")]

  lemma EntryRefs(depth: nat, r: Rule, cond: Expr, ass: Assign, id: Name, vars: Vars)
    requires r == LabelBlock([LabelEntry(cond, ass)])
    ensures Woken(depth, r, Some(id), vars) == Either(HaveRef(depth, cond, id, vars), HaveRef(depth, ass.rval, id, vars))
  {
    assert EntryExprs(r.entries[1..]) == [];
    var es := RuleExprs(r);
    assert es == [cond, ass.rval] && es[1..] == [ass.rval] && es[1..][1..] == [];
    assert AnyRef(depth, es[1..][1..], id, vars) == Some(false);
    assert AnyRef(depth, es[1..], id, vars) == HaveRef(depth, ass.rval, id, vars);
  }

  lemma OutRuleSends(depth: nat, log: seq<Event>)
    requires depth > 0
    ensures RuleApply(depth, OUT_RULE, RelayAt(1.0), State(map["v" := Literal(1.0)], log))
         == Some(Step(State(map["v" := Literal(1.0)], log + [Sent(SetOutput("o", 1.0, 0), true)] + [RuleTriggered("o")]), None))
  {
    var st := State(map["v" := Literal(1.0)], log);
    var ass := OUT_RULE.entries[0].ass;
    assert Eval(depth, ass.rval, RelayAt(1.0).world, st.vars) == Eval(depth - 1, Literal(1.0), RelayAt(1.0).world, st.vars);
    assert AssignApply(depth, ass, RelayAt(1.0), st)
        == Some(Done(st.(log := log + [Sent(SetOutput("o", 1.0, 0), true)]), true, None));
    assert Eval(depth, Literal(1.0), RelayAt(1.0).world, st.vars) == Some(Value(1.0));
    assert BlockApply(depth, 0, OUT_RULE.entries, RelayAt(1.0), st)
        == Some(Step(Note(Done(st.(log := log + [Sent(SetOutput("o", 1.0, 0), true)]), true, None), RuleTriggered("o")), None));
  }

  // The write of v, with the nested pass that it starts.
  lemma VarRuleRelays(depth: nat)
    requires depth > 1
    ensures RuleApply(depth, VAR_RULE, RelayAt(1.0), State(map["v" := Literal(0.0)], []))
         == Some(Step(State(map["v" := Literal(1.0)], RELAYED), None))
  {
    var s := RelayAt(1.0);
    var st := State(map["v" := Literal(0.0)], []);
    var e := VAR_RULE.entries[0];
    var st1 := Written(e.ass, st);
    assert st1 == State(map["v" := Literal(1.0)], [VarChanged("v", Literal(1.0))]);
    EntryRefs(depth - 1, VAR_RULE, e.cond, e.ass, "v", st1.vars);
    EntryRefs(depth - 1, OUT_RULE, OUT_RULE.entries[0].cond, OUT_RULE.entries[0].ass, "v", st1.vars);
    assert HaveRef(depth - 1, e.cond, "v", st1.vars) == Some(false);
    OutRuleSends(depth - 1, st1.log);
    var st2 := RuleApply(depth - 1, OUT_RULE, s, st1).value.st;
    assert Pass(depth - 1, 2, Some("v"), s, st2) == Some(st2);
    assert Pass(depth - 1, 1, Some("v"), s, st1) == Some(st2);
    assert Pass(depth - 1, 0, Some("v"), s, st1) == Some(st2);
    assert AssignApply(depth, e.ass, s, st) == Some(Done(st2, true, None));
    assert Eval(depth, Ref("i"), s.world, st.vars) == Some(Value(1.0));
    assert Eval(depth, e.cond, s.world, st.vars) == Some(Value(1.0));
    assert BlockApply(depth, 0, VAR_RULE.entries, s, st) == Some(Step(Note(Done(st2, true, None), RuleTriggered("v")), None));
    assert Note(Done(st2, true, None), RuleTriggered("v")).log == RELAYED;
  }

  // Nothing to do while i is 0. When i becomes 1 the filtered pass sends one
  // request for o, a full pass the same request twice.
  lemma FullPassRepeatsRequest(depth: nat)
    requires depth > 1
    ensures var st := State(map["v" := Literal(0.0)], []); var vars := map["v" := Literal(1.0)];
            && Pass(depth, 0, None, RelayAt(0.0), st) == Some(st)
            && Pass(depth, 0, Some("i"), RelayAt(1.0), st) == Some(State(vars, RELAYED))
            && Pass(depth, 0, None, RelayAt(1.0), st)
                 == Some(State(vars, RELAYED + [Sent(SetOutput("o", 1.0, 0), true)] + [RuleTriggered("o")]))
  {
    var s := RelayAt(1.0);
    var st := State(map["v" := Literal(0.0)], []);
    var st1 := State(map["v" := Literal(1.0)], RELAYED);
    RelayRests(depth, st);
    VarRuleRelays(depth);
    EntryRefs(depth, VAR_RULE, VAR_RULE.entries[0].cond, VAR_RULE.entries[0].ass, "i", st.vars);
    EntryRefs(depth, OUT_RULE, OUT_RULE.entries[0].cond, OUT_RULE.entries[0].ass, "i", st1.vars);
    assert HaveRef(depth, VAR_RULE.entries[0].cond, "i", st.vars) == Some(true);
    assert HaveRef(depth, Ref("v"), "i", st1.vars) == HaveRef(depth - 1, Literal(1.0), "i", st1.vars);
    assert Pass(depth, 2, Some("i"), s, st1) == Some(st1);
    assert Pass(depth, 1, Some("i"), s, st1) == Some(st1);
    OutRuleSends(depth, RELAYED);
    var st2 := RuleApply(depth, OUT_RULE, s, st1).value.st;
    assert Pass(depth, 2, None, s, st2) == Some(st2);
    assert Pass(depth, 1, None, s, st1) == Some(st2);
  }

  lemma RelayRests(depth: nat, st: State)
    requires depth > 1 && st == State(map["v" := Literal(0.0)], [])
    ensures Pass(depth, 0, None, RelayAt(0.0), st) == Some(st)
  {
    var s := RelayAt(0.0);
    assert Eval(depth, Ref("i"), s.world, st.vars) == Some(Value(0.0));
    assert Eval(depth, VAR_RULE.entries[0].cond, s.world, st.vars) == Some(Value(0.0));
    assert BlockApply(depth, 1, VAR_RULE.entries, s, st) == Some(Step(st, None));
    assert BlockApply(depth, 0, VAR_RULE.entries, s, st) == Some(Step(st, None));
    assert Eval(depth, Ref("v"), s.world, st.vars) == Eval(depth - 1, Literal(0.0), s.world, st.vars);
    assert Eval(depth, Literal(1.0), s.world, st.vars) == Some(Value(1.0));
    assert AssignApply(depth, OUT_RULE.entries[0].ass, s, st) == Some(Done(st, false, None));
    assert BlockApply(depth, 0, OUT_RULE.entries, s, st) == Some(Step(st, None));
    assert Pass(depth, 2, None, s, st) == Some(st);
    assert Pass(depth, 1, None, s, st) == Some(st);
  }

  // ---------- two writers of one variable ----------

  // v { SET 1 WHEN TRUE }   v { SET 2 WHEN TRUE }
  const ONE_RULE: Rule := LabelBlock([LabelEntry(Literal(1.0), Assign("v", Literal(1.0), 0))])
  const TWO_RULE: Rule := LabelBlock([LabelEntry(Literal(1.0), Assign("v", Literal(2.0), 0))])
  const RIVALS: Setup := Setup([ONE_RULE, TWO_RULE], NO_POINTS, _ => true)

  lemma RivalWrites(depth: nat, r: Rule, v: real, log: seq<Event>)
    requires depth > 0 && ((r == ONE_RULE && v == 2.0) || (r == TWO_RULE && v == 1.0))
    ensures RuleApply(depth, r, RIVALS, State(map["v" := Literal(v)], log))
         == Some(Step(State(map["v" := Literal(3.0 - v)], log + [VarChanged("v", Literal(3.0 - v))] + [RuleTriggered("v")]), None))
  {
    var st := State(map["v" := Literal(v)], log);
    var e := r.entries[0];
    var st' := Written(e.ass, st);
    assert st'.vars == map["v" := Literal(3.0 - v)];
    EntryRefs(depth - 1, ONE_RULE, ONE_RULE.entries[0].cond, ONE_RULE.entries[0].ass, "v", st'.vars);
    EntryRefs(depth - 1, TWO_RULE, TWO_RULE.entries[0].cond, TWO_RULE.entries[0].ass, "v", st'.vars);
    assert Pass(depth - 1, 2, Some("v"), RIVALS, st') == Some(st');
    assert Pass(depth - 1, 1, Some("v"), RIVALS, st') == Some(st');
    assert AssignApply(depth, e.ass, RIVALS, st) == Some(Done(st', true, None));
    assert Eval(depth, e.cond, NO_POINTS, st.vars) == Some(Value(1.0));
    assert BlockApply(depth, 0, r.entries, RIVALS, st) == Some(Step(Note(Done(st', true, None), RuleTriggered("v")), None));
  }

  // Each full pass ends in the state it began with, having written v twice.
  lemma RivalsNeverSettle(depth: nat, log: seq<Event>)
    requires depth > 0
    ensures var vars := map["v" := Literal(2.0)];
            Pass(depth, 0, None, RIVALS, State(vars, log)) == Some(State(vars,
              (log + [VarChanged("v", Literal(1.0))] + [RuleTriggered("v")]) + [VarChanged("v", Literal(2.0))] + [RuleTriggered("v")]))
  {
    var log1 := log + [VarChanged("v", Literal(1.0))] + [RuleTriggered("v")];
    RivalWrites(depth, ONE_RULE, 2.0, log);
    RivalWrites(depth, TWO_RULE, 1.0, log1);
    var st2 := RuleApply(depth, TWO_RULE, RIVALS, State(map["v" := Literal(1.0)], log1)).value.st;
    assert Pass(depth, 2, None, RIVALS, st2) == Some(st2);
    assert Pass(depth, 1, None, RIVALS, State(map["v" := Literal(1.0)], log1)) == Some(st2);
  }

  // ---------- rules that never come to rest ----------

  // x { SET 1 WHEN x == 0; SET 0 WHEN x == 1 }
  const FLIP_RULE: Rule :=
    LabelBlock([LabelEntry(Equals("x", 0.0), Assign("x", Literal(1.0), 0)),
                LabelEntry(Equals("x", 1.0), Assign("x", Literal(0.0), 0))])

  const FLIP_SETUP: Setup := Setup([FLIP_RULE], NO_POINTS, _ => true)

  lemma FlipWakes(depth: nat, id: Option<Name>, v: real)
    requires id == None || id == Some("x")
    ensures Woken(depth, FLIP_RULE, id, map["x" := Literal(v)]) == Some(true)
  {
    var es := RuleExprs(FLIP_RULE);
    assert es[0] == Equals("x", 0.0);
    assert HaveRef(depth, es[0], "x", map["x" := Literal(v)]) == Some(true);
  }

  // Which entry applies.
  lemma FlipConditions(depth: nat, v: real)
    ensures var vars := map["x" := Literal(v)];
            && Eval(depth, FLIP_RULE.entries[0].cond, NO_POINTS, vars) == (if depth == 0 then None else Some(Value(Truth(v == 0.0))))
            && Eval(depth, FLIP_RULE.entries[1].cond, NO_POINTS, vars) == (if depth == 0 then None else Some(Value(Truth(v == 1.0))))
  {
    assert Eval(depth, Ref("x"), NO_POINTS, map["x" := Literal(v)]) == if depth == 0 then None else Some(Value(v));
  }

  lemma {:induction false} FlipFlopNeverEnds(depth: nat, id: Option<Name>, v: real, log: seq<Event>)
    requires (v == 0.0 || v == 1.0) && (id == None || id == Some("x"))
    ensures Pass(depth, 0, id, FLIP_SETUP, State(map["x" := Literal(v)], log)) == None
    decreases depth
  {
    var s, st, entries := FLIP_SETUP, State(map["x" := Literal(v)], log), FLIP_RULE.entries;
    FlipWakes(depth, id, v);
    FlipConditions(depth, v);
    if depth > 0 {
      var i := if v == 0.0 then 0 else 1;
      var st' := Written(entries[i].ass, st);
      assert st'.vars == map["x" := Literal(1.0 - v)];
      FlipFlopNeverEnds(depth - 1, Some("x"), 1.0 - v, st'.log);
      assert AssignApply(depth, entries[i].ass, s, st) == None;
      assert BlockApply(depth, i, entries, s, st) == None;
    }
    assert BlockApply(depth, 0, entries, s, st) == None;
  }

  const FLIPS: seq<Assign> := [Assign("x", Literal(1.0), 0), Assign("x", Literal(0.0), 0)]

  // One nesting deeper it goes on from the other value.
  lemma FlipLeadsOn(depth: nat, id: Option<Name>, v: real, log: seq<Event>)
    requires depth > 0 && (v == 0.0 || v == 1.0) && (id == None || id == Some("x"))
    ensures var st := State(map["x" := Literal(v)], log);
            var st' := Written(FLIPS[if v == 0.0 then 0 else 1], st);
            && st'.vars == map["x" := Literal(1.0 - v)]
            && PassTrail(depth, 0, id, FLIP_SETUP, st) == PassTrail(depth - 1, 0, Some("x"), FLIP_SETUP, st')
  {
    var s, st, entries := FLIP_SETUP, State(map["x" := Literal(v)], log), FLIP_RULE.entries;
    var i := if v == 0.0 then 0 else 1;
    var a := entries[i].ass;
    var st' := Written(a, st);
    assert st'.vars == map["x" := Literal(1.0 - v)];
    FlipFlopNeverEnds(depth, id, v, log);
    FlipFlopNeverEnds(depth - 1, Some("x"), 1.0 - v, st'.log);
    FlipWakes(depth, id, v);
    FlipConditions(depth, v);
    hide Eval, Woken;
    assert AssignApply(depth, a, s, st) == None;
    assert BlockApply(depth, i, entries, s, st) == None;
    assert BlockApply(depth, 0, entries, s, st) == None;
    hide AssignApply;
    assert BlockStop(depth, i, entries, s, st) == AssignStop(depth, a, s, st);
    assert BlockStop(depth, 0, entries, s, st) == AssignStop(depth, a, s, st);
    FlipStopsWithItsRule(depth, id, st);
    hide Pass, BlockApply, BlockStop;
    assert AssignStop(depth, a, s, st) == PassStop(depth - 1, 0, Some("x"), s, st');
  }

  lemma FlipStopsWithItsRule(depth: nat, id: Option<Name>, st: State)
    requires Pass(depth, 0, id, FLIP_SETUP, st) == None && Woken(depth, FLIP_RULE, id, st.vars) == Some(true)
    requires BlockApply(depth, 0, FLIP_RULE.entries, FLIP_SETUP, st) == None
    ensures PassTrail(depth, 0, id, FLIP_SETUP, st) == BlockStop(depth, 0, FLIP_RULE.entries, FLIP_SETUP, st)
  {
    hide Eval, Woken, Pass, BlockApply, BlockStop;
    assert FLIP_SETUP.rules[0] == FLIP_RULE;
    assert RuleApply(depth, FLIP_RULE, FLIP_SETUP, st) == None;
    assert RuleStop(depth, FLIP_RULE, FLIP_SETUP, st) == BlockStop(depth, 0, FLIP_RULE.entries, FLIP_SETUP, st);
  }

  // It has no end though no evaluation in it is without one: at every depth it has
  // made that many writes, and all of them leave the table acyclic.
  lemma {:induction false} FlipFlopStaysAcyclic(depth: nat, id: Option<Name>, v: real, log: seq<Event>) returns (ds: seq<Deed>)
    requires (v == 0.0 || v == 1.0) && (id == None || id == Some("x"))
    ensures var st := State(map["x" := Literal(v)], log);
            && Grows(st, PassTrail(depth, 0, id, FLIP_SETUP, st), ds) && |WritesOf(ds)| == depth
            && NeverCircular(st.vars, WritesOf(ds))
    decreases depth
  {
    var st := State(map["x" := Literal(v)], log);
    if depth == 0 {
      FlipStops(id, v, log);
      GrowsNot(st);
      return [];
    }
    hide PassTrail, Grows, Depends;
    var a := FLIPS[if v == 0.0 then 0 else 1];
    var st' := Written(a, st);
    FlipLeadsOn(depth, id, v, log);
    var more := FlipFlopStaysAcyclic(depth - 1, Some("x"), 1.0 - v, st'.log);
    ds := [Write(Binding(a.id, a.rval))] + more;
    GrowsByWrite(a, st);
    GrowsOn(st, st', PassTrail(depth, 0, id, FLIP_SETUP, st), [Write(Binding(a.id, a.rval))], more);
    LiteralDependsOnNothing(1.0 - v, "x", st.vars);
    assert ds[1..] == more;
    assert WritesOf(ds)[1..] == WritesOf(more);
  }

  lemma FlipStops(id: Option<Name>, v: real, log: seq<Event>)
    requires (v == 0.0 || v == 1.0) && (id == None || id == Some("x"))
    ensures var st := State(map["x" := Literal(v)], log); PassTrail(0, 0, id, FLIP_SETUP, st) == st
  {
    FlipFlopNeverEnds(0, id, v, log);
    FlipWakes(0, id, v);
    FlipConditions(0, v);
    hide Eval, Woken, Pass;
    var st := State(map["x" := Literal(v)], log);
    assert BlockApply(0, 0, FLIP_RULE.entries, FLIP_SETUP, st) == None;
    FlipStopsWithItsRule(0, id, st);
  }

  lemma LiteralDependsOnNothing(v: real, x: Name, vars: Vars)
    ensures !Depends(Literal(v), x, vars)
  {
    forall p ensures !LooksUp(p, Literal(v), x, vars) {}
  }

  // ---------- why stratification looks at whole rules ----------

  // x { SET 1 WHEN a == 5; SET 2 WHEN a == 6 }
  // TRIGGER WHEN TRUE SET a = 5, b = x;
  // TRIGGER WHEN TRUE SET a = 6, c = x;
  // Assignment by assignment the ranks 0 for a, 1 for x and 2 for b and c would do:
  // each target ranks above the names in its condition and its right-hand side.
  // Yet both triggers wake on x and reset a, so the cascade never ends.
  const PICK_RULE: Rule :=
    LabelBlock([LabelEntry(Equals("a", 5.0), Assign("x", Literal(1.0), 0)),
                LabelEntry(Equals("a", 6.0), Assign("x", Literal(2.0), 0))])
  const FIVE_RULE: Rule := Trigger(Literal(1.0), [Assign("a", Literal(5.0), 0), Assign("b", Ref("x"), 0)])
  const SIX_RULE: Rule := Trigger(Literal(1.0), [Assign("a", Literal(6.0), 0), Assign("c", Ref("x"), 0)])

  const LOOP_SETUP: Setup := Setup([PICK_RULE, FIVE_RULE, SIX_RULE], NO_POINTS, _ => true)

  function LoopVars(a: real, x: real): Vars {
    map["a" := Literal(a), "b" := Ref("x"), "c" := Ref("x"), "x" := Literal(x)]
  }

  ghost predicate RankedByAssignment(rank: map<Name, nat>, cond: Expr, ass: Assign) {
    ass.id in rank && forall n :: n in Mentions(cond) + Mentions(ass.rval) ==> n in rank && rank[n] < rank[ass.id]
  }

  lemma LoopIsRankedByAssignment()
    ensures var rank: map<Name, nat> := map["a" := 0, "x" := 1, "b" := 2, "c" := 2];
            && (forall i :: 0 <= i < 2 ==> RankedByAssignment(rank, PICK_RULE.entries[i].cond, PICK_RULE.entries[i].ass))
            && (forall i :: 0 <= i < 2 ==> RankedByAssignment(rank, FIVE_RULE.cond, FIVE_RULE.ass[i]))
            && (forall i :: 0 <= i < 2 ==> RankedByAssignment(rank, SIX_RULE.cond, SIX_RULE.ass[i]))
  {
  }

  lemma TriggerWakesOnX(depth: nat, r: Rule, vars: Vars)
    requires r == FIVE_RULE || r == SIX_RULE
    ensures Woken(depth, r, Some("x"), vars) == Some(true)
  {
    var es := RuleExprs(r);
    assert es[0] == Literal(1.0) && es[1..] == AssignExprs(r.ass);
    var rest := AssignExprs(r.ass);
    assert rest[0] == r.ass[0].rval && rest[1..] == AssignExprs(r.ass[1..]);
    assert AssignExprs(r.ass[1..])[0] == Ref("x");
    assert AnyRef(depth, AssignExprs(r.ass[1..]), "x", vars) == Some(true);
    assert AnyRef(depth, rest, "x", vars) == Some(true);
    assert HaveRef(depth, es[0], "x", vars) == Some(false);
    assert AnyRef(depth, es, "x", vars) == Some(true);
  }

  // The pass for x: one of the triggers resets a.
  lemma {:induction false} PassForXNeverEnds(depth: nat, a: real, log: seq<Event>)
    requires a == 5.0 || a == 6.0
    ensures Pass(depth, 0, Some("x"), LOOP_SETUP, State(LoopVars(a, a - 4.0), log)) == None
    decreases depth, 1
  {
    var st := State(LoopVars(a, a - 4.0), log);
    PickSearch(depth, a, a - 4.0);
    TriggerWakesOnX(depth, FIVE_RULE, st.vars);
    TriggerWakesOnX(depth, SIX_RULE, st.vars);
    if depth > 0 {
      if a == 5.0 {
        assert AssignApply(depth, FIVE_RULE.ass[0], LOOP_SETUP, st) == Some(Done(st, false, None));
        assert AssignApply(depth, FIVE_RULE.ass[1], LOOP_SETUP, st) == Some(Done(st, false, None));
        assert AssignAll(depth, 1, FIVE_RULE.ass, None, LOOP_SETUP, st) == Some(Step(st, None));
        assert RuleApply(depth, FIVE_RULE, LOOP_SETUP, st) == Some(Step(st, None));
        ResetOfANeverEnds(depth, SIX_RULE, a, log);
        assert Pass(depth, 2, Some("x"), LOOP_SETUP, st) == None;
      } else {
        ResetOfANeverEnds(depth, FIVE_RULE, a, log);
      }
      assert Pass(depth, 1, Some("x"), LOOP_SETUP, st) == None;
    }
  }

  lemma PickSearch(depth: nat, a: real, x: real)
    ensures Woken(depth, PICK_RULE, Some("x"), LoopVars(a, x)) == if depth == 0 then None else Some(false)
    ensures Woken(depth, PICK_RULE, Some("a"), LoopVars(a, x)) == Some(true)
  {
    var es := RuleExprs(PICK_RULE);
    var vars := LoopVars(a, x);
    assert EntryExprs(PICK_RULE.entries[1..][1..]) == [];
    assert es == [Equals("a", 5.0), Literal(1.0), Equals("a", 6.0), Literal(2.0)];
    assert es[1..] == [Literal(1.0), Equals("a", 6.0), Literal(2.0)];
    assert es[1..][1..] == [Equals("a", 6.0), Literal(2.0)];
    assert es[1..][1..][1..] == [Literal(2.0)];
    assert HaveRef(depth, Ref("a"), "a", vars) == Some(true);
    assert HaveRef(depth, es[0], "a", vars) == Some(true);
    if depth > 0 {
      assert HaveRef(depth, Ref("a"), "x", vars) == HaveRef(depth - 1, Literal(a), "x", vars) == Some(false);
      assert HaveRef(depth, Equals("a", 5.0), "x", vars) == Some(false);
      assert HaveRef(depth, Equals("a", 6.0), "x", vars) == Some(false);
      assert AnyRef(depth, es[1..][1..][1..], "x", vars) == Some(false);
      assert AnyRef(depth, es[1..][1..], "x", vars) == Some(false);
      assert AnyRef(depth, es[1..], "x", vars) == Some(false);
    } else {
      assert HaveRef(depth, Ref("a"), "x", vars) == None;
      assert HaveRef(depth, es[0], "x", vars) == None;
    }
  }

  lemma {:induction false} ResetOfANeverEnds(depth: nat, r: Rule, a: real, log: seq<Event>)
    requires depth > 0 && ((a == 5.0 && r == SIX_RULE) || (a == 6.0 && r == FIVE_RULE))
    ensures RuleApply(depth, r, LOOP_SETUP, State(LoopVars(a, a - 4.0), log)) == None
    decreases depth, 0
  {
    var st := State(LoopVars(a, a - 4.0), log);
    var st' := Written(r.ass[0], st);
    assert st'.vars == LoopVars(11.0 - a, a - 4.0);
    PassForANeverEnds(depth - 1, 11.0 - a, st'.log);
    assert AssignApply(depth, r.ass[0], LOOP_SETUP, st) == None;
    assert AssignAll(depth, 0, r.ass, None, LOOP_SETUP, st) == None;
    assert Eval(depth, Literal(1.0), NO_POINTS, st.vars) == Some(Value(1.0));
  }

  // The pass for a: the label block sets x anew.
  lemma {:induction false} PassForANeverEnds(depth: nat, a: real, log: seq<Event>)
    requires a == 5.0 || a == 6.0
    ensures Pass(depth, 0, Some("a"), LOOP_SETUP, State(LoopVars(a, 7.0 - a), log)) == None
    decreases depth, 1
  {
    var st := State(LoopVars(a, 7.0 - a), log);
    var entries := PICK_RULE.entries;
    PickSearch(depth, a, 7.0 - a);
    if depth > 0 {
      var i := if a == 5.0 then 0 else 1;
      assert Eval(depth, Ref("a"), NO_POINTS, st.vars) == Some(Value(a));
      assert Eval(depth, entries[0].cond, NO_POINTS, st.vars) == Some(Value(Truth(a == 5.0)));
      assert Eval(depth, entries[1].cond, NO_POINTS, st.vars) == Some(Value(Truth(a == 6.0)));
      var st' := Written(entries[i].ass, st);
      assert st'.vars == LoopVars(a, a - 4.0);
      PassForXNeverEnds(depth - 1, a, st'.log);
      assert AssignApply(depth, entries[i].ass, LOOP_SETUP, st) == None;
      assert BlockApply(depth, i, entries, LOOP_SETUP, st) == None;
      assert BlockApply(depth, 0, entries, LOOP_SETUP, st) == None;
    } else {
      assert Eval(depth, Ref("a"), NO_POINTS, st.vars) == None;
      assert Eval(depth, entries[0].cond, NO_POINTS, st.vars) == None;
    }
  }
}
