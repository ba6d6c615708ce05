// The engine object: passes that write the variable table and the log in place.

module Engine {
  import opened Options
  import opened Exprs
  import opened Rules
  import opened Deeds
  import opened RequestSafety
  import opened Stratification
  import opened Reactivity
  import opened Cascades

  // `stack` is how deeply look-ups and passes may still nest; a method that
  // returns without completing has run out of it, as the program would.
  class Engine {
    const labels: seq<seq<LabelEntry>>
    const triggers: seq<TriggerRule>
    const replies: nat -> bool
    var variables: Vars
    var log: seq<Event>

    constructor (labels: seq<seq<LabelEntry>>, triggers: seq<TriggerRule>, variables: Vars, replies: nat -> bool)
      ensures this.labels == labels && this.triggers == triggers && this.replies == replies
      ensures this.variables == variables && log == []
    {
      this.labels := labels;
      this.triggers := triggers;
      this.replies := replies;
      this.variables := variables;
      this.log := [];
    }

    ghost function TheRules(): (rules: seq<Rule>)
      ensures |rules| == |labels| + |triggers|
    {
      seq(|labels|, i requires 0 <= i < |labels| => LabelBlock(labels[i])) + triggers
    }

    ghost function TheSetup(w: World): Setup {
      Setup(TheRules(), w, replies)
    }

    ghost function Now(): State
      reads this
    {
      State(variables, log)
    }

    method SendRequest(request: Request, ghost w: World) returns (ok: bool)
      modifies this
      ensures var d := Send(request, TheSetup(w), old(Now()));
              Now() == d.st && ok == d.applied && d.error == (if ok then None else Some(InvalidValue))
    {
      ok := replies(|log|);
      log := log + [Sent(request, ok)];
    }

    method ApplyBit(output: bool, p: Point, a: Assign, on: bool, ghost w: World) returns (applied: bool, error: Option<Error>)
      modifies this
      ensures SendFlag(output, p, a, on, TheSetup(w), old(Now())) == Done(Now(), applied, error)
    {
      var flags := WithBit(p.flags, a.flagBit, on);
      if flags == p.flags { return false, None; }
      var request := if output then SetOutput(a.id, p.val, flags) else SetInput(a.id, p.val, flags);
      applied := SendRequest(request, w);
      error := if applied then None else Some(InvalidValue);
    }

    method ApplyFlag(stack: nat, a: Assign, w: World) returns (done: bool, applied: bool, error: Option<Error>)
      modifies this
      ensures AssignFlag(stack, a, TheSetup(w), old(Now())) == if done then Some(Done(Now(), applied, error)) else None
    {
      if !IsUsrBit(a.flagBit) { return true, false, None; }
      var x := ExprEval(stack, a.rval, w, variables);
      if x.None? { return false, false, None; }
      if x.value.Failed? { return true, false, Some(x.value.error); }
      var on := x.value.v != 0.0;
      if a.id in w.outputs {
        applied, error := ApplyBit(true, w.outputs[a.id], a, on, w);
        return true, applied, error;
      }
      if a.id in w.inputs {
        applied, error := ApplyBit(false, w.inputs[a.id], a, on, w);
        return true, applied, error;
      }
      return true, false, Some(UndefinedIdentifier(a.id));
    }

    method ApplyAssign(stack: nat, a: Assign, w: World) returns (done: bool, applied: bool, error: Option<Error>)
      modifies this
      ensures AssignApply(stack, a, TheSetup(w), old(Now())) == if done then Some(Done(Now(), applied, error)) else None
      decreases stack, 0
    {
      if a.flagBit != 0 {
        done, applied, error := ApplyFlag(stack, a, w);
        return;
      }
      if a.id in w.outputs {
        var x := ExprEval(stack, a.rval, w, variables);
        if x.None? { return false, false, None; }
        if x.value.Failed? { return true, false, Some(x.value.error); }
        var p := w.outputs[a.id];
        if p.val == x.value.v { return true, false, None; }
        if p.flags & MANUAL_OVERRIDE != 0 { return true, false, None; }
        var ok := SendRequest(SetOutput(a.id, x.value.v, p.flags), w);
        return true, ok, if ok then None else Some(InvalidValue);
      }
      if a.id in variables {
        done, applied := SetVariable(stack, a, w);
        return done, applied, None;
      }
      return true, false, Some(UndefinedIdentifier(a.id));
    }

    // st_var_set_value and the "changed" callback that it runs.
    method SetVariable(stack: nat, a: Assign, w: World) returns (done: bool, applied: bool)
      requires a.flagBit == 0 && a.id !in w.outputs && a.id in variables
      modifies this
      ensures AssignApply(stack, a, TheSetup(w), old(Now())) == if done then Some(Done(Now(), applied, None)) else None
      decreases stack, 0, 0
    {
      if variables[a.id] == a.rval { return true, false; }
      if stack == 0 { return false, false; }
      variables := variables[a.id := a.rval];
      log := log + [VarChanged(a.id, a.rval)];
      done := Apply(stack - 1, Some(a.id), w);
      applied := true;
    }

    method ApplyLabelBlock(stack: nat, k: nat, w: World) returns (done: bool, error: Option<Error>)
      requires k < |labels|
      modifies this
      ensures RuleApply(stack, LabelBlock(labels[k]), TheSetup(w), old(Now())) == if done then Some(Step(Now(), error)) else None
      decreases stack, 1
    {
      var entries := labels[k];
      var i := 0;
      while i < |entries|
        invariant 0 <= i <= |entries|
        invariant Now() == old(Now())
        invariant BlockApply(stack, 0, entries, TheSetup(w), old(Now())) == BlockApply(stack, i, entries, TheSetup(w), old(Now()))
      {
        var c := ExprEval(stack, entries[i].cond, w, variables);
        if c.None? { return false, None; }
        if c.value.Failed? { return true, Some(c.value.error); }
        if c.value.v != 0.0 {
          var applied;
          done, applied, error := ApplyAssign(stack, entries[i].ass, w);
          if done && applied { log := log + [RuleTriggered(entries[i].ass.id)]; }
          return;
        }
        i := i + 1;
      }
      return true, None;
    }

    method ApplyTrigger(stack: nat, k: nat, w: World) returns (done: bool, error: Option<Error>)
      requires k < |triggers|
      modifies this
      ensures RuleApply(stack, triggers[k], TheSetup(w), old(Now())) == if done then Some(Step(Now(), error)) else None
      decreases stack, 1
    {
      var ass := triggers[k].ass;
      var c := ExprEval(stack, triggers[k].cond, w, variables);
      if c.None? { return false, None; }
      if c.value.Failed? { return true, Some(c.value.error); }
      error := None;
      if c.value.v != 0.0 {
        var i := 0;
        while i < |ass|
          invariant 0 <= i <= |ass|
          invariant AssignAll(stack, 0, ass, None, TheSetup(w), old(Now())) == AssignAll(stack, i, ass, error, TheSetup(w), Now())
        {
          var ok, applied, err := ApplyAssign(stack, ass[i], w);
          if !ok { return false, None; }
          if applied { log := log + [TriggerTriggered(ass[i].id)]; }
          if error.None? { error := err; }
          i := i + 1;
        }
      }
      done := true;
    }

    method SearchRule(stack: nat, r: Rule, id: Option<Name>) returns (woken: Option<bool>)
      ensures woken == Woken(stack, r, id, variables)
    {
      if id.None? { return Some(true); }
      match r {
        case LabelBlock(entries) =>
          var i := 0;
          while i < |entries|
            invariant 0 <= i <= |entries|
            invariant AnyRef(stack, EntryExprs(entries), id.value, variables)
                   == AnyRef(stack, EntryExprs(entries[i..]), id.value, variables)
          {
            ghost var rest := EntryExprs(entries[i + 1..]);
            assert entries[i..][1..] == entries[i + 1..];
            AnyRefSplits(stack, entries[i].cond, entries[i].ass.rval, rest, id.value, variables);
            woken := ExprHaveRef(stack, entries[i].cond, id.value, variables);
            if woken != Some(false) { return; }
            woken := ExprHaveRef(stack, entries[i].ass.rval, id.value, variables);
            if woken != Some(false) { return; }
            i := i + 1;
          }
          return Some(false);
        case Trigger(cond, ass) =>
          assert ([cond] + AssignExprs(ass))[1..] == AssignExprs(ass);
          woken := ExprHaveRef(stack, cond, id.value, variables);
          if woken != Some(false) { return; }
          var i := 0;
          while i < |ass|
            invariant 0 <= i <= |ass|
            invariant AnyRef(stack, AssignExprs(ass), id.value, variables) == AnyRef(stack, AssignExprs(ass[i..]), id.value, variables)
          {
            assert ass[i..][1..] == ass[i + 1..];
            assert ([ass[i].rval] + AssignExprs(ass[i + 1..]))[1..] == AssignExprs(ass[i + 1..]);
            woken := ExprHaveRef(stack, ass[i].rval, id.value, variables);
            if woken != Some(false) { return; }
            i := i + 1;
          }
          return Some(false);
      }
    }

    // A change callback of the core, for stratified rules: the pass completes, and all
    // that it logs is permitted. With one writer per variable, and if only `id` had
    // changed since all rules were settled, it leaves no variable to write; and, if no
    // rule that it leaves out sets `id` itself, no request to make but such as it made,
    // or as were made before, `asked`, and still stand.
    method React(stack: nat, id: Option<Name>, w: World, ghost before: World, ghost asked: iset<Request>, ghost g: Strata)
      returns (ghost ds: seq<Deed>)
      requires Stratified(g, variables) && Describes(g, TheRules()) && stack >= 2 * g.bound + 1
      modifies this
      ensures Pass(stack, 0, id, TheSetup(w), old(Now())) == Some(Now()) && Grows(old(Now()), Now(), ds)
      ensures Stratified(g, variables) && Advances(w, old(Now()), Now())
      ensures SingleWriter(g, TheRules())
              && (id.Some? ==> PointUpdated(id.value, before, w) && AllSettled(g, TheRules(), before, old(variables), ANY))
              ==> AllSettled(g, TheRules(), w, variables, ANY)
      ensures SingleWriter(g, TheRules()) && Prepared(g, TheRules(), id, before, w, old(variables), asked)
              ==> AllSettled(g, TheRules(), w, variables, With(Standing(asked, id), ds))
    {
      hide AllSettled, Prepared, SingleWriter, PointUpdated, Grows;
      ghost var s, st := TheSetup(w), Now();
      ghost var end := PassEnds(stack, 0, id, s, st, g);
      PassAdvances(stack, 0, id, s, st);
      ds := PassDeeds(stack, 0, id, s, st, s, st);
      var done := Apply(stack, id, w);
      assert done;
      if SingleWriter(g, s.rules) {
        if id.Some? ==> PointUpdated(id.value, before, w) && AllSettled(g, s.rules, before, st.vars, ANY) {
          ghost var settled := PassResettlesVariables(stack, id, before, s, st, g);
        }
        if Prepared(g, s.rules, id, before, w, st.vars, asked) {
          ghost var settled, ds' := PassResettles(stack, id, before, asked, s, st, g);
          SameDeeds(st, settled, ds, ds');
        }
      }
    }

    // engine_apply: label blocks first, then triggers.
    method Apply(stack: nat, id: Option<Name>, w: World) returns (done: bool)
      modifies this
      ensures Pass(stack, 0, id, TheSetup(w), old(Now())) == if done then Some(Now()) else None
      decreases stack, 3
    {
      done := ApplyLabelBlocks(stack, id, w);
      if done { done := ApplyTriggers(stack, id, w); }
    }

    method ApplyLabelBlocks(stack: nat, id: Option<Name>, w: World) returns (done: bool)
      modifies this
      ensures Pass(stack, 0, id, TheSetup(w), old(Now())) == if done then Pass(stack, |labels|, id, TheSetup(w), Now()) else None
      decreases stack, 2, 1
    {
      hide Pass;
      var k := 0;
      while k < |labels|
        invariant 0 <= k <= |labels|
        invariant Pass(stack, 0, id, TheSetup(w), old(Now())) == Pass(stack, k, id, TheSetup(w), Now())
      {
        var ok := WakeLabelBlock(stack, k, id, w);
        if !ok { return false; }
        k := k + 1;
      }
      done := true;
    }

    method WakeLabelBlock(stack: nat, k: nat, id: Option<Name>, w: World) returns (done: bool)
      requires k < |labels|
      modifies this
      ensures Pass(stack, k, id, TheSetup(w), old(Now())) == if done then Pass(stack, k + 1, id, TheSetup(w), Now()) else None
      decreases stack, 2, 0
    {
      var rule := LabelBlock(labels[k]);
      assert TheRules()[k] == rule;
      var woken := SearchRule(stack, rule, id);
      if woken.None? { return false; }
      done := true;
      if woken.value {
        var err;
        done, err := ApplyLabelBlock(stack, k, w);
      }
    }

    method ApplyTriggers(stack: nat, id: Option<Name>, w: World) returns (done: bool)
      modifies this
      ensures Pass(stack, |labels|, id, TheSetup(w), old(Now())) == if done then Some(Now()) else None
      decreases stack, 2, 1
    {
      hide Pass;
      var k := 0;
      while k < |triggers|
        invariant 0 <= k <= |triggers|
        invariant Pass(stack, |labels|, id, TheSetup(w), old(Now())) == Pass(stack, |labels| + k, id, TheSetup(w), Now())
      {
        var ok := WakeTrigger(stack, k, id, w);
        if !ok { return false; }
        k := k + 1;
      }
      NoRuleLeft(stack, id, TheSetup(w), Now());
      done := true;
    }

    method WakeTrigger(stack: nat, k: nat, id: Option<Name>, w: World) returns (done: bool)
      requires k < |triggers|
      modifies this
      ensures Pass(stack, |labels| + k, id, TheSetup(w), old(Now()))
           == if done then Pass(stack, |labels| + k + 1, id, TheSetup(w), Now()) else None
      decreases stack, 2, 0
    {
      var rule := triggers[k];
      assert TheRules()[|labels| + k] == rule;
      var woken := SearchRule(stack, rule, id);
      if woken.None? { return false; }
      done := true;
      if woken.value {
        var err;
        done, err := ApplyTrigger(stack, k, w);
      }
    }
  }

  lemma NoRuleLeft(depth: nat, id: Option<Name>, s: Setup, st: State)
    ensures Pass(depth, |s.rules|, id, s, st) == Some(st)
  {
  }

  lemma AnyRefSplits(d: nat, a: Expr, b: Expr, rest: seq<Expr>, id: Name, vars: Vars)
    ensures AnyRef(d, [a, b] + rest, id, vars)
         == Either(HaveRef(d, a, id, vars), Either(HaveRef(d, b, id, vars), AnyRef(d, rest, id, vars)))
  {
  }
}
