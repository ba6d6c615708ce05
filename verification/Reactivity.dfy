// Settled rules: those that would write no variable, and make only requests of a
// given set. A rule that the filter leaves out stays settled, and one that ran,
// with all the cascades it started, is settled afterwards.

module Reactivity {
  import opened Options
  import opened Exprs
  import opened Rules
  import opened Deeds
  import opened RequestSafety
  import opened Stratification

  // No variable is assigned by two rules, nor twice by one trigger.
  ghost predicate SingleWriter(g: Strata, rules: seq<Rule>) {
    && (forall i, j, t :: 0 <= i < j < |g.profiles| && t in g.profiles[i].targets && t in g.profiles[j].targets ==> t !in g.keys)
    && (forall i {:trigger WritesOnce(g, rules[i])} :: 0 <= i < |rules| ==> WritesOnce(g, rules[i]))
  }

  ghost predicate WritesOnce(g: Strata, r: Rule) {
    r.Trigger? ==>
      forall p, q :: 0 <= p < q < |r.ass| && r.ass[p].flagBit == 0 && r.ass[q].flagBit == 0 && r.ass[p].id == r.ass[q].id
        ==> r.ass[p].id !in g.keys
  }

  // The assignments that applying r would try.
  function Fired(d: nat, r: Rule, w: World, vars: Vars): seq<Assign> {
    match r
    case LabelBlock(entries) => BlockFired(d, 0, entries, w, vars)
    case Trigger(cond, ass) => if Holds(d, cond, w, vars) then ass else []
  }

  predicate Holds(d: nat, cond: Expr, w: World, vars: Vars) {
    var c := Eval(d, cond, w, vars);
    c.Some? && c.value.Value? && c.value.v != 0.0
  }

  function BlockFired(d: nat, i: nat, entries: seq<LabelEntry>, w: World, vars: Vars): seq<Assign>
    requires i <= |entries|
    decreases |entries| - i
  {
    if i == |entries| then []
    else if Eval(d, entries[i].cond, w, vars) == Some(Value(0.0)) then BlockFired(d, i + 1, entries, w, vars)
    else if Holds(d, entries[i].cond, w, vars) then [entries[i].ass]
    else []
  }

  // The requests of q, and those among ds.
  ghost function With(q: iset<Request>, ds: seq<Deed>): iset<Request> {
    iset r: Request | r in q || Ask(r) in ds
  }

  // Requests that are known: those of `base`, and those in the log.
  ghost function Known(base: iset<Request>, st: State): iset<Request> {
    With(base, DeedsOf(st.log))
  }

  // A request that was made stands until the point it is about changes. A pass for
  // no name is made after any change, and so none stands then.
  ghost function Standing(q: iset<Request>, id: Option<Name>): iset<Request> {
    iset r: Request | id.Some? && r in q && r.id != id.value
  }

  ghost const ANY: iset<Request> := iset r: Request | true

  // The assignment would write no variable, and make only requests of q.
  ghost predicate AssignSettled(d: nat, a: Assign, w: World, vars: Vars, q: iset<Request>) {
    && (a.flagBit == 0 && a.id !in w.outputs && a.id in vars ==> vars[a.id] == a.rval)
    && (RequestOf(d, a, w, vars).Some? ==> RequestOf(d, a, w, vars).value in q)
  }

  // So would applying r. With q = ANY it is only about variables, with q = iset{}
  // it means that r would do nothing.
  ghost predicate Settled(d: nat, r: Rule, w: World, vars: Vars, q: iset<Request>) {
    forall a :: a in Fired(d, r, w, vars) ==> AssignSettled(d, a, w, vars, q)
  }

  lemma KnownGrows(base: iset<Request>, st: State, st': State)
    requires st.log <= st'.log
    ensures Known(base, st) <= Known(base, st')
  {
    DeedsGrow(st.log, st'.log);
  }

  // ---------- what leaves a rule settled ----------

  // Two situations that differ in one name, as a value change or a rebinding does.
  ghost predicate DifferAt(id: Name, w: World, w': World, vars: Vars, vars': Vars) {
    && SameWorldBut(w, w', id) && w.outputs.Keys == w'.outputs.Keys && w.inputs.Keys == w'.inputs.Keys
    && SameBut(vars, vars', id) && vars.Keys == vars'.Keys
  }

  lemma AssignIgnores(d: nat, a: Assign, id: Name, w: World, w': World, vars: Vars, vars': Vars, q: iset<Request>)
    requires DifferAt(id, w, w', vars, vars') && HaveRef(d, a.rval, id, vars) == Some(false)
    requires a.id != id || (w == w' && (a.flagBit != 0 || vars == vars'))
    ensures RequestOf(d, a, w, vars) == RequestOf(d, a, w', vars')
    ensures AssignSettled(d, a, w, vars, q) == AssignSettled(d, a, w', vars', q)
  {
    EvalIgnores(d, d, a.rval, id, w, w', vars, vars');
  }

  // A rule that is not woken fires as before.
  lemma {:induction false} BlockFiresAlike(d: nat, i: nat, entries: seq<LabelEntry>, id: Name, w: World, w': World, vars: Vars, vars': Vars)
    requires i <= |entries| && DifferAt(id, w, w', vars, vars')
    requires AnyRef(d, EntryExprs(entries[i..]), id, vars) == Some(false)
    ensures BlockFired(d, i, entries, w, vars) == BlockFired(d, i, entries, w', vars')
    ensures forall a :: a in BlockFired(d, i, entries, w, vars) ==> HaveRef(d, a.rval, id, vars) == Some(false)
    decreases |entries| - i
  {
    if i < |entries| {
      assert entries[i..][1..] == entries[i + 1..];
      var rest := [entries[i].ass.rval] + EntryExprs(entries[i + 1..]);
      assert EntryExprs(entries[i..]) == [entries[i].cond] + rest;
      assert rest[1..] == EntryExprs(entries[i + 1..]);
      EvalIgnores(d, d, entries[i].cond, id, w, w', vars, vars');
      BlockFiresAlike(d, i + 1, entries, id, w, w', vars, vars');
    }
  }

  lemma {:induction false} AssignsNotReferring(d: nat, ass: seq<Assign>, id: Name, vars: Vars)
    requires AnyRef(d, AssignExprs(ass), id, vars) == Some(false)
    ensures forall a :: a in ass ==> HaveRef(d, a.rval, id, vars) == Some(false)
    decreases |ass|
  {
    if ass != [] {
      assert AssignExprs(ass)[1..] == AssignExprs(ass[1..]);
      AssignsNotReferring(d, ass[1..], id, vars);
    }
  }

  lemma FiresAlike(d: nat, r: Rule, id: Name, w: World, w': World, vars: Vars, vars': Vars)
    requires DifferAt(id, w, w', vars, vars') && Woken(d, r, Some(id), vars) == Some(false)
    ensures Fired(d, r, w, vars) == Fired(d, r, w', vars')
    ensures forall a :: a in Fired(d, r, w, vars) ==> HaveRef(d, a.rval, id, vars) == Some(false)
  {
    match r
    case LabelBlock(entries) =>
      assert entries[0..] == entries;
      BlockFiresAlike(d, 0, entries, id, w, w', vars, vars');
    case Trigger(cond, ass) =>
      assert RuleExprs(r)[1..] == AssignExprs(ass);
      AssignsNotReferring(d, ass, id, vars);
      EvalIgnores(d, d, cond, id, w, w', vars, vars');
  }

  // What r would set of id itself is settled at w'.
  ghost predicate OwnSettled(d: nat, r: Rule, id: Name, w': World, vars': Vars, q: iset<Request>) {
    forall a :: a in Fired(d, r, w', vars') && a.id == id ==> AssignSettled(d, a, w', vars', q)
  }

  // Rule r, which is not woken by a change of id, is settled after it exactly if it
  // was before, but for what it sets of id itself.
  lemma SettledIgnores(d: nat, r: Rule, id: Name, w: World, w': World, vars: Vars, vars': Vars, q: iset<Request>)
    requires DifferAt(id, w, w', vars, vars') && Woken(d, r, Some(id), vars) == Some(false)
    ensures Settled(d, r, w, vars, q) && OwnSettled(d, r, id, w', vars', q)
       <==> Settled(d, r, w', vars', q) && OwnSettled(d, r, id, w, vars, q)
  {
    FiresAlike(d, r, id, w, w', vars, vars');
    forall a | a in Fired(d, r, w, vars) && a.id != id
      ensures AssignSettled(d, a, w, vars, q) <==> AssignSettled(d, a, w', vars', q)
    {
      AssignIgnores(d, a, id, w, w', vars, vars', q);
    }
  }

  // With requests that stood before the change: what r would set of id itself must not
  // need any, for a request about id does not stand any more.
  lemma SettledStands(d: nat, r: Rule, id: Name, w: World, w': World, vars: Vars, q: iset<Request>)
    requires DifferAt(id, w, w', vars, vars) && Woken(d, r, Some(id), vars) == Some(false) && Settled(d, r, w, vars, q)
    ensures Settled(d, r, w', vars, Standing(q, Some(id))) <==> OwnSettled(d, r, id, w', vars, iset{})
  {
    FiresAlike(d, r, id, w, w', vars, vars);
    forall a | a in Fired(d, r, w', vars)
      ensures AssignSettled(d, a, w', vars, Standing(q, Some(id))) <==> a.id != id || AssignSettled(d, a, w', vars, iset{})
    {
      assert AssignSettled(d, a, w, vars, q);
      RequestIsAbout(d, a, w', vars);
      hide RequestOf;
      if a.id != id { AssignIgnores(d, a, id, w, w', vars, vars, q); }
    }
    hide AssignSettled;
  }

  lemma FiredAreAssigns(d: nat, r: Rule, w: World, vars: Vars)
    ensures forall a :: a in Fired(d, r, w, vars) && a.flagBit == 0 ==> a.id in Targets(r)
  {
    if r.LabelBlock? { BlockFiredIsEntry(d, 0, r.entries, w, vars); }
  }

  lemma {:induction false} BlockFiredIsEntry(d: nat, i: nat, entries: seq<LabelEntry>, w: World, vars: Vars)
    requires i <= |entries|
    ensures forall a :: a in BlockFired(d, i, entries, w, vars) ==> exists e :: e in entries && e.ass == a
    decreases |entries| - i
  {
    if i < |entries| { BlockFiredIsEntry(d, i + 1, entries, w, vars); }
  }

  // A write of t leaves settled every rule that neither refers to t nor assigns it.
  lemma SettledIgnoresWrite(d: nat, r: Rule, t: Name, w: World, vars: Vars, vars': Vars, q: iset<Request>)
    requires DifferAt(t, w, w, vars, vars') && Woken(d, r, Some(t), vars) == Some(false) && t !in Targets(r)
    requires Settled(d, r, w, vars, q)
    ensures Settled(d, r, w, vars', q)
  {
    SettledIgnores(d, r, t, w, w, vars, vars', q);
    FiresAlike(d, r, t, w, w, vars, vars');
    FiredAreAssigns(d, r, w, vars);
    forall a | a in Fired(d, r, w, vars') && a.id == t ensures AssignSettled(d, a, w, vars', q) {
      AssignIgnores(d, a, t, w, w, vars, vars', q);
    }
  }

  // ---------- a rule that ran is settled ----------

  ghost predicate LowSame(g: Strata, n: nat, vars: Vars, vars': Vars) {
    vars'.Keys == vars.Keys && forall y :: y in vars && y in g.rank && g.rank[y] < n ==> vars'[y] == vars[y]
  }

  // Only variables changed that rank no lower than some target of the rule.
  ghost predicate Undisturbed(g: Strata, p: Profile, vars: Vars, vars': Vars) {
    vars' == vars || exists t :: t in p.targets && t in g.keys && t in g.rank && LowSame(g, g.rank[t], vars, vars')
  }

  // Running a rule does not change what its own conditions evaluate to.
  lemma EvalUndisturbed(e: Expr, p: Profile, w: World, vars: Vars, vars': Vars, g: Strata)
    requires Stratified(g, vars) && RuleFits(g, p) && Undisturbed(g, p, vars, vars') && Mentions(e) <= p.names
    ensures Eval(g.bound, e, w, vars') == Eval(g.bound, e, w, vars)
  {
    if vars' != vars {
      var t :| t in p.targets && t in g.keys && t in g.rank && LowSame(g, g.rank[t], vars, vars');
      FittingIsRanked(g, vars);
      RefsAreMentioned(e);
      EvalAgrees(g.bound, g.rank[t], e, w, vars, vars', g.rank, g.bound);
    }
  }

  lemma SameAnswer(depth: nat, e: Expr, w: World, vars: Vars, g: Strata)
    requires Stratified(g, vars) && g.bound <= depth
    ensures Eval(depth, e, w, vars) == Eval(g.bound, e, w, vars) && Eval(depth, e, w, vars).Some?
  {
    ExprEnds(g.bound, e, w, vars, g);
    EvalMonotone(g.bound, depth, e, w, vars);
  }

  lemma CascadeSparesOne(g: Strata, rules: seq<Rule>, k: nat, t: Name, y: Name)
    requires Sound(g) && SingleWriter(g, rules) && k < |g.profiles|
    requires t in g.profiles[k].targets && t in g.keys && y in g.keys && Writable(g, y, g.rank[t] + 1)
    ensures g.rank[y] > g.rank[t] && y !in g.profiles[k].targets
  {
  }

  // A cascade started by writing t leaves alone what ranks up to t, and every
  // target of the rule that wrote t.
  lemma CascadeSpares(g: Strata, rules: seq<Rule>, k: nat, t: Name, vars: Vars, vars': Vars)
    requires Sound(g) && SingleWriter(g, rules) && vars.Keys == vars'.Keys == g.keys
    requires k < |g.profiles| && t in g.profiles[k].targets && t in g.keys
    requires Changes(g, g.rank[t] + 1, vars, vars')
    ensures LowSame(g, g.rank[t] + 1, vars, vars')
    ensures SameAt(g.keys * g.profiles[k].targets, vars, vars')
  {
    forall y | y in vars && vars'[y] != vars[y] ensures g.rank[y] > g.rank[t] && y !in g.profiles[k].targets {
      assert Writable(g, y, g.rank[t] + 1);
      CascadeSparesOne(g, rules, k, t, y);
    }
  }

  ghost predicate SameAt(names: set<Name>, vars: Vars, vars': Vars) {
    forall y :: y in names ==> y in vars && y in vars' && vars'[y] == vars[y]
  }

  // y is not assigned from position i on.
  ghost predicate NotAssigned(y: Name, i: nat, ass: seq<Assign>) {
    forall j :: i <= j < |ass| && ass[j].flagBit == 0 ==> ass[j].id != y
  }

  // The targets of a rule that the assignments from position i on leave alone.
  ghost function Spared(g: Strata, i: nat, ass: seq<Assign>, p: Profile): set<Name> {
    set y | y in g.keys && y in p.targets && NotAssigned(y, i, ass)
  }

  // What assigning a, as part of rule k, leads from st to.
  ghost predicate AssignDone(g: Strata, k: nat, a: Assign, w: World, base: iset<Request>, st: State, st': State)
    requires k < |g.profiles|
  {
    && st'.vars.Keys == st.vars.Keys && st.log <= st'.log
    && Undisturbed(g, g.profiles[k], st.vars, st'.vars)
    && AssignSettled(g.bound, a, w, st'.vars, Known(base, st'))
    && SameAt(Spared(g, 0, [a], g.profiles[k]), st.vars, st'.vars)
  }

  lemma WriteDone(a: Assign, k: nat, w: World, base: iset<Request>, st: State, st': State, g: Strata, rules: seq<Rule>)
    requires Stratified(g, st.vars) && SingleWriter(g, rules) && k < |g.profiles|
    requires a.flagBit == 0 && a.id !in w.outputs && a.id in g.profiles[k].targets && a.id in g.keys
    requires st'.vars.Keys == g.keys && st.log <= st'.log && Changes(g, Level(g, Some(a.id)), Written(a, st).vars, st'.vars)
    ensures AssignDone(g, k, a, w, base, st, st')
  {
    CascadeSpares(g, rules, k, a.id, Written(a, st).vars, st'.vars);
    assert LowSame(g, g.rank[a.id], st.vars, st'.vars);
    forall y | y in Spared(g, 0, [a], g.profiles[k]) ensures st'.vars[y] == st.vars[y] {
      assert [a][0].id != y;
    }
  }

  // An assignment that writes no variable has made its request.
  lemma RequestDone(depth: nat, a: Assign, k: nat, base: iset<Request>, s: Setup, st: State, g: Strata)
    requires Stratified(g, st.vars) && g.bound <= depth && k < |g.profiles| && !Writes(a, s, st)
    requires AssignApply(depth, a, s, st).Some?
    ensures AssignDone(g, k, a, s.world, base, st, AssignApply(depth, a, s, st).value.st)
  {
    var st' := AssignApply(depth, a, s, st).value.st;
    RequestDeeds(depth, a, s, st);
    NoWriteNoChange(depth, a, s, st);
    RequestAtBound(depth, a, s.world, st.vars, g);
    hide Stratified, AssignApply, RequestOf, DeedsOf;
    var request := RequestOf(g.bound, a, s.world, st.vars);
    assert request.Some? ==> Ask(request.value) in Asks(request);
    assert st'.vars == st.vars;
  }

  lemma NoWriteNoChange(depth: nat, a: Assign, s: Setup, st: State)
    requires AssignApply(depth, a, s, st).Some? && !Writes(a, s, st)
    ensures AssignApply(depth, a, s, st).value.st.vars == st.vars
  {
    hide WithBit, IsUsrBit, Eval, Pass;
  }

  lemma RequestAtBound(depth: nat, a: Assign, w: World, vars: Vars, g: Strata)
    requires Stratified(g, vars) && g.bound <= depth
    ensures RequestOf(depth, a, w, vars) == RequestOf(g.bound, a, w, vars)
  {
    hide Stratified, Eval, FlagRequest, IsUsrBit;
    SameAnswer(depth, a.rval, w, vars, g);
  }

  lemma AssignEffect(depth: nat, a: Assign, k: nat, n: nat, base: iset<Request>, s: Setup, st: State, g: Strata) returns (d: Done)
    requires Stratified(g, st.vars) && SingleWriter(g, s.rules) && Describes(g, s.rules) && g.bound <= depth
    requires k < |g.profiles| && MayRun(depth, g, g.profiles[k], n)
    requires Mentions(a.rval) <= g.profiles[k].names && (a.flagBit == 0 ==> a.id in g.profiles[k].targets)
    ensures AssignApply(depth, a, s, st) == Some(d) && Fits(g, d.st.vars)
    ensures AssignDone(g, k, a, s.world, base, st, d.st)
  {
    assert RuleFits(g, g.profiles[k]);
    d := AssignEnds(depth, a, g.profiles[k], n, s, st, g);
    if Writes(a, s, st) {
      AssignAdvances(depth, a, s, st);
      WriteDone(a, k, s.world, base, st, d.st, g, s.rules);
    } else {
      RequestDone(depth, a, k, base, s, st, g);
    }
  }

  lemma NoteDone(g: Strata, k: nat, a: Assign, w: World, base: iset<Request>, st: State, d: Done, event: Event)
    requires k < |g.profiles| && AssignDone(g, k, a, w, base, st, d.st)
    ensures AssignDone(g, k, a, w, base, st, Note(d, event))
  {
  }

  lemma {:induction false} BlockSettles(depth: nat, i: nat, k: nat, n: nat, base: iset<Request>, s: Setup, st: State, g: Strata)
    returns (end: Step)
    requires Stratified(g, st.vars) && SingleWriter(g, s.rules) && Describes(g, s.rules) && g.bound <= depth
    requires k < |s.rules| && g.profiles[k] == ProfileOf(s.rules[k]) && MayRun(depth, g, g.profiles[k], n)
    requires s.rules[k].LabelBlock? && i <= |s.rules[k].entries|
    ensures BlockApply(depth, i, s.rules[k].entries, s, st) == Some(end)
    ensures Undisturbed(g, g.profiles[k], st.vars, end.st.vars)
    ensures forall a :: a in BlockFired(g.bound, i, s.rules[k].entries, s.world, end.st.vars) ==>
              AssignSettled(g.bound, a, s.world, end.st.vars, Known(base, end.st))
    decreases |s.rules[k].entries| - i
  {
    var entries := s.rules[k].entries;
    if i == |entries| { return Step(st, None); }
    EntryMentions(i, entries);
    SameAnswer(depth, entries[i].cond, s.world, st.vars, g);
    var c := Eval(depth, entries[i].cond, s.world, st.vars).value;
    if c.Failed? { end := Step(st, Some(c.error)); }
    else if c.v == 0.0 { end := BlockSettles(depth, i + 1, k, n, base, s, st, g); }
    else {
      var ass := entries[i].ass;
      var d := AssignEffect(depth, ass, k, n, base, s, st, g);
      end := Step(Note(d, RuleTriggered(ass.id)), d.error);
      NoteDone(g, k, ass, s.world, base, st, d, RuleTriggered(ass.id));
    }
    EvalUndisturbed(entries[i].cond, g.profiles[k], s.world, st.vars, end.st.vars, g);
  }

  ghost predicate AllDone(g: Strata, k: nat, i: nat, ass: seq<Assign>, w: World, base: iset<Request>, st: State, st': State)
    requires k < |g.profiles|
  {
    && st'.vars.Keys == st.vars.Keys && st.log <= st'.log
    && Undisturbed(g, g.profiles[k], st.vars, st'.vars)
    && (forall j :: i <= j < |ass| ==> AssignSettled(g.bound, ass[j], w, st'.vars, Known(base, st')))
    && SameAt(Spared(g, i, ass, g.profiles[k]), st.vars, st'.vars)
  }

  // Later assignments of the rule do not unsettle x.
  lemma StaysDone(g: Strata, r: Rule, k: nat, i: nat, w: World, base: iset<Request>, a: State, b: State, c: State)
    requires k < |g.profiles| && r.Trigger? && i < |r.ass| && Stratified(g, b.vars) && WritesOnce(g, r)
    requires RuleFits(g, g.profiles[k]) && Mentions(r.ass[i].rval) <= g.profiles[k].names
    requires r.ass[i].flagBit == 0 ==> r.ass[i].id in g.profiles[k].targets
    requires AssignDone(g, k, r.ass[i], w, base, a, b) && AllDone(g, k, i + 1, r.ass, w, base, b, c)
    ensures AssignSettled(g.bound, r.ass[i], w, c.vars, Known(base, c))
  {
    var x := r.ass[i];
    EvalUndisturbed(x.rval, g.profiles[k], w, b.vars, c.vars, g);
    KnownGrows(base, b, c);
    if x.flagBit == 0 && x.id in g.keys {
      assert NotAssigned(x.id, i + 1, r.ass);
      assert x.id in Spared(g, i + 1, r.ass, g.profiles[k]);
    }
  }

  lemma AllDoneStep(g: Strata, r: Rule, k: nat, i: nat, w: World, base: iset<Request>, a: State, b: State, c: State)
    requires k < |g.profiles| && r.Trigger? && i < |r.ass| && a.vars.Keys == g.keys
    requires AssignSettled(g.bound, r.ass[i], w, c.vars, Known(base, c))
    requires AssignDone(g, k, r.ass[i], w, base, a, b) && AllDone(g, k, i + 1, r.ass, w, base, b, c)
    ensures AllDone(g, k, i, r.ass, w, base, a, c)
  {
  }

  lemma {:induction false} AssignAllSettles(depth: nat, i: nat, first: Option<Error>, k: nat, n: nat, base: iset<Request>,
                                            s: Setup, st: State, g: Strata)
    returns (end: Step)
    requires Stratified(g, st.vars) && SingleWriter(g, s.rules) && Describes(g, s.rules) && g.bound <= depth
    requires k < |s.rules| && g.profiles[k] == ProfileOf(s.rules[k]) && MayRun(depth, g, g.profiles[k], n)
    requires s.rules[k].Trigger? && i <= |s.rules[k].ass|
    ensures AssignAll(depth, i, s.rules[k].ass, first, s, st) == Some(end)
    ensures AllDone(g, k, i, s.rules[k].ass, s.world, base, st, end.st)
    decreases |s.rules[k].ass| - i
  {
    hide AssignDone, AllDone, MayRun, RuleFits, SingleWriter, AssignApply;
    var r := s.rules[k];
    if i == |r.ass| {
      NothingLeftIsDone(g, k, r.ass, s.world, base, st);
      return Step(st, first);
    }
    RuleIsFine(g, s.rules, k);
    TriggerMentions(r.cond, r.ass);
    AssignMentions(i, r.ass);
    var d := AssignEffect(depth, r.ass[i], k, n, base, s, st, g);
    var note := TriggerTriggered(r.ass[i].id);
    var st' := Note(d, note);
    NoteDone(g, k, r.ass[i], s.world, base, st, d, note);
    end := AssignAllSettles(depth, i + 1, if first.None? then d.error else first, k, n, base, s, st', g);
    StaysDone(g, r, k, i, s.world, base, st, st', end.st);
    AllDoneStep(g, r, k, i, s.world, base, st, st', end.st);
  }

  lemma RuleIsFine(g: Strata, rules: seq<Rule>, k: nat)
    requires Sound(g) && SingleWriter(g, rules) && Describes(g, rules) && k < |rules|
    ensures WritesOnce(g, rules[k]) && RuleFits(g, g.profiles[k])
  {
  }

  lemma NothingLeftIsDone(g: Strata, k: nat, ass: seq<Assign>, w: World, base: iset<Request>, st: State)
    requires k < |g.profiles| && g.keys <= st.vars.Keys
    ensures AllDone(g, k, |ass|, ass, w, base, st, st)
  {
  }

  // A rule that ran, with all its cascades, would now write no variable, and make no
  // request that is not made already.
  lemma RuleSettles(depth: nat, k: nat, n: nat, base: iset<Request>, s: Setup, st: State, g: Strata) returns (end: Step)
    requires Stratified(g, st.vars) && SingleWriter(g, s.rules) && Describes(g, s.rules) && g.bound <= depth
    requires k < |s.rules| && g.profiles[k] == ProfileOf(s.rules[k]) && MayRun(depth, g, g.profiles[k], n)
    ensures RuleApply(depth, s.rules[k], s, st) == Some(end)
    ensures Settled(g.bound, s.rules[k], s.world, end.st.vars, Known(base, end.st))
  {
    assert RuleFits(g, g.profiles[k]);
    match s.rules[k]
    case LabelBlock(entries) => end := BlockSettles(depth, 0, k, n, base, s, st, g);
    case Trigger(cond, ass) =>
      TriggerMentions(cond, ass);
      SameAnswer(depth, cond, s.world, st.vars, g);
      var c := Eval(depth, cond, s.world, st.vars).value;
      if c.Failed? { end := Step(st, Some(c.error)); }
      else if c.v == 0.0 { end := Step(st, None); }
      else {
        end := AssignAllSettles(depth, 0, None, k, n, base, s, st, g);
        EvalUndisturbed(cond, g.profiles[k], s.world, st.vars, end.st.vars, g);
      }
  }
}
