// When the cascade of passes ends. Rules are stratified if variables can be
// ranked so that each ranks above the variables named in its expression, and
// above those named anywhere in a rule that assigns it.

module Stratification {
  import opened Options
  import opened Exprs
  import opened Rules

  // What a rule names anywhere, and what it may assign a value to; flags are not values.
  datatype Profile = Profile(names: set<Name>, targets: set<Name>)

  function Targets(r: Rule): set<Name> {
    match r
    case LabelBlock(entries) => set e | e in entries && e.ass.flagBit == 0 :: e.ass.id
    case Trigger(_, ass) => set a | a in ass && a.flagBit == 0 :: a.id
  }

  function ProfileOf(r: Rule): Profile {
    Profile(MentionsOf(RuleExprs(r)), Targets(r))
  }

  // A ranking of the declared variables, for rules of given profiles.
  datatype Strata = Strata(profiles: seq<Profile>, keys: set<Name>, rank: map<Name, nat>, bound: nat)

  ghost predicate Describes(g: Strata, rules: seq<Rule>) {
    |g.profiles| == |rules| && forall i {:trigger ProfileOf(rules[i])} :: 0 <= i < |rules| ==> g.profiles[i] == ProfileOf(rules[i])
  }

  ghost predicate Sound(g: Strata) {
    && (forall x :: x in g.keys ==> x in g.rank && g.rank[x] < g.bound)
    && (forall i :: 0 <= i < |g.profiles| ==> RuleFits(g, g.profiles[i]))
  }

  ghost predicate RuleFits(g: Strata, p: Profile) {
    forall t :: t in p.targets && t in g.keys ==> t in g.rank && Below(p.names, g.keys, g.rank, g.rank[t])
  }

  ghost predicate Fits(g: Strata, vars: Vars) {
    && vars.Keys == g.keys
    && (forall x :: x in vars ==> x in g.rank && Below(Mentions(vars[x]), g.keys, g.rank, g.rank[x]))
  }

  // Rules and variables are stratified by g if g describes the rules as well.
  ghost predicate Stratified(g: Strata, vars: Vars) {
    Sound(g) && Fits(g, vars)
  }

  lemma FittingIsRanked(g: Strata, vars: Vars)
    requires Stratified(g, vars)
    ensures Ranked(vars, g.rank, g.bound)
  {
    forall x | x in vars ensures Below(Refs(vars[x]), vars.Keys, g.rank, g.rank[x]) { RefsAreMentioned(vars[x]); }
  }

  // ---------- the parts of a rule ----------

  lemma {:induction false} EntryMentions(i: nat, entries: seq<LabelEntry>)
    requires i < |entries|
    ensures Mentions(entries[i].cond) + Mentions(entries[i].ass.rval) <= MentionsOf(EntryExprs(entries))
    decreases i
  {
    var rest := EntryExprs(entries[1..]);
    MentionsSplit([entries[0].cond, entries[0].ass.rval], rest);
    assert [entries[0].cond, entries[0].ass.rval][1..] == [entries[0].ass.rval];
    if i > 0 { EntryMentions(i - 1, entries[1..]); }
  }

  lemma {:induction false} AssignMentions(i: nat, ass: seq<Assign>)
    requires i < |ass|
    ensures Mentions(ass[i].rval) <= MentionsOf(AssignExprs(ass))
    decreases i
  {
    MentionsSplit([ass[0].rval], AssignExprs(ass[1..]));
    if i > 0 { AssignMentions(i - 1, ass[1..]); }
  }

  lemma {:induction false} MentionsSplit(a: seq<Expr>, b: seq<Expr>)
    ensures MentionsOf(a + b) == MentionsOf(a) + MentionsOf(b)
    decreases a
  {
    if a == [] { assert a + b == b; }
    else {
      assert (a + b)[1..] == a[1..] + b;
      MentionsSplit(a[1..], b);
    }
  }

  lemma TriggerMentions(cond: Expr, ass: seq<Assign>)
    ensures MentionsOf(RuleExprs(Trigger(cond, ass))) == Mentions(cond) + MentionsOf(AssignExprs(ass))
  {
  }

  // ---------- who is woken ----------

  // A rule that depends on a variable names a variable that ranks at least as high.
  lemma {:induction false} PathTop(p: seq<Name>, e: Expr, x: Name, vars: Vars, g: Strata) returns (m: Name)
    requires Reaches(p, e, x, vars) && x in vars && Stratified(g, vars)
    ensures m in Mentions(e) && m in vars && g.rank[m] >= g.rank[x]
    decreases p
  {
    if p == [] { m := x; }
    else {
      RefsAreMentioned(e);
      m := p[0];
      var below := PathTop(p[1..], vars[m], x, vars, g);
    }
  }

  lemma {:induction false} WokenNames(d: nat, es: seq<Expr>, x: Name, vars: Vars, g: Strata) returns (m: Name)
    requires AnyRef(d, es, x, vars) == Some(true) && x in vars && Stratified(g, vars)
    ensures m in MentionsOf(es) && m in vars && g.rank[m] >= g.rank[x]
    decreases es
  {
    if HaveRef(d, es[0], x, vars) == Some(true) {
      var p := SearchFindsPath(d, es[0], x, vars);
      m := PathTop(p, es[0], x, vars, g);
    } else {
      m := WokenNames(d, es[1..], x, vars, g);
    }
  }

  // ---------- what a pass may write ----------

  // The rule names a variable of rank n - 1 or more; level 0 asks for nothing.
  ghost predicate NamesLevel(g: Strata, p: Profile, n: nat) {
    n > 0 ==> exists m :: m in p.names && m in g.keys && m in g.rank && g.rank[m] + 1 >= n
  }

  ghost predicate Writable(g: Strata, y: Name, n: nat) {
    exists k :: 0 <= k < |g.profiles| && y in g.profiles[k].targets && NamesLevel(g, g.profiles[k], n)
  }

  // From vars to vars' only variables changed that a rule naming level n assigns.
  ghost predicate Changes(g: Strata, n: nat, vars: Vars, vars': Vars) {
    forall y {:trigger Writable(g, y, n)} :: y in vars && y in vars' && vars'[y] != vars[y] ==> Writable(g, y, n)
  }

  lemma WritableFromAbove(g: Strata, y: Name, n: nat, n': nat)
    requires Writable(g, y, n') && n <= n'
    ensures Writable(g, y, n)
  {
  }

  // A pass for x wakes rules that name level rank[x] + 1.
  function Level(g: Strata, id: Option<Name>): nat {
    if id.Some? && id.value in g.keys && id.value in g.rank then g.rank[id.value] + 1 else 0
  }

  // What the end of a step promises for the next one.
  ghost predicate Keeps(g: Strata, n: nat, st: State, st': State) {
    Fits(g, st'.vars) && Changes(g, n, st.vars, st'.vars)
  }

  lemma KeepsTransitively(g: Strata, n: nat, a: State, b: State, c: State)
    requires Fits(g, a.vars) && Keeps(g, n, a, b) && Keeps(g, n, b, c)
    ensures Keeps(g, n, a, c)
  {
  }

  // ---------- enough stack always suffices ----------

  // The nesting that a pass at level n may still need, besides look-ups.
  function Need(g: Strata, n: nat): nat {
    if n == 0 then g.bound + 1 else if n <= g.bound then g.bound + 1 - n else 0
  }

  // The rule may run at this depth in a pass of level n.
  ghost predicate MayRun(depth: nat, g: Strata, p: Profile, n: nat) {
    forall t {:trigger Writable(g, t, n)} :: t in p.targets && t in g.keys ==>
      t in g.rank && depth >= g.bound + Need(g, g.rank[t] + 1) + 1 && n <= g.rank[t] + 1 && Writable(g, t, n)
  }

  lemma ExprEnds(depth: nat, e: Expr, w: World, vars: Vars, g: Strata)
    requires Stratified(g, vars) && g.bound <= depth
    ensures Eval(depth, e, w, vars).Some?
  {
    FittingIsRanked(g, vars);
    EvalEnds(g.bound, e, w, vars, g.rank, g.bound);
    EvalMonotone(g.bound, depth, e, w, vars);
  }

  lemma SearchOfRuleEnds(depth: nat, r: Rule, id: Option<Name>, vars: Vars, g: Strata)
    requires Stratified(g, vars) && g.bound <= depth
    ensures Woken(depth, r, id, vars).Some?
  {
    if id.Some? {
      FittingIsRanked(g, vars);
      AnySearchEnds(g.bound, RuleExprs(r), id.value, vars, g.rank, g.bound);
      AnyRefMonotone(g.bound, depth, RuleExprs(r), id.value, vars);
    }
  }

  lemma WriteKeeps(a: Assign, p: Profile, g: Strata, n: nat, st: State)
    requires Stratified(g, st.vars) && RuleFits(g, p) && a.id in p.targets && a.id in g.keys
    requires Mentions(a.rval) <= p.names && Writable(g, a.id, n)
    ensures Keeps(g, n, st, Written(a, st))
  {
  }

  // The writes of the nested pass, seen from the pass that made the first write.
  lemma CascadeKeeps(a: Assign, g: Strata, n: nat, m: nat, st: State, st': State)
    requires Fits(g, st.vars) && a.id in g.keys && n <= m
    requires Keeps(g, n, st, Written(a, st)) && Keeps(g, m, Written(a, st), st')
    ensures Keeps(g, n, st, st')
  {
    var vars := Written(a, st).vars;
    forall y | y in vars && y in st'.vars && st'.vars[y] != vars[y] ensures Writable(g, y, n) {
      WritableFromAbove(g, y, n, m);
    }
    KeepsTransitively(g, n, st, Written(a, st), st');
  }

  lemma RequestKeepsVars(depth: nat, a: Assign, s: Setup, st: State) returns (d: Done)
    requires !Writes(a, s, st)
    requires Eval(depth, a.rval, s.world, st.vars).Some?
    ensures AssignApply(depth, a, s, st) == Some(d) && d.st.vars == st.vars
  {
    d := AssignApply(depth, a, s, st).value;
  }

  lemma {:induction false} AssignEnds(depth: nat, a: Assign, p: Profile, n: nat, s: Setup, st: State, g: Strata) returns (d: Done)
    requires Stratified(g, st.vars) && Describes(g, s.rules) && g.bound <= depth
    requires RuleFits(g, p) && MayRun(depth, g, p, n)
    requires Mentions(a.rval) <= p.names && (a.flagBit == 0 ==> a.id in p.targets)
    ensures AssignApply(depth, a, s, st) == Some(d) && Keeps(g, n, st, d.st)
    ensures Writes(a, s, st) ==> Keeps(g, Level(g, Some(a.id)), Written(a, st), d.st)
    ensures !Writes(a, s, st) ==> d.st.vars == st.vars
    decreases depth, 0
  {
    if Writes(a, s, st) {
      TargetMayRun(depth, g, p, n, a.id);
      WriteKeeps(a, p, g, n, st);
      var end := PassEnds(depth - 1, 0, Some(a.id), s, Written(a, st), g);
      CascadeKeeps(a, g, n, Level(g, Some(a.id)), st, end);
      d := Done(end, true, None);
    } else {
      ExprEnds(depth, a.rval, s.world, st.vars, g);
      d := RequestKeepsVars(depth, a, s, st);
    }
  }

  lemma TargetMayRun(depth: nat, g: Strata, p: Profile, n: nat, t: Name)
    requires MayRun(depth, g, p, n) && t in p.targets && t in g.keys
    ensures t in g.rank && n <= g.rank[t] + 1 && Writable(g, t, n)
    ensures Level(g, Some(t)) == g.rank[t] + 1 && depth >= 1 + g.bound + Need(g, Level(g, Some(t)))
  {
    assert Writable(g, t, n);
  }

  lemma {:induction false} BlockEnds(depth: nat, i: nat, r: Rule, n: nat, s: Setup, st: State, g: Strata) returns (end: Step)
    requires r.LabelBlock? && i <= |r.entries|
    requires Stratified(g, st.vars) && Describes(g, s.rules) && g.bound <= depth
    requires RuleFits(g, ProfileOf(r)) && MayRun(depth, g, ProfileOf(r), n)
    ensures BlockApply(depth, i, r.entries, s, st) == Some(end) && Keeps(g, n, st, end.st)
    decreases depth, 1, |r.entries| - i
  {
    if i == |r.entries| { return Step(st, None); }
    var entry := r.entries[i];
    ExprEnds(depth, entry.cond, s.world, st.vars, g);
    var c := Eval(depth, entry.cond, s.world, st.vars).value;
    if c.Failed? { end := Step(st, Some(c.error)); }
    else if c.v == 0.0 { end := BlockEnds(depth, i + 1, r, n, s, st, g); }
    else {
      EntryMentions(i, r.entries);
      var d := AssignEnds(depth, entry.ass, ProfileOf(r), n, s, st, g);
      end := Step(Note(d, RuleTriggered(entry.ass.id)), d.error);
    }
  }

  lemma {:induction false} AssignAllEnds(depth: nat, i: nat, r: Rule, first: Option<Error>, n: nat, s: Setup, st: State, g: Strata)
    returns (end: Step)
    requires r.Trigger? && i <= |r.ass|
    requires Stratified(g, st.vars) && Describes(g, s.rules) && g.bound <= depth
    requires RuleFits(g, ProfileOf(r)) && MayRun(depth, g, ProfileOf(r), n)
    ensures AssignAll(depth, i, r.ass, first, s, st) == Some(end) && Keeps(g, n, st, end.st)
    decreases depth, 1, |r.ass| - i
  {
    if i == |r.ass| { return Step(st, first); }
    TriggerMentions(r.cond, r.ass);
    AssignMentions(i, r.ass);
    var d := AssignEnds(depth, r.ass[i], ProfileOf(r), n, s, st, g);
    var st' := Note(d, TriggerTriggered(r.ass[i].id));
    end := AssignAllEnds(depth, i + 1, r, if first.None? then d.error else first, n, s, st', g);
    KeepsTransitively(g, n, st, st', end.st);
  }

  lemma {:induction false} RuleEnds(depth: nat, r: Rule, n: nat, s: Setup, st: State, g: Strata) returns (end: Step)
    requires Stratified(g, st.vars) && Describes(g, s.rules) && g.bound <= depth
    requires RuleFits(g, ProfileOf(r)) && MayRun(depth, g, ProfileOf(r), n)
    ensures RuleApply(depth, r, s, st) == Some(end) && Keeps(g, n, st, end.st)
    decreases depth, 2
  {
    match r
    case LabelBlock(entries) => end := BlockEnds(depth, 0, r, n, s, st, g);
    case Trigger(cond, ass) =>
      ExprEnds(depth, cond, s.world, st.vars, g);
      var c := Eval(depth, cond, s.world, st.vars).value;
      if c.Failed? { end := Step(st, Some(c.error)); }
      else if c.v == 0.0 { end := Step(st, None); }
      else { end := AssignAllEnds(depth, 0, r, None, n, s, st, g); }
  }

  // A woken rule may run: its targets rank above the name that woke it.
  lemma WokenMayRun(depth: nat, r: Rule, k: nat, id: Option<Name>, vars: Vars, g: Strata)
    requires Stratified(g, vars) && k < |g.profiles| && g.profiles[k] == ProfileOf(r)
    requires Woken(depth, r, id, vars) == Some(true)
    requires depth >= g.bound + Need(g, Level(g, id))
    ensures RuleFits(g, g.profiles[k]) && MayRun(depth, g, g.profiles[k], Level(g, id))
  {
    var n := Level(g, id);
    assert RuleFits(g, g.profiles[k]);
    if n > 0 {
      var m := WokenNames(depth, RuleExprs(r), id.value, vars, g);
      assert m in g.profiles[k].names && g.rank[m] + 1 >= n;
    }
    assert NamesLevel(g, g.profiles[k], n);
    forall t | t in g.profiles[k].targets && t in g.keys
      ensures t in g.rank && depth >= g.bound + Need(g, g.rank[t] + 1) + 1 && n <= g.rank[t] + 1 && Writable(g, t, n)
    {
      assert Below(g.profiles[k].names, g.keys, g.rank, g.rank[t]);
    }
  }

  lemma {:induction false} PassEnds(depth: nat, i: nat, id: Option<Name>, s: Setup, st: State, g: Strata) returns (end: State)
    requires i <= |s.rules| && Stratified(g, st.vars) && Describes(g, s.rules)
    requires depth >= g.bound + Need(g, Level(g, id))
    ensures Pass(depth, i, id, s, st) == Some(end) && Keeps(g, Level(g, id), st, end)
    decreases depth, 3, |s.rules| - i
  {
    if i == |s.rules| { return st; }
    SearchOfRuleEnds(depth, s.rules[i], id, st.vars, g);
    if !Woken(depth, s.rules[i], id, st.vars).value { end := PassEnds(depth, i + 1, id, s, st, g); }
    else {
      assert g.profiles[i] == ProfileOf(s.rules[i]);
      WokenMayRun(depth, s.rules[i], i, id, st.vars, g);
      var step := RuleEnds(depth, s.rules[i], Level(g, id), s, st, g);
      end := PassEnds(depth, i + 1, id, s, step.st, g);
      KeepsTransitively(g, Level(g, id), st, step.st, end);
    }
  }

  // ---------- whole runs ----------

  // The core's main loop: some cached points change, and a pass runs for one name
  // or, after a peer became ready, for none.
  datatype Stimulus = Stimulus(world: World, id: Option<Name>)

  function Run(depth: nat, rules: seq<Rule>, stimuli: seq<Stimulus>, replies: nat -> bool, st: State): Option<State>
    decreases |stimuli|
  {
    if stimuli == [] then Some(st)
    else
      var st' := Pass(depth, 0, stimuli[0].id, Setup(rules, stimuli[0].world, replies), st);
      if st'.None? then None else Run(depth, rules, stimuli[1..], replies, st'.value)
  }

  // Stratified rules never diverge, in no run, and stay stratified: nesting
  // 2 * bound + 1 deep is enough whatever the stimuli and the answers are.
  lemma {:induction false} StratifiedRunsEnd(g: Strata, depth: nat, rules: seq<Rule>, stimuli: seq<Stimulus>, replies: nat -> bool, st: State)
    returns (end: State)
    requires Stratified(g, st.vars) && Describes(g, rules) && depth >= 2 * g.bound + 1
    ensures Run(depth, rules, stimuli, replies, st) == Some(end) && Stratified(g, end.vars)
    decreases |stimuli|
  {
    if stimuli == [] { return st; }
    var s := Setup(rules, stimuli[0].world, replies);
    var st' := PassEnds(depth, 0, stimuli[0].id, s, st, g);
    end := StratifiedRunsEnd(g, depth, rules, stimuli[1..], replies, st');
  }

  // A run that returns is the same at every greater depth.
  lemma {:induction false} RunMonotone(d: nat, d': nat, rules: seq<Rule>, stimuli: seq<Stimulus>, replies: nat -> bool, st: State)
    requires d <= d' && Run(d, rules, stimuli, replies, st).Some?
    ensures Run(d', rules, stimuli, replies, st) == Run(d, rules, stimuli, replies, st)
    decreases |stimuli|
  {
    if stimuli != [] {
      var s := Setup(rules, stimuli[0].world, replies);
      PassMonotone(d, d', 0, stimuli[0].id, s, st);
      RunMonotone(d, d', rules, stimuli[1..], replies, Pass(d, 0, stimuli[0].id, s, st).value);
    }
  }
}
