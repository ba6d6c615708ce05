// The rules engine of src/engine.c as functions on values: what one pass over
// the rules does to the variable table, which requests it sends to peers, and
// how a variable write re-enters the engine before the pass goes on
// (src/var.c, src/main.c).
//
// The points cached for inputs and outputs do not change while a pass runs: a
// peer's answer arrives later as a signal.

module Rules {
  import opened Options
  import opened Exprs

  const MANUAL_OVERRIDE: bv64 := 0x1
  const NO_HISTORY: bv64 := 0x2
  const USR1: bv64 := 0x1000_0000_0000_0000
  const USR2: bv64 := 0x2000_0000_0000_0000
  const USR3: bv64 := 0x4000_0000_0000_0000
  const USR4: bv64 := 0x8000_0000_0000_0000
  const USR_MASK: bv64 := 0xF000_0000_0000_0000

  predicate IsUsrBit(bit: bv64) {
    bit != 0 && bit & USR_MASK == bit && bit & (bit - 1) == 0
  }

  // flagBit 0 assigns a value or an expression; otherwise that flag is written.
  datatype Assign = Assign(id: Name, rval: Expr, flagBit: bv64)
  datatype LabelEntry = LabelEntry(cond: Expr, ass: Assign)
  datatype Rule =
    | LabelBlock(entries: seq<LabelEntry>)
    | Trigger(cond: Expr, ass: seq<Assign>)

  type TriggerRule = r: Rule | r.Trigger? witness Trigger(Literal(0.0), [])

  datatype Request =
    | SetOutput(id: Name, val: real, flags: bv64)
    | SetInput(id: Name, val: real, flags: bv64)

  datatype Event =
    | Sent(request: Request, accepted: bool)
    | VarChanged(id: Name, value: Expr)
    | RuleTriggered(dest: Name)
    | TriggerTriggered(dest: Name)

  datatype State = State(vars: Vars, log: seq<Event>)

  // rules are the label blocks followed by the triggers. replies is what peers
  // answer, indexed by the position of the request in the log.
  datatype Setup = Setup(rules: seq<Rule>, world: World, replies: nat -> bool)

  // The outcome of an assignment: whether it changed anything, or the error.
  datatype Done = Done(st: State, applied: bool, error: Option<Error>)
  datatype Step = Step(st: State, error: Option<Error>)

  function Send(request: Request, s: Setup, st: State): Done {
    var accepted := s.replies(|st.log|);
    var st' := st.(log := st.log + [Sent(request, accepted)]);
    if accepted then Done(st', true, None) else Done(st', false, Some(InvalidValue))
  }

  function WithBit(flags: bv64, bit: bv64, on: bool): bv64 {
    if on then flags | bit else flags & !bit
  }

  // A flag request repeats the cached value; it is not sent if it would change nothing.
  function SendFlag(output: bool, p: Point, a: Assign, on: bool, s: Setup, st: State): Done {
    var flags := WithBit(p.flags, a.flagBit, on);
    if flags == p.flags then Done(st, false, None)
    else Send(if output then SetOutput(a.id, p.val, flags) else SetInput(a.id, p.val, flags), s, st)
  }

  function AssignFlag(depth: nat, a: Assign, s: Setup, st: State): Option<Done> {
    if !IsUsrBit(a.flagBit) then Some(Done(st, false, None))
    else
      var x := Eval(depth, a.rval, s.world, st.vars);
      if x.None? then None
      else if x.value.Failed? then Some(Done(st, false, Some(x.value.error)))
      else if a.id in s.world.outputs then
        Some(SendFlag(true, s.world.outputs[a.id], a, x.value.v != 0.0, s, st))
      else if a.id in s.world.inputs then
        Some(SendFlag(false, s.world.inputs[a.id], a, x.value.v != 0.0, s, st))
      else Some(Done(st, false, Some(UndefinedIdentifier(a.id))))
  }

  function AssignOutput(depth: nat, a: Assign, s: Setup, st: State): Option<Done>
    requires a.id in s.world.outputs
  {
    var x := Eval(depth, a.rval, s.world, st.vars);
    var p := s.world.outputs[a.id];
    if x.None? then None
    else if x.value.Failed? then Some(Done(st, false, Some(x.value.error)))
    else if p.val == x.value.v || p.flags & MANUAL_OVERRIDE != 0 then Some(Done(st, false, None))
    else Some(Send(SetOutput(a.id, x.value.v, p.flags), s, st))
  }

  // A variable keeps the expression itself. A write of an equal expression is
  // suppressed; any other write runs the rules that refer to the variable before
  // the assignment returns.
  function AssignApply(depth: nat, a: Assign, s: Setup, st: State): Option<Done>
    decreases depth, 0
  {
    if a.flagBit != 0 then AssignFlag(depth, a, s, st)
    else if a.id in s.world.outputs then AssignOutput(depth, a, s, st)
    else if a.id in st.vars then
      if st.vars[a.id] == a.rval then Some(Done(st, false, None))
      else if depth == 0 then None
      else
        var st' := Pass(depth - 1, 0, Some(a.id), s, Written(a, st));
        if st'.None? then None else Some(Done(st'.value, true, None))
    else Some(Done(st, false, Some(UndefinedIdentifier(a.id))))
  }

  function Written(a: Assign, st: State): State {
    State(st.vars[a.id := a.rval], st.log + [VarChanged(a.id, a.rval)])
  }

  // The assignment writes a variable, and the write is not suppressed.
  predicate Writes(a: Assign, s: Setup, st: State) {
    a.flagBit == 0 && a.id !in s.world.outputs && a.id in st.vars && st.vars[a.id] != a.rval
  }

  function Note(d: Done, event: Event): State {
    if d.applied then d.st.(log := d.st.log + [event]) else d.st
  }

  // From entry i on, the first true condition decides; a failing one ends the block.
  function BlockApply(depth: nat, i: nat, entries: seq<LabelEntry>, s: Setup, st: State): Option<Step>
    requires i <= |entries|
    decreases depth, 1, |entries| - i
  {
    if i == |entries| then Some(Step(st, None))
    else
      var c := Eval(depth, entries[i].cond, s.world, st.vars);
      if c.None? then None
      else if c.value.Failed? then Some(Step(st, Some(c.value.error)))
      else if c.value.v == 0.0 then BlockApply(depth, i + 1, entries, s, st)
      else
        var d := AssignApply(depth, entries[i].ass, s, st);
        if d.None? then None
        else Some(Step(Note(d.value, RuleTriggered(entries[i].ass.id)), d.value.error))
  }

  // Every assignment is tried; the first error is the one reported.
  function AssignAll(depth: nat, i: nat, ass: seq<Assign>, first: Option<Error>, s: Setup, st: State): Option<Step>
    requires i <= |ass|
    decreases depth, 1, |ass| - i
  {
    if i == |ass| then Some(Step(st, first))
    else
      var d := AssignApply(depth, ass[i], s, st);
      if d.None? then None
      else
        AssignAll(depth, i + 1, ass, if first.None? then d.value.error else first, s,
                  Note(d.value, TriggerTriggered(ass[i].id)))
  }

  function RuleApply(depth: nat, r: Rule, s: Setup, st: State): Option<Step>
    decreases depth, 2
  {
    match r
    case LabelBlock(entries) => BlockApply(depth, 0, entries, s, st)
    case Trigger(cond, ass) =>
      var c := Eval(depth, cond, s.world, st.vars);
      if c.None? then None
      else if c.value.Failed? then Some(Step(st, Some(c.value.error)))
      else if c.value.v == 0.0 then Some(Step(st, None))
      else AssignAll(depth, 0, ass, None, s, st)
  }

  // The expressions of a rule, in the order in which they are searched.
  function EntryExprs(entries: seq<LabelEntry>): seq<Expr> {
    if entries == [] then []
    else [entries[0].cond, entries[0].ass.rval] + EntryExprs(entries[1..])
  }

  function AssignExprs(ass: seq<Assign>): seq<Expr> {
    if ass == [] then [] else [ass[0].rval] + AssignExprs(ass[1..])
  }

  function RuleExprs(r: Rule): seq<Expr> {
    match r
    case LabelBlock(entries) => EntryExprs(entries)
    case Trigger(cond, ass) => [cond] + AssignExprs(ass)
  }

  // No name means that every rule runs: start-up, or a peer that became ready.
  function Woken(depth: nat, r: Rule, id: Option<Name>, vars: Vars): Option<bool> {
    if id.None? then Some(true) else AnyRef(depth, RuleExprs(r), id.value, vars)
  }

  // engine_apply from rule i on. A rule that fails is reported and left behind.
  function Pass(depth: nat, i: nat, id: Option<Name>, s: Setup, st: State): Option<State>
    requires i <= |s.rules|
    decreases depth, 3, |s.rules| - i
  {
    if i == |s.rules| then Some(st)
    else
      var woken := Woken(depth, s.rules[i], id, st.vars);
      if woken.None? then None
      else if !woken.value then Pass(depth, i + 1, id, s, st)
      else
        var step := RuleApply(depth, s.rules[i], s, st);
        if step.None? then None else Pass(depth, i + 1, id, s, step.value.st)
  }

  // The value or flags of id changed; all other points, and what exists, are the same.
  ghost predicate PointUpdated(id: Name, w: World, w': World) {
    SameWorldBut(w, w', id) && w'.outputs.Keys == w.outputs.Keys && w'.inputs.Keys == w.inputs.Keys
  }

  // ---------- more nesting changes nothing ----------

  lemma FlagMonotone(d: nat, d': nat, a: Assign, s: Setup, st: State)
    requires d <= d' && AssignFlag(d, a, s, st).Some?
    ensures AssignFlag(d', a, s, st) == AssignFlag(d, a, s, st)
  {
    if IsUsrBit(a.flagBit) { EvalMonotone(d, d', a.rval, s.world, st.vars); }
  }

  lemma {:induction false} AssignMonotone(d: nat, d': nat, a: Assign, s: Setup, st: State)
    requires d <= d' && AssignApply(d, a, s, st).Some?
    ensures AssignApply(d', a, s, st) == AssignApply(d, a, s, st)
    decreases d, 0
  {
    if a.flagBit != 0 { FlagMonotone(d, d', a, s, st); }
    else if a.id in s.world.outputs { EvalMonotone(d, d', a.rval, s.world, st.vars); }
    else if Writes(a, s, st) { PassMonotone(d - 1, d' - 1, 0, Some(a.id), s, Written(a, st)); }
  }

  lemma {:induction false} BlockMonotone(d: nat, d': nat, i: nat, entries: seq<LabelEntry>, s: Setup, st: State)
    requires i <= |entries| && d <= d' && BlockApply(d, i, entries, s, st).Some?
    ensures BlockApply(d', i, entries, s, st) == BlockApply(d, i, entries, s, st)
    decreases d, 1, |entries| - i
  {
    if i < |entries| {
      EvalMonotone(d, d', entries[i].cond, s.world, st.vars);
      var c := Eval(d, entries[i].cond, s.world, st.vars).value;
      if c.Value? && c.v == 0.0 { BlockMonotone(d, d', i + 1, entries, s, st); }
      if c.Value? && c.v != 0.0 { AssignMonotone(d, d', entries[i].ass, s, st); }
    }
  }

  lemma {:induction false} AssignAllMonotone(d: nat, d': nat, i: nat, ass: seq<Assign>, first: Option<Error>, s: Setup, st: State)
    requires i <= |ass| && d <= d' && AssignAll(d, i, ass, first, s, st).Some?
    ensures AssignAll(d', i, ass, first, s, st) == AssignAll(d, i, ass, first, s, st)
    decreases d, 1, |ass| - i
  {
    if i < |ass| {
      AssignMonotone(d, d', ass[i], s, st);
      var done := AssignApply(d, ass[i], s, st).value;
      AssignAllMonotone(d, d', i + 1, ass, if first.None? then done.error else first, s, Note(done, TriggerTriggered(ass[i].id)));
    }
  }

  lemma {:induction false} RuleMonotone(d: nat, d': nat, r: Rule, s: Setup, st: State)
    requires d <= d' && RuleApply(d, r, s, st).Some?
    ensures RuleApply(d', r, s, st) == RuleApply(d, r, s, st)
    decreases d, 2
  {
    match r
    case LabelBlock(entries) => BlockMonotone(d, d', 0, entries, s, st);
    case Trigger(cond, ass) =>
      EvalMonotone(d, d', cond, s.world, st.vars);
      var c := Eval(d, cond, s.world, st.vars).value;
      if c.Value? && c.v != 0.0 { AssignAllMonotone(d, d', 0, ass, None, s, st); }
  }

  // A pass that returns does the same with any more nesting available: what it does
  // is one thing, whatever the depth at which it is looked at.
  lemma {:induction false} PassMonotone(d: nat, d': nat, i: nat, id: Option<Name>, s: Setup, st: State)
    requires i <= |s.rules| && d <= d' && Pass(d, i, id, s, st).Some?
    ensures Pass(d', i, id, s, st) == Pass(d, i, id, s, st)
    decreases d, 3, |s.rules| - i
  {
    if i < |s.rules| {
      if id.Some? { AnyRefMonotone(d, d', RuleExprs(s.rules[i]), id.value, st.vars); }
      if !Woken(d, s.rules[i], id, st.vars).value { PassMonotone(d, d', i + 1, id, s, st); }
      else {
        RuleMonotone(d, d', s.rules[i], s, st);
        PassMonotone(d, d', i + 1, id, s, RuleApply(d, s.rules[i], s, st).value.st);
      }
    }
  }
}
