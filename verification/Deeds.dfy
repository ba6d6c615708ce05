// What a pass does, apart from the answers it gets: the variables it writes and
// the requests it makes, in order. Neither depends on the peers' answers or on
// anything that was logged before.

module Deeds {
  import opened Options
  import opened Exprs
  import opened Rules

  datatype Deed = Ask(request: Request) | Write(binding: Binding)

  function DeedsOf(log: seq<Event>): seq<Deed> {
    if log == [] then []
    else DeedsOf(log[..|log| - 1]) + DeedOf(log[|log| - 1])
  }

  function DeedOf(event: Event): seq<Deed> {
    match event
    case Sent(request, _) => [Ask(request)]
    case VarChanged(id, value) => [Write(Binding(id, value))]
    case _ => []
  }

  lemma {:induction false} DeedsGrow(log: seq<Event>, log': seq<Event>)
    requires log <= log'
    ensures DeedsOf(log) <= DeedsOf(log')
    decreases |log'|
  {
    if |log| < |log'| {
      DeedsGrow(log, log'[..|log'| - 1]);
    } else {
      assert log == log';
    }
  }

  function WritesOf(ds: seq<Deed>): seq<Binding> {
    if ds == [] then []
    else (if ds[0].Write? then [ds[0].binding] else []) + WritesOf(ds[1..])
  }

  // From st to st' the log grew by these deeds, and the writes among them are
  // what happened to the variables.
  ghost predicate Grows(st: State, st': State, ds: seq<Deed>) {
    && st.log <= st'.log && DeedsOf(st'.log) == DeedsOf(st.log) + ds
    && st'.vars == Bind(st.vars, WritesOf(ds))
  }

  // The deeds between two states.
  function Since(st: State, st': State): seq<Deed> {
    var before, after := DeedsOf(st.log), DeedsOf(st'.log);
    if |before| <= |after| then after[|before|..] else []
  }

  lemma GrowsSince(st: State, st': State, ds: seq<Deed>)
    requires Grows(st, st', ds)
    ensures Since(st, st') == ds
  {
  }

  lemma SameDeeds(st: State, st': State, ds: seq<Deed>, ds': seq<Deed>)
    requires Grows(st, st', ds) && Grows(st, st', ds')
    ensures ds == ds'
  {
    GrowsSince(st, st', ds);
    GrowsSince(st, st', ds');
  }

  lemma {:induction false} BindSplits(vars: Vars, a: seq<Binding>, b: seq<Binding>)
    ensures Bind(vars, a + b) == Bind(Bind(vars, a), b)
    decreases |a|
  {
    if a == [] {
      assert a + b == b;
    } else {
      assert (a + b)[1..] == a[1..] + b;
      BindSplits(vars[a[0].x := a[0].e], a[1..], b);
    }
  }

  lemma Regroup<T>(a: seq<T>, b: seq<T>, c: seq<T>)
    ensures a + (b + c) == a + b + c
  {
  }

  lemma {:induction false} WritesSplit(a: seq<Deed>, b: seq<Deed>)
    ensures WritesOf(a + b) == WritesOf(a) + WritesOf(b)
    decreases |a|
  {
    if a == [] {
      assert a + b == b;
    } else {
      assert (a + b)[1..] == a[1..] + b;
      WritesSplit(a[1..], b);
      Regroup(if a[0].Write? then [a[0].binding] else [], WritesOf(a[1..]), WritesOf(b));
    }
  }

  lemma GrowsOn(a: State, b: State, c: State, ds: seq<Deed>, es: seq<Deed>)
    requires Grows(a, b, ds) && Grows(b, c, es)
    ensures Grows(a, c, ds + es)
  {
    Regroup(DeedsOf(a.log), ds, es);
    WritesSplit(ds, es);
    hide DeedsOf, WritesOf, Bind;
    BindSplits(a.vars, WritesOf(ds), WritesOf(es));
  }

  lemma GrowsNot(st: State)
    ensures Grows(st, st, [])
  {
  }

  lemma GrowsByWrite(a: Assign, st: State)
    ensures Grows(st, Written(a, st), [Write(Binding(a.id, a.rval))])
  {
  }

  lemma GrowsByNote(st: State, d: Done, event: Event, ds: seq<Deed>)
    requires Grows(st, d.st, ds) && (event.RuleTriggered? || event.TriggerTriggered?)
    ensures Grows(st, Note(d, event), ds)
  {
  }

  // Two cases that differ in the answers and in what was logged before.
  ghost predicate SameCase(s: Setup, st: State, s': Setup, st': State) {
    s'.rules == s.rules && s'.world == s.world && st'.vars == st.vars
  }

  // The request that an assignment makes of a peer, if any: what it sets is a point,
  // its value is there, and no guard holds it back.
  function RequestOf(depth: nat, a: Assign, w: World, vars: Vars): Option<Request> {
    var x := Eval(depth, a.rval, w, vars);
    if x.None? || x.value.Failed? then None
    else if a.flagBit != 0 then
      if !IsUsrBit(a.flagBit) then None
      else if a.id in w.outputs then FlagRequest(true, w.outputs[a.id], a, x.value.v != 0.0)
      else if a.id in w.inputs then FlagRequest(false, w.inputs[a.id], a, x.value.v != 0.0)
      else None
    else if a.id in w.outputs then
      var p := w.outputs[a.id];
      if p.val == x.value.v || p.flags & MANUAL_OVERRIDE != 0 then None else Some(SetOutput(a.id, x.value.v, p.flags))
    else None
  }

  function FlagRequest(output: bool, p: Point, a: Assign, on: bool): Option<Request> {
    var flags := WithBit(p.flags, a.flagBit, on);
    if flags == p.flags then None
    else Some(if output then SetOutput(a.id, p.val, flags) else SetInput(a.id, p.val, flags))
  }

  lemma RequestIsAbout(depth: nat, a: Assign, w: World, vars: Vars)
    ensures RequestOf(depth, a, w, vars).Some? ==> RequestOf(depth, a, w, vars).value.id == a.id
  {
    hide Eval, IsUsrBit, WithBit;
  }

  function Asks(request: Option<Request>): seq<Deed> {
    if request.None? then [] else [Ask(request.value)]
  }

  lemma SendGrows(request: Request, s: Setup, st: State)
    ensures Grows(st, Send(request, s, st).st, [Ask(request)])
  {
  }

  // An assignment that writes no variable does what RequestOf says.
  lemma RequestDeeds(depth: nat, a: Assign, s: Setup, st: State)
    requires AssignApply(depth, a, s, st).Some? && !Writes(a, s, st)
    ensures Grows(st, AssignApply(depth, a, s, st).value.st, Asks(RequestOf(depth, a, s.world, st.vars)))
  {
    GrowsNot(st);
    hide Grows;
    if a.flagBit != 0 { FlagDeeds(depth, a, s, st); }
    else if a.id in s.world.outputs { OutputDeeds(depth, a, s, st); }
  }

  lemma FlagDeeds(depth: nat, a: Assign, s: Setup, st: State)
    requires a.flagBit != 0 && AssignFlag(depth, a, s, st).Some?
    ensures Grows(st, AssignFlag(depth, a, s, st).value.st, Asks(RequestOf(depth, a, s.world, st.vars)))
  {
    GrowsNot(st);
    var request := RequestOf(depth, a, s.world, st.vars);
    if request.Some? { SendGrows(request.value, s, st); }
    hide Grows;
  }

  lemma OutputDeeds(depth: nat, a: Assign, s: Setup, st: State)
    requires a.flagBit == 0 && a.id in s.world.outputs && AssignOutput(depth, a, s, st).Some?
    ensures Grows(st, AssignOutput(depth, a, s, st).value.st, Asks(RequestOf(depth, a, s.world, st.vars)))
  {
  }

  lemma {:induction false} AssignDeeds(depth: nat, a: Assign, s: Setup, st: State, s': Setup, st': State) returns (ds: seq<Deed>)
    requires SameCase(s, st, s', st') && AssignApply(depth, a, s, st).Some?
    ensures AssignApply(depth, a, s', st').Some?
    ensures Grows(st, AssignApply(depth, a, s, st).value.st, ds)
    ensures Grows(st', AssignApply(depth, a, s', st').value.st, ds)
    decreases depth, 0
  {
    if Writes(a, s, st) {
      var more := PassDeeds(depth - 1, 0, Some(a.id), s, Written(a, st), s', Written(a, st'));
      ds := [Write(Binding(a.id, a.rval))] + more;
      GrowsByWrite(a, st);
      GrowsByWrite(a, st');
      GrowsOn(st, Written(a, st), AssignApply(depth, a, s, st).value.st, [Write(Binding(a.id, a.rval))], more);
      GrowsOn(st', Written(a, st'), AssignApply(depth, a, s', st').value.st, [Write(Binding(a.id, a.rval))], more);
    } else {
      RequestDeeds(depth, a, s, st);
      RequestDeeds(depth, a, s', st');
      ds := Asks(RequestOf(depth, a, s.world, st.vars));
    }
  }

  lemma {:induction false} BlockDeeds(depth: nat, i: nat, entries: seq<LabelEntry>, s: Setup, st: State, s': Setup, st': State)
    returns (ds: seq<Deed>)
    requires i <= |entries| && SameCase(s, st, s', st') && BlockApply(depth, i, entries, s, st).Some?
    ensures BlockApply(depth, i, entries, s', st').Some?
    ensures Grows(st, BlockApply(depth, i, entries, s, st).value.st, ds)
    ensures Grows(st', BlockApply(depth, i, entries, s', st').value.st, ds)
    decreases depth, 1, |entries| - i
  {
    GrowsNot(st);
    GrowsNot(st');
    ds := [];
    if i < |entries| {
      var c := Eval(depth, entries[i].cond, s.world, st.vars).value;
      if c.Value? && c.v == 0.0 { ds := BlockDeeds(depth, i + 1, entries, s, st, s', st'); }
      if c.Value? && c.v != 0.0 {
        var ass := entries[i].ass;
        ds := AssignDeeds(depth, ass, s, st, s', st');
        GrowsByNote(st, AssignApply(depth, ass, s, st).value, RuleTriggered(ass.id), ds);
        GrowsByNote(st', AssignApply(depth, ass, s', st').value, RuleTriggered(ass.id), ds);
      }
    }
  }

  lemma {:induction false} AssignAllDeeds(depth: nat, i: nat, ass: seq<Assign>, first: Option<Error>, first': Option<Error>,
                                          s: Setup, st: State, s': Setup, st': State)
    returns (ds: seq<Deed>)
    requires i <= |ass| && SameCase(s, st, s', st') && AssignAll(depth, i, ass, first, s, st).Some?
    ensures AssignAll(depth, i, ass, first', s', st').Some?
    ensures Grows(st, AssignAll(depth, i, ass, first, s, st).value.st, ds)
    ensures Grows(st', AssignAll(depth, i, ass, first', s', st').value.st, ds)
    decreases depth, 1, |ass| - i
  {
    if i == |ass| { return []; }
    var here := AssignDeeds(depth, ass[i], s, st, s', st');
    var d, d' := AssignApply(depth, ass[i], s, st).value, AssignApply(depth, ass[i], s', st').value;
    var note := TriggerTriggered(ass[i].id);
    GrowsByNote(st, d, note, here);
    GrowsByNote(st', d', note, here);
    var next, next' := if first.None? then d.error else first, if first'.None? then d'.error else first';
    var more := AssignAllDeeds(depth, i + 1, ass, next, next', s, Note(d, note), s', Note(d', note));
    ds := here + more;
    GrowsOn(st, Note(d, note), AssignAll(depth, i + 1, ass, next, s, Note(d, note)).value.st, here, more);
    GrowsOn(st', Note(d', note), AssignAll(depth, i + 1, ass, next', s', Note(d', note)).value.st, here, more);
  }

  lemma {:induction false} RuleDeeds(depth: nat, r: Rule, s: Setup, st: State, s': Setup, st': State) returns (ds: seq<Deed>)
    requires SameCase(s, st, s', st') && RuleApply(depth, r, s, st).Some?
    ensures RuleApply(depth, r, s', st').Some?
    ensures Grows(st, RuleApply(depth, r, s, st).value.st, ds)
    ensures Grows(st', RuleApply(depth, r, s', st').value.st, ds)
    decreases depth, 2
  {
    match r
    case LabelBlock(entries) => ds := BlockDeeds(depth, 0, entries, s, st, s', st');
    case Trigger(cond, ass) =>
      GrowsNot(st);
      GrowsNot(st');
      ds := [];
      var c := Eval(depth, cond, s.world, st.vars).value;
      if c.Value? && c.v != 0.0 { ds := AssignAllDeeds(depth, 0, ass, None, None, s, st, s', st'); }
  }

  // The deeds of a pass, with all passes that it nests, are those of every pass for
  // the same name over the same rules, points and variables.
  lemma {:induction false} PassDeeds(depth: nat, i: nat, id: Option<Name>, s: Setup, st: State, s': Setup, st': State)
    returns (ds: seq<Deed>)
    requires i <= |s.rules| && SameCase(s, st, s', st') && Pass(depth, i, id, s, st).Some?
    ensures Pass(depth, i, id, s', st').Some?
    ensures Grows(st, Pass(depth, i, id, s, st).value, ds) && Grows(st', Pass(depth, i, id, s', st').value, ds)
    decreases depth, 3, |s.rules| - i
  {
    if i == |s.rules| { return []; }
    if !Woken(depth, s.rules[i], id, st.vars).value {
      ds := PassDeeds(depth, i + 1, id, s, st, s', st');
    } else {
      var here := RuleDeeds(depth, s.rules[i], s, st, s', st');
      var st1, st1' := RuleApply(depth, s.rules[i], s, st).value.st, RuleApply(depth, s.rules[i], s', st').value.st;
      var more := PassDeeds(depth, i + 1, id, s, st1, s', st1');
      ds := here + more;
      GrowsOn(st, st1, Pass(depth, i + 1, id, s, st1).value, here, more);
      GrowsOn(st', st1', Pass(depth, i + 1, id, s', st1').value, here, more);
    }
  }
}
