// What a pass may do to the outside world, whatever the rules are: every event
// it logs, at any nesting depth, is a permitted change of a cached point.

module RequestSafety {
  import opened Options
  import opened Exprs
  import opened Rules

  // Only the value, and not under manual override.
  predicate ValueOnly(p: Point, val: real, flags: bv64) {
    val != p.val && flags == p.flags && p.flags & MANUAL_OVERRIDE == 0
  }

  // Only one user bit, which is set or cleared.
  ghost predicate OneUserBit(p: Point, val: real, flags: bv64) {
    val == p.val && flags != p.flags && exists bit, on :: IsUsrBit(bit) && flags == WithBit(p.flags, bit, on)
  }

  ghost predicate Permitted(event: Event, w: World) {
    match event
    case Sent(SetOutput(id, val, flags), _) =>
      id in w.outputs && (ValueOnly(w.outputs[id], val, flags) || OneUserBit(w.outputs[id], val, flags))
    case Sent(SetInput(id, val, flags), _) =>
      id !in w.outputs && id in w.inputs && OneUserBit(w.inputs[id], val, flags)
    case VarChanged(id, _) => id !in w.outputs
    case RuleTriggered(_) => true
    case TriggerTriggered(_) => true
  }

  // Events are only appended; all are permitted; no variable is declared or
  // dropped; and without a VarChanged event the variable table is untouched.
  ghost predicate Advances(w: World, st: State, st': State) {
    && st.log <= st'.log
    && st'.vars.Keys == st.vars.Keys
    && (forall i :: |st.log| <= i < |st'.log| ==> Permitted(st'.log[i], w))
    && (NoVarChange(st, st') ==> st'.vars == st.vars)
  }

  ghost predicate NoVarChange(st: State, st': State) {
    forall i :: |st.log| <= i < |st'.log| ==> !st'.log[i].VarChanged?
  }

  lemma AdvancesTransitively(w: World, a: State, b: State, c: State)
    requires Advances(w, a, b) && Advances(w, b, c)
    ensures Advances(w, a, c)
  {
  }

  lemma UserBits(bit: bv64)
    ensures IsUsrBit(bit) <==> bit == USR1 || bit == USR2 || bit == USR3 || bit == USR4
  {
  }

  predicate SameReserved(f: bv64, g: bv64) {
    f & 0x0FFF_FFFF_FFFF_FFFF == g & 0x0FFF_FFFF_FFFF_FFFF
  }

  lemma WithBitKeepsReserved(f: bv64, bit: bv64, on: bool)
    requires IsUsrBit(bit)
    ensures SameReserved(WithBit(f, bit, on), f)
  {
  }

  // Manual override, no-history and every other reserved bit are out of reach of
  // a permitted request.
  lemma ReservedBitsKept(p: Point, val: real, flags: bv64)
    requires ValueOnly(p, val, flags) || OneUserBit(p, val, flags)
    ensures SameReserved(flags, p.flags)
  {
    if OneUserBit(p, val, flags) {
      var bit, on :| IsUsrBit(bit) && flags == WithBit(p.flags, bit, on);
      WithBitKeepsReserved(p.flags, bit, on);
    }
  }

  // The request sets or clears just that bit of the point, and nothing else.
  predicate ThatBit(p: Point, val: real, flags: bv64, bit: bv64) {
    val == p.val && flags != p.flags && (flags == WithBit(p.flags, bit, true) || flags == WithBit(p.flags, bit, false))
  }

  predicate FlagRequested(a: Assign, r: Request, w: World) {
    && IsUsrBit(a.flagBit) && r.id == a.id
    && match r
       case SetOutput(id, val, flags) => id in w.outputs && ThatBit(w.outputs[id], val, flags, a.flagBit)
       case SetInput(id, val, flags) => id !in w.outputs && id in w.inputs && ThatBit(w.inputs[id], val, flags, a.flagBit)
  }

  // One request was logged, for the flag that a is about.
  predicate FlagSent(a: Assign, w: World, st: State, st': State) {
    && st'.vars == st.vars && |st'.log| == |st.log| + 1 && st.log <= st'.log
    && st'.log[|st.log|].Sent? && FlagRequested(a, st'.log[|st.log|].request, w)
  }

  lemma SendFlagSends(output: bool, p: Point, a: Assign, on: bool, s: Setup, st: State)
    requires IsUsrBit(a.flagBit)
    requires if output then a.id in s.world.outputs && s.world.outputs[a.id] == p
             else a.id !in s.world.outputs && a.id in s.world.inputs && s.world.inputs[a.id] == p
    ensures var d := SendFlag(output, p, a, on, s, st);
            if WithBit(p.flags, a.flagBit, on) == p.flags then d.st == st else FlagSent(a, s.world, st, d.st)
  {
    hide WithBit, IsUsrBit;
  }

  lemma FlagSentIsPermitted(a: Assign, w: World, st: State, st': State)
    requires FlagSent(a, w, st, st')
    ensures Advances(w, st, st')
  {
    hide WithBit, IsUsrBit;
  }

  // A flag assignment does nothing, or makes one request for its own bit.
  lemma FlagAdvances(depth: nat, a: Assign, s: Setup, st: State)
    requires AssignFlag(depth, a, s, st).Some?
    ensures var st' := AssignFlag(depth, a, s, st).value.st; st' == st || FlagSent(a, s.world, st, st')
    ensures Advances(s.world, st, AssignFlag(depth, a, s, st).value.st)
  {
    hide FlagSent, SendFlag;
    var x := Eval(depth, a.rval, s.world, st.vars);
    if IsUsrBit(a.flagBit) && x.Some? && x.value.Value? {
      var on := x.value.v != 0.0;
      if a.id in s.world.outputs { SendFlagSends(true, s.world.outputs[a.id], a, on, s, st); }
      else if a.id in s.world.inputs { SendFlagSends(false, s.world.inputs[a.id], a, on, s, st); }
    }
    var st' := AssignFlag(depth, a, s, st).value.st;
    if st' != st { FlagSentIsPermitted(a, s.world, st, st'); }
  }

  lemma {:induction false} AssignAdvances(depth: nat, a: Assign, s: Setup, st: State)
    requires AssignApply(depth, a, s, st).Some?
    ensures Advances(s.world, st, AssignApply(depth, a, s, st).value.st)
    decreases depth, 0
  {
    if a.flagBit != 0 { FlagAdvances(depth, a, s, st); }
    else if a.id !in s.world.outputs && a.id in st.vars && st.vars[a.id] != a.rval {
      PassAdvances(depth - 1, 0, Some(a.id), s, Written(a, st));
      WriteAdvances(a, s, st, Pass(depth - 1, 0, Some(a.id), s, Written(a, st)).value);
    }
  }

  lemma WriteAdvances(a: Assign, s: Setup, st: State, st': State)
    requires a.id in st.vars && a.id !in s.world.outputs && Advances(s.world, Written(a, st), st')
    ensures Advances(s.world, st, st')
  {
    var st1 := Written(a, st);
    assert st1.log[|st.log|] == st'.log[|st.log|] == VarChanged(a.id, a.rval);
    forall i | |st.log| <= i < |st'.log| ensures Permitted(st'.log[i], s.world) {
    }
  }

  lemma NoteAdvances(w: World, st: State, d: Done, event: Event)
    requires Advances(w, st, d.st) && (event.RuleTriggered? || event.TriggerTriggered?)
    ensures Advances(w, st, Note(d, event))
  {
    if d.applied {
      assert Advances(w, d.st, Note(d, event));
      AdvancesTransitively(w, st, d.st, Note(d, event));
    }
  }

  lemma {:induction false} BlockAdvances(depth: nat, i: nat, entries: seq<LabelEntry>, s: Setup, st: State)
    requires i <= |entries| && BlockApply(depth, i, entries, s, st).Some?
    ensures Advances(s.world, st, BlockApply(depth, i, entries, s, st).value.st)
    decreases depth, 1, |entries| - i
  {
    if i < |entries| {
      var c := Eval(depth, entries[i].cond, s.world, st.vars).value;
      if c.Value? && c.v == 0.0 { BlockAdvances(depth, i + 1, entries, s, st); }
      if c.Value? && c.v != 0.0 {
        AssignAdvances(depth, entries[i].ass, s, st);
        NoteAdvances(s.world, st, AssignApply(depth, entries[i].ass, s, st).value, RuleTriggered(entries[i].ass.id));
      }
    }
  }

  lemma {:induction false} AssignAllAdvances(depth: nat, i: nat, ass: seq<Assign>, first: Option<Error>, s: Setup, st: State)
    requires i <= |ass| && AssignAll(depth, i, ass, first, s, st).Some?
    ensures Advances(s.world, st, AssignAll(depth, i, ass, first, s, st).value.st)
    decreases depth, 1, |ass| - i
  {
    if i < |ass| {
      var d := AssignApply(depth, ass[i], s, st).value;
      var st' := Note(d, TriggerTriggered(ass[i].id));
      var first' := if first.None? then d.error else first;
      AssignAdvances(depth, ass[i], s, st);
      NoteAdvances(s.world, st, d, TriggerTriggered(ass[i].id));
      AssignAllAdvances(depth, i + 1, ass, first', s, st');
      AdvancesTransitively(s.world, st, st', AssignAll(depth, i + 1, ass, first', s, st').value.st);
    }
  }

  lemma {:induction false} RuleAdvances(depth: nat, r: Rule, s: Setup, st: State)
    requires RuleApply(depth, r, s, st).Some?
    ensures Advances(s.world, st, RuleApply(depth, r, s, st).value.st)
    decreases depth, 2
  {
    match r
    case LabelBlock(entries) => BlockAdvances(depth, 0, entries, s, st);
    case Trigger(cond, ass) =>
      var c := Eval(depth, cond, s.world, st.vars).value;
      if c.Value? && c.v != 0.0 { AssignAllAdvances(depth, 0, ass, None, s, st); }
  }

  lemma {:induction false} PassAdvances(depth: nat, i: nat, id: Option<Name>, s: Setup, st: State)
    requires i <= |s.rules| && Pass(depth, i, id, s, st).Some?
    ensures Advances(s.world, st, Pass(depth, i, id, s, st).value)
    decreases depth, 3, |s.rules| - i
  {
    if i < |s.rules| {
      if !Woken(depth, s.rules[i], id, st.vars).value { PassAdvances(depth, i + 1, id, s, st); }
      else {
        var st' := RuleApply(depth, s.rules[i], s, st).value.st;
        RuleAdvances(depth, s.rules[i], s, st);
        PassAdvances(depth, i + 1, id, s, st');
        AdvancesTransitively(s.world, st, st', Pass(depth, i + 1, id, s, st').value);
      }
    }
  }
}
