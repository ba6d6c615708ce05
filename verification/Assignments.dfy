// What assignments, rules and passes come to: the flag that is written, the error that
// is reported, the events that are logged, and the order in which all this happens.

module Assignments {
  import opened Options
  import opened Exprs
  import opened Rules
  import opened Deeds
  import opened Reactivity

  // ---------- flags ----------

  // The bit is set or not, as wanted, and all others are as they were.
  predicate OnlyBitIs(on: bool, flags: bv64, before: bv64, bit: bv64) {
    (flags & bit != 0 <==> on) && flags & !bit == before & !bit
  }

  lemma BitIsWritten(before: bv64, bit: bv64, on: bool)
    requires IsUsrBit(bit)
    ensures OnlyBitIs(on, WithBit(before, bit, on), before, bit)
  {
    SetsBit(before, bit);
    ClearsBit(before, bit);
    KeepsOtherBits(before, bit, on);
    hide WithBit;
  }

  lemma SetsBit(before: bv64, bit: bv64)
    requires bit != 0
    ensures WithBit(before, bit, true) & bit != 0
  {
  }

  lemma ClearsBit(before: bv64, bit: bv64)
    ensures WithBit(before, bit, false) & bit == 0
  {
  }

  lemma KeepsOtherBits(before: bv64, bit: bv64, on: bool)
    ensures WithBit(before, bit, on) & !bit == before & !bit
  {
    if on { SetKeepsOthers(before, bit); } else { ClearKeepsOthers(before, bit); }
  }

  lemma SetKeepsOthers(before: bv64, bit: bv64)
    ensures (before | bit) & !bit == before & !bit
  {
  }

  lemma ClearKeepsOthers(before: bv64, bit: bv64)
    ensures (before & !bit) & !bit == before & !bit
  {
  }

  // The cached point that a flag assignment is about: an output before an input.
  predicate IsFlagTarget(p: Point, a: Assign, w: World) {
    (a.id in w.outputs && w.outputs[a.id] == p) || (a.id !in w.outputs && a.id in w.inputs && w.inputs[a.id] == p)
  }

  // The flags that the point will have if the peer agrees.
  function FlagsAfter(p: Point, st: State, st': State): bv64 {
    if |st'.log| > |st.log| && st'.log[|st.log|].Sent? then st'.log[|st.log|].request.flags else p.flags
  }

  lemma FlagRequestMade(depth: nat, a: Assign, s: Setup, st: State, v: real, p: Point)
    requires IsUsrBit(a.flagBit) && Eval(depth, a.rval, s.world, st.vars) == Some(Value(v)) && IsFlagTarget(p, a, s.world)
    ensures AssignFlag(depth, a, s, st).Some?
    ensures var st' := AssignFlag(depth, a, s, st).value.st;
            && FlagsAfter(p, st, st') == WithBit(p.flags, a.flagBit, v != 0.0)
            && (st' != st ==> |st'.log| == |st.log| + 1 && st'.log[|st.log|].Sent? && st'.log[|st.log|].request.val == p.val
                              && st'.log[|st.log|].request.SetOutput? == (a.id in s.world.outputs))
  {
    hide WithBit, IsUsrBit, Eval;
  }

  // A value other than 0 sets the flag, 0 clears it; all other flags stay, and so does
  // the value of the point.
  lemma FlagIsWritten(depth: nat, a: Assign, s: Setup, st: State, v: real, p: Point)
    requires IsUsrBit(a.flagBit) && Eval(depth, a.rval, s.world, st.vars) == Some(Value(v)) && IsFlagTarget(p, a, s.world)
    ensures AssignFlag(depth, a, s, st).Some?
    ensures var st' := AssignFlag(depth, a, s, st).value.st;
            && OnlyBitIs(v != 0.0, FlagsAfter(p, st, st'), p.flags, a.flagBit)
            && (st' != st ==> |st'.log| == |st.log| + 1 && st'.log[|st.log|].Sent? && st'.log[|st.log|].request.val == p.val
                              && st'.log[|st.log|].request.SetOutput? == (a.id in s.world.outputs))
  {
    hide *;
    FlagRequestMade(depth, a, s, st, v, p);
    BitIsWritten(p.flags, a.flagBit, v != 0.0);
  }

  // ---------- one assignment ----------

  // Whether there is anything for the assignment to write, flags for points only.
  predicate IsKnown(a: Assign, w: World, vars: Vars) {
    a.id in w.outputs || (if a.flagBit != 0 then a.id in w.inputs else a.id in vars)
  }

  // A write of a variable never fails. Other assignments fail if the peer refuses, if
  // the target is unknown, or if the value that they need cannot be had; a flag that is
  // no user's is ignored. What failed, or changed nothing, does not count as applied.
  lemma AssignOutcome(depth: nat, a: Assign, s: Setup, st: State)
    requires AssignApply(depth, a, s, st).Some?
    ensures var d := AssignApply(depth, a, s, st).value;
            var request := RequestOf(depth, a, s.world, st.vars);
            if Writes(a, s, st) then d.applied && d.error.None?
            else if request.Some? then
              && d.applied == s.replies(|st.log|) && d.error == (if d.applied then None else Some(InvalidValue))
              && d.st == st.(log := st.log + [Sent(request.value, d.applied)])
            else
              d.st == st && !d.applied && d.error == RefusalOf(depth, a, s.world, st.vars)
  {
    hide Pass;
  }

  function RefusalOf(depth: nat, a: Assign, w: World, vars: Vars): Option<Error> {
    if a.flagBit != 0 && !IsUsrBit(a.flagBit) then None
    else
      var x := Eval(depth, a.rval, w, vars);
      if (a.flagBit != 0 || a.id in w.outputs) && x.Some? && x.value.Failed? then Some(x.value.error)
      else if IsKnown(a, w, vars) then None
      else Some(UndefinedIdentifier(a.id))
  }

  // ---------- label blocks ----------

  // The conditions before the j-th are all 0, and that one is not.
  predicate FirstNotZero(depth: nat, j: nat, entries: seq<LabelEntry>, w: World, vars: Vars) {
    && j < |entries| && Eval(depth, entries[j].cond, w, vars).Some?
    && Eval(depth, entries[j].cond, w, vars) != Some(Value(0.0))
    && forall i :: 0 <= i < j ==> Eval(depth, entries[i].cond, w, vars) == Some(Value(0.0))
  }

  lemma {:induction false} BlockSkips(depth: nat, i: nat, j: nat, entries: seq<LabelEntry>, s: Setup, st: State)
    requires i <= j <= |entries| && forall k :: i <= k < j ==> Eval(depth, entries[k].cond, s.world, st.vars) == Some(Value(0.0))
    ensures BlockApply(depth, i, entries, s, st) == BlockApply(depth, j, entries, s, st)
    decreases j - i
  {
    if i < j { BlockSkips(depth, i + 1, j, entries, s, st); }
  }

  // The first entry whose condition is not 0 decides: a condition that fails ends the
  // block with its error, any other makes the entry's assignment, which is logged as
  // the block's if it was applied. Without such an entry nothing happens.
  lemma BlockIsFirstMatch(depth: nat, j: nat, entries: seq<LabelEntry>, s: Setup, st: State)
    ensures FirstNotZero(depth, j, entries, s.world, st.vars) ==>
              var c := Eval(depth, entries[j].cond, s.world, st.vars).value;
              var d := AssignApply(depth, entries[j].ass, s, st);
              RuleApply(depth, LabelBlock(entries), s, st)
                == if c.Failed? then Some(Step(st, Some(c.error)))
                   else if d.None? then None
                   else Some(Step(if d.value.applied then d.value.st.(log := d.value.st.log + [RuleTriggered(entries[j].ass.id)])
                                  else d.value.st, d.value.error))
    ensures (forall i :: 0 <= i < |entries| ==> Eval(depth, entries[i].cond, s.world, st.vars) == Some(Value(0.0))) ==>
              RuleApply(depth, LabelBlock(entries), s, st) == Some(Step(st, None))
  {
    if FirstNotZero(depth, j, entries, s.world, st.vars) {
      BlockSkips(depth, 0, j, entries, s, st);
    }
    if forall i :: 0 <= i < |entries| ==> Eval(depth, entries[i].cond, s.world, st.vars) == Some(Value(0.0)) {
      BlockSkips(depth, 0, |entries|, entries, s, st);
    }
  }

  // ---------- triggers ----------

  // What the assignments of a trigger come to, one after the other from st.
  ghost predicate Assigned(depth: nat, ass: seq<Assign>, dones: seq<Done>, s: Setup, st: State) {
    |dones| == |ass| && forall i :: 0 <= i < |ass| ==> AssignedAt(depth, ass, dones, s, st, i)
  }

  ghost predicate AssignedAt(depth: nat, ass: seq<Assign>, dones: seq<Done>, s: Setup, st: State, i: nat)
    requires i < |ass| == |dones|
  {
    AssignApply(depth, ass[i], s, StateBefore(ass, dones, st, i)) == Some(dones[i])
  }

  // An assignment that was applied is logged as the trigger's before the next is tried.
  function StateBefore(ass: seq<Assign>, dones: seq<Done>, st: State, i: nat): State
    requires i <= |ass| == |dones|
  {
    if i == 0 then st
    else
      var d := dones[i - 1];
      if d.applied then d.st.(log := d.st.log + [TriggerTriggered(ass[i - 1].id)]) else d.st
  }

  // The error of the first assignment that has one.
  ghost predicate IsFirstError(dones: seq<Done>, error: Option<Error>) {
    if error.None? then forall i :: 0 <= i < |dones| ==> dones[i].error.None?
    else exists i :: 0 <= i < |dones| && dones[i].error == error && forall k :: 0 <= k < i ==> dones[k].error.None?
  }

  lemma {:induction false} AllAreAssigned(depth: nat, i: nat, ass: seq<Assign>, first: Option<Error>, s: Setup, st: State, done: seq<Done>)
    returns (dones: seq<Done>)
    requires i == |done| <= |ass| && AssignAll(depth, i, ass, first, s, StateBefore(ass[..i], done, st, i)).Some?
    requires Assigned(depth, ass[..i], done, s, st) && IsFirstError(done, first)
    ensures Assigned(depth, ass, dones, s, st)
    ensures var end := AssignAll(depth, i, ass, first, s, StateBefore(ass[..i], done, st, i)).value;
            end.st == StateBefore(ass, dones, st, |ass|) && IsFirstError(dones, end.error)
    decreases |ass| - i
  {
    if i == |ass| {
      assert ass[..i] == ass;
      return done;
    }
    hide AssignApply;
    var before := StateBefore(ass[..i], done, st, i);
    var d := AssignApply(depth, ass[i], s, before).value;
    var next := if first.None? then d.error else first;
    var more, sofar, upto := done + [d], ass[..i], ass[..i + 1];
    forall k | 0 <= k < i + 1 ensures AssignedAt(depth, upto, more, s, st, k) {
      if k < i { assert AssignedAt(depth, sofar, done, s, st, k); }
      assert StateBefore(upto, more, st, k) == StateBefore(sofar, done, st, k);
    }
    assert StateBefore(upto, more, st, i + 1) == Note(d, TriggerTriggered(ass[i].id));
    FirstErrorStays(done, d, first);
    dones := AllAreAssigned(depth, i + 1, ass, next, s, st, more);
  }

  lemma FirstErrorStays(done: seq<Done>, d: Done, first: Option<Error>)
    requires IsFirstError(done, first)
    ensures IsFirstError(done + [d], if first.None? then d.error else first)
  {
    var more := done + [d];
    if first.None? {
      if d.error.Some? { assert more[|done|].error == d.error; }
    } else {
      var i :| 0 <= i < |done| && done[i].error == first && forall k :: 0 <= k < i ==> done[k].error.None?;
      assert more[i].error == first;
    }
  }

  // A trigger whose condition holds tries every assignment, in order, each in the state
  // that the ones before it left, whether they failed or not; it reports the first error.
  lemma TriggerTriesAll(depth: nat, cond: Expr, ass: seq<Assign>, s: Setup, st: State) returns (dones: seq<Done>)
    requires Holds(depth, cond, s.world, st.vars) && RuleApply(depth, Trigger(cond, ass), s, st).Some?
    ensures Assigned(depth, ass, dones, s, st)
    ensures var end := RuleApply(depth, Trigger(cond, ass), s, st).value;
            end.st == StateBefore(ass, dones, st, |ass|) && IsFirstError(dones, end.error)
  {
    dones := AllAreAssigned(depth, 0, ass, None, s, st, []);
  }

  lemma TriggerNeedsItsCondition(depth: nat, cond: Expr, ass: seq<Assign>, s: Setup, st: State)
    requires Eval(depth, cond, s.world, st.vars).Some? && !Holds(depth, cond, s.world, st.vars)
    ensures var c := Eval(depth, cond, s.world, st.vars).value;
            RuleApply(depth, Trigger(cond, ass), s, st) == Some(Step(st, if c.Failed? then Some(c.error) else None))
  {
  }

  // ---------- passes ----------

  // A rule leads from one state to the next if it is woken in the table as it is then,
  // and is left out otherwise; an error does not stop the pass.
  ghost predicate Runs(depth: nat, r: Rule, id: Option<Name>, s: Setup, st: State, st': State) {
    var woken := Woken(depth, r, id, st.vars);
    && woken.Some?
    && if woken.value then RuleApply(depth, r, s, st).Some? && st' == RuleApply(depth, r, s, st).value.st else st' == st
  }

  lemma {:induction false} PassRunsFrom(depth: nat, i: nat, id: Option<Name>, s: Setup, st: State) returns (states: seq<State>)
    requires i <= |s.rules| && Pass(depth, i, id, s, st).Some?
    ensures |states| == |s.rules| - i + 1 && states[0] == st && Pass(depth, i, id, s, st) == Some(states[|s.rules| - i])
    ensures forall k :: 0 <= k < |s.rules| - i ==> Runs(depth, s.rules[i + k], id, s, states[k], states[k + 1])
    decreases |s.rules| - i
  {
    hide RuleApply, Woken;
    if i == |s.rules| { return [st]; }
    var next := if Woken(depth, s.rules[i], id, st.vars).value then RuleApply(depth, s.rules[i], s, st).value.st else st;
    var rest := PassRunsFrom(depth, i + 1, id, s, next);
    states := [st] + rest;
    forall k | 0 <= k < |s.rules| - i ensures Runs(depth, s.rules[i + k], id, s, states[k], states[k + 1]) {
      if k > 0 {
        var before := k - 1;
        assert Runs(depth, s.rules[i + 1 + before], id, s, rest[before], rest[before + 1]);
      }
    }
  }

  // A pass goes through all rules in order.
  lemma PassRunsAll(depth: nat, id: Option<Name>, s: Setup, st: State) returns (states: seq<State>)
    requires Pass(depth, 0, id, s, st).Some?
    ensures |states| == |s.rules| + 1 && states[0] == st && Pass(depth, 0, id, s, st) == Some(states[|s.rules|])
    ensures forall k :: 0 <= k < |s.rules| ==> Runs(depth, s.rules[k], id, s, states[k], states[k + 1])
  {
    states := PassRunsFrom(depth, 0, id, s, st);
  }
}
