// The input and output records of lib/input.c and lib/output.c, which are the
// same machine: guarded setters that snap to the step grid and signal changes.
// Signals are logged with the fields that a handler sees at that moment.

module Records {
  import opened Arithmetic
  import opened Snap

  datatype Fields = Fields(min: real, max: real, step: real, val: real, flags: bv64)

  datatype Signal =
    | MinChanged(seen: Fields)
    | MaxChanged(seen: Fields)
    | ValChanged(seen: Fields)
    | StepChanged(seen: Fields)
    | FlagsChanged(seen: Fields)
    | Changed(seen: Fields)

  datatype Update = Update(fields: Fields, accepted: bool, signals: seq<Signal>)

  function Larger(a: real, b: real): real { if a > b then a else b }

  function Tolerance(a: real, b: real, step: real): real {
    var tol := EPSILON * (1.0 + Abs(a) + Abs(b)) * 8.0;
    if Usable(step) then Larger(tol, Abs(step) * 0.000000001) else tol
  }

  predicate NearlyEqual(a: real, b: real, step: real) {
    Abs(a - b) <= Tolerance(a, b, step)
  }

  // ---------- the setters ----------

  function SetMin(f: Fields, x: real): Update {
    var min := RoundToStep(x, f.step);
    var f' := f.(min := min);
    if min > f.val then Update(f, false, [])
    else Update(f', true, if NearlyEqual(f.min, min, f.step) then [] else [MinChanged(f'), Changed(f')])
  }

  function SetMax(f: Fields, x: real): Update {
    var max := RoundToStep(x, f.step);
    var f' := f.(max := max);
    if max < f.val then Update(f, false, [])
    else Update(f', true, if NearlyEqual(f.max, max, f.step) then [] else [MaxChanged(f'), Changed(f')])
  }

  function SetVal(f: Fields, x: real): Update {
    var val := RoundToStep(x, f.step);
    var f' := f.(val := val);
    if val < f.min || val > f.max then Update(f, false, [])
    else Update(f', true, if NearlyEqual(f.val, val, f.step) then [] else [ValChanged(f'), Changed(f')])
  }

  function SetFlags(f: Fields, flags: bv64): Update {
    var f' := f.(flags := flags);
    Update(f', true, if f.flags == flags then [] else [FlagsChanged(f'), Changed(f')])
  }

  // A field that is on the new grid up to the tolerance is left as it is.
  function Regrid(x: real, step: real): real {
    if NearlyEqual(x, RoundToStep(x, step), step) then x else RoundToStep(x, step)
  }

  // Fields move one after the other, each with its signal; step comes last.
  function SetStep(f: Fields, step: real): Update {
    var min, max, val := RoundToStep(f.min, step), RoundToStep(f.max, step), RoundToStep(f.val, step);
    if !Usable(step) || !(min <= val <= max) then Update(f, false, [])
    else
      var f1 := f.(min := Regrid(f.min, step));
      var f2 := f1.(max := Regrid(f.max, step));
      var f3 := f2.(val := Regrid(f.val, step));
      var f4 := f3.(step := step);
      var moved :=
        (if NearlyEqual(f.min, min, step) then [] else [MinChanged(f1)]) +
        (if NearlyEqual(f.max, max, step) then [] else [MaxChanged(f2)]) +
        (if NearlyEqual(f.val, val, step) then [] else [ValChanged(f3)]);
      Update(f4, true,
             if moved == [] && NearlyEqual(f.step, step, step) then [] else moved + [StepChanged(f4), Changed(f4)])
  }

  // ---------- the object ----------

  class Record {
    var min: real
    var max: real
    var step: real
    var val: real
    var flags: bv64
    var signals: seq<Signal>

    ghost function Now(): Fields
      reads this
    {
      Fields(min, max, step, val, flags)
    }

    // st_input_new snaps what it is given, and asserts the order that results.
    constructor (min: real, max: real, step: real, val: real, flags: bv64)
      requires Usable(step)
      requires RoundToStep(min, step) <= RoundToStep(val, step) <= RoundToStep(max, step)
      ensures Now() == Fields(RoundToStep(min, step), RoundToStep(max, step), step, RoundToStep(val, step), flags)
      ensures Sound(Now()) && Ordered(Now()) && signals == []
    {
      this.min := RoundToStep(min, step);
      this.max := RoundToStep(max, step);
      this.step := step;
      this.val := RoundToStep(val, step);
      this.flags := flags;
      this.signals := [];
      new;
      SnappedIsSound(min, step);
      SnappedIsSound(max, step);
      SnappedIsSound(val, step);
    }

    method EmitChanged(signal: Signal)
      modifies this`signals
      ensures signals == old(signals) + [signal, Changed(Now())]
    {
      signals := signals + [signal];
      signals := signals + [Changed(Fields(min, max, step, val, flags))];
    }

    method ApplyMin(x: real) returns (ok: bool)
      modifies this
      ensures Update(Now(), ok, signals) == var u := SetMin(old(Now()), x); u.(signals := old(signals) + u.signals)
    {
      var snapped := RoundToStep(x, step);
      if snapped <= val {
        var chg := !NearlyEqual(min, snapped, step);
        min := snapped;
        ok := true;
        if chg { EmitChanged(MinChanged(Fields(min, max, step, val, flags))); }
      } else {
        ok := false;
      }
    }

    method ApplyMax(x: real) returns (ok: bool)
      modifies this
      ensures Update(Now(), ok, signals) == var u := SetMax(old(Now()), x); u.(signals := old(signals) + u.signals)
    {
      var snapped := RoundToStep(x, step);
      if snapped >= val {
        var chg := !NearlyEqual(max, snapped, step);
        max := snapped;
        ok := true;
        if chg { EmitChanged(MaxChanged(Fields(min, max, step, val, flags))); }
      } else {
        ok := false;
      }
    }

    method ApplyVal(x: real) returns (ok: bool)
      modifies this
      ensures Update(Now(), ok, signals) == var u := SetVal(old(Now()), x); u.(signals := old(signals) + u.signals)
    {
      var snapped := RoundToStep(x, step);
      if snapped >= min && snapped <= max {
        var chg := !NearlyEqual(val, snapped, step);
        val := snapped;
        ok := true;
        if chg { EmitChanged(ValChanged(Fields(min, max, step, val, flags))); }
      } else {
        ok := false;
      }
    }

    method ApplyFlags(newFlags: bv64) returns (ok: bool)
      modifies this
      ensures Update(Now(), ok, signals) == var u := SetFlags(old(Now()), newFlags); u.(signals := old(signals) + u.signals)
    {
      var chg := flags != newFlags;
      flags := newFlags;
      ok := true;
      if chg { EmitChanged(FlagsChanged(Fields(min, max, step, val, flags))); }
    }

    method MoveMin(target: real, s: real) returns (chg: bool)
      requires target == RoundToStep(min, s)
      modifies this`min, this`signals
      ensures Now() == old(Now()).(min := Regrid(old(min), s))
      ensures chg == !NearlyEqual(old(min), target, s)
      ensures signals == old(signals) + if chg then [MinChanged(Now())] else []
    {
      chg := !NearlyEqual(min, target, s);
      if chg {
        min := target;
        signals := signals + [MinChanged(Fields(min, max, step, val, flags))];
      }
    }

    method MoveMax(target: real, s: real) returns (chg: bool)
      requires target == RoundToStep(max, s)
      modifies this`max, this`signals
      ensures Now() == old(Now()).(max := Regrid(old(max), s))
      ensures chg == !NearlyEqual(old(max), target, s)
      ensures signals == old(signals) + if chg then [MaxChanged(Now())] else []
    {
      chg := !NearlyEqual(max, target, s);
      if chg {
        max := target;
        signals := signals + [MaxChanged(Fields(min, max, step, val, flags))];
      }
    }

    method MoveVal(target: real, s: real) returns (chg: bool)
      requires target == RoundToStep(val, s)
      modifies this`val, this`signals
      ensures Now() == old(Now()).(val := Regrid(old(val), s))
      ensures chg == !NearlyEqual(old(val), target, s)
      ensures signals == old(signals) + if chg then [ValChanged(Now())] else []
    {
      chg := !NearlyEqual(val, target, s);
      if chg {
        val := target;
        signals := signals + [ValChanged(Fields(min, max, step, val, flags))];
      }
    }

    method ApplyStep(s: real) returns (ok: bool)
      modifies this
      ensures Update(Now(), ok, signals) == var u := SetStep(old(Now()), s); u.(signals := old(signals) + u.signals)
    {
      hide RoundToStep, NearlyEqual, Regrid;
      if Abs(s) <= MIN_DOUBLE { return false; }
      var newMin, newMax, newVal := RoundToStep(min, s), RoundToStep(max, s), RoundToStep(val, s);
      if newMin <= newVal && newVal <= newMax {
        var chg := !NearlyEqual(step, s, s);
        var a := MoveMin(newMin, s);
        var b := MoveMax(newMax, s);
        var c := MoveVal(newVal, s);
        step := s;
        ok := true;
        if chg || a || b || c { EmitChanged(StepChanged(Fields(min, max, step, val, flags))); }
        MovesInOrder(old(Now()), s, old(signals));
      } else {
        ok := false;
      }
    }
  }

  // The signals of three moves, appended one by one, are those of SetStep.
  lemma MovesInOrder(f: Fields, step: real, before: seq<Signal>)
    requires SetStep(f, step).accepted
    ensures var f1 := f.(min := Regrid(f.min, step)); var f2 := f1.(max := Regrid(f.max, step));
            var f3 := f2.(val := Regrid(f.val, step)); var f4 := f3.(step := step);
            var a := if NearlyEqual(f.min, RoundToStep(f.min, step), step) then [] else [MinChanged(f1)];
            var b := if NearlyEqual(f.max, RoundToStep(f.max, step), step) then [] else [MaxChanged(f2)];
            var c := if NearlyEqual(f.val, RoundToStep(f.val, step), step) then [] else [ValChanged(f3)];
            before + SetStep(f, step).signals
              == if a == [] && b == [] && c == [] && NearlyEqual(f.step, step, step) then before + a + b + c
                 else before + a + b + c + [StepChanged(f4), Changed(f4)]
  {
  }

  // ---------- tolerance ----------

  lemma NearlyEqualIsReflexive(x: real, step: real)
    ensures NearlyEqual(x, x, step)
  {
  }

  // Two values count as equal within eight times the gap between 1 and the next double,
  // scaled by their size, or within a billionth of a step that can be used.
  lemma NearlyEqualIff(a: real, b: real, step: real)
    ensures NearlyEqual(a, b, step) <==>
              || Abs(b - a) <= 8.0 * EPSILON + 8.0 * EPSILON * Abs(a) + 8.0 * EPSILON * Abs(b)
              || (Abs(step) > MIN_DOUBLE && 1000000000.0 * Abs(b - a) <= Abs(step))
  {
    hide TwoToMinus;
    Scaled(EPSILON, Abs(a), Abs(b));
  }

  lemma Scaled(e: real, a: real, b: real)
    ensures e * (1.0 + a + b) * 8.0 == 8.0 * e + 8.0 * e * a + 8.0 * e * b
  {
  }

  lemma EpsilonIsTheGap()
    ensures EPSILON == TwoToMinus(52)
  {
    FourHalves(0);
    FourHalves(4);
    FourHalves(8);
    FourHalves(12);
    FourHalves(16);
    FourHalves(20);
    FourHalves(24);
    FourHalves(28);
    FourHalves(32);
    FourHalves(36);
    FourHalves(40);
    FourHalves(44);
    FourHalves(48);
  }

  // ---------- what the signals tell ----------

  // The order in which signals come.
  function Turn(m: Signal): nat {
    match m
    case MinChanged(_) => 0
    case MaxChanged(_) => 1
    case ValChanged(_) => 2
    case StepChanged(_) => 3
    case FlagsChanged(_) => 4
    case Changed(_) => 5
  }

  predicate Tells(signals: seq<Signal>, turn: nat) {
    exists m :: m in signals && Turn(m) == turn
  }

  lemma TellsJoin(a: seq<Signal>, b: seq<Signal>)
    ensures forall k :: Tells(a + b, k) <==> Tells(a, k) || Tells(b, k)
  {
  }

  lemma TellsOne(m: Signal)
    ensures forall k :: Tells([m], k) <==> Turn(m) == k
    ensures forall k :: !Tells([], k)
  {
    assert m in [m];
  }

  // Minimum before maximum before value before step, the common signal last, and each
  // at most once.
  predicate InTurn(signals: seq<Signal>) {
    forall i, j :: 0 <= i < j < |signals| ==> Turn(signals[i]) < Turn(signals[j])
  }

  // A handler sees the field that it is told of as it is in the end, and during a step
  // change the old step as long as fields are moving.
  predicate Shows(m: Signal, f: Fields, f': Fields) {
    match m
    case MinChanged(seen) => seen.min == f'.min && seen.step == f.step
    case MaxChanged(seen) => seen.max == f'.max && seen.step == f.step
    case ValChanged(seen) => seen.val == f'.val && seen.step == f.step
    case StepChanged(seen) => seen == f'
    case FlagsChanged(seen) => seen == f'
    case Changed(seen) => seen == f'
  }

  // The field of that turn moved by more than the tolerance.
  predicate Moved(f: Fields, f': Fields, turn: nat) {
    match turn
    case 0 => !NearlyEqual(f.min, f'.min, f'.step)
    case 1 => !NearlyEqual(f.max, f'.max, f'.step)
    case 2 => !NearlyEqual(f.val, f'.val, f'.step)
    case 3 => !NearlyEqual(f.step, f'.step, f'.step)
    case 4 => f.flags != f'.flags
    case _ => false
  }

  // Each signal is about its own field: minimum, maximum, value and flags are signalled
  // exactly when that field moved; a step change when the step or some field moved; and
  // the common signal when anything was.
  predicate Faithful(f: Fields, op: Operation, u: Update) {
    && (Tells(u.signals, 0) <==> Moved(f, u.fields, 0))
    && (Tells(u.signals, 1) <==> Moved(f, u.fields, 1))
    && (Tells(u.signals, 2) <==> Moved(f, u.fields, 2))
    && (Tells(u.signals, 3) <==> op.Step? && AnyMoved(f, u.fields))
    && (Tells(u.signals, 4) <==> Moved(f, u.fields, 4))
    && (Tells(u.signals, 5) <==> AnyMoved(f, u.fields) || Moved(f, u.fields, 4))
    && InTurn(u.signals) && forall m :: m in u.signals ==> Shows(m, f, u.fields)
  }

  predicate AnyMoved(f: Fields, f': Fields) {
    Moved(f, f', 0) || Moved(f, f', 1) || Moved(f, f', 2) || Moved(f, f', 3)
  }

  lemma SignalsAreFaithful(f: Fields, op: Operation)
    ensures Faithful(f, op, Perform(f, op))
  {
    if op.Step? { StepIsFaithful(f, op.x); } else { SetterIsFaithful(f, op); }
  }

  // The signal of the field that a setter other than that of the step is about.
  function OwnSignal(op: Operation, f': Fields): Signal
    requires !op.Step?
  {
    match op
    case Min(_) => MinChanged(f')
    case Max(_) => MaxChanged(f')
    case Val(_) => ValChanged(f')
    case Flags(_) => FlagsChanged(f')
  }

  lemma SetterSignalsAre(f: Fields, op: Operation)
    requires !op.Step?
    ensures var u := Perform(f, op); var m := OwnSignal(op, u.fields);
            && u.fields.step == f.step
            && u.signals == (if Moved(f, u.fields, Turn(m)) then [m, Changed(u.fields)] else [])
            && forall k :: k != Turn(m) ==> !Moved(f, u.fields, k)
  {
    hide RoundToStep, NearlyEqual;
    NearlyEqualIsReflexive(f.min, f.step);
    NearlyEqualIsReflexive(f.max, f.step);
    NearlyEqualIsReflexive(f.val, f.step);
    NearlyEqualIsReflexive(f.step, f.step);
  }

  lemma PairTells(w: bool, d: Signal, e: Signal)
    requires Turn(d) < Turn(e)
    ensures var all := if w then [d, e] else [];
            InTurn(all) && forall k :: Tells(all, k) <==> w && (Turn(d) == k || Turn(e) == k)
  {
    TellsOne(d);
    TellsOne(e);
    TellsJoin([d], [e]);
    assert [d, e] == [d] + [e];
    hide Tells, Turn;
  }

  lemma SetterIsFaithful(f: Fields, op: Operation)
    requires !op.Step?
    ensures Faithful(f, op, Perform(f, op))
  {
    SetterSignalsAre(f, op);
    var u := Perform(f, op);
    var m := OwnSignal(op, u.fields);
    hide Perform, Moved, Tells, InTurn;
    PairTells(Moved(f, u.fields, Turn(m)), m, Changed(u.fields));
  }

  // At most one signal, for a field that moved.
  function If(moved: bool, m: Signal): seq<Signal> {
    if moved then [m] else []
  }

  lemma IfTells(moved: bool, m: Signal)
    ensures forall k :: Tells(If(moved, m), k) <==> moved && Turn(m) == k
  {
    TellsOne(m);
  }

  // Three moves, and what closes a step change.
  lemma MovesTell(x: bool, y: bool, z: bool, w: bool, a: Signal, b: Signal, c: Signal, d: Signal, e: Signal)
    ensures var all := If(x, a) + If(y, b) + If(z, c) + (If(w, d) + If(w, e));
            forall k :: Tells(all, k) <==> (x && Turn(a) == k) || (y && Turn(b) == k) || (z && Turn(c) == k)
                                           || (w && Turn(d) == k) || (w && Turn(e) == k)
  {
    IfTells(x, a);
    IfTells(y, b);
    IfTells(z, c);
    IfTells(w, d);
    IfTells(w, e);
    hide If, Tells, Turn;
    TellsJoin(If(x, a), If(y, b));
    TellsJoin(If(x, a) + If(y, b), If(z, c));
    TellsJoin(If(w, d), If(w, e));
    TellsJoin(If(x, a) + If(y, b) + If(z, c), If(w, d) + If(w, e));
  }

  lemma MovesAreInTurn(x: bool, y: bool, z: bool, w: bool, a: Signal, b: Signal, c: Signal, d: Signal, e: Signal)
    requires Turn(a) < Turn(b) < Turn(c) < Turn(d) < Turn(e)
    ensures InTurn(If(x, a) + If(y, b) + If(z, c) + (If(w, d) + If(w, e)))
  {
    hide Turn;
  }

  lemma MembersOfMoves(x: bool, y: bool, z: bool, w: bool, a: Signal, b: Signal, c: Signal, d: Signal, e: Signal)
    ensures forall m :: m in If(x, a) + If(y, b) + If(z, c) + (If(w, d) + If(w, e)) ==> m == a || m == b || m == c || m == d || m == e
  {
  }

  // The signals of a step change, by the fields that moved.
  function StepSignals(f: Fields, f': Fields): seq<Signal> {
    var f1 := f.(min := f'.min);
    var f2 := f1.(max := f'.max);
    If(Moved(f, f', 0), MinChanged(f1)) + If(Moved(f, f', 1), MaxChanged(f2)) + If(Moved(f, f', 2), ValChanged(f2.(val := f'.val)))
      + (If(AnyMoved(f, f'), StepChanged(f')) + If(AnyMoved(f, f'), Changed(f')))
  }

  lemma StepSignalsAre(f: Fields, s: real)
    requires SetStep(f, s).accepted
    ensures var f' := SetStep(f, s).fields;
            f' == f.(min := f'.min, max := f'.max, val := f'.val, step := s) && SetStep(f, s).signals == StepSignals(f, f')
  {
    hide RoundToStep, NearlyEqual;
    NearlyEqualIsReflexive(f.min, s);
    NearlyEqualIsReflexive(f.max, s);
    NearlyEqualIsReflexive(f.val, s);
  }

  lemma StepSignalsTell(f: Fields, f': Fields)
    ensures forall k :: k < 3 ==> (Tells(StepSignals(f, f'), k) <==> Moved(f, f', k))
    ensures !Tells(StepSignals(f, f'), 4)
    ensures forall k :: k == 3 || k == 5 ==> (Tells(StepSignals(f, f'), k) <==> AnyMoved(f, f'))
  {
    var f1 := f.(min := f'.min);
    var f2 := f1.(max := f'.max);
    MovesTell(Moved(f, f', 0), Moved(f, f', 1), Moved(f, f', 2), AnyMoved(f, f'),
              MinChanged(f1), MaxChanged(f2), ValChanged(f2.(val := f'.val)), StepChanged(f'), Changed(f'));
    hide Moved, AnyMoved, Tells, If;
  }

  lemma StepSignalsShow(f: Fields, f': Fields)
    requires f' == f.(min := f'.min, max := f'.max, val := f'.val, step := f'.step)
    ensures InTurn(StepSignals(f, f')) && forall m :: m in StepSignals(f, f') ==> Shows(m, f, f')
  {
    var f1 := f.(min := f'.min);
    var f2 := f1.(max := f'.max);
    MovesAreInTurn(Moved(f, f', 0), Moved(f, f', 1), Moved(f, f', 2), AnyMoved(f, f'),
                   MinChanged(f1), MaxChanged(f2), ValChanged(f2.(val := f'.val)), StepChanged(f'), Changed(f'));
    MembersOfMoves(Moved(f, f', 0), Moved(f, f', 1), Moved(f, f', 2), AnyMoved(f, f'),
                   MinChanged(f1), MaxChanged(f2), ValChanged(f2.(val := f'.val)), StepChanged(f'), Changed(f'));
    hide Moved, AnyMoved, InTurn, If;
  }

  lemma StepIsFaithful(f: Fields, s: real)
    ensures Faithful(f, Step(s), SetStep(f, s))
  {
    if SetStep(f, s).accepted {
      StepSignalsAre(f, s);
      FlagsStay(f, s);
      var f' := SetStep(f, s).fields;
      StepSignalsTell(f, f');
      StepSignalsShow(f, f');
      hide Moved, AnyMoved, SetStep, StepSignals, Tells, InTurn, Shows;
    } else {
      hide NearlyEqual, RoundToStep;
      NearlyEqualIsReflexive(f.min, f.step);
      NearlyEqualIsReflexive(f.max, f.step);
      NearlyEqualIsReflexive(f.val, f.step);
      NearlyEqualIsReflexive(f.step, f.step);
      TellsOne(Changed(f));
    }
  }

  lemma FlagsStay(f: Fields, s: real)
    ensures !Moved(f, SetStep(f, s).fields, 4)
  {
    hide RoundToStep, NearlyEqual;
  }

  // ---------- the invariant of every record ----------

  // Each field is on its grid up to the tolerance, and the grid points are in order.
  ghost predicate Sound(f: Fields) {
    && Usable(f.step)
    && NearGrid(f.min, f.step) && NearGrid(f.max, f.step) && NearGrid(f.val, f.step)
    && RoundToStep(f.min, f.step) <= RoundToStep(f.val, f.step) <= RoundToStep(f.max, f.step)
  }

  predicate NearGrid(x: real, step: real) {
    NearlyEqual(x, RoundToStep(x, step), step)
  }

  predicate Ordered(f: Fields) {
    f.min <= f.val <= f.max
  }

  lemma SnappedIsSound(x: real, step: real)
    ensures RoundToStep(RoundToStep(x, step), step) == RoundToStep(x, step) && NearGrid(RoundToStep(x, step), step)
  {
    SnapIsIdempotent(x, step);
    NearlyEqualIsReflexive(RoundToStep(x, step), step);
  }

  lemma RegridIsNear(x: real, step: real)
    ensures RoundToStep(Regrid(x, step), step) == RoundToStep(x, step) && NearGrid(Regrid(x, step), step)
  {
    SnappedIsSound(x, step);
  }

  datatype Operation = Min(x: real) | Max(x: real) | Val(x: real) | Step(x: real) | Flags(bits: bv64)

  function Perform(f: Fields, op: Operation): Update {
    match op
    case Min(x) => SetMin(f, x)
    case Max(x) => SetMax(f, x)
    case Val(x) => SetVal(f, x)
    case Step(x) => SetStep(f, x)
    case Flags(bits) => SetFlags(f, bits)
  }

  // Every setter keeps the record sound; a rejected one changes and signals nothing.
  lemma PerformKeepsSound(f: Fields, op: Operation)
    requires Sound(f)
    ensures Sound(Perform(f, op).fields)
    ensures !Perform(f, op).accepted ==> Perform(f, op).fields == f && Perform(f, op).signals == []
  {
    hide RoundToStep, NearlyEqual;
    match op
    case Min(x) => SnappedIsSound(x, f.step); if RoundToStep(x, f.step) <= f.val { SnapIsMonotone(RoundToStep(x, f.step), f.val, f.step); }
    case Max(x) => SnappedIsSound(x, f.step); if RoundToStep(x, f.step) >= f.val { SnapIsMonotone(f.val, RoundToStep(x, f.step), f.step); }
    case Val(x) =>
      SnappedIsSound(x, f.step);
      if f.min <= RoundToStep(x, f.step) <= f.max {
        SnapIsMonotone(f.min, RoundToStep(x, f.step), f.step);
        SnapIsMonotone(RoundToStep(x, f.step), f.max, f.step);
      }
    case Step(x) => RegridIsNear(f.min, x); RegridIsNear(f.max, x); RegridIsNear(f.val, x);
    case Flags(_) =>
  }

  function Performs(f: Fields, ops: seq<Operation>): Fields
    decreases |ops|
  {
    if ops == [] then f else Performs(Perform(f, ops[0]).fields, ops[1..])
  }

  // In every run of setters, from any record that the constructor makes.
  lemma {:induction false} RunKeepsSound(f: Fields, ops: seq<Operation>)
    requires Sound(f)
    ensures Sound(Performs(f, ops))
    decreases |ops|
  {
    if ops != [] {
      PerformKeepsSound(f, ops[0]);
      RunKeepsSound(Perform(f, ops[0]).fields, ops[1..]);
    }
  }

  // The record that a setter is asked for; Step moves every field that is off the grid.
  function Wanted(f: Fields, op: Operation): Fields {
    match op
    case Min(x) => f.(min := RoundToStep(x, f.step))
    case Max(x) => f.(max := RoundToStep(x, f.step))
    case Val(x) => f.(val := RoundToStep(x, f.step))
    case Step(s) => Fields(Regrid(f.min, s), Regrid(f.max, s), s, Regrid(f.val, s), f.flags)
    case Flags(bits) => f.(flags := bits)
  }

  // A setter is accepted exactly if the record that it asks for is in order, for a step
  // by its grid points; and then the record is that one.
  lemma AcceptedIff(f: Fields, op: Operation)
    requires Ordered(f)
    ensures var u := Perform(f, op); var g := Wanted(f, op);
            && (u.accepted <==> if op.Step? then Usable(op.x) else Ordered(g))
            && u.fields == if u.accepted then g else f
  {
    hide RoundToStep, NearlyEqual, Regrid;
    if op.Step? && Usable(op.x) { StepAcceptedWhenOrdered(f, op.x); }
  }

  // What Regrid leaves: the field as it was if that was near enough to the grid, and
  // otherwise the nearest point of the grid.
  lemma RegridMoves(x: real, step: real)
    requires Usable(step)
    ensures NearGrid(x, step) ==> Regrid(x, step) == x
    ensures !NearGrid(x, step) ==> OnGrid(Regrid(x, step), step) && Abs(Regrid(x, step) - x) <= 0.5 * Abs(step)
  {
    hide RoundToStep, NearlyEqual, OnGrid;
    SnapIsOnGrid(x, step);
    SnapIsNearest(x, step, RoundToStep(x, step));
  }

  // A usable step is never rejected while the fields are in order.
  lemma StepAcceptedWhenOrdered(f: Fields, step: real)
    requires Usable(step) && Ordered(f)
    ensures SetStep(f, step).accepted
  {
    hide RoundToStep, NearlyEqual;
    SnapIsMonotone(f.min, f.val, step);
    SnapIsMonotone(f.val, f.max, step);
  }

  // The fields themselves stay in order unless a step change leaves one of them off
  // the new grid.
  lemma OrderKept(f: Fields, op: Operation)
    requires Ordered(f)
    requires op.Step? ==> forall x :: x in {f.min, f.max, f.val} && NearGrid(x, op.x) ==> RoundToStep(x, op.x) == x
    ensures Ordered(Perform(f, op).fields)
  {
  }

  // One of two neighbours stays where it is, within the tolerance, and the other
  // moves past it.
  predicate Crosses(low: real, high: real, step: real) {
    || (NearGrid(low, step) && !NearGrid(high, step) && low > RoundToStep(high, step))
    || (!NearGrid(low, step) && NearGrid(high, step) && RoundToStep(low, step) > high)
  }

  // Exactly when a step change from ordered fields loses the order.
  lemma OrderLostIff(f: Fields, step: real)
    requires Ordered(f) && Usable(step)
    ensures !Ordered(SetStep(f, step).fields) <==> Crosses(f.min, f.val, step) || Crosses(f.val, f.max, step)
  {
    hide RoundToStep, NearlyEqual;
    StepAcceptedWhenOrdered(f, step);
  }

  // It can: the minimum stays within the tolerance, the value moves below it.
  lemma OrderLost()
    ensures var f := Fields(0.000000001, 1.0, 0.000000001, 0.000000002, 0);
            && Sound(f) && Ordered(f) && SetStep(f, 1.0).accepted && !Ordered(SetStep(f, 1.0).fields)
  {
    var f := Fields(0.000000001, 1.0, 0.000000001, 0.000000002, 0);
    MinDoubleIsTiny();
    SnapIsUnique(f.min, 1.0, Times(0, 1.0));
    SnapIsUnique(f.max, 1.0, Times(1, 1.0));
    SnapIsUnique(f.val, 1.0, Times(0, 1.0));
    SnapIsUnique(f.min, f.step, Times(1, f.step));
    SnapIsUnique(f.max, f.step, Times(1000000000, f.step));
    SnapIsUnique(f.val, f.step, Times(2, f.step));
  }

  lemma AcceptedValRestoresOrder(f: Fields, x: real)
    requires SetVal(f, x).accepted
    ensures Ordered(SetVal(f, x).fields)
  {
  }
}
