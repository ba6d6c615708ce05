// What expressions mean: laws that fix the operators, the functions and the order of
// look-ups, whatever way the evaluator computes them.

module Semantics {
  import opened Options
  import opened Exprs
  import Arithmetic

  // ---------- operators ----------

  // An operand against one that differs from it by d.
  lemma Comparisons(l: real, d: real)
    ensures Operate(Lt, l, l + d) == Operate(Gt, l + d, l) == Value(if d > 0.0 then 1.0 else 0.0)
    ensures Operate(Le, l, l + d) == Operate(Ge, l + d, l) == Value(if d >= 0.0 then 1.0 else 0.0)
    ensures Operate(Eq, l, l + d) == Value(if d == 0.0 then 1.0 else 0.0)
    ensures Operate(Ne, l, l + d) == Value(if d == 0.0 then 0.0 else 1.0)
  {
  }

  // Addition moves with its left operand from where it is neutral; subtraction undoes it.
  lemma Sums(l: real, r: real, d: real)
    ensures Operate(Add, 0.0, r) == Value(r) && Operate(Add, l, r).Value?
    ensures Operate(Add, l + d, r) == Value(Operate(Add, l, r).v + d)
    ensures Operate(Sub, Operate(Add, l, r).v, r) == Value(l)
  {
  }

  // Multiplication has a unit, distributes, commutes and keeps signs; division undoes
  // it, except by zero, which makes no difference between dividends.
  lemma Products(l: real, r: real, d: real)
    ensures Operate(Mul, l, r).Value? && Operate(Mul, 1.0, r) == Value(r) && Operate(Mul, l, r) == Operate(Mul, r, l)
    ensures Operate(Mul, l + d, r) == Value(Operate(Mul, l, r).v + Operate(Mul, d, r).v)
    ensures l >= 0.0 && r >= 0.0 ==> Operate(Mul, l, r).v >= 0.0
    ensures r != 0.0 ==> Operate(Div, Operate(Mul, l, r).v, r) == Value(l)
    ensures Operate(Div, l, 0.0).Value? && Operate(Div, l, 0.0) == Operate(Div, d, 0.0)
  {
    Distributes(l, d, r);
    if r != 0.0 { Cancels(l, r); }
  }

  lemma Distributes(l: real, d: real, r: real)
    ensures (l + d) * r == l * r + d * r
  {
  }

  lemma Cancels(l: real, r: real)
    requires r != 0.0
    ensures l * r / r == l
  {
  }

  // A number counts as true if it is not 0: conjunction is the product of the truths,
  // disjunction the truth of their sum.
  lemma Connectives(l: real, r: real)
    ensures var a, b := Operate(Ne, l, 0.0).v, Operate(Ne, r, 0.0).v;
            && Operate(And, l, r) == Operate(Mul, a, b)
            && Operate(Or, l, r) == Operate(Ne, Operate(Add, a, b).v, 0.0)
  {
  }

  lemma UnknownFails(text: string, l: real, r: real)
    ensures Operate(Unknown(text), l, r) == Failed(InvalidValue)
  {
  }

  // Every operator, also a conjunction that is false already, needs both its operands;
  // if both fail, the error is the left one's.
  lemma OperandsAreNeeded(d: nat, op: Operator, l: Expr, r: Expr, w: World, vars: Vars)
    requires Eval(d, l, w, vars).Some? && Eval(d, r, w, vars).Some?
    ensures var a, b, c := Eval(d, l, w, vars).value, Eval(d, r, w, vars).value, Eval(d, Op(op, l, r), w, vars);
            && c.Some?
            && (a.Failed? ==> c.value == a) && (a.Value? && b.Failed? ==> c.value == b)
            && (a.Value? && b.Value? ==> c.value == Operate(op, a.v, b.v))
  {
  }

  // ---------- functions ----------

  lemma ArgValues(d: nat, args: seq<Expr>, w: World, vars: Vars, vs: seq<real>)
    requires |args| == |vs| <= 3 && forall i :: 0 <= i < |args| ==> Eval(d, args[i], w, vars) == Some(Value(vs[i]))
    ensures EvalArgs(d, args, w, vars) == Some(Values(vs))
  {
    if args != [] {
      ArgValues(d, args[1..], w, vars, vs[1..]);
      assert vs == [vs[0]] + vs[1..];
    }
  }

  // LIMIT keeps a number between bounds that are in order.
  lemma LimitClamps(d: nat, args: seq<Expr>, w: World, vars: Vars, vs: seq<real>)
    requires |args| == |vs| == 3 && forall i :: 0 <= i < 3 ==> Eval(d, args[i], w, vars) == Some(Value(vs[i]))
    ensures var r := Eval(d, Func(Limit, args), w, vars);
            && r.Some? && r.value.Value?
            && (vs[0] < vs[1] ==> r.value.v == vs[1])
            && (vs[0] > vs[2] && vs[0] >= vs[1] ==> r.value.v == vs[2])
            && (vs[1] <= vs[0] <= vs[2] ==> r.value.v == vs[0])
            && (vs[1] <= vs[2] ==> vs[1] <= r.value.v <= vs[2])
  {
    ArgValues(d, args, w, vars, vs);
  }

  // ROUND yields the nearest integer, and of two the one further from zero.
  lemma RoundsToNearest(d: nat, arg: Expr, w: World, vars: Vars, v: real)
    requires Eval(d, arg, w, vars) == Some(Value(v))
    ensures var r := Eval(d, Func(Round, [arg]), w, vars);
            && r.Some? && r.value.Value? && r.value.v == r.value.v.Floor as real
            && Arithmetic.Abs(r.value.v - v) <= 0.5
            && (Arithmetic.Abs(r.value.v - v) == 0.5 ==> Arithmetic.Abs(r.value.v) > Arithmetic.Abs(v))
  {
    ArgValues(d, [arg], w, vars, [v]);
    Arithmetic.RoundIsNearest(v);
  }

  lemma {:induction false} FirstFailureStops(d: nat, args: seq<Expr>, i: nat, w: World, vars: Vars)
    requires i < |args| && Eval(d, args[i], w, vars).Some? && Eval(d, args[i], w, vars).value.Failed?
    requires forall k :: 0 <= k < i ==> Eval(d, args[k], w, vars).Some? && Eval(d, args[k], w, vars).value.Value?
    ensures EvalArgs(d, args, w, vars) == Some(Stopped(Eval(d, args[i], w, vars).value.error))
    decreases i
  {
    if i > 0 {
      assert Eval(d, args[0], w, vars).value.Value?;
      forall k | 0 <= k < i - 1 ensures Eval(d, args[1..][k], w, vars).Some? && Eval(d, args[1..][k], w, vars).value.Value? {
        assert args[1..][k] == args[k + 1];
      }
      FirstFailureStops(d, args[1..], i - 1, w, vars);
    }
  }

  // The first argument that fails decides what a call fails with.
  lemma FirstFailureWins(d: nat, fn: Fn, args: seq<Expr>, i: nat, w: World, vars: Vars)
    requires i < |args| && Eval(d, args[i], w, vars).Some? && Eval(d, args[i], w, vars).value.Failed?
    requires forall k :: 0 <= k < i ==> Eval(d, args[k], w, vars).Some? && Eval(d, args[k], w, vars).value.Value?
    ensures Eval(d, Func(fn, args), w, vars) == Eval(d, args[i], w, vars)
  {
    FirstFailureStops(d, args, i, w, vars);
  }

  // ---------- look-ups ----------

  lemma SetAndCleared(flags: bv64, bit: bv64)
    ensures bit != 0 ==> (flags | bit) & bit != 0
    ensures (flags & !bit) & bit == 0
  {
  }

  // FLAG is 1 with the bit set and 0 with it cleared, in an input before an output of
  // the same name, and never looks at variables.
  lemma FlagTests(d: nat, id: Name, bit: bv64, flags: bv64, val: real, w: World, vars: Vars)
    requires bit != 0
    ensures var on, off := Point(val, flags | bit), Point(val, flags & !bit);
            && Eval(d, Flag(id, bit), w.(inputs := w.inputs[id := on]), vars) == Some(Value(1.0))
            && Eval(d, Flag(id, bit), w.(inputs := w.inputs[id := off]), vars) == Some(Value(0.0))
            && (id !in w.inputs ==>
                  && Eval(d, Flag(id, bit), w.(outputs := w.outputs[id := on]), vars) == Some(Value(1.0))
                  && Eval(d, Flag(id, bit), w.(outputs := w.outputs[id := off]), vars) == Some(Value(0.0)))
            && (id !in w.inputs && id !in w.outputs ==> Eval(d, Flag(id, bit), w, vars) == Some(Failed(UndefinedIdentifier(id))))
  {
    SetAndCleared(flags, bit);
  }

  // An input hides an output and a variable of its name, an output a variable; a name
  // that is none of them is undefined.
  lemma InputsHideOutputs(d: nat, x: Name, p: Point, w: World, vars: Vars)
    ensures Eval(d, Ref(x), w.(inputs := w.inputs[x := p]), vars) == Some(Value(p.val))
    ensures x !in w.inputs ==> Eval(d, Ref(x), w.(outputs := w.outputs[x := p]), vars) == Some(Value(p.val))
    ensures x !in w.inputs && x !in w.outputs && x !in vars ==> Eval(d, Ref(x), w, vars) == Some(Failed(UndefinedIdentifier(x)))
  {
  }

  // The expression with every variable replaced by what it holds, and that in turn, as
  // far as d look-ups go.
  function Inlined(d: nat, e: Expr, w: World, vars: Vars): Expr
    decreases d, e, 1
  {
    match e
    case Op(op, l, r) => Op(op, Inlined(d, l, w, vars), Inlined(d, r, w, vars))
    case Ref(x) => if x in vars && x !in w.inputs && x !in w.outputs && d > 0 then Inlined(d - 1, vars[x], w, vars) else e
    case Func(fn, args) => Func(fn, AllInlined(d, args, w, vars))
    case _ => e
  }

  function AllInlined(d: nat, es: seq<Expr>, w: World, vars: Vars): (r: seq<Expr>)
    ensures |r| == |es|
    decreases d, es, 0
  {
    if es == [] then [] else [Inlined(d, es[0], w, vars)] + AllInlined(d, es[1..], w, vars)
  }

  // A variable means what it holds, at the moment of the look-up: an evaluation that
  // returns is the evaluation of the inlined expression, for which no variable is needed.
  lemma {:induction false} VariablesMeanWhatTheyHold(d: nat, e: Expr, w: World, vars: Vars)
    requires Eval(d, e, w, vars).Some?
    ensures Eval(0, Inlined(d, e, w, vars), w, map[]) == Eval(d, e, w, vars)
    decreases d, e, 1
  {
    match e
    case Op(op, l, r) =>
      VariablesMeanWhatTheyHold(d, l, w, vars);
      if Eval(d, r, w, vars).Some? { VariablesMeanWhatTheyHold(d, r, w, vars); }
    case Ref(x) =>
      if x in vars && x !in w.inputs && x !in w.outputs { VariablesMeanWhatTheyHold(d - 1, vars[x], w, vars); }
    case Func(_, args) => ArgumentsMeanWhatTheyHold(d, args, w, vars);
    case _ =>
  }

  lemma {:induction false} ArgumentsMeanWhatTheyHold(d: nat, es: seq<Expr>, w: World, vars: Vars)
    requires EvalArgs(d, es, w, vars).Some?
    ensures EvalArgs(0, AllInlined(d, es, w, vars), w, map[]) == EvalArgs(d, es, w, vars)
    decreases d, es, 0
  {
    if es != [] {
      VariablesMeanWhatTheyHold(d, es[0], w, vars);
      if EvalArgs(d, es[1..], w, vars).Some? { ArgumentsMeanWhatTheyHold(d, es[1..], w, vars); }
      assert AllInlined(d, es, w, vars)[1..] == AllInlined(d, es[1..], w, vars);
    }
  }
}
