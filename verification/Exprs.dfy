// The rule expressions of src/expr.c: evaluation through the live variable
// table, the dependency search behind expr_have_ref_to, and when both end.
//
// A variable holds an unevaluated expression, so reading a variable evaluates
// that expression on the spot. `depth` bounds how many variable look-ups may be
// nested; None means that more were needed. A computation that is None at every
// depth is one that never returns in the program.

module Exprs {
  import opened Options
  import Arithmetic

  type Name = string

  datatype Operator =
    | Eq | Ne | Lt | Le | Gt | Ge | And | Or | Add | Sub | Mul | Div
    | Unknown(text: string)

  datatype Fn = Min | Max | Round | Limit

  datatype Expr =
    | Literal(val: real)
    | Op(op: Operator, left: Expr, right: Expr)
    | Ref(id: Name)
    | Func(fn: Fn, args: seq<Expr>)
    | Flag(id: Name, bit: bv64)

  datatype Error = UndefinedIdentifier(id: Name) | InvalidValue
  datatype Outcome = Value(v: real) | Failed(error: Error)
  datatype Values = Values(vs: seq<real>) | Stopped(error: Error)

  // What the core caches of one input or output.
  datatype Point = Point(val: real, flags: bv64)
  datatype World = World(inputs: map<Name, Point>, outputs: map<Name, Point>)
  type Vars = map<Name, Expr>

  // Stands for whatever the platform yields for x / 0.
  const QUOTIENT_BY_ZERO: real := 0.0

  function Truth(b: bool): real { if b then 1.0 else 0.0 }

  function Operate(op: Operator, l: real, r: real): Outcome {
    match op
    case Eq => Value(Truth(l == r))
    case Ne => Value(Truth(l != r))
    case Lt => Value(Truth(l < r))
    case Le => Value(Truth(l <= r))
    case Gt => Value(Truth(l > r))
    case Ge => Value(Truth(l >= r))
    case And => Value(Truth(l != 0.0 && r != 0.0))
    case Or => Value(Truth(l != 0.0 || r != 0.0))
    case Add => Value(l + r)
    case Sub => Value(l - r)
    case Mul => Value(l * r)
    case Div => Value(if r == 0.0 then QUOTIENT_BY_ZERO else l / r)
    case Unknown(_) => Failed(InvalidValue)
  }

  // Both operands are evaluated, the left one first; the first failure wins.
  function Combine(op: Operator, l: Option<Outcome>, r: Option<Outcome>): Option<Outcome> {
    if l.None? || l.value.Failed? then l
    else if r.None? || r.value.Failed? then r
    else Some(Operate(op, l.value.v, r.value.v))
  }

  function FlagValue(flags: bv64, bit: bv64): Outcome {
    Value(Truth(flags & bit != 0))
  }

  function Smallest(vs: seq<real>, best: real): real {
    if vs == [] then best else Smallest(vs[1..], if vs[0] < best then vs[0] else best)
  }

  function Largest(vs: seq<real>, best: real): real {
    if vs == [] then best else Largest(vs[1..], if vs[0] > best then vs[0] else best)
  }

  // ROUND and LIMIT read a fixed number of arguments; with fewer the call has no
  // meaning, and the model lets it fail.
  function Finish(fn: Fn, vs: seq<real>): Outcome {
    match fn
    case Min => Value(Smallest(vs, Arithmetic.MAX_DOUBLE))
    case Max => Value(Largest(vs, Arithmetic.MIN_DOUBLE))
    case Round => if |vs| < 1 then Failed(InvalidValue) else Value(Arithmetic.Round(vs[0]) as real)
    case Limit =>
      if |vs| < 3 then Failed(InvalidValue)
      else Value(if vs[0] < vs[1] then vs[1] else if vs[0] > vs[2] then vs[2] else vs[0])
  }

  function Call(fn: Fn, args: Option<Values>): Option<Outcome> {
    if args.None? then None
    else if args.value.Stopped? then Some(Failed(args.value.error))
    else Some(Finish(fn, args.value.vs))
  }

  function Eval(depth: nat, e: Expr, w: World, vars: Vars): Option<Outcome>
    decreases depth, e, 1
  {
    match e
    case Literal(v) => Some(Value(v))
    case Op(op, l, r) => Combine(op, Eval(depth, l, w, vars), Eval(depth, r, w, vars))
    case Ref(id) =>
      if id in w.inputs then Some(Value(w.inputs[id].val))
      else if id in w.outputs then Some(Value(w.outputs[id].val))
      else if id in vars then (if depth == 0 then None else Eval(depth - 1, vars[id], w, vars))
      else Some(Failed(UndefinedIdentifier(id)))
    case Func(fn, args) => Call(fn, EvalArgs(depth, args, w, vars))
    case Flag(id, bit) =>
      if id in w.inputs then Some(FlagValue(w.inputs[id].flags, bit))
      else if id in w.outputs then Some(FlagValue(w.outputs[id].flags, bit))
      else Some(Failed(UndefinedIdentifier(id)))
  }

  // Left to right, stopping at the first failure.
  function EvalArgs(depth: nat, args: seq<Expr>, w: World, vars: Vars): Option<Values>
    decreases depth, args, 0
  {
    if args == [] then Some(Values([]))
    else
      var x := Eval(depth, args[0], w, vars);
      if x.None? then None
      else if x.value.Failed? then Some(Stopped(x.value.error))
      else
        var rest := EvalArgs(depth, args[1..], w, vars);
        if rest.None? || rest.value.Stopped? then rest
        else Some(Values([x.value.v] + rest.value.vs))
  }

  // ---------- what MIN and MAX return ----------

  lemma {:induction false} LargestBounds(vs: seq<real>, best: real)
    ensures var m := Largest(vs, best); m >= best && (m == best || m in vs) && forall v :: v in vs ==> v <= m
    decreases |vs|
  {
    if vs != [] {
      LargestBounds(vs[1..], if vs[0] > best then vs[0] else best);
      assert vs == [vs[0]] + vs[1..];
    }
  }

  lemma {:induction false} SmallestBounds(vs: seq<real>, best: real)
    ensures var m := Smallest(vs, best); m <= best && (m == best || m in vs) && forall v :: v in vs ==> v >= m
    decreases |vs|
  {
    if vs != [] {
      SmallestBounds(vs[1..], if vs[0] < best then vs[0] else best);
      assert vs == [vs[0]] + vs[1..];
    }
  }

  // MAX is the highest of its arguments exactly when one of them reaches the
  // smallest positive double, from which it starts; otherwise it is that number.
  lemma MaxIsHighestIff(vs: seq<real>)
    ensures var m := Finish(Max, vs).v; var start := Arithmetic.MIN_DOUBLE;
            && (m in vs && (forall v :: v in vs ==> v <= m) <==> exists v :: v in vs && v >= start)
            && ((forall v :: v in vs ==> v < start) ==> m == start)
  {
    LargestBounds(vs, Arithmetic.MIN_DOUBLE);
  }

  // MIN has no such gap below the largest double.
  lemma MinIsLowestIff(vs: seq<real>)
    ensures var m := Finish(Min, vs).v;
            m in vs && (forall v :: v in vs ==> v >= m) <==> exists v :: v in vs && v <= Arithmetic.MAX_DOUBLE
  {
    SmallestBounds(vs, Arithmetic.MAX_DOUBLE);
  }

  // The C `a || b` on searches that may not return.
  function Either(a: Option<bool>, b: Option<bool>): Option<bool> {
    if a == Some(false) then b else a
  }

  function HaveRef(depth: nat, e: Expr, id: Name, vars: Vars): Option<bool>
    decreases depth, e, 1
  {
    match e
    case Literal(_) => Some(false)
    case Op(_, l, r) => Either(HaveRef(depth, l, id, vars), HaveRef(depth, r, id, vars))
    case Ref(x) =>
      if x == id then Some(true)
      else if x in vars then (if depth == 0 then None else HaveRef(depth - 1, vars[x], id, vars))
      else Some(false)
    case Func(_, args) => AnyRef(depth, args, id, vars)
    case Flag(x, _) => Some(x == id)
  }

  function AnyRef(depth: nat, es: seq<Expr>, id: Name, vars: Vars): Option<bool>
    decreases depth, es, 0
  {
    if es == [] then Some(false)
    else Either(HaveRef(depth, es[0], id, vars), AnyRef(depth, es[1..], id, vars))
  }

  // Names an expression looks up as values, and all names it contains.
  function Refs(e: Expr): set<Name> {
    match e
    case Literal(_) => {}
    case Op(_, l, r) => Refs(l) + Refs(r)
    case Ref(x) => {x}
    case Func(_, args) => RefsOf(args)
    case Flag(_, _) => {}
  }

  function RefsOf(es: seq<Expr>): set<Name> {
    if es == [] then {} else Refs(es[0]) + RefsOf(es[1..])
  }

  function Mentions(e: Expr): set<Name> {
    match e
    case Literal(_) => {}
    case Op(_, l, r) => Mentions(l) + Mentions(r)
    case Ref(x) => {x}
    case Func(_, args) => MentionsOf(args)
    case Flag(x, _) => {x}
  }

  function MentionsOf(es: seq<Expr>): set<Name> {
    if es == [] then {} else Mentions(es[0]) + MentionsOf(es[1..])
  }

  lemma {:induction false} RefsAreMentioned(e: Expr)
    ensures Refs(e) <= Mentions(e)
    decreases e, 1
  {
    match e
    case Op(_, l, r) => RefsAreMentioned(l); RefsAreMentioned(r);
    case Func(_, args) => RefsOfAreMentioned(args);
    case _ =>
  }

  lemma {:induction false} RefsOfAreMentioned(es: seq<Expr>)
    ensures RefsOf(es) <= MentionsOf(es)
    decreases es, 0
  {
    if es != [] {
      RefsAreMentioned(es[0]);
      RefsOfAreMentioned(es[1..]);
    }
  }

  // ---------- more depth never changes an answer ----------

  lemma {:induction false} EvalMonotone(d: nat, d': nat, e: Expr, w: World, vars: Vars)
    requires d <= d' && Eval(d, e, w, vars).Some?
    ensures Eval(d', e, w, vars) == Eval(d, e, w, vars)
    decreases d, e, 1
  {
    match e
    case Literal(_) =>
    case Op(_, l, r) =>
      EvalMonotone(d, d', l, w, vars);
      if Eval(d, r, w, vars).Some? { EvalMonotone(d, d', r, w, vars); }
    case Ref(id) =>
      if id !in w.inputs && id !in w.outputs && id in vars {
        EvalMonotone(d - 1, d' - 1, vars[id], w, vars);
      }
    case Func(_, args) => EvalArgsMonotone(d, d', args, w, vars);
    case Flag(_, _) =>
  }

  lemma {:induction false} EvalArgsMonotone(d: nat, d': nat, args: seq<Expr>, w: World, vars: Vars)
    requires d <= d' && EvalArgs(d, args, w, vars).Some?
    ensures EvalArgs(d', args, w, vars) == EvalArgs(d, args, w, vars)
    decreases d, args, 0
  {
    if args != [] {
      EvalMonotone(d, d', args[0], w, vars);
      if EvalArgs(d, args[1..], w, vars).Some? { EvalArgsMonotone(d, d', args[1..], w, vars); }
    }
  }

  lemma {:induction false} HaveRefMonotone(d: nat, d': nat, e: Expr, id: Name, vars: Vars)
    requires d <= d' && HaveRef(d, e, id, vars).Some?
    ensures HaveRef(d', e, id, vars) == HaveRef(d, e, id, vars)
    decreases d, e, 1
  {
    match e
    case Literal(_) =>
    case Op(_, l, r) =>
      HaveRefMonotone(d, d', l, id, vars);
      if HaveRef(d, r, id, vars).Some? { HaveRefMonotone(d, d', r, id, vars); }
    case Ref(x) =>
      if x != id && x in vars { HaveRefMonotone(d - 1, d' - 1, vars[x], id, vars); }
    case Func(_, args) => AnyRefMonotone(d, d', args, id, vars);
    case Flag(_, _) =>
  }

  lemma {:induction false} AnyRefMonotone(d: nat, d': nat, es: seq<Expr>, id: Name, vars: Vars)
    requires d <= d' && AnyRef(d, es, id, vars).Some?
    ensures AnyRef(d', es, id, vars) == AnyRef(d, es, id, vars)
    decreases d, es, 0
  {
    if es != [] {
      HaveRefMonotone(d, d', es[0], id, vars);
      if AnyRef(d, es[1..], id, vars).Some? { AnyRefMonotone(d, d', es[1..], id, vars); }
    }
  }

  // ---------- the dependency search decides reachability ----------

  // p is a chain of variables from e to one whose expression contains id.
  ghost predicate Reaches(p: seq<Name>, e: Expr, id: Name, vars: Vars) {
    if p == [] then id in Mentions(e)
    else p[0] in Refs(e) && p[0] in vars && Reaches(p[1..], vars[p[0]], id, vars)
  }

  lemma {:induction false} SearchFindsPath(d: nat, e: Expr, id: Name, vars: Vars) returns (p: seq<Name>)
    requires HaveRef(d, e, id, vars) == Some(true)
    ensures Reaches(p, e, id, vars)
    decreases d, e, 1
  {
    match e
    case Op(_, l, r) =>
      if HaveRef(d, l, id, vars) == Some(true) { p := SearchFindsPath(d, l, id, vars); }
      else { p := SearchFindsPath(d, r, id, vars); }
    case Ref(x) =>
      if x == id { p := []; }
      else {
        p := SearchFindsPath(d - 1, vars[x], id, vars);
        p := [x] + p;
      }
    case Func(_, args) => p := SearchFindsPathOf(d, args, id, vars); PathLifts(p, e, id, vars);
    case Flag(_, _) => p := [];
  }

  lemma {:induction false} SearchFindsPathOf(d: nat, es: seq<Expr>, id: Name, vars: Vars) returns (p: seq<Name>)
    requires AnyRef(d, es, id, vars) == Some(true)
    ensures if p == [] then id in MentionsOf(es)
            else p[0] in RefsOf(es) && p[0] in vars && Reaches(p[1..], vars[p[0]], id, vars)
    decreases d, es, 0
  {
    if HaveRef(d, es[0], id, vars) == Some(true) { p := SearchFindsPath(d, es[0], id, vars); }
    else { p := SearchFindsPathOf(d, es[1..], id, vars); }
  }

  lemma PathLifts(p: seq<Name>, e: Expr, id: Name, vars: Vars)
    requires e.Func?
    requires if p == [] then id in MentionsOf(e.args)
             else p[0] in RefsOf(e.args) && p[0] in vars && Reaches(p[1..], vars[p[0]], id, vars)
    ensures Reaches(p, e, id, vars)
  {
  }

  // A completed search without a hit met every name in e, and every variable it
  // may look up has itself been searched without a hit, one level deeper.
  lemma {:induction false} NoHit(d: nat, e: Expr, id: Name, vars: Vars)
    requires HaveRef(d, e, id, vars) == Some(false)
    ensures id !in Mentions(e)
    ensures forall x :: x in Refs(e) && x in vars ==> d > 0 && HaveRef(d - 1, vars[x], id, vars) == Some(false)
    decreases e, 1
  {
    match e
    case Op(_, l, r) => NoHit(d, l, id, vars); NoHit(d, r, id, vars);
    case Func(_, args) => NoHitOf(d, args, id, vars);
    case _ =>
  }

  lemma {:induction false} NoHitOf(d: nat, es: seq<Expr>, id: Name, vars: Vars)
    requires AnyRef(d, es, id, vars) == Some(false)
    ensures id !in MentionsOf(es)
    ensures forall x :: x in RefsOf(es) && x in vars ==> d > 0 && HaveRef(d - 1, vars[x], id, vars) == Some(false)
    decreases es, 0
  {
    if es != [] {
      NoHit(d, es[0], id, vars);
      NoHitOf(d, es[1..], id, vars);
    }
  }

  lemma {:induction false} NoHitNoPath(d: nat, e: Expr, id: Name, vars: Vars, p: seq<Name>)
    requires HaveRef(d, e, id, vars) == Some(false)
    ensures !Reaches(p, e, id, vars)
    decreases p
  {
    NoHit(d, e, id, vars);
    if p != [] && p[0] in Refs(e) && p[0] in vars {
      NoHitNoPath(d - 1, vars[p[0]], id, vars, p[1..]);
    }
  }

  ghost predicate Reachable(e: Expr, id: Name, vars: Vars) {
    exists p :: Reaches(p, e, id, vars)
  }

  lemma SearchDecidesReachability(d: nat, e: Expr, id: Name, vars: Vars)
    requires HaveRef(d, e, id, vars).Some?
    ensures HaveRef(d, e, id, vars).value <==> Reachable(e, id, vars)
  {
    if HaveRef(d, e, id, vars).value {
      var p := SearchFindsPath(d, e, id, vars);
      assert Reaches(p, e, id, vars);
    } else {
      forall p ensures !Reaches(p, e, id, vars) { NoHitNoPath(d, e, id, vars, p); }
    }
  }

  // ---------- a "no" from the dependency search is sound ----------

  // Two tables agree on every name but id, which may even appear or vanish.
  ghost predicate SameBut<V>(a: map<Name, V>, b: map<Name, V>, id: Name) {
    forall x {:trigger x in a} {:trigger x in b} :: x != id ==> (x in a <==> x in b) && (x in a ==> a[x] == b[x])
  }

  ghost predicate SameWorldBut(a: World, b: World, id: Name) {
    SameBut(a.inputs, b.inputs, id) && SameBut(a.outputs, b.outputs, id)
  }

  lemma {:induction false} EvalIgnores(n: nat, d: nat, e: Expr, id: Name, w: World, w': World, vars: Vars, vars': Vars)
    requires HaveRef(n, e, id, vars) == Some(false)
    requires SameWorldBut(w, w', id) && SameBut(vars, vars', id)
    ensures Eval(d, e, w, vars) == Eval(d, e, w', vars')
    decreases n, e, 1
  {
    match e
    case Op(_, l, r) =>
      EvalIgnores(n, d, l, id, w, w', vars, vars');
      EvalIgnores(n, d, r, id, w, w', vars, vars');
    case Ref(x) =>
      if x in vars && d > 0 { EvalIgnores(n - 1, d - 1, vars[x], id, w, w', vars, vars'); }
    case Func(_, args) => EvalArgsIgnores(n, d, args, id, w, w', vars, vars');
    case _ =>
  }

  lemma {:induction false} EvalArgsIgnores(n: nat, d: nat, args: seq<Expr>, id: Name,
                                           w: World, w': World, vars: Vars, vars': Vars)
    requires AnyRef(n, args, id, vars) == Some(false)
    requires SameWorldBut(w, w', id) && SameBut(vars, vars', id)
    ensures EvalArgs(d, args, w, vars) == EvalArgs(d, args, w', vars')
    decreases n, args, 0
  {
    if args != [] {
      EvalIgnores(n, d, args[0], id, w, w', vars, vars');
      EvalArgsIgnores(n, d, args[1..], id, w, w', vars, vars');
    }
  }

  // The search itself does not notice a name it does not reach.
  lemma {:induction false} HaveRefIgnores(n: nat, d: nat, e: Expr, id: Name, y: Name, vars: Vars, vars': Vars)
    requires HaveRef(n, e, id, vars) == Some(false)
    requires SameBut(vars, vars', id)
    ensures HaveRef(d, e, y, vars) == HaveRef(d, e, y, vars')
    decreases n, e, 1
  {
    match e
    case Op(_, l, r) =>
      HaveRefIgnores(n, d, l, id, y, vars, vars');
      HaveRefIgnores(n, d, r, id, y, vars, vars');
    case Ref(x) =>
      if x != y && x in vars && d > 0 { HaveRefIgnores(n - 1, d - 1, vars[x], id, y, vars, vars'); }
    case Func(_, args) => AnyRefIgnores(n, d, args, id, y, vars, vars');
    case _ =>
  }

  lemma {:induction false} AnyRefIgnores(n: nat, d: nat, es: seq<Expr>, id: Name, y: Name, vars: Vars, vars': Vars)
    requires AnyRef(n, es, id, vars) == Some(false)
    requires SameBut(vars, vars', id)
    ensures AnyRef(d, es, y, vars) == AnyRef(d, es, y, vars')
    decreases n, es, 0
  {
    if es != [] {
      HaveRefIgnores(n, d, es[0], id, y, vars, vars');
      AnyRefIgnores(n, d, es[1..], id, y, vars, vars');
    }
  }

  // Whether an expression depends on a variable does not depend on what that
  // variable holds: the search stops the moment it meets the name.
  lemma {:induction false} HaveRefRebound(d: nat, e: Expr, id: Name, vars: Vars, vars': Vars)
    requires SameBut(vars, vars', id)
    ensures HaveRef(d, e, id, vars) == HaveRef(d, e, id, vars')
    decreases d, e, 1
  {
    match e
    case Op(_, l, r) =>
      HaveRefRebound(d, l, id, vars, vars');
      HaveRefRebound(d, r, id, vars, vars');
    case Ref(x) =>
      if x != id && x in vars && d > 0 { HaveRefRebound(d - 1, vars[x], id, vars, vars'); }
    case Func(_, args) => AnyRefRebound(d, args, id, vars, vars');
    case _ =>
  }

  lemma {:induction false} AnyRefRebound(d: nat, es: seq<Expr>, id: Name, vars: Vars, vars': Vars)
    requires SameBut(vars, vars', id)
    ensures AnyRef(d, es, id, vars) == AnyRef(d, es, id, vars')
    decreases d, es, 0
  {
    if es != [] {
      HaveRefRebound(d, es[0], id, vars, vars');
      AnyRefRebound(d, es[1..], id, vars, vars');
    }
  }

  // ---------- when evaluation and search end ----------

  // rank puts every variable above the variables its expression looks up.
  ghost predicate Below(names: set<Name>, keys: set<Name>, rank: map<Name, nat>, k: nat) {
    forall x :: x in names && x in keys ==> x in rank && rank[x] < k
  }

  ghost predicate Ranked(vars: Vars, rank: map<Name, nat>, bound: nat) {
    && (forall x :: x in vars ==> x in rank && rank[x] < bound)
    && (forall x :: x in vars ==> Below(Refs(vars[x]), vars.Keys, rank, rank[x]))
  }

  ghost predicate Acyclic(vars: Vars) {
    exists rank, bound: nat :: Ranked(vars, rank, bound)
  }

  lemma {:induction false} EvalEnds(k: nat, e: Expr, w: World, vars: Vars, rank: map<Name, nat>, bound: nat)
    requires Ranked(vars, rank, bound) && Below(Refs(e), vars.Keys, rank, k)
    ensures Eval(k, e, w, vars).Some?
    decreases k, e, 1
  {
    match e
    case Op(_, l, r) => EvalEnds(k, l, w, vars, rank, bound); EvalEnds(k, r, w, vars, rank, bound);
    case Ref(x) =>
      if x in vars {
        EvalEnds(rank[x], vars[x], w, vars, rank, bound);
        EvalMonotone(rank[x], k - 1, vars[x], w, vars);
      }
    case Func(_, args) => EvalArgsEnds(k, args, w, vars, rank, bound);
    case _ =>
  }

  lemma {:induction false} EvalArgsEnds(k: nat, es: seq<Expr>, w: World, vars: Vars, rank: map<Name, nat>, bound: nat)
    requires Ranked(vars, rank, bound) && Below(RefsOf(es), vars.Keys, rank, k)
    ensures EvalArgs(k, es, w, vars).Some?
    decreases k, es, 0
  {
    if es != [] {
      EvalEnds(k, es[0], w, vars, rank, bound);
      EvalArgsEnds(k, es[1..], w, vars, rank, bound);
    }
  }

  lemma {:induction false} SearchEnds(k: nat, e: Expr, id: Name, vars: Vars, rank: map<Name, nat>, bound: nat)
    requires Ranked(vars, rank, bound) && Below(Refs(e), vars.Keys, rank, k)
    ensures HaveRef(k, e, id, vars).Some?
    decreases k, e, 1
  {
    match e
    case Op(_, l, r) => SearchEnds(k, l, id, vars, rank, bound); SearchEnds(k, r, id, vars, rank, bound);
    case Ref(x) =>
      if x in vars {
        SearchEnds(rank[x], vars[x], id, vars, rank, bound);
        HaveRefMonotone(rank[x], k - 1, vars[x], id, vars);
      }
    case Func(_, args) => AnySearchEnds(k, args, id, vars, rank, bound);
    case _ =>
  }

  lemma {:induction false} AnySearchEnds(k: nat, es: seq<Expr>, id: Name, vars: Vars, rank: map<Name, nat>, bound: nat)
    requires Ranked(vars, rank, bound) && Below(RefsOf(es), vars.Keys, rank, k)
    ensures AnyRef(k, es, id, vars).Some?
    decreases k, es, 0
  {
    if es != [] {
      SearchEnds(k, es[0], id, vars, rank, bound);
      AnySearchEnds(k, es[1..], id, vars, rank, bound);
    }
  }

  // In an acyclic table every evaluation and every search returns.
  lemma AcyclicTablesEnd(vars: Vars) returns (depth: nat)
    requires Acyclic(vars)
    ensures forall e, w :: Eval(depth, e, w, vars).Some?
    ensures forall e, id :: HaveRef(depth, e, id, vars).Some?
  {
    var rank, bound :| Ranked(vars, rank, bound);
    depth := bound;
    forall e, w ensures Eval(depth, e, w, vars).Some? { EvalEnds(bound, e, w, vars, rank, bound); }
    forall e, id ensures HaveRef(depth, e, id, vars).Some? { SearchEnds(bound, e, id, vars, rank, bound); }
  }

  function LeastDepth(d: nat, e: Expr, id: Name, vars: Vars): (k: nat)
    requires HaveRef(d, e, id, vars) == Some(false)
    ensures k <= d && HaveRef(k, e, id, vars) == Some(false)
    ensures k == 0 || HaveRef(k - 1, e, id, vars) != Some(false)
  {
    if d == 0 || HaveRef(d - 1, e, id, vars) != Some(false) then d else LeastDepth(d - 1, e, id, vars)
  }

  lemma LeastDepthIsLeast(d: nat, j: nat, e: Expr, id: Name, vars: Vars)
    requires HaveRef(d, e, id, vars) == Some(false) && HaveRef(j, e, id, vars) == Some(false)
    ensures LeastDepth(d, e, id, vars) <= j
  {
    var k := LeastDepth(d, e, id, vars);
    if j < k { HaveRefMonotone(j, k - 1, e, id, vars); }
  }

  lemma {:induction false} RankBound(rank: map<Name, nat>) returns (bound: nat)
    ensures forall x :: x in rank ==> rank[x] < bound
    decreases |rank|
  {
    if rank == map[] { bound := 0; }
    else {
      var x :| x in rank;
      var rest := rank - {x};
      assert rest.Keys == rank.Keys - {x};
      bound := RankBound(rest);
      if bound <= rank[x] { bound := rank[x] + 1; }
      forall y | y in rank ensures rank[y] < bound { if y != x { assert y in rest && rest[y] == rank[y]; } }
    }
  }

  ghost predicate SearchReturns(x: Name, id: Name, vars: Vars)
    requires x in vars
  {
    exists d :: HaveRef(d, vars[x], id, vars) == Some(false)
  }

  // The table is acyclic exactly when the search for a name that occurs nowhere
  // comes back from every variable.
  lemma AcyclicIffSearchReturns(vars: Vars, unused: Name)
    requires forall x :: x in vars ==> unused !in Mentions(vars[x])
    ensures Acyclic(vars) <==> forall x :: x in vars ==> SearchReturns(x, unused, vars)
  {
    if Acyclic(vars) {
      var depth := AcyclicTablesEnd(vars);
      forall x | x in vars ensures SearchReturns(x, unused, vars) {
        assert HaveRef(depth, vars[x], unused, vars).Some?;
        if HaveRef(depth, vars[x], unused, vars).value {
          var p := SearchFindsPath(depth, vars[x], unused, vars);
          UnmentionedIsUnreachable(p, vars[x], unused, vars);
        }
        assert HaveRef(depth, vars[x], unused, vars) == Some(false);
      }
    }
    if forall x :: x in vars ==> SearchReturns(x, unused, vars) {
      SearchReturnsMeansAcyclic(vars, unused);
    }
  }

  lemma {:induction false} UnmentionedIsUnreachable(p: seq<Name>, e: Expr, id: Name, vars: Vars)
    requires id !in Mentions(e) && forall x :: x in vars ==> id !in Mentions(vars[x])
    ensures !Reaches(p, e, id, vars)
    decreases p
  {
    if p != [] && p[0] in vars { UnmentionedIsUnreachable(p[1..], vars[p[0]], id, vars); }
  }

  lemma SearchReturnsMeansAcyclic(vars: Vars, id: Name)
    requires forall x :: x in vars ==> SearchReturns(x, id, vars)
    ensures Acyclic(vars)
  {
    var depths := map x | x in vars :: (var d: nat :| HaveRef(d, vars[x], id, vars) == Some(false); d);
    var rank := map x | x in vars :: LeastDepth(depths[x], vars[x], id, vars);
    var bound := RankBound(rank);
    forall x | x in vars ensures Below(Refs(vars[x]), vars.Keys, rank, rank[x]) {
      NoHit(rank[x], vars[x], id, vars);
      forall y | y in Refs(vars[x]) && y in vars ensures rank[y] < rank[x] {
        LeastDepthIsLeast(depths[y], rank[x] - 1, vars[y], id, vars);
      }
    }
    assert Ranked(vars, rank, bound);
  }

  // Evaluation and search see only the variables that rank below k.
  lemma {:induction false} EvalAgrees(d: nat, k: nat, e: Expr, w: World, vars: Vars, vars': Vars, rank: map<Name, nat>, bound: nat)
    requires Ranked(vars, rank, bound) && Below(Refs(e), vars.Keys, rank, k)
    requires vars'.Keys == vars.Keys
    requires forall x :: x in vars && rank[x] < k ==> vars'[x] == vars[x]
    ensures Eval(d, e, w, vars') == Eval(d, e, w, vars)
    decreases d, e, 1
  {
    match e
    case Op(_, l, r) =>
      EvalAgrees(d, k, l, w, vars, vars', rank, bound);
      EvalAgrees(d, k, r, w, vars, vars', rank, bound);
    case Ref(x) =>
      if x in vars && d > 0 { EvalAgrees(d - 1, k, vars[x], w, vars, vars', rank, bound); }
    case Func(_, args) => EvalArgsAgrees(d, k, args, w, vars, vars', rank, bound);
    case _ =>
  }

  lemma {:induction false} EvalArgsAgrees(d: nat, k: nat, es: seq<Expr>, w: World, vars: Vars, vars': Vars,
                                         rank: map<Name, nat>, bound: nat)
    requires Ranked(vars, rank, bound) && Below(RefsOf(es), vars.Keys, rank, k)
    requires vars'.Keys == vars.Keys
    requires forall x :: x in vars && rank[x] < k ==> vars'[x] == vars[x]
    ensures EvalArgs(d, es, w, vars') == EvalArgs(d, es, w, vars)
    decreases d, es, 0
  {
    if es != [] {
      EvalAgrees(d, k, es[0], w, vars, vars', rank, bound);
      EvalArgsAgrees(d, k, es[1..], w, vars, vars', rank, bound);
    }
  }

  // ---------- rebinding a variable ----------

  // p is a chain of variables from e to one that looks id up. FLAG does not: it
  // knows inputs and outputs only.
  ghost predicate LooksUp(p: seq<Name>, e: Expr, id: Name, vars: Vars) {
    if p == [] then id in Refs(e)
    else p[0] in Refs(e) && p[0] in vars && LooksUp(p[1..], vars[p[0]], id, vars)
  }

  ghost predicate Depends(e: Expr, id: Name, vars: Vars) {
    exists p :: LooksUp(p, e, id, vars)
  }

  // The expression in which a chain ends.
  function EndOf(p: seq<Name>, e: Expr, vars: Vars): Expr {
    if p == [] || p[0] !in vars then e else EndOf(p[1..], vars[p[0]], vars)
  }

  lemma {:induction false} LookUpReaches(p: seq<Name>, e: Expr, id: Name, vars: Vars)
    ensures LooksUp(p, e, id, vars) <==> Reaches(p, e, id, vars) && id in Refs(EndOf(p, e, vars))
    decreases p
  {
    RefsAreMentioned(e);
    if p != [] && p[0] in Refs(e) && p[0] in vars { LookUpReaches(p[1..], vars[p[0]], id, vars); }
  }

  ghost predicate Hits(y: Name, x: Name, vars: Vars) {
    y == x || (y in vars && Depends(vars[y], x, vars))
  }

  lemma HitsThroughRef(e: Expr, z: Name, x: Name, vars: Vars)
    requires z in Refs(e) && Hits(z, x, vars)
    ensures Depends(e, x, vars)
  {
    if z == x {
      assert LooksUp([], e, x, vars);
    } else {
      var p :| LooksUp(p, vars[z], x, vars);
      assert ([z] + p)[1..] == p;
      assert LooksUp([z] + p, e, x, vars);
    }
  }

  // Every variable that depends on x is lifted above all that do not.
  ghost function Lifted(x: Name, vars: Vars, vars': Vars, rank: map<Name, nat>, bound: nat): map<Name, nat> {
    map y | y in vars' ::
      (if y in vars && y in rank then rank[y] + 1 else 0) + (if Hits(y, x, vars) then bound else 0)
  }

  lemma IndependentKeepsAcyclic(x: Name, e: Expr, vars: Vars)
    requires Acyclic(vars) && !Depends(e, x, vars)
    ensures Acyclic(vars[x := e])
  {
    var rank, bound: nat :| Ranked(vars, rank, bound);
    var vars' := vars[x := e];
    var rank' := Lifted(x, vars, vars', rank, bound + 1);
    forall y | y in vars' ensures Below(Refs(vars'[y]), vars'.Keys, rank', rank'[y]) && rank'[y] < 2 * bound + 2 {
      LiftedBelow(x, e, vars, rank, bound, y);
    }
    assert Ranked(vars', rank', 2 * bound + 2);
  }

  lemma LiftedBelow(x: Name, e: Expr, vars: Vars, rank: map<Name, nat>, bound: nat, y: Name)
    requires Ranked(vars, rank, bound) && !Depends(e, x, vars) && y in vars[x := e]
    ensures var vars' := vars[x := e]; var rank' := Lifted(x, vars, vars', rank, bound + 1);
            Below(Refs(vars'[y]), vars'.Keys, rank', rank'[y]) && rank'[y] < 2 * bound + 2
  {
    hide Depends, Refs;
    var vars' := vars[x := e];
    var rank' := Lifted(x, vars, vars', rank, bound + 1);
    forall z | z in Refs(vars'[y]) && z in vars' ensures rank'[z] < rank'[y] {
      if Hits(z, x, vars) { HitsThroughRef(vars'[y], z, x, vars); }
      if y != x { assert Below(Refs(vars[y]), vars.Keys, rank, rank[y]); }
    }
  }

  // A chain that looks x up, in a ranked table, climbs to at least the rank of x.
  lemma {:induction false} PathClimbs(p: seq<Name>, e: Expr, x: Name, vars: Vars, vars': Vars, rank: map<Name, nat>, bound: nat)
    returns (z: Name)
    requires LooksUp(p, e, x, vars)
    requires x in vars' && SameBut(vars, vars', x) && Ranked(vars', rank, bound)
    ensures z in Refs(e) && z in vars' && rank[z] >= rank[x]
    decreases p
  {
    if p == [] { z := x; }
    else {
      z := p[0];
      if z != x { var z' := PathClimbs(p[1..], vars[z], x, vars, vars', rank, bound); }
    }
  }

  // Exactly when a rebinding keeps the table free of cycles.
  lemma RebindKeepsAcyclicIff(x: Name, e: Expr, vars: Vars)
    requires Acyclic(vars)
    ensures Acyclic(vars[x := e]) <==> !Depends(e, x, vars)
  {
    if Depends(e, x, vars) {
      var p :| LooksUp(p, e, x, vars);
      if Acyclic(vars[x := e]) {
        var rank, bound: nat :| Ranked(vars[x := e], rank, bound);
        var z := PathClimbs(p, e, x, vars, vars[x := e], rank, bound);
        assert false;
      }
    } else {
      IndependentKeepsAcyclic(x, e, vars);
    }
  }

  // A "no" of the search means that the rebinding is harmless. A "yes" is a false
  // alarm exactly if every chain to x ends in an expression that only flags it.
  lemma SearchForetells(d: nat, x: Name, e: Expr, vars: Vars)
    requires Acyclic(vars) && HaveRef(d, e, x, vars).Some?
    ensures HaveRef(d, e, x, vars) == Some(false) ==> Acyclic(vars[x := e])
    ensures HaveRef(d, e, x, vars) == Some(true) ==>
              (Acyclic(vars[x := e]) <==> forall p :: Reaches(p, e, x, vars) ==> x !in Refs(EndOf(p, e, vars)))
  {
    hide Acyclic, Reaches, LooksUp, HaveRef, EndOf, Refs;
    RebindKeepsAcyclicIff(x, e, vars);
    SearchDecidesReachability(d, e, x, vars);
    forall p | Reaches(p, e, x, vars) && x in Refs(EndOf(p, e, vars)) ensures Depends(e, x, vars) {
      LookUpReaches(p, e, x, vars);
      assert LooksUp(p, e, x, vars);
    }
    if Depends(e, x, vars) {
      var p :| LooksUp(p, e, x, vars);
      LookUpReaches(p, e, x, vars);
      assert Reaches(p, e, x, vars);
    }
  }

  // ---------- a run of variable assignments ----------

  datatype Binding = Binding(x: Name, e: Expr)

  function Bind(vars: Vars, run: seq<Binding>): Vars
    decreases |run|
  {
    if run == [] then vars else Bind(vars[run[0].x := run[0].e], run[1..])
  }

  // No assignment is made in a table where its expression depends on its target.
  ghost predicate NeverCircular(vars: Vars, run: seq<Binding>)
    decreases |run|
  {
    run != [] ==> !Depends(run[0].e, run[0].x, vars) && NeverCircular(vars[run[0].x := run[0].e], run[1..])
  }

  // The table is acyclic all along.
  ghost predicate AlwaysAcyclic(vars: Vars, run: seq<Binding>) {
    forall k :: 0 <= k <= |run| ==> Acyclic(Bind(vars, run[..k]))
  }

  lemma AlwaysAcyclicStep(vars: Vars, run: seq<Binding>)
    requires run != []
    ensures AlwaysAcyclic(vars, run) <==> Acyclic(vars) && AlwaysAcyclic(vars[run[0].x := run[0].e], run[1..])
  {
    hide Acyclic;
    var vars', rest := vars[run[0].x := run[0].e], run[1..];
    forall k | 0 < k <= |run| ensures Bind(vars, run[..k]) == Bind(vars', rest[..k - 1]) {
      assert run[..k][1..] == rest[..k - 1];
    }
    assert Bind(vars, run[..0]) == vars;
    if AlwaysAcyclic(vars, run) {
      forall k | 0 <= k <= |rest| ensures Acyclic(Bind(vars', rest[..k])) {
        assert Acyclic(Bind(vars, run[..k + 1]));
      }
    }
  }

  lemma {:induction false} RunStaysAcyclicIff(vars: Vars, run: seq<Binding>)
    requires Acyclic(vars)
    ensures AlwaysAcyclic(vars, run) <==> NeverCircular(vars, run)
    decreases |run|
  {
    hide Acyclic, Depends;
    if run == [] {
      assert Bind(vars, run[..0]) == vars;
    } else {
      var vars' := vars[run[0].x := run[0].e];
      RebindKeepsAcyclicIff(run[0].x, run[0].e, vars);
      AlwaysAcyclicStep(vars, run);
      if Acyclic(vars') { RunStaysAcyclicIff(vars', run[1..]); }
      else { assert AlwaysAcyclic(vars', run[1..]) ==> Acyclic(Bind(vars', run[1..][..0])); }
    }
  }

  // ---------- the evaluator as the program runs it ----------

  method ExprEval(depth: nat, e: Expr, w: World, vars: Vars) returns (r: Option<Outcome>)
    ensures r == Eval(depth, e, w, vars)
    decreases depth, e
  {
    match e {
      case Literal(v) => r := Some(Value(v));
      case Op(op, left, right) =>
        var l := ExprEval(depth, left, w, vars);
        if l.None? || l.value.Failed? { return l; }
        var rr := ExprEval(depth, right, w, vars);
        if rr.None? || rr.value.Failed? { return rr; }
        r := Some(Operate(op, l.value.v, rr.value.v));
      case Ref(id) =>
        if id in w.inputs {
          r := Some(Value(w.inputs[id].val));
        } else if id in w.outputs {
          r := Some(Value(w.outputs[id].val));
        } else if id in vars {
          if depth == 0 { return None; }
          r := ExprEval(depth - 1, vars[id], w, vars);
        } else {
          r := Some(Failed(UndefinedIdentifier(id)));
        }
      case Func(fn, args) =>
        if fn == Min || fn == Max {
          r := EvalExtremum(depth, e, w, vars);
        } else {
          r := EvalFixed(depth, e, w, vars);
        }
      case Flag(id, bit) =>
        if id in w.inputs {
          r := Some(FlagValue(w.inputs[id].flags, bit));
        } else if id in w.outputs {
          r := Some(FlagValue(w.outputs[id].flags, bit));
        } else {
          r := Some(Failed(UndefinedIdentifier(id)));
        }
    }
  }

  // ROUND and LIMIT look at all their values.
  method EvalFixed(depth: nat, e: Expr, w: World, vars: Vars) returns (r: Option<Outcome>)
    requires e.Func?
    ensures r == Eval(depth, e, w, vars)
    decreases depth, e, 0
  {
    var vs := [];
    var i := 0;
    assert e.args[0..] == e.args;
    PrependNothing(EvalArgs(depth, e.args, w, vars));
    while i < |e.args|
      invariant 0 <= i <= |e.args|
      invariant EvalArgs(depth, e.args, w, vars) == Prepend(vs, EvalArgs(depth, e.args[i..], w, vars))
    {
      var x := ExprEval(depth, e.args[i], w, vars);
      if x.None? { return None; }
      if x.value.Failed? { return Some(Failed(x.value.error)); }
      assert e.args[i..][1..] == e.args[i + 1..];
      PrependStep(vs, x.value.v, EvalArgs(depth, e.args[i + 1..], w, vars));
      vs := vs + [x.value.v];
      i := i + 1;
    }
    assert e.args[i..] == [] && vs + [] == vs;
    r := Some(Finish(e.fn, vs));
  }

  // MIN and MAX keep only the best value so far.
  method EvalExtremum(depth: nat, e: Expr, w: World, vars: Vars) returns (r: Option<Outcome>)
    requires e.Func? && (e.fn == Min || e.fn == Max)
    ensures r == Eval(depth, e, w, vars)
    decreases depth, e, 0
  {
    var best := if e.fn == Min then Arithmetic.MAX_DOUBLE else Arithmetic.MIN_DOUBLE;
    var i := 0;
    while i < |e.args|
      invariant 0 <= i <= |e.args|
      invariant Eval(depth, e, w, vars) == Extremum(e.fn == Min, best, EvalArgs(depth, e.args[i..], w, vars))
    {
      var x := ExprEval(depth, e.args[i], w, vars);
      if x.None? { return None; }
      if x.value.Failed? { return Some(Failed(x.value.error)); }
      assert e.args[i..][1..] == e.args[i + 1..];
      var val := x.value.v;
      ExtremumStep(e.fn == Min, best, val, EvalArgs(depth, e.args[i + 1..], w, vars));
      if e.fn == Min {
        if val < best { best := val; }
      } else {
        if val > best { best := val; }
      }
      i := i + 1;
    }
    r := Some(Value(best));
  }

  ghost function Prepend(vs: seq<real>, rest: Option<Values>): Option<Values> {
    if rest.Some? && rest.value.Values? then Some(Values(vs + rest.value.vs)) else rest
  }

  lemma PrependNothing(rest: Option<Values>)
    ensures Prepend([], rest) == rest
  {
    if rest.Some? && rest.value.Values? { assert [] + rest.value.vs == rest.value.vs; }
  }

  lemma PrependStep(vs: seq<real>, v: real, rest: Option<Values>)
    ensures Prepend(vs, Prepend([v], rest)) == Prepend(vs + [v], rest)
  {
    if rest.Some? && rest.value.Values? { assert vs + ([v] + rest.value.vs) == vs + [v] + rest.value.vs; }
  }

  ghost function Extremum(minimum: bool, best: real, rest: Option<Values>): Option<Outcome> {
    if rest.None? then None
    else if rest.value.Stopped? then Some(Failed(rest.value.error))
    else Some(Value(if minimum then Smallest(rest.value.vs, best) else Largest(rest.value.vs, best)))
  }

  lemma ExtremumStep(minimum: bool, best: real, v: real, rest: Option<Values>)
    ensures Extremum(minimum, best, Prepend([v], rest))
         == Extremum(minimum, if minimum then (if v < best then v else best) else if v > best then v else best, rest)
  {
  }

  method ExprHaveRef(depth: nat, e: Expr, id: Name, vars: Vars) returns (r: Option<bool>)
    ensures r == HaveRef(depth, e, id, vars)
    decreases depth, e
  {
    match e {
      case Literal(_) => r := Some(false);
      case Op(_, left, right) =>
        r := ExprHaveRef(depth, left, id, vars);
        if r == Some(false) { r := ExprHaveRef(depth, right, id, vars); }
      case Ref(x) =>
        if x == id { return Some(true); }
        if x in vars {
          if depth == 0 { return None; }
          r := ExprHaveRef(depth - 1, vars[x], id, vars);
        } else {
          r := Some(false);
        }
      case Func(_, args) =>
        var i := 0;
        while i < |args|
          invariant 0 <= i <= |args|
          invariant AnyRef(depth, args, id, vars) == AnyRef(depth, args[i..], id, vars)
        {
          r := ExprHaveRef(depth, args[i], id, vars);
          if r != Some(false) { return; }
          assert args[i..][1..] == args[i + 1..];
          i := i + 1;
        }
        r := Some(false);
      case Flag(x, _) => r := Some(x == id);
    }
  }
}
