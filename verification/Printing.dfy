// The text of expressions and rules (describe in src/expr.c, format_conf in
// src/engine.c) against the grammar of src/rules.y, token by token.
//
// A derivation may take any rule of the grammar anywhere, so what is proved does
// not depend on operator precedence.

module Printing {
  import opened Exprs
  import opened Rules

  datatype Token =
    | Number(v: real) | Identifier(name: Name) | FlagName(bit: bv64) | OpSign(op: Operator)
    | Open | Close | Comma | Equals | Semicolon
    | KeyFlag | KeySet | KeyWhen | KeyTrigger

  type Tokens = seq<Token>

  function FnName(fn: Fn): Name {
    match fn case Min => "MIN" case Max => "MAX" case Round => "ROUND" case Limit => "LIMIT"
  }

  // ---------- the printers ----------

  function Print(e: Expr): Tokens {
    match e
    case Literal(v) => [Number(v)]
    case Ref(x) => [Identifier(x)]
    case Flag(x, bit) => [Identifier(x), KeyFlag, FlagName(bit)]
    case Op(op, l, r) => Between(Print(l), OpSign(op), Print(r))
    case Func(fn, args) => Called(FnName(fn), PrintArgs(args))
  }

  function Wrapped(ts: Tokens): Tokens { [Open] + ts + [Close] }

  function Between(l: Tokens, sign: Token, r: Tokens): Tokens { Wrapped(l) + [sign] + Wrapped(r) }

  function Called(name: Name, args: Tokens): Tokens { [Identifier(name)] + Wrapped(args) }

  function PrintArgs(args: seq<Expr>): Tokens {
    if args == [] then []
    else if |args| == 1 then Print(args[0])
    else PrintArgs(args[..|args| - 1]) + [Comma] + Print(args[|args| - 1])
  }

  // What the grammar can write: its twelve operators, its six flag names, and
  // calls with arguments.
  predicate Printable(e: Expr) {
    match e
    case Op(op, l, r) => !op.Unknown? && Printable(l) && Printable(r)
    case Func(_, args) => args != [] && ArePrintable(args)
    case Flag(_, bit) => IsNamed(bit)
    case _ => true
  }

  predicate ArePrintable(args: seq<Expr>) {
    forall a :: a in args ==> Printable(a)
  }

  predicate IsNamed(bit: bv64) {
    bit == USR1 || bit == USR2 || bit == USR3 || bit == USR4 || bit == MANUAL_OVERRIDE || bit == NO_HISTORY
  }

  // The flags that have names are the user bits and the two lowest.
  lemma NamedFlags(bit: bv64)
    ensures IsNamed(bit) <==> IsUsrBit(bit) || bit == 0x1 || bit == 0x2
  {
  }

  // ---------- the grammar ----------

  ghost predicate Derives(ts: Tokens, e: Expr)
    decreases |ts|, 3
  {
    || (e.Literal? && ts == [Number(e.val)])
    || (e.Ref? && ts == [Identifier(e.id)])
    || (e.Flag? && IsNamed(e.bit) && ts == [Identifier(e.id), KeyFlag, FlagName(e.bit)])
    || InParentheses(ts, e)
    || Applied(ts, e)
    || Negated(ts, e)
    || IsCall(ts, e)
  }

  ghost predicate InParentheses(ts: Tokens, e: Expr)
    decreases |ts|, 2
  {
    |ts| >= 2 && ts[0] == Open && ts[|ts| - 1] == Close && Derives(ts[1..|ts| - 1], e)
  }

  ghost predicate Applied(ts: Tokens, e: Expr)
    decreases |ts|, 2
  {
    exists i: nat :: i < |ts| && AppliedAt(ts, e, i)
  }

  ghost predicate AppliedAt(ts: Tokens, e: Expr, i: nat)
    requires i < |ts|
    decreases |ts|, 1
  {
    e.Op? && !e.op.Unknown? && ts[i] == OpSign(e.op) && 0 < i < |ts| - 1 && Derives(ts[..i], e.left) && Derives(ts[i + 1..], e.right)
  }

  // The prefix minus, which the grammar writes as a star.
  ghost predicate Negated(ts: Tokens, e: Expr)
    decreases |ts|, 2
  {
    e.Op? && e.op == Mul && e.left == Literal(-1.0) && |ts| > 1 && ts[0] == OpSign(Mul) && Derives(ts[1..], e.right)
  }

  ghost predicate IsCall(ts: Tokens, e: Expr)
    decreases |ts|, 2
  {
    e.Func? && |ts| >= 3 && ts[0] == Identifier(FnName(e.fn)) && ts[1] == Open && ts[|ts| - 1] == Close
      && DerivesArgs(ts[2..|ts| - 1], e.args)
  }

  // One expression, or a shorter list, a comma and one more. The grammar also
  // derives the empty list, but gives it no value.
  ghost predicate DerivesArgs(ts: Tokens, args: seq<Expr>)
    decreases |ts|, 5
  {
    || (|args| == 1 && Derives(ts, args[0]))
    || exists i: nat :: i < |ts| && LastArgAt(ts, args, i)
  }

  ghost predicate LastArgAt(ts: Tokens, args: seq<Expr>, i: nat)
    requires i < |ts|
    decreases |ts|, 4
  {
    ts[i] == Comma && |args| > 1 && DerivesArgs(ts[..i], args[..|args| - 1]) && Derives(ts[i + 1..], args[|args| - 1])
  }

  // ---------- parentheses balance ----------

  function Weight(t: Token): int {
    if t == Open then 1 else if t == Close then -1 else 0
  }

  function Depth(ts: Tokens): int {
    if ts == [] then 0 else Depth(ts[..|ts| - 1]) + Weight(ts[|ts| - 1])
  }

  lemma {:induction false} DepthOfSum(a: Tokens, b: Tokens)
    ensures Depth(a + b) == Depth(a) + Depth(b)
    decreases |b|
  {
    if b == [] {
      assert a + b == a;
    } else {
      assert (a + b)[..|a + b| - 1] == a + b[..|b| - 1];
      DepthOfSum(a, b[..|b| - 1]);
    }
  }

  // What occurs in expressions and assignments.
  predicate InExpr(t: Token) {
    t != Semicolon && t != KeySet && t != KeyWhen && t != KeyTrigger
  }

  // Every prefix has as many opening as closing parentheses or more, commas
  // stand inside some, and there are no keywords of whole rules.
  ghost predicate Neat(ts: Tokens, commas: bool) {
    && Depth(ts) == 0
    && (forall i :: 0 <= i <= |ts| ==> Depth(ts[..i]) >= 0)
    && (forall i :: 0 <= i < |ts| ==> InExpr(ts[i]) && (ts[i] == Comma && !commas ==> Depth(ts[..i]) > 0))
  }

  lemma PrefixDepth(a: Tokens, b: Tokens, i: nat)
    requires i <= |a| + |b|
    ensures Depth((a + b)[..i]) == if i <= |a| then Depth(a[..i]) else Depth(a) + Depth(b[..i - |a|])
  {
    if i <= |a| { assert (a + b)[..i] == a[..i]; }
    else {
      assert (a + b)[..i] == a + b[..i - |a|];
      DepthOfSum(a, b[..i - |a|]);
    }
  }

  lemma NeatSum(a: Tokens, b: Tokens, commas: bool)
    requires Neat(a, commas) && Neat(b, commas)
    ensures Neat(a + b, commas)
  {
    DepthOfSum(a, b);
    assert a[..|a|] == a;
    forall i | 0 <= i <= |a + b| ensures Depth((a + b)[..i]) >= 0 { PrefixDepth(a, b, i); }
    forall i | 0 <= i < |a + b| ensures InExpr((a + b)[i]) && ((a + b)[i] == Comma && !commas ==> Depth((a + b)[..i]) > 0) {
      PrefixDepth(a, b, i);
      if i >= |a| { assert (a + b)[i] == b[i - |a|]; }
    }
  }

  lemma WrappedDepth(ts: Tokens, i: nat)
    requires i <= |ts| + 2
    ensures Depth(Wrapped(ts)[..i]) == if i == 0 then 0 else if i == |ts| + 2 then Depth(ts) else 1 + Depth(ts[..i - 1])
  {
    PrefixDepth([Open] + ts, [Close], i);
    if 0 < i < |ts| + 2 {
      PrefixDepth([Open], ts, i);
      assert ([Open] + ts)[..i] == [Open] + ts[..i - 1];
      DepthOfSum([Open], ts[..i - 1]);
    }
    if i == |ts| + 2 {
      DepthOfSum([Open], ts);
      DepthOfSum([Open] + ts, [Close]);
      assert Wrapped(ts)[..i] == Wrapped(ts);
    }
    SingleDepth(Open);
    SingleDepth(Close);
  }

  lemma SingleDepth(t: Token)
    ensures Depth([t]) == Weight(t)
  {
  }

  lemma NeatWrapped(ts: Tokens)
    requires Neat(ts, true)
    ensures Neat(Wrapped(ts), false)
  {
    var w := Wrapped(ts);
    WrappedDepth(ts, |w|);
    assert w[..|w|] == w;
    forall i | 0 <= i <= |w| ensures Depth(w[..i]) >= 0 { WrappedDepth(ts, i); }
    forall i | 0 <= i < |w| ensures InExpr(w[i]) && (w[i] == Comma ==> Depth(w[..i]) > 0) { WrappedDepth(ts, i); }
  }

  lemma NeatSingle(t: Token)
    requires InExpr(t) && t != Open && t != Close && t != Comma
    ensures Neat([t], false)
  {
  }

  lemma NeatComma()
    ensures Neat([Comma], true)
  {
  }

  // ---------- everything derived or printed is neat ----------

  lemma SplitOf(ts: Tokens, e: Expr) returns (i: nat)
    requires Applied(ts, e)
    ensures i < |ts| && AppliedAt(ts, e, i)
  {
    i :| i < |ts| && AppliedAt(ts, e, i);
  }

  lemma NeatBinary(l: Tokens, sign: Token, r: Tokens)
    requires Neat(l, false) && Neat(r, false) && sign.OpSign?
    ensures Neat(l + [sign] + r, false)
  {
    NeatSingle(sign);
    NeatSum(l, [sign], false);
    NeatSum(l + [sign], r, false);
  }

  lemma {:induction false} DerivedIsNeat(ts: Tokens, e: Expr)
    requires Derives(ts, e)
    ensures ts != [] && Neat(ts, false)
    decreases |ts|, 3
  {
    if InParentheses(ts, e) {
      WrappedIsNeat(ts, e);
    } else if Applied(ts, e) || Negated(ts, e) {
      AppliedIsNeat(ts, e);
    } else if IsCall(ts, e) {
      CallIsNeat(ts, e);
    } else {
      NeatLeaf(e);
    }
  }

  lemma {:induction false} WrappedIsNeat(ts: Tokens, e: Expr)
    requires InParentheses(ts, e)
    ensures ts != [] && Neat(ts, false)
    decreases |ts|, 2
  {
    var inner := ts[1..|ts| - 1];
    assert ts == Wrapped(inner);
    DerivedIsNeat(inner, e);
    hide *;
    NeatWrapped(inner);
  }

  lemma {:induction false} AppliedIsNeat(ts: Tokens, e: Expr)
    requires Applied(ts, e) || Negated(ts, e)
    ensures ts != [] && Neat(ts, false)
    decreases |ts|, 2
  {
    if Applied(ts, e) {
      var i := SplitOf(ts, e);
      assert ts == ts[..i] + [ts[i]] + ts[i + 1..];
      DerivedIsNeat(ts[..i], e.left);
      DerivedIsNeat(ts[i + 1..], e.right);
      hide *;
      NeatBinary(ts[..i], ts[i], ts[i + 1..]);
    } else {
      assert ts == [ts[0]] + ts[1..];
      DerivedIsNeat(ts[1..], e.right);
      NeatSingle(ts[0]);
      hide *;
      NeatSum([ts[0]], ts[1..], false);
    }
  }

  lemma {:induction false} CallIsNeat(ts: Tokens, e: Expr)
    requires IsCall(ts, e)
    ensures ts != [] && Neat(ts, false)
    decreases |ts|, 2
  {
    var inner := ts[2..|ts| - 1];
    assert ts == Called(FnName(e.fn), inner);
    DerivedArgsAreNeat(inner, e.args);
    hide *;
    NeatCall(FnName(e.fn), inner);
  }

  lemma {:induction false} DerivedArgsAreNeat(ts: Tokens, args: seq<Expr>)
    requires DerivesArgs(ts, args)
    ensures ts != [] && Neat(ts, true)
    decreases |ts|, 5
  {
    hide Neat;
    if |args| == 1 && Derives(ts, args[0]) {
      DerivedIsNeat(ts, args[0]);
      NeatWithCommas(ts);
    } else {
      var i: nat :| i < |ts| && LastArgAt(ts, args, i);
      assert ts == ts[..i] + [Comma] + ts[i + 1..];
      hide Derives;
      DerivedArgsAreNeat(ts[..i], args[..|args| - 1]);
      DerivedIsNeat(ts[i + 1..], args[|args| - 1]);
      NeatList(ts[..i], ts[i + 1..]);
    }
  }

  lemma NeatWithCommas(ts: Tokens)
    requires Neat(ts, false)
    ensures Neat(ts, true)
  {
  }

  lemma NeatList(front: Tokens, last: Tokens)
    requires Neat(front, true) && Neat(last, false)
    ensures Neat(front + [Comma] + last, true)
  {
    NeatComma();
    NeatSum(front, [Comma], true);
    NeatSum(front + [Comma], last, true);
  }

  lemma NeatCall(name: Name, args: Tokens)
    requires Neat(args, true)
    ensures Neat(Called(name, args), false)
  {
    NeatWrapped(args);
    NeatSingle(Identifier(name));
    NeatSum([Identifier(name)], Wrapped(args), false);
  }

  lemma NeatLeaf(e: Expr)
    requires e.Literal? || e.Ref? || e.Flag?
    ensures Neat(Print(e), false)
  {
    match e
    case Literal(v) => NeatSingle(Number(v));
    case Ref(x) => NeatSingle(Identifier(x));
    case Flag(x, bit) =>
      NeatSingle(Identifier(x));
      NeatSingle(KeyFlag);
      NeatSingle(FlagName(bit));
      NeatSum([Identifier(x)], [KeyFlag], false);
      NeatSum([Identifier(x)] + [KeyFlag], [FlagName(bit)], false);
      assert Print(e) == [Identifier(x)] + [KeyFlag] + [FlagName(bit)];
  }

  lemma {:induction false} PrintIsNeat(e: Expr)
    ensures Print(e) != [] && Neat(Print(e), false)
    decreases e, 1
  {
    match e
    case Op(op, l, r) =>
      PrintIsNeat(l);
      PrintIsNeat(r);
      NeatWrapped(Print(l));
      NeatWrapped(Print(r));
      NeatSingle(OpSign(op));
      NeatSum(Wrapped(Print(l)), [OpSign(op)], false);
      NeatSum(Wrapped(Print(l)) + [OpSign(op)], Wrapped(Print(r)), false);
    case Func(fn, args) =>
      PrintedArgsAreNeat(args);
      NeatCall(FnName(fn), PrintArgs(args));
    case _ => NeatLeaf(e);
  }

  lemma {:induction false} PrintedArgsAreNeat(args: seq<Expr>)
    ensures Neat(PrintArgs(args), true)
    decreases args, 0
  {
    if |args| == 1 {
      PrintIsNeat(args[0]);
    } else if |args| > 1 {
      PrintedArgsAreNeat(args[..|args| - 1]);
      PrintIsNeat(args[|args| - 1]);
      NeatList(PrintArgs(args[..|args| - 1]), Print(args[|args| - 1]));
    }
  }

  // ---------- the printed text has one reading ----------

  lemma SplitLast<T>(xs: seq<T>, ys: seq<T>)
    requires xs != [] && ys != []
    ensures ys == xs <==> ys[..|ys| - 1] == xs[..|xs| - 1] && ys[|ys| - 1] == xs[|xs| - 1]
  {
  }

  lemma WrappedReads(ts: Tokens, t: Expr)
    requires Neat(ts, true)
    ensures Derives(Wrapped(ts), t) <==> Derives(ts, t)
  {
    var w := Wrapped(ts);
    assert w[1..|w| - 1] == ts;
    if Applied(w, t) {
      var i := SplitOf(w, t);
      DerivedIsNeat(w[..i], t.left);
      WrappedDepth(ts, i);
    }
    assert Derives(w, t) <==> InParentheses(w, t);
  }

  lemma BetweenReads(l: Tokens, op: Operator, r: Tokens, t: Expr)
    requires Neat(l, true) && Neat(r, true)
    ensures Derives(Between(l, OpSign(op), r), t) <==>
              t.Op? && t.op == op && !op.Unknown? && Derives(l, t.left) && Derives(r, t.right)
  {
    var ts := Between(l, OpSign(op), r);
    var at := |l| + 2;
    assert ts[..at] == Wrapped(l) && ts[at] == OpSign(op) && ts[at + 1..] == Wrapped(r);
    NotInParentheses(l, [OpSign(op)] + Wrapped(r), t);
    assert ts == Wrapped(l) + ([OpSign(op)] + Wrapped(r));
    if Applied(ts, t) {
      var i := SplitOf(ts, t);
      DerivedIsNeat(ts[..i], t.left);
      BetweenDepth(l, OpSign(op), r, i);
    }
    assert Applied(ts, t) <==> AppliedAt(ts, t, at);
    if t.Op? {
      WrappedReads(l, t.left);
      WrappedReads(r, t.right);
    }
    assert Derives(ts, t) <==> Applied(ts, t);
  }

  // A parenthesis that closes before the end does not enclose the text.
  lemma NotInParentheses(l: Tokens, rest: Tokens, t: Expr)
    requires Neat(l, true) && rest != []
    ensures !InParentheses(Wrapped(l) + rest, t)
  {
    var ts := Wrapped(l) + rest;
    if InParentheses(ts, t) {
      var inner := ts[1..|ts| - 1];
      ClosesEarly(l, rest);
      DerivedIsNeat(inner, t);
    }
  }

  lemma ClosesEarly(l: Tokens, rest: Tokens)
    requires Depth(l) == 0 && rest != []
    ensures var ts := Wrapped(l) + rest; Depth(ts[1..|ts| - 1][..|l| + 1]) == -1
  {
    var ts := Wrapped(l) + rest;
    assert ts[1..|ts| - 1][..|l| + 1] == ts[1..|l| + 2] == Wrapped(l)[1..] == l + [Close];
    DepthOfSum(l, [Close]);
    SingleDepth(Close);
  }

  lemma BetweenDepth(l: Tokens, sign: Token, r: Tokens, i: nat)
    requires Neat(l, true) && Neat(r, true) && sign.OpSign?
    requires 0 < i < |l| + |r| + 5 && Depth(Between(l, sign, r)[..i]) == 0 && Between(l, sign, r)[i].OpSign?
    ensures i == |l| + 2
  {
    hide Depth, InExpr;
    assert Between(l, sign, r)[|l| + 1] == Close && Between(l, sign, r)[|l| + 3] == Open;
    PrefixDepth(Wrapped(l) + [sign], Wrapped(r), i);
    if i <= |l| + 2 {
      PrefixDepth(Wrapped(l), [sign], i);
      WrappedDepth(l, i);
    } else {
      DepthOfSum(Wrapped(l), [sign]);
      SingleDepth(sign);
      WrappedDepth(l, |l| + 2);
      assert Wrapped(l)[..|l| + 2] == Wrapped(l);
      WrappedDepth(r, i - |l| - 3);
    }
  }

  lemma CallIsNotApplied(name: Name, args: Tokens, t: Expr)
    requires Neat(args, true)
    ensures !Applied(Called(name, args), t)
  {
    var ts := Called(name, args);
    if Applied(ts, t) {
      var i := SplitOf(ts, t);
      DerivedIsNeat(ts[..i], t.left);
      hide *;
      CallDepth(name, args, i);
    }
  }

  lemma CallDepth(name: Name, args: Tokens, i: nat)
    requires Neat(args, true) && 0 < i < |args| + 2 && Depth(Called(name, args)[..i]) == 0
    ensures Called(name, args)[i] == Open
  {
    PrefixDepth([Identifier(name)], Wrapped(args), i);
    SingleDepth(Identifier(name));
    WrappedDepth(args, i - 1);
  }

  lemma CallReads(fn: Fn, args: Tokens, t: Expr)
    requires Neat(args, true)
    ensures Derives(Called(FnName(fn), args), t) <==> t.Func? && t.fn == fn && DerivesArgs(args, t.args)
  {
    var ts := Called(FnName(fn), args);
    assert ts[2..|ts| - 1] == args && ts[0] == Identifier(FnName(fn)) && ts[1] == Open && ts[|ts| - 1] == Close;
    CallIsNotApplied(FnName(fn), args, t);
    hide Applied, Neat, Depth;
    assert Derives(ts, t) <==> IsCall(ts, t);
    assert forall other: Fn :: FnName(other) == FnName(fn) ==> other == fn;
  }

  lemma LeafReads(e: Expr, t: Expr)
    requires e.Literal? || e.Ref? || e.Flag?
    ensures Derives(Print(e), t) <==> t == e && Printable(e)
  {
    if Applied(Print(e), t) {
      var i := SplitOf(Print(e), t);
    }
  }

  lemma OneArgReads(ts: Tokens, ts': seq<Expr>)
    requires Neat(ts, false)
    ensures DerivesArgs(ts, ts') <==> |ts'| == 1 && Derives(ts, ts'[0])
  {
    if i: nat :| i < |ts| && LastArgAt(ts, ts', i) {
      DerivedArgsAreNeat(ts[..i], ts'[..|ts'| - 1]);
    }
  }

  lemma MoreArgsRead(front: Tokens, last: Tokens, us: seq<Expr>)
    requires Neat(front, true) && Neat(last, false)
    ensures DerivesArgs(front + [Comma] + last, us) <==>
              |us| > 1 && DerivesArgs(front, us[..|us| - 1]) && Derives(last, us[|us| - 1])
  {
    var ts := front + [Comma] + last;
    assert ts[..|front|] == front && ts[|front| + 1..] == last;
    if |us| == 1 && Derives(ts, us[0]) { DerivedIsNeat(ts, us[0]); }
    if i: nat :| i < |ts| && LastArgAt(ts, us, i) {
      DerivedArgsAreNeat(ts[..i], us[..|us| - 1]);
      DerivedIsNeat(ts[i + 1..], us[|us| - 1]);
      LastCommaAt(front, last, i);
    }
    if |us| > 1 && DerivesArgs(front, us[..|us| - 1]) && Derives(last, us[|us| - 1]) { assert LastArgAt(ts, us, |front|); }
  }

  lemma LastCommaAt(front: Tokens, last: Tokens, i: nat)
    requires Neat(front, true) && Neat(last, false)
    requires var ts := front + [Comma] + last;
             i < |ts| && ts[i] == Comma && Depth(ts[..i]) == 0 && Neat(ts[i + 1..], false)
    ensures i == |front|
  {
    var ts := front + [Comma] + last;
    hide Depth;
    if i < |front| {
      assert ts[..i] == front[..i];
      NoEarlierComma(front, last, i);
    } else if i > |front| { NoLaterComma(front, last, i); }
  }

  // Behind an earlier comma the one between front and last would not be enclosed.
  lemma NoEarlierComma(front: Tokens, last: Tokens, i: nat)
    requires i < |front| && front[i] == Comma && Depth(front) == 0 && Depth(front[..i]) == 0
    ensures !Neat((front + [Comma] + last)[i + 1..], false)
  {
    hide Depth, Neat;
    var k := |front| - i - 1;
    var rest := (front + [Comma] + last)[i + 1..];
    assert rest == front[i + 1..] + [Comma] + last;
    assert rest[k] == Comma && rest[..k] == front[i + 1..];
    DepthBehind(front, i);
    BareComma(rest, k);
  }

  lemma DepthBehind(front: Tokens, i: nat)
    requires i < |front| && front[i] == Comma && Depth(front) == 0 && Depth(front[..i]) == 0
    ensures Depth(front[i + 1..]) == 0
  {
    hide Depth;
    assert front[..i] + ([Comma] + front[i + 1..]) == front;
    DepthOfSum(front[..i], [Comma] + front[i + 1..]);
    DepthOfSum([Comma], front[i + 1..]);
    SingleDepth(Comma);
  }

  lemma BareComma(ts: Tokens, k: nat)
    requires k < |ts| && ts[k] == Comma && Depth(ts[..k]) == 0
    ensures !Neat(ts, false)
  {
    hide Depth;
  }

  // And a later one is enclosed in last.
  lemma NoLaterComma(front: Tokens, last: Tokens, i: nat)
    requires |front| < i <= |front| + |last| && Depth(front) == 0 && Neat(last, false)
    requires (front + [Comma] + last)[i] == Comma
    ensures Depth((front + [Comma] + last)[..i]) > 0
  {
    PrefixDepth(front + [Comma], last, i);
    DepthOfSum(front, [Comma]);
    SingleDepth(Comma);
    hide Depth, InExpr;
    assert (front + [Comma] + last)[i] == last[i - |front| - 1];
  }

  // The text of an expression reads back as that expression and as nothing else,
  // if the grammar can write it; if not, it does not read at all.
  lemma {:induction false} ReadsBack(e: Expr, t: Expr)
    ensures Derives(Print(e), t) <==> t == e && Printable(e)
    decreases e, 1
  {
    match e
    case Op(op, l, r) =>
      PrintIsNeat(l);
      PrintIsNeat(r);
      BetweenReads(Print(l), op, Print(r), t);
      if t.Op? {
        ReadsBack(l, t.left);
        ReadsBack(r, t.right);
      }
    case Func(fn, args) =>
      PrintedArgsAreNeat(args);
      CallReads(fn, PrintArgs(args), t);
      if t.Func? { ArgsReadBack(args, t.args); }
    case _ => LeafReads(e, t);
  }

  lemma {:induction false} ArgsReadBack(args: seq<Expr>, us: seq<Expr>)
    ensures DerivesArgs(PrintArgs(args), us) <==> us == args && args != [] && ArePrintable(args)
    decreases args, 0
  {
    hide *;
    if args == [] {
      NoArgsRead(us);
    } else {
      if us != [] {
        ArgsReadBack(args[..|args| - 1], us[..|us| - 1]);
        ReadsBack(args[|args| - 1], us[|us| - 1]);
      }
      LastArgReadsBack(args, us);
    }
  }

  lemma NoArgsRead(us: seq<Expr>)
    ensures !DerivesArgs(PrintArgs([]), us)
  {
  }

  lemma LastArgReadsBack(args: seq<Expr>, us: seq<Expr>)
    requires args != []
    requires us != [] ==> var front, back := args[..|args| - 1], us[..|us| - 1];
               DerivesArgs(PrintArgs(front), back) <==> back == front && front != [] && ArePrintable(front)
    requires us != [] ==> var x, y := args[|args| - 1], us[|us| - 1]; Derives(Print(x), y) <==> y == x && Printable(x)
    ensures DerivesArgs(PrintArgs(args), us) <==> us == args && ArePrintable(args)
  {
    var n := |args| - 1;
    assert n == 0 ==> PrintArgs(args) == Print(args[n]) && ArePrintable(args[..n]);
    assert n > 0 ==> PrintArgs(args) == PrintArgs(args[..n]) + [Comma] + Print(args[n]);
    PrintedArgsAreNeat(args[..n]);
    PrintIsNeat(args[n]);
    hide *;
    ArePrintableSplits(args);
    if us != [] { SplitLast(args, us); }
    if n == 0 { OneArgReads(Print(args[n]), us); }
    else { MoreArgsRead(PrintArgs(args[..n]), Print(args[n]), us); }
  }

  lemma ArePrintableSplits(args: seq<Expr>)
    requires args != []
    ensures ArePrintable(args) <==> ArePrintable(args[..|args| - 1]) && Printable(args[|args| - 1])
  {
  }

  // Of the prefix operators only the star is in the grammar: no text that begins with
  // the operator token '-' is an expression. A signed number is one VALUE token.
  lemma {:induction false} NoPrefixMinus(ts: Tokens, e: Expr)
    requires Derives(ts, e)
    ensures ts != [] && ts[0] != OpSign(Sub)
    decreases |ts|
  {
    DerivedIsNeat(ts, e);
    hide Neat;
    if Applied(ts, e) {
      var i := SplitOf(ts, e);
      NoPrefixMinus(ts[..i], e.left);
    }
  }

  lemma PrintingIsInjective(e: Expr, f: Expr)
    requires Printable(e) && Print(e) == Print(f)
    ensures e == f
  {
    ReadsBack(e, e);
    ReadsBack(f, e);
  }

  // ---------- rules ----------

  function PrintAssign(a: Assign): Tokens {
    if a.flagBit != 0 then [Identifier(a.id), KeyFlag, FlagName(a.flagBit), Equals] + Print(a.rval)
    else [Identifier(a.id), Equals] + Print(a.rval)
  }

  function PrintAssigns(ass: seq<Assign>): Tokens {
    if ass == [] then []
    else if |ass| == 1 then PrintAssign(ass[0])
    else PrintAssigns(ass[..|ass| - 1]) + [Comma] + PrintAssign(ass[|ass| - 1])
  }

  // The entry of a block; the block gives the target.
  function PrintEntry(e: LabelEntry): Tokens {
    [KeySet] + Print(e.ass.rval) + [KeyWhen] + Print(e.cond)
  }

  function PrintTrigger(t: TriggerRule): Tokens {
    [KeyTrigger, KeyWhen] + Print(t.cond) + [KeySet] + PrintAssigns(t.ass)
  }

  predicate PrintableAssign(a: Assign) {
    (a.flagBit == 0 || IsNamed(a.flagBit)) && Printable(a.rval)
  }

  ghost predicate DerivesAssign(ts: Tokens, a: Assign) {
    || (a.flagBit == 0 && |ts| >= 2 && ts[..2] == [Identifier(a.id), Equals] && Derives(ts[2..], a.rval))
    || (IsNamed(a.flagBit) && |ts| >= 4 && ts[..4] == [Identifier(a.id), KeyFlag, FlagName(a.flagBit), Equals]
          && Derives(ts[4..], a.rval))
  }

  ghost predicate DerivesAssigns(ts: Tokens, ass: seq<Assign>)
    decreases |ts|, 1
  {
    || (|ass| == 1 && DerivesAssign(ts, ass[0]))
    || exists i: nat :: i < |ts| && LastAssignAt(ts, ass, i)
  }

  ghost predicate LastAssignAt(ts: Tokens, ass: seq<Assign>, i: nat)
    requires i < |ts|
    decreases |ts|, 0
  {
    ts[i] == Comma && |ass| > 1 && DerivesAssigns(ts[..i], ass[..|ass| - 1]) && DerivesAssign(ts[i + 1..], ass[|ass| - 1])
  }

  ghost predicate DerivesEntry(ts: Tokens, rval: Expr, cond: Expr) {
    |ts| > 2 && ts[0] == KeySet && ts[|ts| - 1] == Semicolon && exists i: nat :: i < |ts| && EntryAt(ts, rval, cond, i)
  }

  ghost predicate EntryAt(ts: Tokens, rval: Expr, cond: Expr, i: nat)
    requires i < |ts|
  {
    0 < i < |ts| - 1 && ts[i] == KeyWhen && Derives(ts[1..i], rval) && Derives(ts[i + 1..|ts| - 1], cond)
  }

  ghost predicate DerivesTrigger(ts: Tokens, t: TriggerRule) {
    |ts| > 3 && ts[0] == KeyTrigger && ts[1] == KeyWhen && ts[|ts| - 1] == Semicolon
      && exists i: nat :: i < |ts| && TriggerAt(ts, t, i)
  }

  ghost predicate TriggerAt(ts: Tokens, t: TriggerRule, i: nat)
    requires i < |ts|
  {
    1 < i < |ts| - 1 && ts[i] == KeySet && Derives(ts[2..i], t.cond) && DerivesAssigns(ts[i + 1..|ts| - 1], t.ass)
  }

  lemma NeatTarget(a: Assign, flag: bool, value: Tokens)
    requires Neat(value, false)
    ensures Neat((if flag then [Identifier(a.id), KeyFlag, FlagName(a.flagBit), Equals] else [Identifier(a.id), Equals]) + value, false)
  {
    NeatSingle(Identifier(a.id));
    NeatSingle(Equals);
    NeatSingle(KeyFlag);
    NeatSingle(FlagName(a.flagBit));
    NeatSum([Identifier(a.id)], [Equals], false);
    NeatSum([Identifier(a.id)], [KeyFlag], false);
    NeatSum([FlagName(a.flagBit)], [Equals], false);
    NeatSum([Identifier(a.id)] + [KeyFlag], [FlagName(a.flagBit)] + [Equals], false);
    assert [Identifier(a.id), Equals] == [Identifier(a.id)] + [Equals];
    assert [Identifier(a.id), KeyFlag, FlagName(a.flagBit), Equals]
        == ([Identifier(a.id)] + [KeyFlag]) + ([FlagName(a.flagBit)] + [Equals]);
    NeatSum([Identifier(a.id), Equals], value, false);
    NeatSum([Identifier(a.id), KeyFlag, FlagName(a.flagBit), Equals], value, false);
  }

  lemma DerivedAssignIsNeat(ts: Tokens, a: Assign)
    requires DerivesAssign(ts, a)
    ensures ts != [] && Neat(ts, false)
  {
    hide Neat, Derives, IsNamed;
    var k := HeadOf(ts, a);
    DerivedIsNeat(ts[k..], a.rval);
    NeatTarget(a, k == 4, ts[k..]);
  }

  // Where the value begins.
  lemma HeadOf(ts: Tokens, a: Assign) returns (k: nat)
    requires DerivesAssign(ts, a)
    ensures (k == 2 || k == 4) && k <= |ts| && Derives(ts[k..], a.rval)
    ensures ts == (if k == 4 then [Identifier(a.id), KeyFlag, FlagName(a.flagBit), Equals] else [Identifier(a.id), Equals]) + ts[k..]
  {
    hide Derives, IsNamed;
    k := if a.flagBit == 0 && ts[..2] == [Identifier(a.id), Equals] && Derives(ts[2..], a.rval) then 2 else 4;
    assert ts == ts[..k] + ts[k..];
  }

  lemma {:induction false} DerivedAssignsAreNeat(ts: Tokens, ass: seq<Assign>)
    requires DerivesAssigns(ts, ass)
    ensures ts != [] && Neat(ts, true)
    decreases |ts|
  {
    hide Neat, DerivesAssign;
    if |ass| == 1 && DerivesAssign(ts, ass[0]) {
      DerivedAssignIsNeat(ts, ass[0]);
      NeatWithCommas(ts);
    } else {
      var i: nat :| i < |ts| && LastAssignAt(ts, ass, i);
      assert ts == ts[..i] + [Comma] + ts[i + 1..];
      hide DerivesAssigns;
      DerivedAssignsAreNeat(ts[..i], ass[..|ass| - 1]);
      DerivedAssignIsNeat(ts[i + 1..], ass[|ass| - 1]);
      NeatList(ts[..i], ts[i + 1..]);
    }
  }

  lemma PrintedAssignIsNeat(a: Assign)
    ensures PrintAssign(a) != [] && Neat(PrintAssign(a), false)
  {
    PrintIsNeat(a.rval);
    NeatTarget(a, a.flagBit != 0, Print(a.rval));
  }

  lemma {:induction false} PrintedAssignsAreNeat(ass: seq<Assign>)
    ensures Neat(PrintAssigns(ass), true)
    decreases |ass|
  {
    if |ass| == 1 {
      PrintedAssignIsNeat(ass[0]);
    } else if |ass| > 1 {
      PrintedAssignsAreNeat(ass[..|ass| - 1]);
      PrintedAssignIsNeat(ass[|ass| - 1]);
      NeatList(PrintAssigns(ass[..|ass| - 1]), PrintAssign(ass[|ass| - 1]));
    }
  }

  lemma AssignReadsBack(a: Assign, b: Assign)
    ensures DerivesAssign(PrintAssign(a), b) <==> b == a && PrintableAssign(a)
  {
    ReadsBack(a.rval, b.rval);
    var ts := PrintAssign(a);
    var k := if a.flagBit != 0 then 4 else 2;
    assert ts[k..] == Print(a.rval);
    assert ts[1] == if k == 4 then KeyFlag else Equals;
    if |ts| >= 4 { assert ts[..4][1] == ts[1] && ts[..4][2] == ts[2]; }
    assert ts[..2][1] == ts[1] && ts[..2][0] == ts[0] == Identifier(a.id);
  }

  lemma OneAssignReads(ts: Tokens, us: seq<Assign>)
    requires Neat(ts, false)
    ensures DerivesAssigns(ts, us) <==> |us| == 1 && DerivesAssign(ts, us[0])
  {
    if i: nat :| i < |ts| && LastAssignAt(ts, us, i) {
      DerivedAssignsAreNeat(ts[..i], us[..|us| - 1]);
    }
  }

  predicate AllPrintable(ass: seq<Assign>) {
    forall a :: a in ass ==> PrintableAssign(a)
  }

  lemma AllPrintableSplits(ass: seq<Assign>)
    requires ass != []
    ensures AllPrintable(ass) <==> AllPrintable(ass[..|ass| - 1]) && PrintableAssign(ass[|ass| - 1])
  {
  }

  lemma {:induction false} AssignsReadBack(ass: seq<Assign>, us: seq<Assign>)
    ensures DerivesAssigns(PrintAssigns(ass), us) <==> us == ass && ass != [] && AllPrintable(ass)
    decreases |ass|
  {
    hide *;
    if |ass| < 2 {
      FewAssignsReadBack(ass, us);
    } else {
      if us != [] { AssignsReadBack(ass[..|ass| - 1], us[..|us| - 1]); }
      LastAssignReadsBack(ass, us);
    }
  }

  lemma FewAssignsReadBack(ass: seq<Assign>, us: seq<Assign>)
    requires |ass| < 2
    ensures DerivesAssigns(PrintAssigns(ass), us) <==> us == ass && ass != [] && AllPrintable(ass)
  {
    if ass == [] {
      assert PrintAssigns(ass) == [];
      hide *;
      if DerivesAssigns([], us) { DerivedAssignsAreNeat([], us); }
    } else {
      assert PrintAssigns(ass) == PrintAssign(ass[0]);
      PrintedAssignIsNeat(ass[0]);
      assert AllPrintable(ass[..0]);
      hide *;
      AllPrintableSplits(ass);
      OneAssignReads(PrintAssign(ass[0]), us);
      if us != [] { SplitLast(ass, us); }
      if |us| == 1 { AssignReadsBack(ass[0], us[0]); }
    }
  }

  lemma LastAssignReadsBack(ass: seq<Assign>, us: seq<Assign>)
    requires |ass| > 1
    requires us != [] ==> var front, back := ass[..|ass| - 1], us[..|us| - 1];
               DerivesAssigns(PrintAssigns(front), back) <==> back == front && front != [] && AllPrintable(front)
    ensures DerivesAssigns(PrintAssigns(ass), us) <==> us == ass && AllPrintable(ass)
  {
    var n := |ass| - 1;
    assert PrintAssigns(ass) == PrintAssigns(ass[..n]) + [Comma] + PrintAssign(ass[n]);
    PrintedAssignsAreNeat(ass[..n]);
    PrintedAssignIsNeat(ass[n]);
    hide *;
    MoreAssignsRead(PrintAssigns(ass[..n]), PrintAssign(ass[n]), us);
    if us != [] {
      SplitLast(ass, us);
      AllPrintableSplits(ass);
      AssignReadsBack(ass[n], us[|us| - 1]);
    }
  }

  lemma MoreAssignsRead(front: Tokens, last: Tokens, us: seq<Assign>)
    requires Neat(front, true) && Neat(last, false)
    ensures DerivesAssigns(front + [Comma] + last, us) <==>
              |us| > 1 && DerivesAssigns(front, us[..|us| - 1]) && DerivesAssign(last, us[|us| - 1])
  {
    var ts := front + [Comma] + last;
    assert ts[..|front|] == front && ts[|front| + 1..] == last;
    if |us| == 1 && DerivesAssign(ts, us[0]) { DerivedAssignIsNeat(ts, us[0]); }
    if i: nat :| i < |ts| && LastAssignAt(ts, us, i) {
      DerivedAssignsAreNeat(ts[..i], us[..|us| - 1]);
      DerivedAssignIsNeat(ts[i + 1..], us[|us| - 1]);
      LastCommaAt(front, last, i);
    }
    if |us| > 1 && DerivesAssigns(front, us[..|us| - 1]) && DerivesAssign(last, us[|us| - 1]) {
      assert LastAssignAt(ts, us, |front|);
    }
  }

  function Clause(head: Tokens, a: Tokens, key: Token, b: Tokens): Tokens {
    head + a + [key] + b + [Semicolon]
  }

  lemma ClauseParts(head: Tokens, a: Tokens, key: Token, b: Tokens)
    ensures var ts, at := Clause(head, a, key, b), |head| + |a|;
      |ts| == at + |b| + 2 && ts[..|head|] == head && ts[|head|..at] == a && ts[at] == key && ts[at + 1..|ts| - 1] == b
        && ts[|ts| - 1] == Semicolon
  {
  }

  // A keyword between two neat texts can only be found in its place.
  lemma KeywordAt(head: Tokens, a: Tokens, key: Token, b: Tokens, i: nat)
    requires Neat(a, true) && Neat(b, true) && !InExpr(key)
    requires var ts := Clause(head, a, key, b); |head| <= i < |ts| - 1 && ts[i] == key && Neat(ts[|head|..i], true)
    ensures i == |head| + |a|
  {
  }

  lemma EntryReadsAt(a: Tokens, b: Tokens, rval: Expr, cond: Expr, i: nat)
    requires Neat(a, true) && Neat(b, true) && i < |a| + |b| + 3
    ensures |Clause([KeySet], a, KeyWhen, b)| == |a| + |b| + 3
    ensures EntryAt(Clause([KeySet], a, KeyWhen, b), rval, cond, i) <==> i == 1 + |a| && Derives(a, rval) && Derives(b, cond)
  {
    assert !InExpr(KeyWhen);
    hide Clause, Derives, Neat, InExpr;
    var ts := Clause([KeySet], a, KeyWhen, b);
    ClauseParts([KeySet], a, KeyWhen, b);
    if EntryAt(ts, rval, cond, i) {
      DerivedIsNeat(ts[1..i], rval);
      NeatAllowsCommas(ts[1..i]);
      KeywordAt([KeySet], a, KeyWhen, b, i);
    }
  }

  lemma EntryReads(a: Tokens, b: Tokens, rval: Expr, cond: Expr)
    requires Neat(a, true) && Neat(b, true)
    ensures DerivesEntry(Clause([KeySet], a, KeyWhen, b), rval, cond) <==> Derives(a, rval) && Derives(b, cond)
  {
    hide Clause, Derives, Neat, EntryAt;
    var ts := Clause([KeySet], a, KeyWhen, b);
    ClauseParts([KeySet], a, KeyWhen, b);
    assert ts[..1][0] == ts[0];
    forall i: nat | i < |ts| ensures EntryAt(ts, rval, cond, i) <==> i == 1 + |a| && Derives(a, rval) && Derives(b, cond) {
      EntryReadsAt(a, b, rval, cond, i);
    }
    assert EntryAt(ts, rval, cond, 1 + |a|) <==> Derives(a, rval) && Derives(b, cond);
  }

  lemma TriggerReadsAt(a: Tokens, b: Tokens, u: TriggerRule, i: nat)
    requires Neat(a, true) && Neat(b, true) && i < |a| + |b| + 4
    ensures |Clause([KeyTrigger, KeyWhen], a, KeySet, b)| == |a| + |b| + 4
    ensures TriggerAt(Clause([KeyTrigger, KeyWhen], a, KeySet, b), u, i)
       <==> i == 2 + |a| && Derives(a, u.cond) && DerivesAssigns(b, u.ass)
  {
    assert !InExpr(KeySet);
    hide Clause, Derives, DerivesAssigns, Neat, InExpr;
    var ts := Clause([KeyTrigger, KeyWhen], a, KeySet, b);
    ClauseParts([KeyTrigger, KeyWhen], a, KeySet, b);
    if TriggerAt(ts, u, i) {
      DerivedIsNeat(ts[2..i], u.cond);
      NeatAllowsCommas(ts[2..i]);
      KeywordAt([KeyTrigger, KeyWhen], a, KeySet, b, i);
    }
  }

  lemma TriggerReads(a: Tokens, b: Tokens, u: TriggerRule)
    requires Neat(a, true) && Neat(b, true)
    ensures DerivesTrigger(Clause([KeyTrigger, KeyWhen], a, KeySet, b), u) <==> Derives(a, u.cond) && DerivesAssigns(b, u.ass)
  {
    hide Clause, Derives, DerivesAssigns, Neat, TriggerAt;
    var ts := Clause([KeyTrigger, KeyWhen], a, KeySet, b);
    ClauseParts([KeyTrigger, KeyWhen], a, KeySet, b);
    assert ts[..2][0] == ts[0] && ts[..2][1] == ts[1];
    forall i: nat | i < |ts| ensures TriggerAt(ts, u, i) <==> i == 2 + |a| && Derives(a, u.cond) && DerivesAssigns(b, u.ass) {
      TriggerReadsAt(a, b, u, i);
    }
    assert TriggerAt(ts, u, 2 + |a|) <==> Derives(a, u.cond) && DerivesAssigns(b, u.ass);
  }

  // The text of an entry reads back as its value and its condition only.
  lemma EntryReadsBack(e: LabelEntry, rval: Expr, cond: Expr)
    ensures DerivesEntry(PrintEntry(e) + [Semicolon], rval, cond)
       <==> rval == e.ass.rval && cond == e.cond && Printable(rval) && Printable(cond)
  {
    assert PrintEntry(e) + [Semicolon] == Clause([KeySet], Print(e.ass.rval), KeyWhen, Print(e.cond));
    PrintIsNeat(e.ass.rval);
    PrintIsNeat(e.cond);
    NeatAllowsCommas(Print(e.ass.rval));
    NeatAllowsCommas(Print(e.cond));
    hide *;
    EntryReads(Print(e.ass.rval), Print(e.cond), rval, cond);
    ReadsBack(e.ass.rval, rval);
    ReadsBack(e.cond, cond);
  }

  lemma NeatAllowsCommas(ts: Tokens)
    requires Neat(ts, false)
    ensures Neat(ts, true)
  {
  }

  // And that of a trigger as its condition and its assignments, in order.
  lemma TriggerReadsBack(t: TriggerRule, u: TriggerRule)
    ensures DerivesTrigger(PrintTrigger(t) + [Semicolon], u)
       <==> u == t && Printable(t.cond) && t.ass != [] && AllPrintable(t.ass)
  {
    assert PrintTrigger(t) + [Semicolon] == Clause([KeyTrigger, KeyWhen], Print(t.cond), KeySet, PrintAssigns(t.ass));
    PrintIsNeat(t.cond);
    NeatAllowsCommas(Print(t.cond));
    PrintedAssignsAreNeat(t.ass);
    hide *;
    TriggerReads(Print(t.cond), PrintAssigns(t.ass), u);
    ReadsBack(t.cond, u.cond);
    AssignsReadBack(t.ass, u.ass);
  }

  // ---------- the printers, as they append to a buffer ----------

  method Describe(e: Expr) returns (s: Tokens)
    ensures s == Print(e)
    decreases e
  {
    match e
    case Literal(v) => s := [Number(v)];
    case Ref(x) => s := [Identifier(x)];
    case Flag(x, bit) => s := [Identifier(x), KeyFlag, FlagName(bit)];
    case Op(op, l, r) =>
      var ls := Describe(l);
      var rs := Describe(r);
      s := [Open] + ls + [Close, OpSign(op), Open] + rs + [Close];
    case Func(fn, args) =>
      var list: Tokens := [];
      for i := 0 to |args|
        invariant list == PrintArgs(args[..i])
      {
        assert args[..i + 1][..i] == args[..i];
        var arg := Describe(args[i]);
        list := list + (if i == 0 then [] else [Comma]) + arg;
      }
      assert args[..|args|] == args;
      s := [Identifier(FnName(fn)), Open] + list + [Close];
  }

  method FormatAssign(a: Assign) returns (s: Tokens)
    ensures s == PrintAssign(a)
  {
    var es := Describe(a.rval);
    if a.flagBit != 0 { s := [Identifier(a.id), KeyFlag, FlagName(a.flagBit), Equals] + es; }
    else { s := [Identifier(a.id), Equals] + es; }
  }

  method FormatEntry(e: LabelEntry) returns (s: Tokens)
    ensures s == PrintEntry(e)
  {
    var rs := Describe(e.ass.rval);
    var cs := Describe(e.cond);
    s := [KeySet] + rs + [KeyWhen] + cs;
  }

  method FormatTrigger(t: TriggerRule) returns (s: Tokens)
    ensures s == PrintTrigger(t)
  {
    var cs := Describe(t.cond);
    var list: Tokens := [];
    for i := 0 to |t.ass|
      invariant list == PrintAssigns(t.ass[..i])
    {
      assert t.ass[..i + 1][..i] == t.ass[..i];
      var ts := FormatAssign(t.ass[i]);
      list := list + (if i == 0 then [] else [Comma]) + ts;
    }
    assert t.ass[..|t.ass|] == t.ass;
    s := [KeyTrigger, KeyWhen] + cs + [KeySet] + list;
  }
}
