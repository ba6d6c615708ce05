// The reference-counted expression nodes of src/expr.c and their holders: rules,
// the parser and the variables of src/var.c. A node is a slot of an arena; its
// children are slots too, and may be shared between expressions.

module Nodes {
  import opened Options
  import opened Exprs
  import Arithmetic

  datatype NodeFn = Plain(fn: Fn) | EvalOnce | Changed

  datatype Tag =
    | Number(val: real)
    | Binary(op: Operator)
    | Name(id: string)
    | Call(fn: NodeFn)
    | Bit(id: string, bit: bv64)

  datatype Slot = Freed | Node(tag: Tag, kids: seq<nat>, nref: nat)

  predicate Live(nodes: seq<Slot>, id: nat) {
    id < |nodes| && nodes[id].Node?
  }

  function Count(nodes: seq<Slot>, id: nat): nat {
    if Live(nodes, id) then nodes[id].nref else 0
  }

  // How often a slot refers to id.
  function Refers(s: Slot, id: nat): nat {
    if s.Freed? then 0 else multiset(s.kids)[id]
  }

  // How often all nodes together do.
  function Held(nodes: seq<Slot>, id: nat): nat {
    if nodes == [] then 0 else Held(nodes[..|nodes| - 1], id) + Refers(nodes[|nodes| - 1], id)
  }

  lemma {:induction false} HeldUpdate(nodes: seq<Slot>, i: nat, s: Slot, id: nat)
    requires i < |nodes|
    ensures Held(nodes[i := s], id) == Held(nodes, id) - Refers(nodes[i], id) + Refers(s, id)
    decreases |nodes|
  {
    var last := |nodes| - 1;
    if i == last {
      assert nodes[i := s][..last] == nodes[..last];
    } else {
      assert nodes[i := s][..last] == nodes[..last][i := s];
      HeldUpdate(nodes[..last], i, s, id);
    }
  }

  lemma HeldAppend(nodes: seq<Slot>, s: Slot, id: nat)
    ensures Held(nodes + [s], id) == Held(nodes, id) + Refers(s, id)
  {
  }

  lemma {:induction false} HeldBySomeone(nodes: seq<Slot>, id: nat) returns (p: nat)
    requires Held(nodes, id) > 0
    ensures Live(nodes, p) && id in nodes[p].kids
    decreases |nodes|
  {
    var last := |nodes| - 1;
    if Refers(nodes[last], id) > 0 { p := last; }
    else { p := HeldBySomeone(nodes[..last], id); }
  }

  lemma {:induction false} KidsAreHeld(nodes: seq<Slot>, p: nat, id: nat)
    requires p < |nodes|
    ensures Refers(nodes[p], id) <= Held(nodes, id)
    decreases |nodes|
  {
    if p < |nodes| - 1 { KidsAreHeld(nodes[..|nodes| - 1], p, id); }
  }

  // A count is the number of holders: roots outside the arena, and parents in it.
  ghost predicate CountedAt(nodes: seq<Slot>, roots: multiset<nat>, id: nat) {
    Count(nodes, id) == roots[id] + Held(nodes, id) && (Live(nodes, id) ==> nodes[id].nref > 0)
  }

  ghost predicate Counted(nodes: seq<Slot>, roots: multiset<nat>) {
    forall id: nat :: CountedAt(nodes, roots, id)
  }

  // Children are older than their parent, except the literals that EVAL and CHANGED keep.
  ghost predicate KidFits(nodes: seq<Slot>, p: nat, c: nat) {
    Live(nodes, c) && (c < p || nodes[c].tag.Number?)
  }

  // The literal in which CHANGED keeps its previous operand has no other holder.
  predicate Private(nodes: seq<Slot>, id: nat) {
    Live(nodes, id) && nodes[id].tag.Number? && nodes[id].nref == 1
  }

  ghost predicate NodeFits(nodes: seq<Slot>, p: nat)
    requires Live(nodes, p)
  {
    && (forall c :: c in nodes[p].kids ==> KidFits(nodes, p, c))
    && (match nodes[p].tag
        case Binary(_) => |nodes[p].kids| == 2
        case Call(EvalOnce) => |nodes[p].kids| == 1
        case Call(Changed) => |nodes[p].kids| == 2 && Private(nodes, nodes[p].kids[1])
        case Call(Plain(_)) => true
        case _ => nodes[p].kids == [])
  }

  ghost predicate Shaped(nodes: seq<Slot>) {
    forall p: nat :: Live(nodes, p) ==> NodeFits(nodes, p)
  }

  // ---------- live means reachable ----------

  ghost predicate Chain(nodes: seq<Slot>, path: seq<nat>) {
    && path != []
    && (forall i :: 0 <= i < |path| ==> Live(nodes, path[i]))
    && (forall i, j :: 0 <= i && j == i + 1 < |path| ==> path[j] in nodes[path[i]].kids)
  }

  ghost predicate Leads(nodes: seq<Slot>, roots: multiset<nat>, path: seq<nat>, id: nat) {
    Chain(nodes, path) && path[0] in roots && path[|path| - 1] == id
  }

  ghost predicate Rooted(nodes: seq<Slot>, roots: multiset<nat>, id: nat) {
    exists path :: Leads(nodes, roots, path, id)
  }

  lemma {:induction false} LiveIsReachable(nodes: seq<Slot>, roots: multiset<nat>, id: nat) returns (path: seq<nat>)
    requires Counted(nodes, roots) && Shaped(nodes) && Live(nodes, id)
    ensures Leads(nodes, roots, path, id)
    ensures !nodes[id].tag.Number? ==> forall i :: 0 <= i < |path| - 1 ==> path[i] > id
    decreases nodes[id].tag.Number?, |nodes| - id
  {
    assert CountedAt(nodes, roots, id);
    if id in roots {
      path := [id];
    } else {
      var p := HeldBySomeone(nodes, id);
      assert NodeFits(nodes, p);
      assert KidFits(nodes, p, id);
      var above := LiveIsReachable(nodes, roots, p);
      path := above + [id];
    }
  }

  // What a release may do: nodes go or stay as they are, up to their count.
  ghost predicate Survives(before: seq<Slot>, after: seq<Slot>) {
    && |after| == |before|
    && forall id: nat :: Live(after, id) ==>
         Live(before, id) && after[id].tag == before[id].tag && after[id].kids == before[id].kids
           && after[id].nref <= before[id].nref
  }

  lemma SurvivesTransitively(a: seq<Slot>, b: seq<Slot>, c: seq<Slot>)
    requires Survives(a, b) && Survives(b, c)
    ensures Survives(a, c)
  {
  }

  lemma RootIsLive(nodes: seq<Slot>, roots: multiset<nat>, id: nat)
    requires Counted(nodes, roots) && id in roots
    ensures Live(nodes, id)
  {
    assert CountedAt(nodes, roots, id);
  }

  lemma {:induction false} ReachableSurvives(before: seq<Slot>, after: seq<Slot>, roots: multiset<nat>, path: seq<nat>, id: nat)
    requires Counted(after, roots) && Shaped(after) && Survives(before, after) && Leads(before, roots, path, id)
    ensures Live(after, id)
    decreases |path|
  {
    if |path| == 1 {
      RootIsLive(after, roots, id);
    } else {
      var last := |path| - 1;
      var p := path[last - 1];
      assert Leads(before, roots, path[..last], p);
      ReachableSurvives(before, after, roots, path[..last], p);
      assert NodeFits(after, p);
      assert KidFits(after, p, id);
    }
  }

  // Exactly the nodes without a holder left are gone.
  lemma ReleasedExactly(before: seq<Slot>, after: seq<Slot>, roots: multiset<nat>)
    requires Counted(after, roots) && Shaped(after) && Survives(before, after)
    ensures forall id: nat :: Live(after, id) <==> Rooted(before, roots, id)
  {
    forall id: nat ensures Live(after, id) <==> Rooted(before, roots, id) {
      if Live(after, id) {
        var path := LiveIsReachable(after, roots, id);
        assert Leads(before, roots, path, id);
      } else if Rooted(before, roots, id) {
        var path :| Leads(before, roots, path, id);
        ReachableSurvives(before, after, roots, path, id);
      }
    }
  }

  // ---------- the expression under a node ----------

  datatype Tree = Tree(tag: Tag, kids: seq<Tree>)

  function Rank(nodes: seq<Slot>, id: nat): nat {
    if Live(nodes, id) && nodes[id].tag.Number? then 0 else id + 1
  }

  lemma KidsRankLower(nodes: seq<Slot>, p: nat, i: nat)
    requires Shaped(nodes) && Live(nodes, p) && i < |nodes[p].kids|
    ensures Live(nodes, nodes[p].kids[i]) && Rank(nodes, nodes[p].kids[i]) < Rank(nodes, p)
  {
    assert NodeFits(nodes, p);
    assert KidFits(nodes, p, nodes[p].kids[i]);
  }

  ghost function TreeOf(nodes: seq<Slot>, id: nat): Tree
    requires Shaped(nodes) && Live(nodes, id)
    decreases Rank(nodes, id), 1, 0
  {
    Tree(nodes[id].tag, TreesOf(nodes, id, 0))
  }

  // The children from the i-th on.
  ghost function TreesOf(nodes: seq<Slot>, p: nat, i: nat): (ts: seq<Tree>)
    requires Shaped(nodes) && Live(nodes, p) && i <= |nodes[p].kids|
    ensures |ts| == |nodes[p].kids| - i
    decreases Rank(nodes, p), 0, |nodes[p].kids| - i
  {
    if i == |nodes[p].kids| then []
    else
      KidsRankLower(nodes, p, i);
      [TreeOf(nodes, nodes[p].kids[i])] + TreesOf(nodes, p, i + 1)
  }

  // Same label and children at every node that is left.
  ghost predicate Keeps(before: seq<Slot>, after: seq<Slot>) {
    && |before| <= |after|
    && forall id: nat :: id < |before| && Live(after, id) ==>
         Live(before, id) && after[id].tag == before[id].tag && after[id].kids == before[id].kids
  }

  lemma {:induction false} TreeKept(before: seq<Slot>, after: seq<Slot>, id: nat)
    requires Shaped(before) && Shaped(after) && Keeps(before, after) && Live(before, id) && Live(after, id)
    ensures TreeOf(after, id) == TreeOf(before, id)
    decreases Rank(before, id), 1, 0
  {
    TreesKept(before, after, id, 0);
  }

  lemma {:induction false} TreesKept(before: seq<Slot>, after: seq<Slot>, p: nat, i: nat)
    requires Shaped(before) && Shaped(after) && Keeps(before, after) && Live(before, p) && Live(after, p)
    requires i <= |before[p].kids|
    ensures TreesOf(after, p, i) == TreesOf(before, p, i)
    decreases Rank(before, p), 0, |before[p].kids| - i
  {
    if i < |before[p].kids| {
      KidsRankLower(before, p, i);
      KidsRankLower(after, p, i);
      TreeKept(before, after, before[p].kids[i]);
      TreesKept(before, after, p, i + 1);
    }
  }

  lemma FirstTree(nodes: seq<Slot>, p: nat, i: nat)
    requires Shaped(nodes) && Live(nodes, p) && i < |nodes[p].kids|
    ensures Live(nodes, nodes[p].kids[i]) && TreesOf(nodes, p, i)[0] == TreeOf(nodes, nodes[p].kids[i])
    ensures TreesOf(nodes, p, i)[1..] == TreesOf(nodes, p, i + 1)
    ensures TreesOf(nodes, p, i) == [TreeOf(nodes, nodes[p].kids[i])] + TreesOf(nodes, p, i + 1)
  {
    KidsRankLower(nodes, p, i);
  }

  lemma {:induction false} KidTreeFrom(nodes: seq<Slot>, p: nat, i: nat, k: nat)
    requires Shaped(nodes) && Live(nodes, p) && i <= k < |nodes[p].kids|
    ensures Live(nodes, nodes[p].kids[k]) && TreesOf(nodes, p, i)[k - i] == TreeOf(nodes, nodes[p].kids[k])
    decreases k - i
  {
    KidsRankLower(nodes, p, i);
    if i < k { KidTreeFrom(nodes, p, i + 1, k); }
  }

  lemma KidTree(nodes: seq<Slot>, p: nat, k: nat)
    requires Shaped(nodes) && Live(nodes, p) && k < |nodes[p].kids|
    ensures Live(nodes, nodes[p].kids[k]) && |TreeOf(nodes, p).kids| == |nodes[p].kids|
    ensures TreeOf(nodes, p).kids[k] == TreeOf(nodes, nodes[p].kids[k])
  {
    KidTreeFrom(nodes, p, 0, k);
  }

  // No node that is left stands for another expression than before.
  ghost predicate SameTrees(before: seq<Slot>, after: seq<Slot>)
    requires Shaped(before) && Shaped(after)
  {
    && |before| <= |after|
    && forall id: nat :: id < |before| && Live(after, id) ==>
         Live(before, id) && TreeOf(after, id) == TreeOf(before, id)
  }

  lemma KeptTrees(before: seq<Slot>, after: seq<Slot>)
    requires Shaped(before) && Shaped(after) && Keeps(before, after)
    ensures SameTrees(before, after)
  {
    forall id: nat | id < |before| && Live(after, id) ensures TreeOf(after, id) == TreeOf(before, id) {
      TreeKept(before, after, id);
    }
  }

  // The expression a tree behaves as. A frozen EVAL is its value; CHANGED and an
  // EVAL that is not frozen are not values of the names alone.
  function Meaning(t: Tree): Option<Expr> {
    match t.tag
    case Number(v) => Some(Literal(v))
    case Name(x) => Some(Ref(x))
    case Bit(x, bit) => Some(Flag(x, bit))
    case Binary(op) =>
      if |t.kids| == 2 && Meaning(t.kids[0]).Some? && Meaning(t.kids[1]).Some?
      then Some(Op(op, Meaning(t.kids[0]).value, Meaning(t.kids[1]).value)) else None
    case Call(Plain(fn)) => if Meanings(t.kids).Some? then Some(Func(fn, Meanings(t.kids).value)) else None
    case Call(EvalOnce) => if |t.kids| == 1 && t.kids[0].tag.Number? then Some(Literal(t.kids[0].tag.val)) else None
    case Call(Changed) => None
  }

  function Meanings(ts: seq<Tree>): Option<seq<Expr>> {
    if ts == [] then Some([])
    else if Meaning(ts[0]).Some? && Meanings(ts[1..]).Some? then Some([Meaning(ts[0]).value] + Meanings(ts[1..]).value)
    else None
  }

  // ---------- single moves ----------

  ghost predicate Sound(nodes: seq<Slot>, roots: multiset<nat>) {
    Counted(nodes, roots) && Shaped(nodes)
  }

  function Recount(nodes: seq<Slot>, x: nat, n: nat): seq<Slot>
    requires Live(nodes, x)
  {
    nodes[x := nodes[x].(nref := n)]
  }

  lemma RootIsNotPrivate(nodes: seq<Slot>, roots: multiset<nat>, x: nat, p: nat)
    requires Sound(nodes, roots) && x in roots && Live(nodes, p) && x in nodes[p].kids
    ensures nodes[x].nref > 1
  {
    RootIsLive(nodes, roots, x);
    KidsAreHeld(nodes, p, x);
    assert CountedAt(nodes, roots, x);
  }

  lemma RecountKeepsSound(nodes: seq<Slot>, roots: multiset<nat>, x: nat, n: nat, roots': multiset<nat>)
    requires Sound(nodes, roots) && Live(nodes, x) && n > 0
    requires n + roots[x] == nodes[x].nref + roots'[x]
    requires forall y :: y != x ==> roots'[y] == roots[y]
    requires x in roots
    ensures Sound(Recount(nodes, x, n), roots')
  {
    var nodes' := Recount(nodes, x, n);
    forall id: nat ensures CountedAt(nodes', roots', id) {
      HeldUpdate(nodes, x, nodes'[x], id);
      assert CountedAt(nodes, roots, id);
    }
    forall p: nat | Live(nodes', p) ensures NodeFits(nodes', p) {
      assert NodeFits(nodes, p);
      forall c | c in nodes'[p].kids ensures KidFits(nodes', p, c) { assert KidFits(nodes, p, c); }
      if x in nodes[p].kids { RootIsNotPrivate(nodes, roots, x, p); }
    }
  }

  lemma TakeOne(rest: multiset<nat>, kids: seq<nat>, i: nat)
    requires i < |kids|
    ensures kids[i] in rest + multiset(kids[i..])
    ensures rest + multiset(kids[i..]) - multiset([kids[i]]) == rest + multiset(kids[i + 1..])
  {
    assert kids[i..] == [kids[i]] + kids[i + 1..];
  }

  lemma SoleHolder(nodes: seq<Slot>, roots: multiset<nat>, x: nat)
    requires Sound(nodes, roots) && x in roots && Live(nodes, x) && nodes[x].nref <= 1
    ensures nodes[x].nref == 1
  {
    assert CountedAt(nodes, roots, x);
  }

  // A node with one holder goes; what it held is now held by whoever releases it.
  lemma FreeKeepsSound(nodes: seq<Slot>, roots: multiset<nat>, x: nat)
    requires Sound(nodes, roots) && x in roots && Live(nodes, x) && nodes[x].nref == 1
    ensures Sound(nodes[x := Freed], roots - multiset([x]) + multiset(nodes[x].kids))
  {
    var nodes' := nodes[x := Freed];
    var roots' := roots - multiset([x]) + multiset(nodes[x].kids);
    assert CountedAt(nodes, roots, x);
    KidsAreHeld(nodes, x, x);
    forall id: nat ensures CountedAt(nodes', roots', id) {
      HeldUpdate(nodes, x, Freed, id);
      assert CountedAt(nodes, roots, id);
    }
    forall p: nat | Live(nodes', p) ensures NodeFits(nodes', p) {
      assert NodeFits(nodes, p);
      KidsAreHeld(nodes, p, x);
      assert x !in nodes[p].kids;
      forall c | c in nodes'[p].kids ensures KidFits(nodes', p, c) { assert KidFits(nodes, p, c); }
    }
  }

  // A new node takes over the references to its children.
  lemma AppendKeepsSound(nodes: seq<Slot>, roots: multiset<nat>, tag: Tag, kids: seq<nat>)
    requires Sound(nodes, roots) && multiset(kids) <= roots
    requires match tag
             case Binary(_) => |kids| == 2
             case Call(EvalOnce) => |kids| == 1
             case Call(Changed) => |kids| == 2 && Private(nodes, kids[1])
             case Call(Plain(_)) => true
             case _ => kids == []
    ensures Sound(nodes + [Node(tag, kids, 1)], roots - multiset(kids) + multiset([|nodes|]))
  {
    var nodes' := nodes + [Node(tag, kids, 1)];
    var roots' := roots - multiset(kids) + multiset([|nodes|]);
    forall k | k in kids ensures Live(nodes, k) { RootIsLive(nodes, roots, k); }
    assert CountedAt(nodes, roots, |nodes|);
    forall id: nat ensures CountedAt(nodes', roots', id) {
      HeldAppend(nodes, Node(tag, kids, 1), id);
      assert CountedAt(nodes, roots, id);
    }
    forall p: nat | Live(nodes', p) ensures NodeFits(nodes', p) {
      if p < |nodes| {
        assert NodeFits(nodes, p);
        forall c | c in nodes'[p].kids ensures KidFits(nodes', p, c) { assert KidFits(nodes, p, c); }
      }
    }
  }

  // EVAL swaps its argument for a literal.
  lemma SwapKeepsSound(nodes: seq<Slot>, roots: multiset<nat>, e: nat, lit: nat)
    requires Sound(nodes, roots) && Live(nodes, e) && nodes[e].tag == Call(EvalOnce)
    requires lit in roots && Live(nodes, lit) && nodes[lit].tag.Number?
    ensures |nodes[e].kids| == 1
    ensures Sound(nodes[e := nodes[e].(kids := [lit])], roots - multiset([lit]) + multiset([nodes[e].kids[0]]))
  {
    assert NodeFits(nodes, e);
    var arg := nodes[e].kids[0];
    assert nodes[e].kids == [arg];
    var nodes' := nodes[e := nodes[e].(kids := [lit])];
    var roots' := roots - multiset([lit]) + multiset([arg]);
    forall id: nat ensures CountedAt(nodes', roots', id) {
      HeldUpdate(nodes, e, nodes'[e], id);
      assert CountedAt(nodes, roots, id);
    }
    forall p: nat | Live(nodes', p) ensures NodeFits(nodes', p) {
      assert NodeFits(nodes, p);
      if p != e {
        forall c | c in nodes'[p].kids ensures KidFits(nodes', p, c) { assert KidFits(nodes, p, c); }
      }
    }
  }

  // A literal is overwritten in place.
  lemma OverwriteKeepsSound(nodes: seq<Slot>, roots: multiset<nat>, s: nat, v: real)
    requires Sound(nodes, roots) && Live(nodes, s) && nodes[s].tag.Number?
    ensures Sound(nodes[s := nodes[s].(tag := Number(v))], roots)
  {
    var nodes' := nodes[s := nodes[s].(tag := Number(v))];
    forall id: nat ensures CountedAt(nodes', roots, id) {
      HeldUpdate(nodes, s, nodes'[s], id);
      assert CountedAt(nodes, roots, id);
    }
    forall p: nat | Live(nodes', p) ensures NodeFits(nodes', p) {
      assert NodeFits(nodes, p);
      forall c | c in nodes'[p].kids ensures KidFits(nodes', p, c) { assert KidFits(nodes, p, c); }
    }
  }

  lemma PassTwo(held: multiset<nat>, l: nat, r: nat)
    ensures multiset([l, r]) <= held + multiset([l]) + multiset([r])
    ensures held + multiset([l]) + multiset([r]) - multiset([l, r]) == held
  {
  }

  lemma StillFrozen(nodes: seq<Slot>, e: nat, lit: nat)
    requires Shaped(nodes) && Live(nodes, e) && nodes[e].kids == [lit]
    ensures Live(nodes, lit)
  {
    assert NodeFits(nodes, e);
    assert KidFits(nodes, e, lit);
  }

  lemma PassOne(held: multiset<nat>, given: nat, taken: nat)
    ensures held + multiset([given]) - multiset([given]) + multiset([taken]) == held + multiset([taken])
    ensures taken in held + multiset([taken]) && held + multiset([taken]) - multiset([taken]) == held
  {
  }

  // A new node over nodes that stay as they are.
  lemma NewTree(before: seq<Slot>, after: seq<Slot>, id: nat)
    requires Shaped(before) && Shaped(after) && Keeps(before, after) && Live(after, id)
    requires forall k | k in after[id].kids :: Live(before, k)
    ensures SameTrees(before, after) && Steady(before, after) && |TreeOf(after, id).kids| == |after[id].kids|
    ensures forall i :: 0 <= i < |after[id].kids| ==> TreeOf(after, id).kids[i] == TreeOf(before, after[id].kids[i])
  {
    KeptTrees(before, after);
    KeepsIsSteady(before, after);
    forall i | 0 <= i < |after[id].kids| ensures TreeOf(after, id).kids[i] == TreeOf(before, after[id].kids[i]) {
      KidTree(after, id, i);
      TreeKept(before, after, after[id].kids[i]);
    }
  }

  // The operand that CHANGED with one argument saw last.
  function OperandOf(nodes: seq<Slot>, c: nat): Option<real> {
    if Live(nodes, c) && nodes[c].tag == Call(Changed) && |nodes[c].kids| == 2 && Private(nodes, nodes[c].kids[1])
    then Some(nodes[nodes[c].kids[1]].tag.val)
    else None
  }

  function Differs(previous: real, now: real): real {
    if previous == Arithmetic.MIN_DOUBLE then 1.0 else Truth(now != previous)
  }

  // A change of its own children does not cut a node off.
  lemma StillRooted(before: seq<Slot>, after: seq<Slot>, roots: multiset<nat>, e: nat)
    requires Sound(before, roots) && Live(before, e) && !before[e].tag.Number? && Live(after, e)
    requires forall id: nat :: Live(before, id) && id != e ==> Live(after, id) && after[id].kids == before[id].kids
    ensures Rooted(after, roots, e)
  {
    var path := LiveIsReachable(before, roots, e);
    assert Leads(after, roots, path, e);
  }

  // The value at which EVAL is frozen, if it is.
  function FrozenAt(nodes: seq<Slot>, e: nat): Option<real> {
    if Live(nodes, e) && nodes[e].tag == Call(EvalOnce) && |nodes[e].kids| == 1
       && Live(nodes, nodes[e].kids[0]) && nodes[nodes[e].kids[0]].tag.Number?
    then Some(nodes[nodes[e].kids[0]].tag.val)
    else None
  }

  // No node comes back, a frozen EVAL keeps its value, and CHANGED its operand, but
  // for one CHANGED that may have been evaluated.
  ghost predicate SteadyBut(before: seq<Slot>, after: seq<Slot>, c: Option<nat>) {
    && |before| <= |after|
    && forall e: nat {:trigger Live(after, e)} {:trigger FrozenAt(after, e)} {:trigger OperandOf(after, e)} ::
         e < |before| && Live(after, e) ==> SteadyAt(before, after, c, e)
  }

  ghost predicate SteadyAt(before: seq<Slot>, after: seq<Slot>, c: Option<nat>, e: nat) {
    && Live(before, e)
    && (FrozenAt(before, e).Some? ==> FrozenAt(after, e) == FrozenAt(before, e))
    && (OperandOf(before, e).Some? && c != Some(e) ==> OperandOf(after, e) == OperandOf(before, e))
  }

  ghost predicate Steady(before: seq<Slot>, after: seq<Slot>) {
    SteadyBut(before, after, None)
  }

  lemma KeepsIsSteady(before: seq<Slot>, after: seq<Slot>)
    requires Shaped(after) && Keeps(before, after)
    ensures Steady(before, after)
  {
    forall e: nat | e < |before| && Live(after, e) ensures SteadyAt(before, after, None, e) {
      KidsStayed(before, after, e);
    }
  }

  // A node with the label and the children it had.
  lemma KidsStayed(before: seq<Slot>, after: seq<Slot>, e: nat)
    requires Shaped(after) && Live(after, e) && Live(before, e)
    requires after[e].tag == before[e].tag && after[e].kids == before[e].kids
    ensures forall k :: k in after[e].kids ==> Live(after, k)
    ensures OperandOf(before, e).Some? ==> OperandOf(after, e).Some?
  {
  }

  lemma {:induction false} TwoHolders(nodes: seq<Slot>, p: nat, q: nat, id: nat)
    requires p < |nodes| && q < |nodes| && p != q
    ensures Refers(nodes[p], id) + Refers(nodes[q], id) <= Held(nodes, id)
    decreases |nodes|
  {
    var last := |nodes| - 1;
    if p == last { KidsAreHeld(nodes[..last], q, id); }
    else if q == last { KidsAreHeld(nodes[..last], p, id); }
    else { TwoHolders(nodes[..last], p, q, id); }
  }

  // CHANGED overwrites a literal that nothing else refers to.
  lemma OverwriteIsSteady(nodes: seq<Slot>, roots: multiset<nat>, c: nat, v: real)
    requires Sound(nodes, roots) && Live(nodes, c) && nodes[c].tag == Call(Changed)
    ensures |nodes[c].kids| == 2 && Live(nodes, nodes[c].kids[1])
    ensures var s := nodes[c].kids[1]; SteadyBut(nodes, nodes[s := nodes[s].(tag := Number(v))], Some(c))
  {
    assert NodeFits(nodes, c);
    var s := nodes[c].kids[1];
    assert CountedAt(nodes, roots, s);
    var after := nodes[s := nodes[s].(tag := Number(v))];
    forall e: nat | e < |nodes| && Live(after, e) ensures SteadyAt(nodes, after, Some(c), e) {
      if e != c && e != s {
        TwoHolders(nodes, c, e, s);
        assert forall i :: 0 <= i < |nodes[e].kids| ==> nodes[e].kids[i] != s;
      }
    }
  }

  // Every node that is left is as before, but for one.
  ghost predicate KeepsBut(before: seq<Slot>, after: seq<Slot>, x: nat) {
    && |before| <= |after|
    && forall id: nat :: id < |before| && id != x && Live(after, id) ==>
         Live(before, id) && after[id].tag == before[id].tag && after[id].kids == before[id].kids
  }

  lemma FreezingIsSteady(before: seq<Slot>, after: seq<Slot>, x: nat)
    requires Shaped(after) && KeepsBut(before, after, x)
    requires Live(before, x) && before[x].tag == Call(EvalOnce) && FrozenAt(before, x).None?
    ensures Steady(before, after)
  {
    forall e: nat | e < |before| && Live(after, e) ensures SteadyAt(before, after, None, e) {
      if e != x { KidsStayed(before, after, e); }
    }
  }

  // ---------- whole runs ----------

  // Nothing reachable from a rule, a variable or the parser is ever released, and
  // nothing else is kept.
  lemma LiveIffRooted(nodes: seq<Slot>, roots: multiset<nat>)
    requires Sound(nodes, roots)
    ensures forall id: nat :: Live(nodes, id) <==> Rooted(nodes, roots, id)
  {
    ReleasedExactly(nodes, nodes, roots);
  }

  // One step of the arena: an evaluation of a CHANGED, or anything else.
  datatype Happening = Other | Evaluated(c: nat, operand: real, result: real)

  ghost predicate Happens(before: seq<Slot>, after: seq<Slot>, h: Happening) {
    match h
    case Other => Steady(before, after)
    case Evaluated(c, operand, result) =>
      && OperandOf(before, c).Some? && result == Differs(OperandOf(before, c).value, operand)
      && OperandOf(after, c) == Some(operand) && SteadyBut(before, after, Some(c))
  }

  ghost predicate History(arenas: seq<seq<Slot>>, hs: seq<Happening>) {
    |arenas| == |hs| + 1 && forall k :: 0 <= k < |hs| ==> HappensAt(arenas, hs, k)
  }

  ghost predicate HappensAt(arenas: seq<seq<Slot>>, hs: seq<Happening>, k: nat)
    requires k < |hs| < |arenas|
  {
    Happens(arenas[k], arenas[k + 1], hs[k])
  }

  lemma {:induction false} ArenasGrow(arenas: seq<seq<Slot>>, hs: seq<Happening>, k: nat)
    requires History(arenas, hs) && k < |arenas|
    ensures |arenas[0]| <= |arenas[k]|
    decreases k
  {
    if k > 0 {
      ArenasGrow(arenas, hs, k - 1);
      assert HappensAt(arenas, hs, k - 1);
    }
  }

  lemma HistoryBefore(arenas: seq<seq<Slot>>, hs: seq<Happening>)
    requires History(arenas, hs) && hs != []
    ensures History(arenas[..|hs|], hs[..|hs| - 1]) && HappensAt(arenas, hs, |hs| - 1)
  {
    var n := |hs| - 1;
    var earlier, rest := arenas[..|hs|], hs[..n];
    forall k | 0 <= k < n ensures HappensAt(earlier, rest, k) { assert HappensAt(arenas, hs, k); }
  }

  // Once frozen, an EVAL keeps its value through any further steps.
  lemma {:induction false} FrozenForGood(arenas: seq<seq<Slot>>, hs: seq<Happening>, e: nat, v: real)
    requires History(arenas, hs) && FrozenAt(arenas[0], e) == Some(v) && Live(arenas[|hs|], e)
    ensures FrozenAt(arenas[|hs|], e) == Some(v)
    decreases |hs|
  {
    if hs != [] {
      ArenasGrow(arenas, hs, |hs| - 1);
      HistoryBefore(arenas, hs);
      assert SteadyAt(arenas[|hs| - 1], arenas[|hs|], if hs[|hs| - 1].Other? then None else Some(hs[|hs| - 1].c), e);
      FrozenForGood(arenas[..|hs|], hs[..|hs| - 1], e, v);
    }
  }

  // The variable table as src/engine.c sees it: names to expressions.
  ghost predicate TableFits(nodes: seq<Slot>, table: map<string, nat>)
    requires Shaped(nodes)
  {
    forall x :: x in table ==> Live(nodes, table[x]) && Meaning(TreeOf(nodes, table[x])).Some?
  }

  ghost function VarsOf(nodes: seq<Slot>, table: map<string, nat>): Vars
    requires Shaped(nodes) && TableFits(nodes, table)
  {
    map x | x in table :: Meaning(TreeOf(nodes, table[x])).value
  }

  // Frozen means that EVAL stands over a literal, and nothing else.
  lemma FrozenIff(nodes: seq<Slot>, e: nat, v: real)
    requires Shaped(nodes) && Live(nodes, e)
    ensures FrozenAt(nodes, e) == Some(v) <==> TreeOf(nodes, e) == Tree(Call(EvalOnce), [Tree(Number(v), [])])
  {
    assert NodeFits(nodes, e);
    if nodes[e].tag == Call(EvalOnce) {
      KidTree(nodes, e, 0);
      var arg := nodes[e].kids[0];
      assert NodeFits(nodes, arg);
      assert TreeOf(nodes, e).kids == [TreeOf(nodes, arg)];
    }
  }

  // A frozen EVAL is a constant in every environment, also as the value of a variable,
  // whatever the other variables hold.
  lemma FrozenIsConstant(nodes: seq<Slot>, e: nat, v: real, x: string, vars: Vars, w: World, depth: nat, id: string)
    requires Shaped(nodes) && FrozenAt(nodes, e) == Some(v)
    ensures Meaning(TreeOf(nodes, e)) == Some(Literal(v))
    ensures x in vars && Some(vars[x]) == Meaning(TreeOf(nodes, e)) && x !in w.inputs && x !in w.outputs && depth > 0 ==>
              Eval(depth, Ref(x), w, vars) == Some(Value(v)) && (id != x ==> HaveRef(depth, Ref(x), id, vars) == Some(false))
  {
    KidTree(nodes, e, 0);
  }

  // No CHANGED, no EVAL, and children where the constructors put them.
  predicate Stateless(t: Tree) {
    match t.tag
    case Binary(_) => |t.kids| == 2 && Stateless(t.kids[0]) && Stateless(t.kids[1])
    case Call(Plain(_)) => forall k :: k in t.kids ==> Stateless(k)
    case Call(_) => false
    case _ => t.kids == []
  }

  lemma {:induction false} MeaningIsFaithful(t: Tree, u: Tree)
    requires Stateless(t) && Stateless(u)
    ensures Meaning(t).Some? && Meaning(u).Some? && (Meaning(t) == Meaning(u) <==> t == u)
    decreases t, 1
  {
    match t.tag
    case Binary(_) =>
      if u.tag.Binary? {
        MeaningIsFaithful(t.kids[0], u.kids[0]);
        MeaningIsFaithful(t.kids[1], u.kids[1]);
        assert t.kids == [t.kids[0], t.kids[1]] && u.kids == [u.kids[0], u.kids[1]];
      } else {
        MeaningIsFaithful(t.kids[0], t.kids[0]);
        MeaningIsFaithful(t.kids[1], t.kids[1]);
        HasMeaning(u);
      }
    case Call(Plain(_)) =>
      HasMeaning(u);
      MeaningsAreFaithful(t.kids, if u.tag.Call? then u.kids else []);
    case _ => HasMeaning(u);
  }

  lemma {:induction false} MeaningsAreFaithful(ts: seq<Tree>, us: seq<Tree>)
    requires forall k :: k in ts ==> Stateless(k)
    requires forall k :: k in us ==> Stateless(k)
    ensures Meanings(ts).Some? && Meanings(us).Some? && (Meanings(ts) == Meanings(us) <==> ts == us)
    ensures |Meanings(ts).value| == |ts|
    decreases ts, 0
  {
    HaveMeanings(us);
    if ts != [] {
      HasMeaning(ts[0]);
      HaveMeanings(ts[1..]);
      assert ts == [ts[0]] + ts[1..];
      MeaningsAreFaithful(ts[1..], if us == [] then [] else us[1..]);
      if us != [] {
        MeaningIsFaithful(ts[0], us[0]);
        assert us == [us[0]] + us[1..];
        assert Meanings(ts).value[1..] == Meanings(ts[1..]).value;
        assert Meanings(us).value[1..] == Meanings(us[1..]).value;
      }
    }
  }

  lemma {:induction false} HasMeaning(t: Tree)
    requires Stateless(t)
    ensures Meaning(t).Some?
    decreases t, 1
  {
    match t.tag
    case Binary(_) => HasMeaning(t.kids[0]); HasMeaning(t.kids[1]);
    case Call(Plain(_)) => HaveMeanings(t.kids);
    case _ =>
  }

  lemma {:induction false} HaveMeanings(ts: seq<Tree>)
    requires forall k :: k in ts ==> Stateless(k)
    ensures Meanings(ts).Some? && |Meanings(ts).value| == |ts|
    decreases ts, 0
  {
    if ts != [] { HasMeaning(ts[0]); HaveMeanings(ts[1..]); }
  }

  // A write is suppressed exactly when it would not change what any name means.
  lemma SuppressedWriteIsUnobservable(nodes: seq<Slot>, table: map<string, nat>, x: string, value: nat)
    requires Shaped(nodes) && TableFits(nodes, table) && x in table && Live(nodes, value)
    requires Stateless(TreeOf(nodes, table[x])) && Stateless(TreeOf(nodes, value))
    ensures TableFits(nodes, table[x := value])
    ensures VarsOf(nodes, table[x := value]) == VarsOf(nodes, table) <==> TreeOf(nodes, table[x]) == TreeOf(nodes, value)
  {
    MeaningIsFaithful(TreeOf(nodes, table[x]), TreeOf(nodes, value));
    hide Stateless, Meaning, Shaped, TreeOf;
    var before, after := VarsOf(nodes, table), VarsOf(nodes, table[x := value]);
    assert before[x] == Meaning(TreeOf(nodes, table[x])).value && after[x] == Meaning(TreeOf(nodes, value)).value;
    assert forall y :: y in table && y != x ==> after[y] == before[y];
  }

  // The evaluations of c in a history.
  function EvaluationsOf(hs: seq<Happening>, c: nat): (es: seq<Happening>)
    ensures forall e :: e in es ==> e.Evaluated? && e.c == c
  {
    if hs == [] then []
    else
      var last := hs[|hs| - 1];
      EvaluationsOf(hs[..|hs| - 1], c) + if last.Evaluated? && last.c == c then [last] else []
  }

  // What CHANGED compares with after these evaluations: the last operand, or at first
  // the mark that NewChanged leaves.
  function Compared(es: seq<Happening>): real
    requires forall e :: e in es ==> e.Evaluated?
  {
    if es == [] then Arithmetic.MIN_DOUBLE else es[|es| - 1].operand
  }

  ghost predicate ResultFits(es: seq<Happening>, k: nat)
    requires k < |es| && forall e :: e in es ==> e.Evaluated?
  {
    es[k].result == Differs(Compared(es[..k]), es[k].operand)
  }

  // The operand stays in the arena from one evaluation to the next.
  lemma {:induction false} OperandIsRemembered(arenas: seq<seq<Slot>>, hs: seq<Happening>, c: nat)
    requires History(arenas, hs) && OperandOf(arenas[0], c) == Some(Arithmetic.MIN_DOUBLE)
    ensures Live(arenas[|hs|], c) ==> OperandOf(arenas[|hs|], c) == Some(Compared(EvaluationsOf(hs, c)))
    ensures forall k :: 0 <= k < |EvaluationsOf(hs, c)| ==> ResultFits(EvaluationsOf(hs, c), k)
    decreases |hs|
  {
    hide OperandOf, FrozenAt;
    if hs != [] {
      var n := |hs| - 1;
      OperandIsLive(arenas[0], c);
      ArenasGrow(arenas, hs, n);
      HistoryBefore(arenas, hs);
      OperandIsRemembered(arenas[..n + 1], hs[..n], c);
      var es, before := EvaluationsOf(hs, c), EvaluationsOf(hs[..n], c);
      forall k | 0 <= k < |before| ensures ResultFits(es, k) {
        assert ResultFits(before, k);
        assert es[..k] == before[..k];
      }
      if Live(arenas[n + 1], c) {
        assert SteadyAt(arenas[n], arenas[n + 1], if hs[n].Other? then None else Some(hs[n].c), c);
      }
      if hs[n].Evaluated? && hs[n].c == c {
        OperandIsLive(arenas[n], c);
        assert es == before + [hs[n]];
        assert es[..|before|] == before;
      }
    }
  }

  lemma OperandIsLive(nodes: seq<Slot>, c: nat)
    ensures OperandOf(nodes, c).Some? ==> Live(nodes, c)
  {
  }

  // From its creation, whatever happens to the arena in between: CHANGED is true at
  // first, and then exactly when the operand differs from the one it saw before; an
  // operand equal to the initial mark makes the next result true as well.
  lemma ChangedIsTrueIff(arenas: seq<seq<Slot>>, hs: seq<Happening>, c: nat, k: nat)
    requires History(arenas, hs) && OperandOf(arenas[0], c) == Some(Arithmetic.MIN_DOUBLE)
    requires k < |EvaluationsOf(hs, c)|
    ensures var es := EvaluationsOf(hs, c);
            es[k].result
              == if k == 0 || es[k].operand != es[k - 1].operand || es[k - 1].operand == Arithmetic.MIN_DOUBLE then 1.0 else 0.0
  {
    OperandIsRemembered(arenas, hs, c);
    assert ResultFits(EvaluationsOf(hs, c), k);
  }

  // ---------- the arena ----------

  class Store {
    var nodes: seq<Slot>
    ghost var roots: multiset<nat>

    ghost predicate Valid()
      reads this
    {
      Sound(nodes, roots)
    }

    constructor ()
      ensures Valid() && nodes == [] && roots == multiset{}
    {
      nodes, roots := [], multiset{};
    }

    // expr_ref.
    method Acquire(x: nat)
      requires Valid() && x in roots
      modifies this
      ensures Valid() && roots == old(roots) + multiset([x])
      ensures Live(old(nodes), x) && nodes == Recount(old(nodes), x, old(nodes)[x].nref + 1)
      ensures |nodes| == |old(nodes)| && Keeps(old(nodes), nodes) && forall id: nat :: Live(old(nodes), id) ==> Live(nodes, id)
      ensures Steady(old(nodes), nodes)
    {
      ghost var before := nodes;
      RootIsLive(nodes, roots, x);
      RecountKeepsSound(nodes, roots, x, nodes[x].nref + 1, roots + multiset([x]));
      nodes := nodes[x := nodes[x].(nref := nodes[x].nref + 1)];
      roots := roots + multiset([x]);
      KeepsIsSteady(before, nodes);
    }

    // expr_unref.
    method Release(x: nat)
      requires Valid() && x in roots
      modifies this
      ensures Valid() && roots == old(roots) - multiset([x])
      ensures Survives(old(nodes), nodes) && Steady(old(nodes), nodes)
      ensures forall id: nat :: Live(nodes, id) <==> Rooted(old(nodes), roots, id)
      decreases Rank(nodes, x), 1
    {
      RootIsLive(nodes, roots, x);
      hide Counted, Shaped, Rooted, Held, NodeFits;
      ghost var before := nodes;
      ghost var rest := roots - multiset([x]);
      if nodes[x].nref > 1 {
        RecountKeepsSound(nodes, roots, x, nodes[x].nref - 1, rest);
        nodes := nodes[x := nodes[x].(nref := nodes[x].nref - 1)];
        roots := rest;
      } else {
        var kids := nodes[x].kids;
        SoleHolder(nodes, roots, x);
        FreeKeepsSound(nodes, roots, x);
        nodes := nodes[x := Freed];
        roots := rest + multiset(kids);
        forall i | 0 <= i < |kids| ensures Rank(nodes, kids[i]) < Rank(before, x) { KidsRankLower(before, x, i); }
        ReleaseAll(kids, rest, Rank(before, x));
      }
      ReleasedExactly(before, nodes, roots);
      KeepsIsSteady(before, nodes);
    }

    // What a node held is released when it goes.
    method ReleaseAll(kids: seq<nat>, ghost rest: multiset<nat>, ghost bound: nat)
      requires Valid() && roots == rest + multiset(kids)
      requires forall i :: 0 <= i < |kids| ==> Rank(nodes, kids[i]) < bound
      modifies this
      ensures Valid() && roots == rest
      ensures Survives(old(nodes), nodes)
      decreases bound, 0
    {
      hide Counted, Shaped, Rooted, Held;
      ghost var before := nodes;
      var i := 0;
      while i < |kids|
        invariant 0 <= i <= |kids|
        invariant Valid() && roots == rest + multiset(kids[i..])
        invariant Survives(before, nodes)
      {
        TakeOne(rest, kids, i);
        RootIsLive(nodes, roots, kids[i]);
        ghost var partly := nodes;
        Release(kids[i]);
        SurvivesTransitively(before, partly, nodes);
        i := i + 1;
      }
    }

    // A literal, a reference or a flag test; the caller holds it.
    method NewLeaf(tag: Tag) returns (id: nat)
      requires Valid() && (tag.Number? || tag.Name? || tag.Bit?)
      modifies this
      ensures Valid() && id == |old(nodes)| && nodes == old(nodes) + [Node(tag, [], 1)]
      ensures roots == old(roots) + multiset([id])
      ensures TreeOf(nodes, id) == Tree(tag, []) && Steady(old(nodes), nodes)
    {
      ghost var before := nodes;
      AppendKeepsSound(nodes, roots, tag, []);
      id := |nodes|;
      nodes := nodes + [Node(tag, [], 1)];
      roots := roots - multiset([]) + multiset([id]);
      KeepsIsSteady(before, nodes);
    }

    // expr_new_func: the argument array passes from the caller to the node.
    method NewCall(fn: NodeFn, args: seq<nat>) returns (id: nat)
      requires Valid() && multiset(args) <= roots
      requires fn.Plain? || (fn == EvalOnce && |args| == 1) || (fn == Changed && |args| == 2 && Private(nodes, args[1]))
      modifies this
      ensures Valid() && id == |old(nodes)| && nodes == old(nodes) + [Node(Call(fn), args, 1)]
      ensures roots == old(roots) - multiset(args) + multiset([id])
      ensures SameTrees(old(nodes), nodes) && Steady(old(nodes), nodes) && |TreeOf(nodes, id).kids| == |args|
      ensures forall i :: 0 <= i < |args| ==>
                Live(old(nodes), args[i]) && TreeOf(nodes, id).kids[i] == TreeOf(old(nodes), args[i])
    {
      ghost var before := nodes;
      forall k | k in args ensures Live(nodes, k) { RootIsLive(nodes, roots, k); }
      AppendKeepsSound(nodes, roots, Call(fn), args);
      id := |nodes|;
      nodes := nodes + [Node(Call(fn), args, 1)];
      roots := roots - multiset(args) + multiset([id]);
      NewTree(before, nodes, id);
    }

    // The caller keeps its own references to both operands.
    method NewOp(op: Operator, left: nat, right: nat) returns (id: nat)
      requires Valid() && left in roots && right in roots
      modifies this
      ensures Valid() && id == |old(nodes)| && roots == old(roots) + multiset([id])
      ensures Live(old(nodes), left) && Live(old(nodes), right) && Live(nodes, id)
      ensures SameTrees(old(nodes), nodes) && Steady(old(nodes), nodes)
      ensures TreeOf(nodes, id) == Tree(Binary(op), [TreeOf(old(nodes), left), TreeOf(old(nodes), right)])
    {
      hide Counted, Shaped, Held, Recount, Refers, Count, SteadyBut;
      ghost var before, held := nodes, roots;
      Acquire(left);
      Acquire(right);
      PassTwo(held, left, right);
      AppendKeepsSound(nodes, roots, Binary(op), [left, right]);
      id := |nodes|;
      nodes := nodes + [Node(Binary(op), [left, right], 1)];
      roots := held + multiset([id]);
      NewTree(before, nodes, id);
    }

    // One-argument CHANGED: its second argument is the previous operand, none yet.
    method NewChanged(arg: nat) returns (id: nat)
      requires Valid() && arg in roots
      modifies this
      ensures Valid() && id == |old(nodes)| + 1 && roots == old(roots) - multiset([arg]) + multiset([id])
      ensures SameTrees(old(nodes), nodes) && Steady(old(nodes), nodes) && OperandOf(nodes, id) == Some(Arithmetic.MIN_DOUBLE)
    {
      ghost var before, held := nodes, roots;
      RootIsLive(nodes, roots, arg);
      var sentinel := NewLeaf(Number(Arithmetic.MIN_DOUBLE));
      assert multiset([arg, sentinel]) == multiset([arg]) + multiset([sentinel]);
      id := NewCall(Changed, [arg, sentinel]);
      assert held + multiset([sentinel]) - multiset([arg, sentinel]) == held - multiset([arg]);
      KeptTrees(before, nodes);
      KeepsIsSteady(before, nodes);
    }

    method ExprEqual(a: nat, b: nat) returns (r: bool)
      requires Valid() && Live(nodes, a) && Live(nodes, b)
      ensures r <==> TreeOf(nodes, a) == TreeOf(nodes, b)
      decreases Rank(nodes, a)
    {
      if a == b { return true; }
      assert NodeFits(nodes, a) && NodeFits(nodes, b);
      var kids, kids' := nodes[a].kids, nodes[b].kids;
      if nodes[a].tag != nodes[b].tag || |kids| != |kids'| { return false; }
      var i := 0;
      r := true;
      while i < |kids|
        invariant 0 <= i <= |kids|
        invariant r
        invariant TreesOf(nodes, a, i) == TreesOf(nodes, b, i) <==> TreeOf(nodes, a) == TreeOf(nodes, b)
      {
        KidsRankLower(nodes, a, i);
        KidsRankLower(nodes, b, i);
        FirstTree(nodes, a, i);
        FirstTree(nodes, b, i);
        r := ExprEqual(kids[i], kids'[i]);
        if !r { return; }
        i := i + 1;
      }
    }

    // EVAL, with what its argument evaluates to right now. A literal argument is
    // the result. Otherwise the value replaces the argument for good, but the
    // call itself yields no result.
    method EvalFunction(e: nat, operand: Outcome) returns (res: Option<Outcome>)
      requires Valid() && Live(nodes, e) && nodes[e].tag == Call(EvalOnce)
      modifies this
      ensures Valid() && roots == old(roots) && Live(nodes, e) && Steady(old(nodes), nodes)
      ensures old(FrozenAt(nodes, e)).Some? ==> nodes == old(nodes) && res == Some(Value(old(FrozenAt(nodes, e)).value))
      ensures old(FrozenAt(nodes, e)).None? && operand.Failed? ==> nodes == old(nodes) && res == Some(operand)
      ensures old(FrozenAt(nodes, e)).None? && operand.Value? ==>
                res == None && FrozenAt(nodes, e) == Some(operand.v) && KeepsBut(old(nodes), nodes, e)
    {
      assert NodeFits(nodes, e);
      hide Counted, Held, Rooted;
      var arg := nodes[e].kids[0];
      assert KidFits(nodes, e, arg);
      if nodes[arg].tag.Number? { return Some(Value(nodes[arg].tag.val)); }
      if operand.Failed? { return Some(operand); }
      ghost var before := nodes;
      Freeze(e, arg, operand.v);
      FreezingIsSteady(before, nodes, e);
      res := None;
    }

    // A literal takes the place of the argument, which is released.
    method Freeze(e: nat, arg: nat, v: real)
      requires Valid() && Live(nodes, e) && nodes[e].tag == Call(EvalOnce) && nodes[e].kids == [arg]
      modifies this
      ensures Valid() && roots == old(roots) && FrozenAt(nodes, e) == Some(v) && KeepsBut(old(nodes), nodes, e)
    {
      hide Counted, Held, Rooted, Shaped;
      ghost var before, held := nodes, roots;
      var xarg := NewLeaf(Number(v));
      SwapKeepsSound(nodes, roots, e, xarg);
      PassOne(held, xarg, arg);
      nodes := nodes[e := nodes[e].(kids := [xarg])];
      roots := held + multiset([arg]);
      StillRooted(before, nodes, held, e);
      Release(arg);
      StillFrozen(nodes, e, xarg);
    }

    // One-argument CHANGED, with what its argument evaluates to right now.
    method ChangedFunction(c: nat, operand: Outcome) returns (res: Outcome)
      requires Valid() && Live(nodes, c) && nodes[c].tag == Call(Changed)
      modifies this
      ensures Valid() && roots == old(roots)
      ensures operand.Failed? ==> res == operand && nodes == old(nodes)
      ensures operand.Value? ==>
                && res.Value? && Happens(old(nodes), nodes, Evaluated(c, operand.v, res.v))
                && KeepsBut(old(nodes), nodes, old(nodes)[c].kids[1])
    {
      if operand.Failed? { return operand; }
      assert NodeFits(nodes, c);
      var arg1 := nodes[c].kids[1];
      var val1 := nodes[arg1].tag.val;
      if val1 == Arithmetic.MIN_DOUBLE { res := Value(1.0); } else { res := Value(Truth(operand.v != val1)); }
      OverwriteKeepsSound(nodes, roots, arg1, operand.v);
      OverwriteIsSteady(nodes, roots, c, operand.v);
      nodes := nodes[arg1 := nodes[arg1].(tag := Number(operand.v))];
    }
  }

  // A variable of src/var.c.
  class Var {
    var value: nat

    constructor (store: Store, value: nat)
      requires store.Valid() && value in store.roots
      modifies store
      ensures this.value == value
      ensures store.Valid() && store.roots == old(store.roots) + multiset([value])
      ensures SameTrees(old(store.nodes), store.nodes) && Steady(old(store.nodes), store.nodes)
    {
      this.value := value;
      new;
      ghost var before := store.nodes;
      store.Acquire(value);
      KeptTrees(before, store.nodes);
      KeepsIsSteady(before, store.nodes);
    }

    // The old expression is released before the new one is acquired, which is
    // why the caller has to hold the new one itself.
    method SetValue(store: Store, value: nat) returns (changed: bool)
      requires store.Valid()
      requires this.value in store.roots && value in store.roots - multiset([this.value])
      modifies this, store
      ensures store.Valid() && Live(old(store.nodes), old(this.value)) && Live(old(store.nodes), value)
      ensures changed <==> TreeOf(old(store.nodes), old(this.value)) != TreeOf(old(store.nodes), value)
      ensures !changed ==> this.value == old(this.value) && store.nodes == old(store.nodes) && store.roots == old(store.roots)
      ensures changed ==> this.value == value
      ensures changed ==> store.roots == old(store.roots) - multiset([old(this.value)]) + multiset([value])
      ensures SameTrees(old(store.nodes), store.nodes) && Steady(old(store.nodes), store.nodes)
      ensures Live(store.nodes, this.value) && TreeOf(store.nodes, this.value) == TreeOf(old(store.nodes), value)
      ensures changed ==> forall id: nat ::
                (Live(store.nodes, id) <==> Rooted(old(store.nodes), old(store.roots) - multiset([old(this.value)]), id))
    {
      ghost var before := store.nodes;
      RootIsLive(store.nodes, store.roots, this.value);
      RootIsLive(store.nodes, store.roots, value);
      var equal := store.ExprEqual(this.value, value);
      if equal { return false; }
      store.Release(this.value);
      this.value := value;
      RootIsLive(store.nodes, store.roots, value);
      store.Acquire(value);
      KeptTrees(before, store.nodes);
      KeepsIsSteady(before, store.nodes);
      changed := true;
    }
  }
}
