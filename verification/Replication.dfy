// How a server's record reaches its clients (lib/server.c, lib/client.c): each
// "changed" broadcasts the whole record, and a client replays the fields one by
// one through its own guarded setters, min and max with the old step in force.

module Replication {
  import opened Arithmetic
  import opened Snap
  import opened Records

  // handle_input_changed_signal: errors are logged and the next field is tried.
  function Replay(client: Fields, m: Fields): Fields {
    var c1 := SetMin(client, m.min).fields;
    var c2 := SetMax(c1, m.max).fields;
    var c3 := SetStep(c2, m.step).fields;
    var c4 := SetVal(c3, m.val).fields;
    SetFlags(c4, m.flags).fields
  }

  method ReplayChanged(r: Record, m: Fields)
    modifies r
    ensures r.Now() == Replay(old(r.Now()), m)
  {
    var ok := r.ApplyMin(m.min);
    ok := r.ApplyMax(m.max);
    ok := r.ApplyStep(m.step);
    ok := r.ApplyVal(m.val);
    ok := r.ApplyFlags(m.flags);
  }

  // The server sends to every connection; what is under way to each is a queue.
  class Server {
    const record: Record
    var queues: seq<seq<Fields>>

    constructor (record: Record, connections: nat)
      ensures this.record == record && |queues| == connections
      ensures forall i :: 0 <= i < connections ==> queues[i] == []
    {
      this.record := record;
      this.queues := seq(connections, _ => []);
    }

    method Broadcast(m: Fields)
      modifies this
      ensures |queues| == |old(queues)|
      ensures forall i :: 0 <= i < |queues| ==> queues[i] == old(queues[i]) + [m]
    {
      var i := 0;
      while i < |queues|
        invariant 0 <= i <= |queues| == |old(queues)|
        invariant forall j :: 0 <= j < i ==> queues[j] == old(queues[j]) + [m]
        invariant forall j :: i <= j < |queues| ==> queues[j] == old(queues[j])
      {
        queues := queues[i := queues[i] + [m]];
        i := i + 1;
      }
    }

    // SetOutput and SetInput: the value, and only if that is accepted the flags.
    method Set(val: real, flags: bv64) returns (ok: bool)
      modifies this, record
      ensures |queues| == |old(queues)|
      ensures var first := SetVal(old(record.Now()), val); var second := SetFlags(first.fields, flags);
              var sent := Broadcasts(first.signals) + if first.accepted then Broadcasts(second.signals) else [];
              && ok == first.accepted
              && record.Now() == (if first.accepted then second.fields else first.fields)
              && forall i :: 0 <= i < |queues| ==> queues[i] == old(queues[i]) + sent
    {
      var before := record.val;
      ghost var start := record.Now();
      ghost var first := SetVal(start, val);
      ok := record.ApplyVal(val);
      hide RoundToStep, NearlyEqual;
      OneBroadcast(start, Val(val));
      if !ok { return; }
      if !NearlyEqual(before, record.val, record.step) { Publish(); }
      ghost var second := SetFlags(first.fields, flags);
      var oldFlags := record.flags;
      ok := record.ApplyFlags(flags);
      OneBroadcast(first.fields, Flags(flags));
      if oldFlags != flags { Publish(); }
    }

    method Publish()
      modifies this
      ensures |queues| == |old(queues)|
      ensures forall i :: 0 <= i < |queues| ==> queues[i] == old(queues[i]) + [record.Now()]
    {
      Broadcast(Fields(record.min, record.max, record.step, record.val, record.flags));
    }
  }

  // What a log of signals puts on the wire: the record as each "changed" saw it.
  function Broadcasts(signals: seq<Signal>): seq<Fields> {
    if signals == [] then []
    else (if signals[0].Changed? then [signals[0].seen] else []) + Broadcasts(signals[1..])
  }

  // ---------- exact grids ----------

  // All steps in use are multiples of a quantum q that exceeds the tolerance for
  // magnitudes up to 2 * r.
  ghost predicate Quantum(q: real, r: real) {
    q > MIN_DOUBLE && EPSILON * 8.0 * (1.0 + 4.0 * r) < q && r * 0.000000001 < q
  }

  ghost predicate Bounded(f: Fields, r: real) {
    Abs(f.min) <= r && Abs(f.max) <= r && Abs(f.val) <= r && Abs(f.step) <= r
  }

  ghost predicate Exact(f: Fields, q: real, r: real) {
    && Usable(f.step) && OnGrid(f.step, q)
    && OnGrid(f.min, f.step) && OnGrid(f.max, f.step) && OnGrid(f.val, f.step)
    && Ordered(f) && Bounded(f, r)
  }

  lemma TimesTimes(j: int, k: int, q: real)
    ensures Times(j, Times(k, q)) == Times(j * k, q)
  {
  }

  lemma GridOfGrid(x: real, s: real, q: real)
    requires OnGrid(x, s) && OnGrid(s, q)
    ensures OnGrid(x, q)
  {
    hide Times;
    var j :| x == Times(j, s);
    var k :| s == Times(k, q);
    TimesTimes(j, k, q);
  }

  // On the quantum's grid the tolerance tells every two values apart.
  lemma Distinct(a: real, b: real, step: real, q: real, r: real)
    requires Quantum(q, r) && OnGrid(a, q) && OnGrid(b, q)
    requires Abs(a) <= 2.0 * r && Abs(b) <= 2.0 * r && Abs(step) <= r
    ensures NearlyEqual(a, b, step) <==> a == b
  {
    hide OnGrid, Times;
    if a != b { GridGap(a, b, q); }
  }

  lemma SnapStaysNear(x: real, s: real, r: real)
    requires Usable(s) && Abs(x) <= r && Abs(s) <= r
    ensures Abs(RoundToStep(x, s)) <= 2.0 * r
  {
    hide RoundToStep, OnGrid;
    SnapIsOnGrid(x, s);
    SnapIsNearest(x, s, RoundToStep(x, s));
  }

  // Between exact grids a field moves to the grid point itself.
  lemma RegridIsExact(x: real, s: real, q: real, r: real)
    requires Quantum(q, r) && OnGrid(x, q) && Usable(s) && OnGrid(s, q)
    requires Abs(x) <= 2.0 * r && Abs(RoundToStep(x, s)) <= 2.0 * r && Abs(s) <= r
    ensures Regrid(x, s) == RoundToStep(x, s)
    ensures NearlyEqual(x, RoundToStep(x, s), s) <==> x == RoundToStep(x, s)
  {
    hide RoundToStep, OnGrid, NearlyEqual;
    SnapIsOnGrid(x, s);
    GridOfGrid(RoundToStep(x, s), s, q);
    Distinct(x, RoundToStep(x, s), s, q, r);
  }

  // ---------- one setter, replayed ----------

  ghost predicate Legal(f: Fields, op: Operation, q: real, r: real) {
    && (op.Step? ==> OnGrid(op.x, q))
    && Bounded(Perform(f, op).fields, r)
  }

  // What one setter leaves, and what it tells the clients.
  ghost predicate Told(f: Fields, u: Update) {
    if u.signals == [] then u.fields == f
    else u.signals[|u.signals| - 1] == Changed(u.fields) && Replay(f, u.fields) == u.fields
  }

  lemma ReplayOfSame(f: Fields, q: real, r: real, f': Fields)
    requires Exact(f, q, r) && Exact(f', q, r) && f'.step == f.step && Quantum(q, r)
    requires f'.min <= f.val <= f'.max
    ensures Replay(f, f') == f'
  {
    hide OnGrid, RoundToStep, NearlyEqual, Regrid;
    SnapKeepsGrid(f'.min, f.step);
    SnapKeepsGrid(f'.max, f.step);
    SnapKeepsGrid(f'.val, f.step);
    SnapKeepsGrid(f.val, f.step);
    KeptByRegrid(f'.min, f.step);
    KeptByRegrid(f'.max, f.step);
    KeptByRegrid(f.val, f.step);
  }

  lemma KeptByRegrid(x: real, s: real)
    requires RoundToStep(x, s) == x
    ensures Regrid(x, s) == x
  {
  }

  lemma SimpleSetterTold(f: Fields, op: Operation, q: real, r: real)
    requires Quantum(q, r) && Exact(f, q, r) && Legal(f, op, q, r) && !op.Step?
    ensures Exact(Perform(f, op).fields, q, r) && Told(f, Perform(f, op))
  {
    hide OnGrid, RoundToStep, NearlyEqual, Quantum;
    var f' := Perform(f, op).fields;
    if op.Flags? { ReplayOfSame(f, q, r, f'); }
    else {
      SnapIsOnGrid(op.x, f.step);
      var x := if op.Min? then f.min else if op.Max? then f.max else f.val;
      if Perform(f, op).accepted {
        GridOfGrid(x, f.step, q);
        GridOfGrid(RoundToStep(op.x, f.step), f.step, q);
        BoundedTwice(f, f', r);
        Distinct(x, RoundToStep(op.x, f.step), f.step, q, r);
        ReplayOfSame(f, q, r, f');
      }
    }
  }

  lemma BoundedTwice(f: Fields, f': Fields, r: real)
    requires Bounded(f, r) && Bounded(f', r)
    ensures forall x :: x in {f.min, f.max, f.val, f'.min, f'.max, f'.val} ==> Abs(x) <= 2.0 * r
  {
  }

  // What the client's own min or max is when it comes to the new step: the server's
  // new bound on the old grid, or its old bound if that was rejected. Either way
  // the new step takes it to the server's new bound.
  lemma BoundComesBack(x: real, c: real, s: real, s': real, q: real, r: real)
    requires Quantum(q, r) && Usable(s) && Usable(s') && OnGrid(s, q) && OnGrid(s', q) && OnGrid(x, s)
    requires Abs(x) <= r && Abs(s) <= r && Abs(s') <= r && Abs(RoundToStep(x, s')) <= r
    requires c == x || c == RoundToStep(RoundToStep(x, s'), s)
    ensures RoundToStep(c, s') == RoundToStep(x, s') && Regrid(c, s') == RoundToStep(x, s')
  {
    hide RoundToStep, OnGrid, Regrid, Quantum;
    SnapThereAndBack(x, s, s');
    SnapIsOnGrid(RoundToStep(x, s'), s);
    SnapStaysNear(RoundToStep(x, s'), s, r);
    GridOfGrid(c, s, q);
    RegridIsExact(c, s', q, r);
  }

  lemma StepReplayed(f: Fields, s': real, q: real, r: real)
    requires Quantum(q, r) && Exact(f, q, r) && Legal(f, Step(s'), q, r) && SetStep(f, s').accepted
    ensures var f' := SetStep(f, s').fields;
            && f' == Fields(RoundToStep(f.min, s'), RoundToStep(f.max, s'), s', RoundToStep(f.val, s'), f.flags)
            && Exact(f', q, r) && Replay(f, f') == f'
  {
    hide RoundToStep, OnGrid, Quantum, NearlyEqual, Regrid;
    var f' := SetStep(f, s').fields;
    RegridStep(f.min, f.step, s', q, r);
    RegridStep(f.max, f.step, s', q, r);
    RegridStep(f.val, f.step, s', q, r);
    SnapIsOnGrid(f.min, s');
    SnapIsOnGrid(f.max, s');
    SnapIsOnGrid(f.val, s');
    var c1 := SetMin(f, f'.min).fields;
    var c2 := SetMax(c1, f'.max).fields;
    BoundComesBack(f.min, c2.min, f.step, s', q, r);
    BoundComesBack(f.max, c2.max, f.step, s', q, r);
    BoundComesBack(f.val, c2.val, f.step, s', q, r);
    SnapKeepsGrid(f'.val, s');
  }

  lemma RegridStep(x: real, s: real, s': real, q: real, r: real)
    requires Quantum(q, r) && Usable(s') && OnGrid(x, s) && OnGrid(s, q) && OnGrid(s', q)
    requires Abs(x) <= r && Abs(s') <= r
    ensures Regrid(x, s') == RoundToStep(x, s')
    ensures NearlyEqual(x, RoundToStep(x, s'), s') <==> x == RoundToStep(x, s')
  {
    hide RoundToStep, OnGrid, NearlyEqual, Quantum;
    GridOfGrid(x, s, q);
    SnapStaysNear(x, s', r);
    RegridIsExact(x, s', q, r);
  }

  // Replica convergence, one setter at a time: it tells the clients nothing only if
  // it changed nothing, and replaying what it tells them gives the server's record.
  lemma SetterTold(f: Fields, op: Operation, q: real, r: real)
    requires Quantum(q, r) && Exact(f, q, r) && Legal(f, op, q, r)
    ensures Exact(Perform(f, op).fields, q, r) && Told(f, Perform(f, op))
  {
    hide RoundToStep, OnGrid, Quantum, NearlyEqual, Regrid, Replay;
    if !op.Step? { SimpleSetterTold(f, op, q, r); }
    else if SetStep(f, op.x).accepted {
      StepReplayed(f, op.x, q, r);
      if SetStep(f, op.x).signals == [] { SilentStep(f, op.x, q, r); }
      else { StepSignals(f, op.x); }
    }
  }

  lemma StepSignals(f: Fields, s': real)
    requires SetStep(f, s').accepted && SetStep(f, s').signals != []
    ensures var u := SetStep(f, s');
            && |u.signals| >= 2
            && u.signals == u.signals[..|u.signals| - 2] + [StepChanged(u.fields), Changed(u.fields)]
            && forall m :: m in u.signals[..|u.signals| - 2] ==> !m.Changed?
  {
  }

  lemma SilentStep(f: Fields, s': real, q: real, r: real)
    requires Quantum(q, r) && Exact(f, q, r) && Legal(f, Step(s'), q, r)
    requires SetStep(f, s').accepted && SetStep(f, s').signals == []
    ensures SetStep(f, s').fields == f
  {
    hide RoundToStep, OnGrid, NearlyEqual, Regrid, Quantum;
    RegridStep(f.min, f.step, s', q, r);
    RegridStep(f.max, f.step, s', q, r);
    RegridStep(f.val, f.step, s', q, r);
    assert Abs(s') <= r && Abs(f.step) <= 2.0 * r && Abs(s') <= 2.0 * r;
    Distinct(f.step, s', s', q, r);
  }

  // ---------- a connection, with messages under way ----------

  datatype Link = Link(server: Fields, queue: seq<Fields>, client: Fields)
  datatype Move = Set(op: Operation) | Deliver

  function Next(l: Link, move: Move): Link {
    match move
    case Set(op) =>
      var u := Perform(l.server, op);
      Link(u.fields, l.queue + Broadcasts(u.signals), l.client)
    case Deliver =>
      if l.queue == [] then l else Link(l.server, l.queue[1..], Replay(l.client, l.queue[0]))
  }

  // Replayed in turn from c, the messages are exactly the records the server had,
  // up to the present one.
  ghost predicate Follows(c: Fields, queue: seq<Fields>, server: Fields)
    decreases |queue|
  {
    if queue == [] then c == server
    else Replay(c, queue[0]) == queue[0] && Follows(queue[0], queue[1..], server)
  }

  ghost predicate Linked(l: Link, q: real, r: real) {
    Exact(l.server, q, r) && Follows(l.client, l.queue, l.server)
  }

  lemma {:induction false} FollowsFurther(c: Fields, queue: seq<Fields>, server: Fields, next: Fields)
    requires Follows(c, queue, server) && Replay(server, next) == next
    ensures Follows(c, queue + [next], next)
    decreases |queue|
  {
    hide Replay;
    if queue == [] {
      assert ([] + [next])[1..] == [];
    } else {
      FollowsFurther(queue[0], queue[1..], server, next);
      assert (queue + [next])[1..] == queue[1..] + [next];
    }
  }

  // A setter's signals put its "changed" on the wire, once, and nothing else.
  lemma OneBroadcast(f: Fields, op: Operation)
    ensures var u := Perform(f, op); Broadcasts(u.signals) == if u.signals == [] then [] else [u.fields]
  {
    hide RoundToStep, NearlyEqual, Regrid;
    var u := Perform(f, op);
    if op.Step? && u.signals != [] {
      StepSignals(f, op.x);
      MovesThenChanged(u.signals[..|u.signals| - 2], StepChanged(u.fields), u.fields);
    } else if u.signals != [] {
      MovesThenChanged([], u.signals[0], u.fields);
      assert u.signals == [] + [u.signals[0], Changed(u.fields)];
    }
  }

  lemma {:induction false} MovesThenChanged(moves: seq<Signal>, last: Signal, f: Fields)
    requires !last.Changed? && forall m :: m in moves ==> !m.Changed?
    ensures Broadcasts(moves + [last, Changed(f)]) == [f]
    decreases |moves|
  {
    var all := moves + [last, Changed(f)];
    if moves == [] {
      assert all == [last, Changed(f)] && all[1..] == [Changed(f)] && all[1..][1..] == [];
      assert Broadcasts(all[1..][1..]) == [];
      assert Broadcasts(all[1..]) == [f];
    } else {
      assert all[1..] == moves[1..] + [last, Changed(f)];
      MovesThenChanged(moves[1..], last, f);
    }
  }

  // A step that tells what it does keeps the client on the server's track.
  lemma NextFollows(l: Link, move: Move)
    requires Follows(l.client, l.queue, l.server) && (move.Set? ==> Told(l.server, Perform(l.server, move.op)))
    ensures var l' := Next(l, move); Follows(l'.client, l'.queue, l'.server)
  {
    hide Perform, Replay;
    if move.Set? {
      OneBroadcast(l.server, move.op);
      var u := Perform(l.server, move.op);
      if u.signals != [] { FollowsFurther(l.client, l.queue, l.server, u.fields); }
      else { assert l.queue + [] == l.queue; }
    }
  }

  lemma NextKeepsLinked(l: Link, move: Move, q: real, r: real)
    requires Quantum(q, r) && Linked(l, q, r) && (move.Set? ==> Legal(l.server, move.op, q, r))
    ensures Linked(Next(l, move), q, r)
  {
    hide Replay, Perform, Exact, Follows, Told, Quantum;
    if move.Set? { SetterTold(l.server, move.op, q, r); }
    NextFollows(l, move);
  }

  function Run(l: Link, moves: seq<Move>): Link
    decreases |moves|
  {
    if moves == [] then l else Run(Next(l, moves[0]), moves[1..])
  }

  ghost predicate LegalRun(l: Link, moves: seq<Move>, q: real, r: real)
    decreases |moves|
  {
    moves != [] ==>
      (moves[0].Set? ==> Legal(l.server, moves[0].op, q, r)) && LegalRun(Next(l, moves[0]), moves[1..], q, r)
  }

  // In every run of setters and deliveries, in any order: once all messages have
  // arrived, the client has the server's record.
  lemma {:induction false} ClientCatchesUp(l: Link, moves: seq<Move>, q: real, r: real)
    requires Quantum(q, r) && Linked(l, q, r) && LegalRun(l, moves, q, r)
    ensures Linked(Run(l, moves), q, r)
    ensures Run(l, moves).queue == [] ==> Run(l, moves).client == Run(l, moves).server
    decreases |moves|
  {
    if moves != [] {
      NextKeepsLinked(l, moves[0], q, r);
      ClientCatchesUp(Next(l, moves[0]), moves[1..], q, r);
    }
  }

  // ---------- without a quantum: exactly when a client goes astray ----------

  // The client is asked for f'.min on the grid of its old step, accepts that, and the
  // new step does not take it back to f'.min.
  predicate MinStrays(f: Fields, f': Fields) {
    var b := RoundToStep(f'.min, f.step);
    b <= f.val && Regrid(b, f'.step) != f'.min
  }

  predicate MaxStrays(f: Fields, f': Fields) {
    var b := RoundToStep(f'.max, f.step);
    b >= f.val && Regrid(b, f'.step) != f'.max
  }

  // The server's value is beside the grid, and the client accepts the grid point.
  predicate ValStrays(f': Fields) {
    var b := RoundToStep(f'.val, f'.step);
    f'.min <= b <= f'.max && b != f'.val
  }

  predicate Strays(f: Fields, f': Fields) {
    MinStrays(f, f') || MaxStrays(f, f') || ValStrays(f')
  }

  // The setter changes the record without a signal, or signals one that strays.
  predicate Drifts(f: Fields, op: Operation) {
    var u := Perform(f, op);
    if u.signals == [] then u.fields != f else Strays(f, u.fields)
  }

  // A field that the client does not take over is what it has to be all the same.
  ghost predicate RejectedArrive(f: Fields, f': Fields) {
    && (RoundToStep(f'.min, f.step) > f.val ==> Regrid(f.min, f'.step) == f'.min)
    && (RoundToStep(f'.max, f.step) < f.val ==> Regrid(f.max, f'.step) == f'.max)
    && (var b := RoundToStep(f'.val, f'.step); b < f'.min || b > f'.max ==> Regrid(f.val, f'.step) == f'.val)
  }

  lemma ReplayIff(f: Fields, f': Fields)
    requires Usable(f'.step) && RejectedArrive(f, f')
    requires RoundToStep(f'.min, f'.step) <= RoundToStep(f.val, f'.step) <= RoundToStep(f'.max, f'.step)
    ensures Replay(f, f') == f' <==> !Strays(f, f')
  {
    hide RoundToStep, NearlyEqual, Regrid;
    var c := SetMax(SetMin(f, f'.min).fields, f'.max).fields;
    RegridIsNear(c.min, f'.step);
    RegridIsNear(c.max, f'.step);
    SnapIsIdempotent(f'.min, f.step);
    SnapIsIdempotent(f'.max, f.step);
    KeptByRegrid(RoundToStep(f'.min, f.step), f.step);
    KeptByRegrid(RoundToStep(f'.max, f.step), f.step);
  }

  // From every record that a run of setters can lead to: a setter leaves an up-to-date
  // client up to date exactly if it does not drift.
  lemma ToldIff(f: Fields, op: Operation)
    requires Sound(f)
    ensures Told(f, Perform(f, op)) <==> !Drifts(f, op)
  {
    hide RoundToStep, NearlyEqual, Regrid, Strays, Replay;
    var u := Perform(f, op);
    LastOfMessages(f, op);
    if u.signals != [] {
      if op.Step? { StepArrives(f, op.x); } else { SetterArrives(f, op); }
      ReplayIff(f, u.fields);
    }
  }

  lemma StepArrives(f: Fields, s': real)
    requires SetStep(f, s').accepted
    ensures var f' := SetStep(f, s').fields;
            && Usable(f'.step) && RejectedArrive(f, f')
            && RoundToStep(f'.min, s') <= RoundToStep(f.val, s') <= RoundToStep(f'.max, s')
  {
    hide RoundToStep, NearlyEqual, Regrid;
    RegridIsNear(f.min, s');
    RegridIsNear(f.max, s');
  }

  lemma SetterArrives(f: Fields, op: Operation)
    requires Sound(f) && !op.Step? && Perform(f, op).accepted
    ensures var f' := Perform(f, op).fields;
            && f'.step == f.step && RejectedArrive(f, f')
            && RoundToStep(f'.min, f.step) <= RoundToStep(f.val, f.step) <= RoundToStep(f'.max, f.step)
  {
    hide RoundToStep, NearlyEqual, Regrid;
    NearIsKept(f.min, f.step);
    NearIsKept(f.max, f.step);
    NearIsKept(f.val, f.step);
    if !op.Flags? {
      var x := RoundToStep(op.x, f.step);
      SnapIsIdempotent(op.x, f.step);
      if x <= f.val { SnapIsMonotone(x, f.val, f.step); } else { SnapIsMonotone(f.val, x, f.step); }
    }
  }

  lemma NearIsKept(x: real, s: real)
    requires NearGrid(x, s)
    ensures Regrid(x, s) == x
  {
  }

  // ---------- the condition spelled out, for a record on its grid ----------

  // The record is on its own grid and in order.
  ghost predicate Tidy(f: Fields) {
    Usable(f.step) && OnGrid(f.min, f.step) && OnGrid(f.max, f.step) && OnGrid(f.val, f.step) && Ordered(f)
  }

  // A change that is too small to be signalled.
  predicate Slips(a: real, b: real, step: real) {
    a != b && NearlyEqual(a, b, step)
  }

  // The client takes the server's new bound to a point of the old grid (if it accepts
  // that), which the tolerance then keeps although it is not the new bound.
  predicate BoundDrifts(x: real, s: real, s': real, accepted: bool) {
    var b := RoundToStep(RoundToStep(x, s'), s);
    !NearGrid(x, s') && accepted && b != RoundToStep(x, s') && NearGrid(b, s')
  }

  // The server keeps a value beside the new grid, which the client snaps.
  predicate ValDrifts(f: Fields, s': real) {
    var r := RoundToStep(f.val, s');
    NearGrid(f.val, s') && r != f.val && Regrid(f.min, s') <= r <= Regrid(f.max, s')
  }

  predicate StepDrifts(f: Fields, s': real) {
    || BoundDrifts(f.min, f.step, s', RoundToStep(RoundToStep(f.min, s'), f.step) <= f.val)
    || BoundDrifts(f.max, f.step, s', RoundToStep(RoundToStep(f.max, s'), f.step) >= f.val)
    || ValDrifts(f, s')
  }

  predicate SilentlyStepped(f: Fields, s': real) {
    NearGrid(f.min, s') && NearGrid(f.max, s') && NearGrid(f.val, s') && Slips(f.step, s', s')
  }

  predicate DriftsFromGrid(f: Fields, op: Operation) {
    match op
    case Min(x) => RoundToStep(x, f.step) <= f.val && Slips(f.min, RoundToStep(x, f.step), f.step)
    case Max(x) => RoundToStep(x, f.step) >= f.val && Slips(f.max, RoundToStep(x, f.step), f.step)
    case Val(x) => f.min <= RoundToStep(x, f.step) <= f.max && Slips(f.val, RoundToStep(x, f.step), f.step)
    case Step(s') => Usable(s') && s' != f.step && (SilentlyStepped(f, s') || StepDrifts(f, s'))
    case Flags(_) => false
  }

  // The client's bound, c, when it comes to the new step.
  lemma BoundReplayed(x: real, c: real, s: real, s': real, accepted: bool)
    requires Usable(s) && Usable(s') && OnGrid(x, s)
    requires c == x || (accepted && c == RoundToStep(Regrid(x, s'), s))
    requires accepted ==> c == RoundToStep(Regrid(x, s'), s)
    ensures RoundToStep(c, s') == RoundToStep(x, s')
    ensures Regrid(c, s') == Regrid(x, s') <==> !BoundDrifts(x, s, s', accepted)
  {
    hide RoundToStep, NearlyEqual, OnGrid;
    SnapKeepsGrid(x, s);
    SnapThereAndBack(x, s, s');
  }

  lemma StepReplaysIff(f: Fields, s': real)
    requires Tidy(f) && Usable(s')
    ensures var f' := SetStep(f, s').fields; Replay(f, f') == f' <==> !StepDrifts(f, s')
  {
    hide RoundToStep, NearlyEqual, OnGrid, BoundDrifts, Regrid;
    StepAcceptedWhenOrdered(f, s');
    var f' := SetStep(f, s').fields;
    var c2 := SetMax(SetMin(f, f'.min).fields, f'.max).fields;
    BoundAccepted(f.min, f.step, s');
    BoundAccepted(f.max, f.step, s');
    BoundReplayed(f.min, c2.min, f.step, s', RoundToStep(f'.min, f.step) <= f.val);
    BoundReplayed(f.max, c2.max, f.step, s', RoundToStep(f'.max, f.step) >= f.val);
    RegridIsNear(f.val, s');
    assert SetStep(c2, s').accepted;
    ValKept(f.val, s');
  }

  // Where a bound moves, the client is asked for the new one on the old grid.
  lemma BoundAccepted(x: real, s: real, s': real)
    ensures !NearGrid(x, s') ==> RoundToStep(Regrid(x, s'), s) == RoundToStep(RoundToStep(x, s'), s)
    ensures NearGrid(x, s') ==> forall a :: !BoundDrifts(x, s, s', a)
  {
  }

  lemma ValKept(x: real, s': real)
    ensures Regrid(x, s') == RoundToStep(x, s') || (NearGrid(x, s') && Regrid(x, s') == x)
    ensures Regrid(x, s') != RoundToStep(x, s') <==> NearGrid(x, s') && RoundToStep(x, s') != x
  {
  }

  // From a tidy record, whether a setter drifts can be read from what it is asked for.
  lemma TidyDriftsIff(f: Fields, op: Operation)
    requires Tidy(f)
    ensures Drifts(f, op) <==> DriftsFromGrid(f, op)
  {
    hide RoundToStep, NearlyEqual, OnGrid, StepDrifts, Replay;
    SnapKeepsGrid(f.min, f.step);
    SnapKeepsGrid(f.max, f.step);
    SnapKeepsGrid(f.val, f.step);
    if op.Step? {
      if op.x != f.step && Usable(op.x) {
        hide Strays;
        StepAcceptedWhenOrdered(f, op.x);
        StepReplaysIff(f, op.x);
        StepArrives(f, op.x);
        ReplayIff(f, SetStep(f, op.x).fields);
      }
    } else if !op.Flags? {
      SnapIsIdempotent(op.x, f.step);
    }
  }

  // ---------- runs ----------

  // No setter of the run drifts.
  ghost predicate DriftFree(l: Link, moves: seq<Move>)
    decreases |moves|
  {
    moves != [] ==>
      (moves[0].Set? ==> !Drifts(l.server, moves[0].op)) && DriftFree(Next(l, moves[0]), moves[1..])
  }

  lemma {:induction false} DriftFreeCatchesUp(l: Link, moves: seq<Move>)
    requires Sound(l.server) && Follows(l.client, l.queue, l.server) && DriftFree(l, moves)
    ensures var end := Run(l, moves); Sound(end.server) && Follows(end.client, end.queue, end.server)
    ensures Run(l, moves).queue == [] ==> Run(l, moves).client == Run(l, moves).server
    decreases |moves|
  {
    hide Sound, Drifts, Perform, Replay, Told;
    if moves != [] {
      if moves[0].Set? {
        ToldIff(l.server, moves[0].op);
        PerformKeepsSound(l.server, moves[0].op);
      }
      NextFollows(l, moves[0]);
      DriftFreeCatchesUp(Next(l, moves[0]), moves[1..]);
    }
  }

  // A drift shows: a client that had the server's record has another one once it has
  // got all messages.
  lemma DriftShows(l: Link, op: Operation)
    requires l.queue == [] && l.client == l.server && Sound(l.server) && Drifts(l.server, op)
    ensures var next := Next(l, Set(op)); var end := Run(next, seq(|next.queue|, _ => Deliver));
            end.queue == [] && end.client != end.server
  {
    ToldIff(l.server, op);
    OneBroadcast(l.server, op);
    var u := Perform(l.server, op);
    hide Sound, Drifts, Perform, Replay;
    var next := Next(l, Set(op));
    if u.signals == [] {
      assert next.queue == [];
    } else {
      LastOfMessages(l.server, op);
      assert next.queue == [u.fields];
      var got := Next(next, Deliver);
      assert seq(1, _ => Deliver)[1..] == seq(0, _ => Deliver);
      assert Run(got, []) == got;
    }
  }

  // A setter that signals anything signals a change in the end.
  lemma LastOfMessages(f: Fields, op: Operation)
    ensures var u := Perform(f, op); u.signals == [] || u.signals[|u.signals| - 1] == Changed(u.fields)
  {
  }

  // It does: the tolerance keeps the client's bound where the old grid put it.
  lemma ReplicaCanDrift()
    ensures var f := Fields(2.0, 10.0, 1.0, 2.0, 0); var u := SetStep(f, 3.000000000001);
            && Tidy(f) && u.accepted && u.fields.max == 9.000000000003 && Replay(f, u.fields).max == 9.0
  {
    var f := Fields(2.0, 10.0, 1.0, 2.0, 0);
    var s := 3.000000000001;
    MinDoubleIsTiny();
    assert f.min == Times(2, 1.0) && f.max == Times(10, 1.0);
    SnapIsUnique(2.0, 1.0, Times(2, 1.0));
    SnapIsUnique(10.0, 1.0, Times(10, 1.0));
    SnapIsUnique(2.0, s, Times(1, s));
    SnapIsUnique(10.0, s, Times(3, s));
    SnapIsUnique(s, 1.0, Times(3, 1.0));
    SnapIsUnique(9.000000000003, 1.0, Times(9, 1.0));
    SnapIsUnique(9.0, s, Times(3, s));
  }

  // So can its value: the server keeps 3, which the client moves to the new grid.
  lemma ValueCanDrift()
    ensures var f := Fields(0.0, 10.0, 1.0, 3.0, 0); var u := SetStep(f, 3.000000000001);
            && Tidy(f) && u.accepted && u.fields.val == 3.0 && Replay(f, u.fields).val == 3.000000000001
  {
    var f := Fields(0.0, 10.0, 1.0, 3.0, 0);
    var s := 3.000000000001;
    MinDoubleIsTiny();
    assert f.min == Times(0, 1.0) && f.max == Times(10, 1.0) && f.val == Times(3, 1.0);
    SnapIsUnique(0.0, 1.0, Times(0, 1.0));
    SnapIsUnique(10.0, 1.0, Times(10, 1.0));
    SnapIsUnique(3.0, s, Times(1, s));
    SnapIsUnique(0.0, s, Times(0, s));
    SnapIsUnique(10.0, s, Times(3, s));
    SnapIsUnique(9.000000000003, 1.0, Times(9, 1.0));
    SnapIsUnique(9.0, s, Times(3, s));
  }

  // And a bound that an earlier step change left beside the grid drifts with the next
  // setter, whatever that is about.
  lemma OldBoundCanDrift()
    ensures var s := 3.000000000001; var f := SetStep(Fields(0.0, 9.0, 1.0, 0.0, 0), s).fields; var u := SetVal(f, s);
            && Tidy(Fields(0.0, 9.0, 1.0, 0.0, 0)) && !Drifts(Fields(0.0, 9.0, 1.0, 0.0, 0), Step(s))
            && Sound(f) && f.max == 9.0 && u.accepted && u.fields.max == 9.0 && Replay(f, u.fields).max == 9.000000000003
  {
    var f := Fields(0.0, 9.0, 1.0, 0.0, 0);
    var s := 3.000000000001;
    MinDoubleIsTiny();
    assert f.min == Times(0, 1.0) && f.max == Times(9, 1.0);
    SnapIsUnique(0.0, 1.0, Times(0, 1.0));
    SnapIsUnique(9.0, 1.0, Times(9, 1.0));
    SnapIsUnique(0.0, s, Times(0, s));
    SnapIsUnique(9.0, s, Times(3, s));
    SnapIsUnique(s, s, Times(1, s));
  }
}
