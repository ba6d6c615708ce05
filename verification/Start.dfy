// The start of a client in lib/client.c: one synchronous call, or a chain of
// asynchronous callbacks on behalf of a task.

module Start {
  import opened Options

  type Name = string

  datatype Phase = Idle | Pending | Ready | Failed

  // What the callback that a task waits for will deliver.
  datatype Stage = Connection | Inputs | Outputs | Stats

  // The outcome of a remote call; cancelled calls are NoAnswer.
  datatype Answer<T> = NoAnswer | BadSignature | Answer(v: T)

  datatype State = State(
    phase: Phase,
    connection: Option<nat>,
    cancellable: Option<nat>,
    subscribed: Option<nat>,
    inputs: seq<Name>,
    outputs: seq<Name>,
    stats: Name,
    nextTask: nat,
    trace: Trace)

  // The tasks with a call in flight, how often tasks were called back and
  // returned, and which answers of which connection the last start applied.
  datatype Trace = Trace(flying: map<nat, Stage>, callbacks: multiset<nat>, returned: multiset<nat>, applied: seq<(Stage, nat)>)
  {
    function Fly(task: nat, stage: Stage): Trace { this.(flying := flying[task := stage]) }
    function Call(task: nat): Trace { this.(callbacks := callbacks + multiset{task}) }
    function Return(task: nat): Trace { this.(flying := flying - {task}, returned := returned + multiset{task}) }
    function Apply(stage: Stage, conn: Option<nat>): Trace {
      if conn.None? then this else this.(applied := applied + [(stage, conn.value)])
    }
    function Restart(): Trace { this.(applied := []) }
  }

  const NEW := State(Idle, None, None, None, [], [], "noname", 0, Trace(map[], multiset{}, multiset{}, []))

  // `cancelled` is what the task's cancellable says when the callback asks it.
  datatype Event =
    | StartSync(conn: Option<nat>, ins: Answer<seq<Name>>, outs: Answer<seq<Name>>, stat: Answer<Name>)
    | StartAsync(cancellable: nat)
    | Connected(task: nat, conn: Option<nat>, cancelled: bool)
    | GotInputs(task: nat, ins: Answer<seq<Name>>, cancelled: bool)
    | GotOutputs(task: nat, outs: Answer<seq<Name>>, cancelled: bool)
    | GotStats(task: nat, stat: Answer<Name>, cancelled: bool)

  predicate IsStart(e: Event) { e.StartSync? || e.StartAsync? }

  function StageOf(e: Event): Stage
    requires !IsStart(e)
  {
    match e
    case Connected(_, _, _) => Connection
    case GotInputs(_, _, _) => Inputs
    case GotOutputs(_, _, _) => Outputs
    case GotStats(_, _, _) => Stats
  }

  predicate Enabled(s: State, e: Event) {
    !IsStart(e) ==> e.task in s.trace.flying && s.trace.flying[e.task] == StageOf(e)
  }

  // ---------- the handlers ----------

  predicate Busy(s: State) { s.phase == Pending || s.phase == Ready }

  function Broken(s: State): State {
    s.(phase := Failed, connection := None)
  }

  function Applied(s: State, stage: Stage): State {
    s.(trace := s.trace.Apply(stage, s.connection))
  }

  // The three remote calls of a synchronous start, stopping at the first failure.
  function SyncStarted(s: State, conn: Option<nat>, ins: Answer<seq<Name>>, outs: Answer<seq<Name>>, stat: Answer<Name>): State {
    if Busy(s) then s
    else
      var s1 := s.(connection := conn, trace := s.trace.Restart());
      if conn.None? || !ins.Answer? then Broken(s1)
      else
        var s2 := Applied(s1.(inputs := ins.v), Inputs);
        if !outs.Answer? then Broken(s2)
        else
          var s3 := Applied(s2.(outputs := outs.v), Outputs);
          if !stat.Answer? then Broken(s3)
          else Applied(s3.(stats := stat.v), Stats).(phase := Ready, subscribed := conn)
  }

  // A refused start returns its task at once.
  function AsyncStarted(s: State, cancellable: nat): State {
    if Busy(s) then s.(trace := s.trace.Return(s.nextTask), nextTask := s.nextTask + 1)
    else s.(phase := Pending, cancellable := Some(cancellable), nextTask := s.nextTask + 1,
            trace := s.trace.Fly(s.nextTask, Connection).Restart())
  }

  function Called(s: State, task: nat): State {
    s.(trace := s.trace.Call(task))
  }

  function Returned(s: State, task: nat): State {
    s.(trace := s.trace.Return(task))
  }

  function Ended(s: State, task: nat): State {
    Returned(Broken(s).(cancellable := None), task)
  }

  function Next(s: State, task: nat, stage: Stage): State {
    s.(trace := s.trace.Fly(task, stage))
  }

  function AfterConnected(s: State, t: nat, conn: Option<nat>, cancelled: bool): State {
    var s1 := Called(s, t).(connection := conn);
    if conn.None? || cancelled then Ended(s1, t) else Next(s1, t, Inputs)
  }

  function AfterInputs(s: State, t: nat, ins: Answer<seq<Name>>, cancelled: bool): State {
    var s1 := Called(s, t);
    if !ins.Answer? then Ended(s1, t)
    else
      var s2 := Applied(s1.(inputs := ins.v), Inputs);
      if cancelled then Ended(s2, t) else Next(s2, t, Outputs)
  }

  function AfterOutputs(s: State, t: nat, outs: Answer<seq<Name>>, cancelled: bool): State {
    var s1 := Called(s, t);
    if !outs.Answer? then Ended(s1, t)
    else
      var s2 := Applied(s1.(outputs := outs.v), Outputs);
      if cancelled then Ended(s2, t) else Next(s2, t, Stats)
  }

  function AfterStats(s: State, t: nat, stat: Answer<Name>, cancelled: bool): State {
    var s1 := Called(s, t);
    if !stat.Answer? then Ended(s1, t)
    else
      var s2 := Applied(s1.(stats := stat.v), Stats);
      if cancelled then Ended(s2, t)
      else Returned(s2.(phase := Ready, subscribed := s2.connection, cancellable := None), t)
  }

  function Handle(s: State, e: Event): State {
    match e
    case StartSync(conn, ins, outs, stat) => SyncStarted(s, conn, ins, outs, stat)
    case StartAsync(cancellable) => AsyncStarted(s, cancellable)
    case Connected(t, conn, cancelled) => AfterConnected(s, t, conn, cancelled)
    case GotInputs(t, ins, cancelled) => AfterInputs(s, t, ins, cancelled)
    case GotOutputs(t, outs, cancelled) => AfterOutputs(s, t, outs, cancelled)
    case GotStats(t, stat, cancelled) => AfterStats(s, t, stat, cancelled)
  }

  // ---------- what every run keeps ----------

  function Rounds(stage: Stage): nat {
    match stage case Connection => 0 case Inputs => 1 case Outputs => 2 case Stats => 3
  }

  // What a start on connection c has applied when it waits for `stage`.
  function AppliedBefore(stage: Stage, c: nat): seq<(Stage, nat)> {
    match stage
    case Connection => []
    case Inputs => []
    case Outputs => [(Inputs, c)]
    case Stats => [(Inputs, c), (Outputs, c)]
  }

  // One task is in flight exactly while the client is pending, and where it is
  // says what has been done on which connection.
  ghost predicate InFlight(s: State, t: nat) {
    && s.trace.flying.Keys == {t} && t < s.nextTask
    && s.cancellable.Some?
    && (s.connection.None? <==> s.trace.flying[t] == Connection)
    && s.trace.applied == AppliedBefore(s.trace.flying[t], if s.connection.None? then 0 else s.connection.value)
    && s.trace.callbacks[t] == Rounds(s.trace.flying[t])
  }

  // Inputs, outputs and stats came in this order, over the connection that the
  // client still has and is subscribed to.
  predicate AllApplied(s: State) {
    s.connection.Some? && s.subscribed == s.connection &&
    var c := s.connection.value; s.trace.applied == [(Inputs, c), (Outputs, c), (Stats, c)]
  }

  // What the client has when no start is under way.
  predicate Settled(s: State) {
    && (s.phase == Idle || s.phase == Failed ==> s.connection.None?)
    && (s.phase == Ready ==> AllApplied(s))
    && (s.phase != Ready ==> s.subscribed.None?)
    && (s.phase != Pending ==> s.cancellable.None?)
  }

  ghost predicate Sound(s: State) {
    && (if s.phase == Pending then exists t: nat :: InFlight(s, t) else s.trace.flying == map[])
    && Settled(s)
    // every accepted or refused start returns once, when it is over
    && (forall t: nat :: s.trace.returned[t] == if t < s.nextTask && t !in s.trace.flying then 1 else 0)
    && (forall t: nat :: s.trace.callbacks[t] <= if t in s.trace.flying then Rounds(s.trace.flying[t]) else if t < s.nextTask then 4 else 0)
  }

  // A callback either ends the start or moves it on by one stage.
  lemma CallbackSteps(s: State, e: Event, t: nat)
    requires s.phase == Pending && InFlight(s, t) && !IsStart(e) && Enabled(s, e)
    ensures e.task == t
    ensures var s' := Handle(s, e);
      && s'.trace.callbacks == s.trace.callbacks + multiset{t} && s'.nextTask == s.nextTask
      && if s'.phase == Pending then
           InFlight(s', t) && Rounds(s'.trace.flying[t]) == Rounds(s.trace.flying[t]) + 1 && s'.trace.returned == s.trace.returned
         else s'.trace.flying == map[] && s'.trace.returned == s.trace.returned + multiset{t}
  {
  }

  lemma CallbackLands(s: State, e: Event, t: nat)
    requires s.phase == Pending && InFlight(s, t) && s.subscribed.None? && !IsStart(e) && Enabled(s, e)
    ensures Settled(Handle(s, e))
  {
  }

  lemma CallbackKeepsSound(s: State, e: Event, t: nat)
    requires Sound(s) && s.phase == Pending && InFlight(s, t) && !IsStart(e) && Enabled(s, e)
    ensures Sound(Handle(s, e))
  {
    CallbackSteps(s, e, t);
    CallbackLands(s, e, t);
    hide Handle, Settled;
  }

  lemma SyncKeepsSound(s: State, conn: Option<nat>, ins: Answer<seq<Name>>, outs: Answer<seq<Name>>, stat: Answer<Name>)
    requires Sound(s)
    ensures Sound(SyncStarted(s, conn, ins, outs, stat))
  {
    var s' := SyncStarted(s, conn, ins, outs, stat);
    if !Busy(s) {
      assert s'.phase != Pending && Settled(s');
      hide Settled, SyncStarted;
    }
  }

  lemma AsyncKeepsSound(s: State, cancellable: nat)
    requires Sound(s)
    ensures Sound(AsyncStarted(s, cancellable))
  {
    FreshTask(s);
    var s' := AsyncStarted(s, cancellable);
    assert Settled(s') by { hide InFlight; }
    hide Settled;
    if s.phase == Pending {
      var t: nat :| InFlight(s, t);
      assert InFlight(s', t);
    } else if s'.phase == Pending {
      assert InFlight(s', s.nextTask);
    }
  }

  lemma HandleKeepsSound(s: State, e: Event)
    requires Sound(s) && Enabled(s, e)
    ensures Sound(Handle(s, e))
  {
    match e
    case StartSync(conn, ins, outs, stat) => SyncKeepsSound(s, conn, ins, outs, stat);
    case StartAsync(cancellable) => AsyncKeepsSound(s, cancellable);
    case _ =>
      var t: nat :| InFlight(s, t);
      hide *;
      CallbackKeepsSound(s, e, t);
  }

  function Run(s: State, es: seq<Event>): State
    decreases |es|
  {
    if es == [] then s else Run(Handle(s, es[0]), es[1..])
  }

  predicate Possible(s: State, es: seq<Event>)
    decreases |es|
  {
    es == [] || (Enabled(s, es[0]) && Possible(Handle(s, es[0]), es[1..]))
  }

  lemma {:induction false} RunKeepsSound(s: State, es: seq<Event>)
    requires Sound(s) && Possible(s, es)
    ensures Sound(Run(s, es))
    decreases |es|
  {
    if es != [] {
      HandleKeepsSound(s, es[0]);
      RunKeepsSound(Handle(s, es[0]), es[1..]);
    }
  }

  // READY is only entered by a start that applied inputs, outputs and stats, in
  // this order, on the connection the client still has; each task returned at
  // most once and was called back at most four times.
  lemma WhatRunsGuarantee(es: seq<Event>)
    requires Possible(NEW, es)
    ensures var s := Run(NEW, es);
      && (s.phase == Ready ==> AllApplied(s))
      && (s.phase == Failed ==> s.connection.None?)
      && (forall t: nat :: s.trace.returned[t] <= 1)
      && (forall t: nat :: s.trace.callbacks[t] <= 4 && (s.trace.callbacks[t] == 4 ==> s.trace.returned[t] == 1))
      && (s.phase != Pending ==> forall t: nat :: t < s.nextTask ==> s.trace.returned[t] == 1)
  {
    RunKeepsSound(NEW, es);
  }

  // Once ready, always ready, with what the start brought.
  lemma {:induction false} ReadyForGood(s: State, es: seq<Event>)
    requires Sound(s) && s.phase == Ready && Possible(s, es)
    ensures var s' := Run(s, es);
      s'.phase == Ready && s'.connection == s.connection && s'.inputs == s.inputs && s'.outputs == s.outputs
        && s'.stats == s.stats && s'.subscribed == s.subscribed
    decreases |es|
  {
    if es != [] {
      HandleKeepsSound(s, es[0]);
      ReadyForGood(Handle(s, es[0]), es[1..]);
    }
  }

  // A second start changes nothing but its own bookkeeping.
  lemma SecondStartIsRefused(s: State, e: Event)
    requires Sound(s) && Busy(s) && IsStart(e)
    ensures e.StartSync? ==> Handle(s, e) == s
    ensures e.StartAsync? ==> Handle(s, e) == s.(trace := s.trace.Return(s.nextTask), nextTask := s.nextTask + 1)
    ensures e.StartAsync? ==> Handle(s, e).trace.returned[s.nextTask] == 1
  {
  }

  // ---------- when a start succeeds, and with what ----------

  lemma {:induction false} RunSplits(s: State, es: seq<Event>, e: Event)
    ensures Run(s, es + [e]) == Handle(Run(s, es), e)
    ensures Possible(s, es + [e]) <==> Possible(s, es) && Enabled(Run(s, es), e)
    decreases |es|
  {
    hide Handle, Enabled;
    if es == [] {
      assert [e][1..] == [] && [] + [e] == [e];
    } else {
      assert (es + [e])[1..] == es[1..] + [e];
      RunSplits(Handle(s, es[0]), es[1..], e);
    }
  }

  // The cancellables of the asynchronous starts; task t is that of the t-th one.
  function Starts(es: seq<Event>): seq<nat> {
    if es == [] then []
    else Starts(es[..|es| - 1]) + if es[|es| - 1].StartAsync? then [es[|es| - 1].cancellable] else []
  }

  // The state has what the callbacks of the task in flight brought, none of which saw a
  // cancellation; and a task whose last callback was good made the client ready.
  ghost predicate Recorded(s: State, es: seq<Event>) {
    && s.nextTask == |Starts(es)|
    && (forall t :: t in s.trace.flying && t < |Starts(es)| ==> s.cancellable == Some(Starts(es)[t]))
    && (forall e :: e in es && !IsStart(e) ==> e.task < s.nextTask && (e.task in s.trace.flying ==> Agrees(s, e)))
    && (forall e :: e in es && e.GotStats? && e.stat.Answer? && !e.cancelled ==> s.phase == Ready)
    && (forall t :: t in s.trace.flying ==> Arrived(s, t, es))
  }

  // e is a callback before the stage that its task has reached.
  predicate Agrees(s: State, e: Event)
    requires !IsStart(e) && e.task in s.trace.flying
  {
    && Rounds(StageOf(e)) < Rounds(s.trace.flying[e.task])
    && match e
       case Connected(_, conn, cancelled) => conn == s.connection && !cancelled
       case GotInputs(_, ins, cancelled) => ins == Answer(s.inputs) && !cancelled
       case GotOutputs(_, outs, cancelled) => outs == Answer(s.outputs) && !cancelled
       case GotStats(_, stat, cancelled) => stat == Answer(s.stats) && !cancelled
  }

  predicate Arrived(s: State, t: nat, es: seq<Event>)
    requires t in s.trace.flying
  {
    && (Rounds(s.trace.flying[t]) > 0 ==> Connected(t, s.connection, false) in es)
    && (Rounds(s.trace.flying[t]) > 1 ==> GotInputs(t, Answer(s.inputs), false) in es)
    && (Rounds(s.trace.flying[t]) > 2 ==> GotOutputs(t, Answer(s.outputs), false) in es)
  }

  lemma StartsNext(s: State, e: Event)
    requires Sound(s) && IsStart(e)
    ensures var s' := Handle(s, e);
      && s'.nextTask == s.nextTask + (if e.StartAsync? then 1 else 0)
      && (s.phase == Ready ==> s'.phase == Ready) && (s.phase != Pending ==> s.trace.flying == map[])
      && (if e.StartAsync? && !Busy(s) then
            s'.trace.flying == map[s.nextTask := Connection] && s'.cancellable == Some(e.cancellable)
          else
            && s'.trace.flying == s.trace.flying
            && (s.phase == Pending ==> s'.connection == s.connection && s'.inputs == s.inputs && s'.outputs == s.outputs
                                       && s'.stats == s.stats && s'.cancellable == s.cancellable))
  {
    FreshTask(s);
    hide Settled, InFlight;
  }

  lemma StartIsRecorded(s: State, es: seq<Event>, e: Event)
    requires Sound(s) && Recorded(s, es) && IsStart(e)
    ensures Recorded(Handle(s, e), es + [e])
  {
    assert (es + [e])[..|es|] == es;
    StartsNext(s, e);
    hide Handle, Sound;
    assert forall x :: x in es + [e] <==> x in es || x == e;
  }

  lemma CallbackIsRecorded(s: State, es: seq<Event>, e: Event, t: nat)
    requires Sound(s) && s.phase == Pending && InFlight(s, t) && Recorded(s, es) && !IsStart(e) && Enabled(s, e)
    ensures Recorded(Handle(s, e), es + [e])
  {
    var all, s' := es + [e], Handle(s, e);
    assert all[..|es|] == es;
    CallbackSteps(s, e, t);
    assert e.task == t && forall x :: x in all <==> x in es || x == e;
    CallbackAgrees(s, es, e, t);
    hide Sound, Settled;
  }

  lemma CallbackAgrees(s: State, es: seq<Event>, e: Event, t: nat)
    requires Sound(s) && s.phase == Pending && InFlight(s, t) && Recorded(s, es) && !IsStart(e) && Enabled(s, e)
    ensures var s' := Handle(s, e); t in s'.trace.flying ==> Arrived(s', t, es + [e]) && Agrees(s', e)
    ensures var s' := Handle(s, e); t in s'.trace.flying ==>
              forall x :: x in es && !IsStart(x) && x.task == t ==> Agrees(s', x)
    ensures e.GotStats? && e.stat.Answer? && !e.cancelled ==> Handle(s, e).phase == Ready
  {
    hide Sound, Settled;
  }

  lemma {:induction false} RunIsRecorded(es: seq<Event>)
    requires Possible(NEW, es)
    ensures Sound(Run(NEW, es)) && Recorded(Run(NEW, es), es)
    decreases |es|
  {
    if es != [] {
      var before, e := es[..|es| - 1], es[|es| - 1];
      assert es == before + [e];
      RunSplits(NEW, before, e);
      RunIsRecorded(before);
      var s := Run(NEW, before);
      HandleKeepsSound(s, e);
      if IsStart(e) { StartIsRecorded(s, before, e); }
      else {
        var t: nat :| InFlight(s, t);
        CallbackIsRecorded(s, before, e, t);
      }
    }
  }

  // What a successful start brings.
  datatype Gift = Gift(conn: nat, inputs: seq<Name>, outputs: seq<Name>, stats: Name)

  // All four callbacks of one task were good and saw no cancellation.
  predicate BroughtBy(es: seq<Event>, t: nat, g: Gift) {
    && Connected(t, Some(g.conn), false) in es && GotInputs(t, Answer(g.inputs), false) in es
    && GotOutputs(t, Answer(g.outputs), false) in es && GotStats(t, Answer(g.stats), false) in es
  }

  // The i-th event is a synchronous start, not refused, that got all it asked for.
  predicate BroughtAt(es: seq<Event>, i: nat, g: Gift) {
    && i < |es| && !Busy(Run(NEW, es[..i]))
    && es[i] == StartSync(Some(g.conn), Answer(g.inputs), Answer(g.outputs), Answer(g.stats))
  }

  ghost predicate Brought(es: seq<Event>, g: Gift) {
    (exists t :: BroughtBy(es, t, g)) || exists i :: BroughtAt(es, i, g)
  }

  predicate Has(s: State, g: Gift) {
    && s.phase == Ready && s.connection == Some(g.conn) && s.subscribed == Some(g.conn)
    && s.inputs == g.inputs && s.outputs == g.outputs && s.stats == g.stats
  }

  // What e brings as the last event, when s is the state before it.
  predicate BroughtNow(s: State, es: seq<Event>, e: Event, g: Gift) {
    || (e == StartSync(Some(g.conn), Answer(g.inputs), Answer(g.outputs), Answer(g.stats)) && !Busy(s))
    || (e.GotStats? && e.stat == Answer(g.stats) && !e.cancelled && BroughtBy(es + [e], e.task, g))
  }

  lemma BroughtSplits(es: seq<Event>, e: Event, g: Gift)
    requires forall x :: x in es && x.GotStats? && x.stat.Answer? ==> x.cancelled
    ensures Brought(es + [e], g) <==> Brought(es, g) || BroughtNow(Run(NEW, es), es, e, g)
  {
    hide Run, Busy;
    var all := es + [e];
    forall i: nat
      ensures BroughtAt(all, i, g) <==> (BroughtAt(es, i, g) || (i == |es| &&
                e == StartSync(Some(g.conn), Answer(g.inputs), Answer(g.outputs), Answer(g.stats)) && !Busy(Run(NEW, es))))
    {
      if i <= |es| { assert all[..i] == es[..i]; }
      assert es[..|es|] == es;
    }
    assert forall t :: !BroughtBy(es, t, g);
    assert forall t :: BroughtBy(all, t, g) ==> e.GotStats? && e.task == t;
    if BroughtNow(Run(NEW, es), es, e, g) && e.StartSync? { assert BroughtAt(all, |es|, g); }
  }

  lemma StartBrings(s: State, es: seq<Event>, e: Event, g: Gift)
    requires Sound(s) && IsStart(e) && s.phase != Ready
    ensures BroughtNow(s, es, e, g) <==> Has(Handle(s, e), g)
  {
  }

  lemma CallbackBrings(s: State, es: seq<Event>, e: Event, t: nat, g: Gift)
    requires Sound(s) && s.phase == Pending && InFlight(s, t) && Recorded(s, es) && !IsStart(e) && Enabled(s, e)
    ensures BroughtNow(s, es, e, g) <==> Has(Handle(s, e), g)
  {
    hide Sound, Settled;
    var all := es + [e];
    assert forall x :: x in all <==> x in es || x == e;
  }

  lemma ReadyStays(s: State, es: seq<Event>, e: Event, g: Gift)
    requires Sound(s) && s.phase == Ready && Enabled(s, e) && s == Run(NEW, es)
    ensures Has(Handle(s, e), g) <==> Has(s, g)
    ensures Brought(es + [e], g) <==> Brought(es, g)
  {
    var all := es + [e];
    assert IsStart(e);
    hide Run, Sound;
    forall i: nat ensures BroughtAt(all, i, g) <==> BroughtAt(es, i, g) {
      if i <= |es| { assert all[..i] == es[..i]; }
      assert es[..|es|] == es;
    }
    assert forall t :: BroughtBy(all, t, g) <==> BroughtBy(es, t, g);
  }

  lemma {:induction false} HasIffBrought(es: seq<Event>, g: Gift)
    requires Possible(NEW, es)
    ensures Has(Run(NEW, es), g) <==> Brought(es, g)
    decreases |es|
  {
    if es != [] {
      var before, e := es[..|es| - 1], es[|es| - 1];
      assert es == before + [e];
      RunSplits(NEW, before, e);
      RunIsRecorded(before);
      HasIffBrought(before, g);
      var s := Run(NEW, before);
      if s.phase == Ready { ReadyStays(s, before, e, g); }
      else {
        BroughtSplits(before, e, g);
        if IsStart(e) { StartBrings(s, before, e, g); }
        else {
          var t: nat :| InFlight(s, t);
          CallbackBrings(s, before, e, t, g);
        }
      }
    }
  }

  // The client is ready exactly if some start got its connection and all three answers,
  // through four callbacks that saw no cancellation or synchronously; and it has the
  // connection, and what was answered, of that start.
  lemma ReadyIff(es: seq<Event>)
    requires Possible(NEW, es)
    ensures var s := Run(NEW, es);
      && (s.phase == Ready <==> exists g :: Brought(es, g))
      && forall g :: Brought(es, g) <==> Has(s, g)
  {
    RunIsRecorded(es);
    forall g ensures Brought(es, g) <==> Has(Run(NEW, es), g) { HasIffBrought(es, g); }
    hide Run, Brought;
    var s := Run(NEW, es);
    if s.phase == Ready { assert Has(s, Gift(s.connection.value, s.inputs, s.outputs, s.stats)); }
  }

  // Idle means that no start was ever made; pending, that the last task has not returned.
  lemma {:induction false} PhaseIff(es: seq<Event>)
    requires Possible(NEW, es)
    ensures var s := Run(NEW, es);
      && (s.phase == Idle <==> forall e :: e in es ==> !IsStart(e))
      && (s.phase == Pending <==> exists t: nat :: t < |Starts(es)| && s.trace.returned[t] == 0)
    decreases |es|
  {
    RunIsRecorded(es);
    PendingIff(Run(NEW, es), es);
    if es != [] {
      hide *;
      var before, e := es[..|es| - 1], es[|es| - 1];
      assert es == before + [e];
      RunSplits(NEW, before, e);
      RunIsRecorded(before);
      PhaseIff(before);
      IdleStep(Run(NEW, before), e);
      assert forall x :: x in es <==> x in before || x == e;
    }
  }

  lemma PendingIff(s: State, es: seq<Event>)
    requires Sound(s) && Recorded(s, es)
    ensures s.phase == Pending <==> exists t: nat :: t < |Starts(es)| && s.trace.returned[t] == 0
  {
    hide Starts, Agrees, Arrived, Settled;
    if s.phase == Pending {
      var t: nat :| InFlight(s, t);
      assert s.trace.returned[t] == 0;
    }
  }

  lemma IdleStep(s: State, e: Event)
    requires Sound(s) && Enabled(s, e)
    ensures Handle(s, e).phase == Idle <==> s.phase == Idle && !IsStart(e)
  {
  }

  // An answer is kept as soon as it comes, even if its start then fails or was cancelled.
  lemma AnswersAreKept(s: State, e: Event)
    requires Sound(s) && Enabled(s, e)
    ensures var s' := Handle(s, e);
      && s'.inputs == (if e.GotInputs? && e.ins.Answer? then e.ins.v
                       else if e.StartSync? && !Busy(s) && e.conn.Some? && e.ins.Answer? then e.ins.v else s.inputs)
      && s'.outputs == (if e.GotOutputs? && e.outs.Answer? then e.outs.v
                        else if e.StartSync? && !Busy(s) && e.conn.Some? && e.ins.Answer? && e.outs.Answer? then e.outs.v else s.outputs)
      && (s'.stats != s.stats ==> (e.GotStats? || e.StartSync?) && e.stat == Answer(s'.stats))
      && (e.GotStats? && e.stat.Answer? ==> s'.stats == e.stat.v)
  {
  }

  // No chain of callbacks is longer than the four stages.
  lemma {:induction false} CallbacksRunOut(s: State, es: seq<Event>)
    requires Sound(s) && Possible(s, es) && forall e :: e in es ==> !IsStart(e)
    ensures |es| <= 4
    ensures forall t :: t in s.trace.flying ==> |es| + Rounds(s.trace.flying[t]) <= 4
    ensures s.phase != Pending ==> es == []
    decreases |es|
  {
    if es != [] {
      var t: nat :| InFlight(s, t);
      CallbackSteps(s, es[0], t);
      HandleKeepsSound(s, es[0]);
      hide Handle;
      CallbacksRunOut(Handle(s, es[0]), es[1..]);
      assert s.trace.flying.Keys == {t};
    }
  }

  // ---------- the object ----------

  class Client {
    var phase: Phase
    var connection: Option<nat>
    var startCancellable: Option<nat>
    var subscribed: Option<nat>
    var inputs: seq<Name>
    var outputs: seq<Name>
    var stats: Name
    var nextTask: nat
    ghost var trace: Trace

    ghost function Now(): State
      reads this
    {
      State(phase, connection, startCancellable, subscribed, inputs, outputs, stats, nextTask, trace)
    }

    ghost predicate Valid()
      reads this
    {
      Sound(Now())
    }

    constructor ()
      ensures Valid() && Now() == NEW
    {
      phase, connection, startCancellable, subscribed := Idle, None, None, None;
      inputs, outputs, stats := [], [], "noname";
      nextTask, trace := 0, Trace(map[], multiset{}, multiset{}, []);
    }

    method Fail()
      modifies this`phase, this`connection
      ensures phase == Failed && connection == None
    {
      phase := Failed;
      connection := None;
    }

    // The three answers and the connection are what the peer gives.
    method StartSync(conn: Option<nat>, ins: Answer<seq<Name>>, outs: Answer<seq<Name>>, stat: Answer<Name>) returns (r: bool)
      requires Valid()
      modifies this
      ensures Valid() && Now() == SyncStarted(old(Now()), conn, ins, outs, stat)
      ensures r <==> old(phase) != Ready && phase == Ready
    {
      ghost var e := Event.StartSync(conn, ins, outs, stat);
      HandleKeepsSound(Now(), e);
      hide Sound, Handle;
      if phase == Pending || phase == Ready { return false; }
      trace := trace.Restart();
      connection := conn;
      if connection.None? { Fail(); return false; }
      r := false;
      if ins.Answer? {
        inputs, trace := ins.v, trace.Apply(Inputs, connection);
        if outs.Answer? {
          outputs, trace := outs.v, trace.Apply(Outputs, connection);
          if stat.Answer? {
            stats, trace := stat.v, trace.Apply(Stats, connection);
            subscribed := connection;
            phase := Ready;
            return true;
          }
        }
      }
      Fail();
    }

    method StartAsync(cancellable: nat) returns (task: nat, accepted: bool)
      requires Valid()
      modifies this
      ensures Valid() && Now() == AsyncStarted(old(Now()), cancellable)
      ensures task == old(nextTask) && (accepted <==> task in trace.flying) && (accepted <==> task !in trace.returned)
    {
      HandleKeepsSound(Now(), Event.StartAsync(cancellable));
      FreshTask(Now());
      hide Sound, Handle;
      task := nextTask;
      nextTask := nextTask + 1;
      accepted := !(phase == Pending || phase == Ready);
      if accepted {
        phase, startCancellable := Pending, Some(cancellable);
        trace := trace.Fly(task, Connection).Restart();
      } else {
        trace := trace.Return(task);
      }
    }

    // start_async_fail, and the end of a cancelled start.
    method EndTask(task: nat)
      modifies this
      ensures Now() == Ended(old(Now()), task)
    {
      startCancellable := None;
      Fail();
      trace := trace.Return(task);
    }

    method OnConnected(task: nat, conn: Option<nat>, cancelled: bool)
      requires Valid() && Enabled(Now(), Connected(task, conn, cancelled))
      modifies this
      ensures Valid() && Now() == AfterConnected(old(Now()), task, conn, cancelled)
    {
      HandleKeepsSound(Now(), Connected(task, conn, cancelled));
      hide Sound, Handle;
      trace := trace.Call(task);
      connection := conn;
      if connection.None? { EndTask(task); return; }
      if cancelled { EndTask(task); return; }
      trace := trace.Fly(task, Inputs);
    }

    method OnInputs(task: nat, ins: Answer<seq<Name>>, cancelled: bool)
      requires Valid() && Enabled(Now(), GotInputs(task, ins, cancelled))
      modifies this
      ensures Valid() && Now() == AfterInputs(old(Now()), task, ins, cancelled)
    {
      HandleKeepsSound(Now(), GotInputs(task, ins, cancelled));
      StillConnected(Now(), task);
      hide Sound, Handle;
      trace := trace.Call(task);
      if !ins.Answer? { EndTask(task); return; }
      inputs, trace := ins.v, trace.Apply(Inputs, connection);
      if cancelled { EndTask(task); return; }
      trace := trace.Fly(task, Outputs);
    }

    method OnOutputs(task: nat, outs: Answer<seq<Name>>, cancelled: bool)
      requires Valid() && Enabled(Now(), GotOutputs(task, outs, cancelled))
      modifies this
      ensures Valid() && Now() == AfterOutputs(old(Now()), task, outs, cancelled)
    {
      HandleKeepsSound(Now(), GotOutputs(task, outs, cancelled));
      StillConnected(Now(), task);
      hide Sound, Handle;
      trace := trace.Call(task);
      if !outs.Answer? { EndTask(task); return; }
      outputs, trace := outs.v, trace.Apply(Outputs, connection);
      if cancelled { EndTask(task); return; }
      trace := trace.Fly(task, Stats);
    }

    method OnStats(task: nat, stat: Answer<Name>, cancelled: bool)
      requires Valid() && Enabled(Now(), GotStats(task, stat, cancelled))
      modifies this
      ensures Valid() && Now() == AfterStats(old(Now()), task, stat, cancelled)
    {
      HandleKeepsSound(Now(), GotStats(task, stat, cancelled));
      StillConnected(Now(), task);
      hide Sound, Handle;
      trace := trace.Call(task);
      if !stat.Answer? { EndTask(task); return; }
      stats, trace := stat.v, trace.Apply(Stats, connection);
      if cancelled { EndTask(task); return; }
      subscribed := connection;
      phase := Ready;
      startCancellable := None;
      trace := trace.Return(task);
    }
  }

  lemma FreshTask(s: State)
    requires Sound(s)
    ensures s.nextTask !in s.trace.flying && s.nextTask !in s.trace.returned
  {
  }

  lemma StillConnected(s: State, t: nat)
    requires Sound(s) && t in s.trace.flying
    ensures s.trace.flying[t] != Connection ==> s.connection.Some?
  {
  }
}
