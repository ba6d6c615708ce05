// The debugger of src/debug-server.c: break- and watchpoints under handles, and the
// pause that a hit begins. While it lasts, changes are kept from the rules.

module Debugger {
  import opened Options

  // Handles are guints: the counter wraps around and leaves out 0.
  const WIDTH: nat := 0x1_0000_0000
  const PERIOD: nat := WIDTH - 1

  type Handle = h: nat | h < WIDTH
  type Table = map<Handle, string>

  datatype Stop = Stop(reason: string, id: string, value: real, handle: Handle)
  datatype Debug = Debug(breaks: Table, watches: Table, next: Handle, stop: Option<Stop>, told: seq<Stop>)

  datatype Command =
    | AddBreak(id: string)
    | AddWatch(id: string)
    | RemoveBreak(handle: Handle)
    | RemoveWatch(handle: Handle)
    | Continue
    | Change(id: string, value: real)
    | Apply(name: Option<string>)

  // What the call returns: a handle, or whether a point was removed or a change kept back.
  datatype Reply = Given(handle: Handle) | Answer(yes: bool) | Nothing

  function Taken(next: Handle): Handle { if next == 0 then 1 else next }
  function NextOf(next: Handle): Handle { (Taken(next) + 1) % WIDTH }

  // A point of d is on what c is about.
  predicate Hit(d: Debug, c: Command) {
    match c
    case Change(id, _) => id in d.watches.Values || id in d.breaks.Values
    case Apply(Some(id)) => id in d.breaks.Values
    case _ => false
  }

  predicate Points(table: Table, handle: Handle, id: string) {
    handle in table && table[handle] == id
  }

  // Watchpoints come first; of several points on one name any may be reported.
  predicate Reports(d: Debug, c: Command, s: Stop) {
    match c
    case Change(id, value) =>
      && s.id == id && s.value == value
      && (if id in d.watches.Values then s.reason == "watchpoint" && Points(d.watches, s.handle, id)
          else s.reason == "breakpoint" && Points(d.breaks, s.handle, id))
    case Apply(Some(id)) => s.id == id && s.value == 0.0 && s.reason == "breakpoint" && Points(d.breaks, s.handle, id)
    case _ => false
  }

  ghost predicate Intercepted(d: Debug, c: Command, d': Debug, kept: bool) {
    if d.stop.None? && Hit(d, c)
    then kept && d'.stop.Some? && Reports(d, c, d'.stop.value) && d' == d.(stop := d'.stop, told := d.told + [d'.stop.value])
    else kept == d.stop.Some? && d' == d
  }

  // One call.
  ghost predicate Next(d: Debug, c: Command, d': Debug, r: Reply) {
    match c
    case AddBreak(id) =>
      if id == "" then r == Given(0) && d' == d
      else r == Given(Taken(d.next)) && d' == d.(breaks := d.breaks[Taken(d.next) := id], next := NextOf(d.next))
    case AddWatch(id) =>
      if id == "" then r == Given(0) && d' == d
      else r == Given(Taken(d.next)) && d' == d.(watches := d.watches[Taken(d.next) := id], next := NextOf(d.next))
    case RemoveBreak(h) => r == Answer(h != 0 && h in d.breaks) && d' == if r.yes then d.(breaks := d.breaks - {h}) else d
    case RemoveWatch(h) => r == Answer(h != 0 && h in d.watches) && d' == if r.yes then d.(watches := d.watches - {h}) else d
    case Continue => r == Nothing && d' == d.(stop := None)
    case _ => r.Answer? && Intercepted(d, c, d', r.yes)
  }

  // ---------- the object ----------

  class CoreDebug {
    var breaks: Table
    var watches: Table
    var next: Handle
    var stop: Option<Stop>
    var told: seq<Stop>

    ghost function Now(): Debug
      reads this
    {
      Debug(breaks, watches, next, stop, told)
    }

    constructor ()
      ensures Now() == START
    {
      breaks, watches, next, stop, told := map[], map[], 1, None, [];
    }

    method TakeHandle() returns (handle: Handle)
      modifies this`next
      ensures handle == Taken(old(next)) && next == NextOf(old(next))
    {
      handle := next;
      next := (next + 1) % WIDTH;
      if handle == 0 {
        handle := next;
        next := (next + 1) % WIDTH;
      }
    }

    method AddPoint(watch: bool, id: string) returns (handle: Handle)
      modifies this
      ensures Next(old(Now()), if watch then AddWatch(id) else AddBreak(id), Now(), Given(handle))
    {
      if id == "" { return 0; }
      handle := TakeHandle();
      if watch { watches := watches[handle := id]; } else { breaks := breaks[handle := id]; }
    }

    method RemovePoint(watch: bool, handle: Handle) returns (ok: bool)
      modifies this
      ensures Next(old(Now()), if watch then RemoveWatch(handle) else RemoveBreak(handle), Now(), Answer(ok))
    {
      ok := handle != 0 && handle in if watch then watches else breaks;
      if ok {
        if watch { watches := watches - {handle}; } else { breaks := breaks - {handle}; }
      }
    }

    method Resume()
      modifies this
      ensures Next(old(Now()), Continue, Now(), Nothing)
    {
      stop := None;
    }

    method EnterStopped(s: Stop)
      modifies this`stop, this`told
      ensures Now() == old(Now()).(stop := Some(s), told := old(told) + [s])
    {
      stop := Some(s);
      told := told + [s];
    }

    method InterceptChange(id: string, value: real) returns (kept: bool)
      modifies this
      ensures Next(old(Now()), Change(id, value), Now(), Answer(kept))
    {
      if stop.Some? { return true; }
      var watch := FindPoint(watches, id);
      if watch.Some? {
        EnterStopped(Stop("watchpoint", id, value, watch.value));
        return true;
      }
      var point := FindPoint(breaks, id);
      if point.Some? {
        EnterStopped(Stop("breakpoint", id, value, point.value));
        return true;
      }
      kept := false;
    }

    method InterceptApply(name: Option<string>) returns (kept: bool)
      modifies this
      ensures Next(old(Now()), Apply(name), Now(), Answer(kept))
    {
      if stop.Some? { return true; }
      if name.None? { return false; }
      var point := FindPoint(breaks, name.value);
      if point.Some? { EnterStopped(Stop("breakpoint", name.value, 0.0, point.value)); }
      kept := point.Some?;
    }
  }

  const START: Debug := Debug(map[], map[], 1, None, [])

  // The points of a table are gone through in any order.
  method FindPoint(table: Table, id: string) returns (found: Option<Handle>)
    ensures found.Some? <==> id in table.Values
    ensures found.Some? ==> Points(table, found.value, id)
  {
    var left := table.Keys;
    while left != {}
      invariant left <= table.Keys
      invariant forall h :: h in table && table[h] == id ==> h in left
      decreases |left|
    {
      var h :| h in left;
      if table[h] == id { return Some(h); }
      left := left - {h};
    }
    found := None;
  }

  // ---------- whole runs ----------

  ghost predicate Ran(states: seq<Debug>, commands: seq<Command>, replies: seq<Reply>) {
    && |states| == |commands| + 1 && |replies| == |commands|
    && forall k :: 0 <= k < |commands| ==> NextAt(states, commands, replies, k)
  }

  ghost predicate NextAt(states: seq<Debug>, commands: seq<Command>, replies: seq<Reply>, k: nat)
    requires k < |commands| < |states| && k < |replies|
  {
    Next(states[k], commands[k], states[k + 1], replies[k])
  }

  predicate Adds(c: Command) {
    (c.AddBreak? || c.AddWatch?) && c.id != ""
  }

  // How many points have been added before the k-th command.
  function Added(commands: seq<Command>, k: nat): nat
    requires k <= |commands|
  {
    if k == 0 then 0 else Added(commands, k - 1) + if Adds(commands[k - 1]) then 1 else 0
  }

  // The n-th point gets handle n, until the handles are used up and begin again.
  lemma {:induction false} HandlesCount(states: seq<Debug>, commands: seq<Command>, replies: seq<Reply>, k: nat)
    requires Ran(states, commands, replies) && states[0] == START && k <= |commands|
    ensures Taken(states[k].next) == 1 + Added(commands, k) % PERIOD
    decreases k
  {
    hide Next, Taken, NextOf;
    if k == 0 {
      CountsFromOne();
    } else {
      HandlesCount(states, commands, replies, k - 1);
      assert NextAt(states, commands, replies, k - 1);
      TakesIfAdds(states[k - 1], commands[k - 1], states[k], replies[k - 1]);
      CountStep(Added(commands, k - 1), states[k - 1].next);
    }
  }

  lemma CountsFromOne()
    ensures Taken(START.next) == 1 + 0 % PERIOD
  {
  }

  lemma CountStep(n: nat, next: Handle)
    requires Taken(next) == 1 + n % PERIOD
    ensures Taken(NextOf(next)) == 1 + (n + 1) % PERIOD
  {
  }

  lemma TakesIfAdds(d: Debug, c: Command, d': Debug, r: Reply)
    requires Next(d, c, d', r)
    ensures d'.next == if Adds(c) then NextOf(d.next) else d.next
  {
  }

  // No handle is 0, and two points get the same one exactly if as many points were
  // added in between as there are handles, or a multiple of that; break- and
  // watchpoints share the handles.
  lemma SameHandleIff(states: seq<Debug>, commands: seq<Command>, replies: seq<Reply>, i: nat, j: nat)
    requires Ran(states, commands, replies) && states[0] == START && i < j < |commands|
    requires Adds(commands[i]) && Adds(commands[j])
    ensures replies[i].Given? && replies[j].Given? && replies[i].handle != 0
    ensures replies[i].handle == replies[j].handle <==> (Added(commands, j) - Added(commands, i)) % PERIOD == 0
  {
    HandlesCount(states, commands, replies, i);
    HandlesCount(states, commands, replies, j);
    assert NextAt(states, commands, replies, i) && NextAt(states, commands, replies, j);
    SameRest(Added(commands, j), Added(commands, i));
  }

  lemma SameRest(a: int, b: int)
    ensures a % PERIOD == b % PERIOD <==> (a - b) % PERIOD == 0
  {
  }

  // Command i hits a point, and nothing since then, up to command k, resumes.
  ghost predicate HeldSince(states: seq<Debug>, commands: seq<Command>, i: nat, k: nat)
    requires k <= |commands| < |states|
  {
    i < k && Hit(states[i], commands[i]) && forall j :: i < j < k ==> !commands[j].Continue?
  }

  ghost predicate Held(states: seq<Debug>, commands: seq<Command>, k: nat)
    requires k <= |commands| < |states|
  {
    exists i: nat :: HeldSince(states, commands, i, k)
  }

  // Command i is the first such hit.
  ghost predicate FirstHit(states: seq<Debug>, commands: seq<Command>, i: nat, k: nat)
    requires k <= |commands| < |states|
  {
    HeldSince(states, commands, i, k) && forall j: nat :: HeldSince(states, commands, j, k) ==> i <= j
  }

  lemma HeldStep(states: seq<Debug>, commands: seq<Command>, k: nat)
    requires 0 < k <= |commands| < |states|
    ensures forall i: nat :: HeldSince(states, commands, i, k)
              <==> (i == k - 1 && Hit(states[k - 1], commands[k - 1]))
                   || (HeldSince(states, commands, i, k - 1) && !commands[k - 1].Continue?)
  {
  }

  // The core is paused exactly if some point was hit since it was last resumed, and
  // what is reported is the first such hit.
  lemma {:induction false} PausedIff(states: seq<Debug>, commands: seq<Command>, replies: seq<Reply>, k: nat)
    requires Ran(states, commands, replies) && states[0] == START && k <= |commands|
    ensures states[k].stop.Some? <==> Held(states, commands, k)
    ensures forall i: nat :: states[k].stop.Some? && FirstHit(states, commands, i, k) ==>
              Reports(states[i], commands[i], states[k].stop.value)
    decreases k
  {
    if k > 0 {
      PausedIff(states, commands, replies, k - 1);
      assert NextAt(states, commands, replies, k - 1);
      HeldStep(states, commands, k);
      hide HeldSince;
      if Held(states, commands, k - 1) {
        var i: nat :| HeldSince(states, commands, i, k - 1);
        assert HeldSince(states, commands, i, k) <==> !commands[k - 1].Continue?;
        StartsBefore(states, commands, i, k - 1);
      }
      if Hit(states[k - 1], commands[k - 1]) { assert HeldSince(states, commands, k - 1, k); }
      forall i: nat | states[k].stop.Some? && FirstHit(states, commands, i, k)
        ensures Reports(states[i], commands[i], states[k].stop.value)
      {
        if states[k - 1].stop.Some? { FirstHitStays(states, commands, i, k); }
      }
    }
  }

  lemma StartsBefore(states: seq<Debug>, commands: seq<Command>, i: nat, k: nat)
    requires k <= |commands| < |states| && HeldSince(states, commands, i, k)
    ensures i < k
  {
  }

  lemma FirstHitStays(states: seq<Debug>, commands: seq<Command>, i: nat, k: nat)
    requires 0 < k <= |commands| < |states| && Held(states, commands, k - 1)
    requires FirstHit(states, commands, i, k) && !commands[k - 1].Continue?
    ensures FirstHit(states, commands, i, k - 1)
  {
    hide HeldSince;
    HeldStep(states, commands, k);
    var before := k - 1;
    var first: nat :| HeldSince(states, commands, first, before);
    StartsBefore(states, commands, first, before);
    forall j: nat | HeldSince(states, commands, j, before) ensures i <= j { assert HeldSince(states, commands, j, k); }
  }

  // A change, or a pass for one name or for none, is kept from the rules exactly if a
  // point is hit by it or was hit since the core was last resumed.
  lemma KeptIff(states: seq<Debug>, commands: seq<Command>, replies: seq<Reply>, k: nat)
    requires Ran(states, commands, replies) && states[0] == START && k < |commands|
    requires commands[k].Change? || commands[k].Apply?
    ensures replies[k] == Answer(Held(states, commands, k + 1))
  {
    PausedIff(states, commands, replies, k);
    PausedIff(states, commands, replies, k + 1);
    assert NextAt(states, commands, replies, k);
  }

  // ---------- the same by what was called and answered alone ----------

  function TableOf(d: Debug, watch: bool): Table {
    if watch then d.watches else d.breaks
  }

  predicate AddsTo(watch: bool, c: Command) {
    (if watch then c.AddWatch? else c.AddBreak?) && c.id != ""
  }

  // The point under h is removed, or replaced when the handles begin again.
  predicate Drops(watch: bool, c: Command, r: Reply, h: Handle) {
    c == (if watch then RemoveWatch(h) else RemoveBreak(h)) || (AddsTo(watch, c) && r == Given(h))
  }

  // Call j added a point with that name and got h for it, and it was not dropped since.
  ghost predicate StandsSince(commands: seq<Command>, replies: seq<Reply>, watch: bool, id: string, h: Handle, j: nat, k: nat)
    requires k <= |commands| == |replies|
  {
    && j < k && AddsTo(watch, commands[j]) && commands[j].id == id && replies[j] == Given(h)
    && forall l :: j < l < k ==> !Drops(watch, commands[l], replies[l], h)
  }

  ghost predicate Stands(commands: seq<Command>, replies: seq<Reply>, watch: bool, id: string, h: Handle, k: nat)
    requires k <= |commands| == |replies|
  {
    exists j: nat :: StandsSince(commands, replies, watch, id, h, j, k)
  }

  lemma TableStep(d: Debug, c: Command, d': Debug, r: Reply, watch: bool, id: string, h: Handle)
    requires Next(d, c, d', r) && 0 !in d.breaks && 0 !in d.watches
    ensures 0 !in d'.breaks && 0 !in d'.watches
    ensures var t, t' := TableOf(d, watch), TableOf(d', watch);
            (h in t' && t'[h] == id)
              <==> (if AddsTo(watch, c) && r == Given(h) then c.id == id else h in t && t[h] == id && !Drops(watch, c, r, h))
  {
    hide Intercepted;
    if c.Change? || c.Apply? { InterceptKeepsTables(d, c, d', r.yes); }
  }

  lemma InterceptKeepsTables(d: Debug, c: Command, d': Debug, kept: bool)
    requires Intercepted(d, c, d', kept)
    ensures d'.breaks == d.breaks && d'.watches == d.watches
  {
    hide Hit, Reports;
  }

  lemma StandsStep(commands: seq<Command>, replies: seq<Reply>, watch: bool, id: string, h: Handle, k: nat)
    requires 0 < k <= |commands| == |replies|
    ensures var c, r := commands[k - 1], replies[k - 1];
            Stands(commands, replies, watch, id, h, k) <==>
              (if AddsTo(watch, c) && r == Given(h) then c.id == id
               else Stands(commands, replies, watch, id, h, k - 1) && !Drops(watch, c, r, h))
  {
    var c, r := commands[k - 1], replies[k - 1];
    if AddsTo(watch, c) && r == Given(h) && c.id == id {
      assert StandsSince(commands, replies, watch, id, h, k - 1, k);
    }
    if Stands(commands, replies, watch, id, h, k - 1) && !Drops(watch, c, r, h) {
      var j: nat :| StandsSince(commands, replies, watch, id, h, j, k - 1);
      assert StandsSince(commands, replies, watch, id, h, j, k);
    }
    if Stands(commands, replies, watch, id, h, k) {
      var j: nat :| StandsSince(commands, replies, watch, id, h, j, k);
      assert j < k - 1 ==> StandsSince(commands, replies, watch, id, h, j, k - 1);
    }
  }

  // A table has a point under a handle exactly if such a point was added, of that kind
  // and with that name and handle, and not dropped since.
  lemma {:induction false} TableIff(states: seq<Debug>, commands: seq<Command>, replies: seq<Reply>,
                                    watch: bool, id: string, h: Handle, k: nat)
    requires Ran(states, commands, replies) && states[0] == START && k <= |commands|
    ensures 0 !in states[k].breaks && 0 !in states[k].watches
    ensures Points(TableOf(states[k], watch), h, id) <==> Stands(commands, replies, watch, id, h, k)
    decreases k
  {
    if k > 0 {
      hide Stands, Next, AddsTo, Drops;
      TableIff(states, commands, replies, watch, id, h, k - 1);
      assert NextAt(states, commands, replies, k - 1);
      TableStep(states[k - 1], commands[k - 1], states[k], replies[k - 1], watch, id, h);
      StandsStep(commands, replies, watch, id, h, k);
    }
  }

  ghost predicate Named(commands: seq<Command>, replies: seq<Reply>, watch: bool, id: string, k: nat)
    requires k <= |commands| == |replies|
  {
    exists h: Handle :: Stands(commands, replies, watch, id, h, k)
  }

  lemma NamedIff(states: seq<Debug>, commands: seq<Command>, replies: seq<Reply>, watch: bool, id: string, k: nat)
    requires Ran(states, commands, replies) && states[0] == START && k <= |commands|
    ensures id in TableOf(states[k], watch).Values <==> Named(commands, replies, watch, id, k)
  {
    forall h: Handle ensures Points(TableOf(states[k], watch), h, id) <==> Stands(commands, replies, watch, id, h, k) {
      TableIff(states, commands, replies, watch, id, h, k);
    }
    hide Stands, Ran;
    if id in TableOf(states[k], watch).Values {
      var h :| h in TableOf(states[k], watch) && TableOf(states[k], watch)[h] == id;
      assert Points(TableOf(states[k], watch), h, id);
    }
    if Named(commands, replies, watch, id, k) {
      var h: Handle :| Stands(commands, replies, watch, id, h, k);
      assert Points(TableOf(states[k], watch), h, id);
    }
  }

  // Call k is about a name for which a point stands: for a change, of either kind; for
  // a pass, a breakpoint.
  ghost predicate Strikes(commands: seq<Command>, replies: seq<Reply>, k: nat)
    requires k < |commands| == |replies|
  {
    match commands[k]
    case Change(id, _) => Named(commands, replies, true, id, k) || Named(commands, replies, false, id, k)
    case Apply(Some(id)) => Named(commands, replies, false, id, k)
    case _ => false
  }

  // What a strike is reported as: watchpoints come first.
  ghost predicate Tells(commands: seq<Command>, replies: seq<Reply>, k: nat, s: Stop)
    requires k < |commands| == |replies|
  {
    match commands[k]
    case Change(id, value) =>
      && s.id == id && s.value == value
      && var watched := Named(commands, replies, true, id, k);
         s.reason == (if watched then "watchpoint" else "breakpoint") && Stands(commands, replies, watched, id, s.handle, k)
    case Apply(Some(id)) =>
      s.id == id && s.value == 0.0 && s.reason == "breakpoint" && Stands(commands, replies, false, id, s.handle, k)
    case _ => false
  }

  lemma StrikesIff(states: seq<Debug>, commands: seq<Command>, replies: seq<Reply>, k: nat)
    requires Ran(states, commands, replies) && states[0] == START && k < |commands|
    ensures Hit(states[k], commands[k]) <==> Strikes(commands, replies, k)
  {
    var c := commands[k];
    if c.Change? {
      NamedIff(states, commands, replies, true, c.id, k);
      NamedIff(states, commands, replies, false, c.id, k);
    }
    if c.Apply? && c.name.Some? { NamedIff(states, commands, replies, false, c.name.value, k); }
    hide Ran, Named;
  }

  lemma ReportsTell(states: seq<Debug>, commands: seq<Command>, replies: seq<Reply>, k: nat, s: Stop)
    requires Ran(states, commands, replies) && states[0] == START && k < |commands| && Reports(states[k], commands[k], s)
    ensures Tells(commands, replies, k, s)
  {
    var c := commands[k];
    var id := s.id;
    NamedIff(states, commands, replies, true, id, k);
    TableIff(states, commands, replies, true, id, s.handle, k);
    TableIff(states, commands, replies, false, id, s.handle, k);
    hide Ran, Named, Stands;
  }

  ghost predicate StruckSince(commands: seq<Command>, replies: seq<Reply>, i: nat, k: nat)
    requires k <= |commands| == |replies|
  {
    i < k && Strikes(commands, replies, i) && forall j :: i < j < k ==> !commands[j].Continue?
  }

  ghost predicate Struck(commands: seq<Command>, replies: seq<Reply>, k: nat)
    requires k <= |commands| == |replies|
  {
    exists i: nat :: StruckSince(commands, replies, i, k)
  }

  ghost predicate FirstStrike(commands: seq<Command>, replies: seq<Reply>, i: nat, k: nat)
    requires k <= |commands| == |replies|
  {
    StruckSince(commands, replies, i, k) && forall j: nat :: StruckSince(commands, replies, j, k) ==> i <= j
  }

  // The core is paused exactly if some call struck a point since it was last resumed;
  // what is reported is the first of these strikes.
  lemma PausedByCallsIff(states: seq<Debug>, commands: seq<Command>, replies: seq<Reply>, k: nat)
    requires Ran(states, commands, replies) && states[0] == START && k <= |commands|
    ensures states[k].stop.Some? <==> Struck(commands, replies, k)
    ensures forall i: nat :: FirstStrike(commands, replies, i, k) ==> Tells(commands, replies, i, states[k].stop.value)
  {
    PausedIff(states, commands, replies, k);
    forall i: nat ensures StruckSince(commands, replies, i, k) <==> HeldSince(states, commands, i, k) {
      if i < k { StrikesIff(states, commands, replies, i); }
    }
    hide StruckSince, HeldSince;
    if states[k].stop.Some? {
      var i: nat :| HeldSince(states, commands, i, k);
      assert StruckSince(commands, replies, i, k);
    }
    forall i: nat | FirstStrike(commands, replies, i, k) ensures Tells(commands, replies, i, states[k].stop.value) {
      assert FirstHit(states, commands, i, k);
      StartsBefore(states, commands, i, k);
      ReportsTell(states, commands, replies, i, states[k].stop.value);
    }
  }

  // What a call answers, and whom it tells: no handle for no name; a removal succeeds
  // exactly if there is such a point; a change or pass is kept back exactly if the core is
  // paused then, by it or before; and every pause is told once, when it begins.
  lemma AnswersAre(states: seq<Debug>, commands: seq<Command>, replies: seq<Reply>, k: nat)
    requires Ran(states, commands, replies) && states[0] == START && k < |commands|
    ensures var c, r := commands[k], replies[k];
      && ((c.AddBreak? || c.AddWatch?) && c.id == "" ==> r == Given(0) && states[k + 1] == states[k])
      && (c.RemoveBreak? ==> r == Answer(exists id :: Stands(commands, replies, false, id, c.handle, k)))
      && (c.RemoveWatch? ==> r == Answer(exists id :: Stands(commands, replies, true, id, c.handle, k)))
      && (c.Change? || c.Apply? ==> r == Answer(Struck(commands, replies, k + 1)))
      && states[k + 1].told == states[k].told
           + if states[k].stop.None? && states[k + 1].stop.Some? then [states[k + 1].stop.value] else []
  {
    var c := commands[k];
    assert NextAt(states, commands, replies, k);
    if c.Change? || c.Apply? {
      PausedByCallsIff(states, commands, replies, k + 1);
    }
    if c.RemoveBreak? { RemovableIff(states, commands, replies, false, c.handle, k); }
    if c.RemoveWatch? { RemovableIff(states, commands, replies, true, c.handle, k); }
    hide Stands, Struck, Hit, Reports;
  }

  lemma RemovableIff(states: seq<Debug>, commands: seq<Command>, replies: seq<Reply>, watch: bool, h: Handle, k: nat)
    requires Ran(states, commands, replies) && states[0] == START && k <= |commands|
    ensures h != 0 && h in TableOf(states[k], watch) <==> exists id :: Stands(commands, replies, watch, id, h, k)
  {
    forall id ensures Points(TableOf(states[k], watch), h, id) <==> Stands(commands, replies, watch, id, h, k) {
      TableIff(states, commands, replies, watch, id, h, k);
    }
    TableIff(states, commands, replies, watch, "", h, k);
    hide Stands, Ran;
    if h in TableOf(states[k], watch) { assert Points(TableOf(states[k], watch), h, TableOf(states[k], watch)[h]); }
  }
}
