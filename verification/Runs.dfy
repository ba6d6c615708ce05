// Whole runs of the core: what the results on single passes add up to.

module Runs {
  import opened Options
  import opened Rules
  import opened Deeds
  import opened RequestSafety
  import opened Stratification
  import opened Reactivity
  import opened Cascades
  import opened Filtering

  // The states between the passes of a run.
  ghost predicate Staged(depth: nat, rules: seq<Rule>, stimuli: seq<Stimulus>, replies: nat -> bool, stages: seq<State>) {
    && |stages| == |stimuli| + 1
    && forall k :: 0 <= k < |stimuli| ==> PassedAt(depth, rules, stimuli, replies, stages, k)
  }

  ghost predicate PassedAt(depth: nat, rules: seq<Rule>, stimuli: seq<Stimulus>, replies: nat -> bool, stages: seq<State>, k: nat)
    requires k < |stimuli| < |stages|
  {
    Pass(depth, 0, stimuli[k].id, Setup(rules, stimuli[k].world, replies), stages[k]) == Some(stages[k + 1])
  }

  // Every event of a run is permitted for the points as they were when its pass ran.
  lemma {:induction false} RunAdvances(depth: nat, rules: seq<Rule>, stimuli: seq<Stimulus>, replies: nat -> bool, st: State)
    returns (stages: seq<State>)
    requires Run(depth, rules, stimuli, replies, st).Some?
    ensures Staged(depth, rules, stimuli, replies, stages)
    ensures stages[0] == st && Run(depth, rules, stimuli, replies, st) == Some(stages[|stimuli|])
    ensures forall k :: 0 <= k < |stimuli| ==> Advances(stimuli[k].world, stages[k], stages[k + 1])
    decreases |stimuli|
  {
    if stimuli == [] { return [st]; }
    var s := Setup(rules, stimuli[0].world, replies);
    var st' := Pass(depth, 0, stimuli[0].id, s, st).value;
    PassAdvances(depth, 0, stimuli[0].id, s, st);
    hide Pass, Advances;
    var rest := RunAdvances(depth, rules, stimuli[1..], replies, st');
    stages := [st] + rest;
    forall k | 0 <= k < |stimuli|
      ensures PassedAt(depth, rules, stimuli, replies, stages, k) && Advances(stimuli[k].world, stages[k], stages[k + 1])
    {
      if k > 0 { assert PassedAt(depth, rules, stimuli[1..], replies, rest, k - 1); }
    }
  }

  lemma {:induction false} StagesStratified(g: Strata, depth: nat, rules: seq<Rule>, stimuli: seq<Stimulus>, replies: nat -> bool,
                                            stages: seq<State>, k: nat)
    requires Staged(depth, rules, stimuli, replies, stages) && k <= |stimuli| && depth >= 2 * g.bound + 1
    requires Stratified(g, stages[0].vars) && Describes(g, rules)
    ensures Stratified(g, stages[k].vars)
    decreases k
  {
    if k > 0 {
      StagesStratified(g, depth, rules, stimuli, replies, stages, k - 1);
      assert PassedAt(depth, rules, stimuli, replies, stages, k - 1);
      var end := PassEnds(depth, 0, stimuli[k - 1].id, Setup(rules, stimuli[k - 1].world, replies), stages[k - 1], g);
    }
  }

  // A full pass at the start, and from then on one point changes at a time, unless
  // a full pass is made again.
  ghost predicate OnePointAtATime(stimuli: seq<Stimulus>) {
    forall k :: 0 <= k < |stimuli| && stimuli[k].id.Some? ==>
      k > 0 && PointUpdated(stimuli[k].id.value, stimuli[k - 1].world, stimuli[k].world)
  }

  // The requests that stand before pass k.
  ghost function Asked(stimuli: seq<Stimulus>, stages: seq<State>, k: nat): iset<Request>
    requires k <= |stimuli| < |stages|
  {
    if k == 0 then iset{} else With(Standing(Asked(stimuli, stages, k - 1), stimuli[k - 1].id), Since(stages[k - 1], stages[k]))
  }

  // Pass j made the request, and no pass from then on, up to pass k, was for its point
  // or for no name.
  ghost predicate AskedBy(stimuli: seq<Stimulus>, stages: seq<State>, j: nat, k: nat, r: Request)
    requires k <= |stimuli| < |stages|
  {
    j < k && Ask(r) in Since(stages[j], stages[j + 1])
    && forall l :: j < l < k ==> stimuli[l].id.Some? && stimuli[l].id.value != r.id
  }

  lemma AskedByStep(stimuli: seq<Stimulus>, stages: seq<State>, j: nat, k: nat, r: Request)
    requires 0 < k <= |stimuli| < |stages|
    ensures AskedBy(stimuli, stages, j, k, r) <==>
              (j == k - 1 && Ask(r) in Since(stages[k - 1], stages[k]))
              || (AskedBy(stimuli, stages, j, k - 1, r) && stimuli[k - 1].id.Some? && stimuli[k - 1].id.value != r.id)
  {
    hide Since;
  }

  // A request stands exactly if some pass made it and its point has not changed since.
  lemma {:induction false} AskedIff(stimuli: seq<Stimulus>, stages: seq<State>, k: nat, r: Request)
    requires k <= |stimuli| < |stages|
    ensures r in Asked(stimuli, stages, k) <==> exists j: nat :: AskedBy(stimuli, stages, j, k, r)
    decreases k
  {
    hide Since;
    if k > 0 {
      AskedIff(stimuli, stages, k - 1, r);
      hide AskedBy;
      if r in Asked(stimuli, stages, k) {
        var j: nat := if Ask(r) in Since(stages[k - 1], stages[k]) then k - 1 else
          var l: nat :| AskedBy(stimuli, stages, l, k - 1, r); l;
        AskedByStep(stimuli, stages, j, k, r);
        assert AskedBy(stimuli, stages, j, k, r);
      }
      if j: nat :| AskedBy(stimuli, stages, j, k, r) { AskedByStep(stimuli, stages, j, k, r); }
    }
  }

  // No rule that pass k leaves out would set the point that changed.
  ghost predicate NoOwnTargetAt(g: Strata, rules: seq<Rule>, stimulus: Stimulus, st: State) {
    stimulus.id.Some? ==> NoOwnTarget(g.bound, rules, stimulus.id.value, stimulus.world, st.vars)
  }

  // After every pass of such a run all rules are settled: none would write a variable,
  // or make a request that does not stand already.
  lemma {:induction false} RunSettles(g: Strata, depth: nat, rules: seq<Rule>, stimuli: seq<Stimulus>, replies: nat -> bool,
                                      stages: seq<State>, k: nat)
    requires Staged(depth, rules, stimuli, replies, stages) && k < |stimuli| && OnePointAtATime(stimuli)
    requires depth >= 2 * g.bound + 1 && Stratified(g, stages[0].vars) && Describes(g, rules) && SingleWriter(g, rules)
    requires forall j :: 0 <= j <= k ==> NoOwnTargetAt(g, rules, stimuli[j], stages[j])
    ensures AllSettled(g, rules, stimuli[k].world, stages[k + 1].vars, Asked(stimuli, stages, k + 1))
    decreases k
  {
    hide Pass, AllSettled, NoOwnTarget, Describes, SingleWriter, PointUpdated, Grows;
    var s := Setup(rules, stimuli[k].world, replies);
    var w := if k == 0 then s.world else stimuli[k - 1].world;
    StagesStratified(g, depth, rules, stimuli, replies, stages, k);
    assert PassedAt(depth, rules, stimuli, replies, stages, k);
    assert NoOwnTargetAt(g, rules, stimuli[k], stages[k]);
    if stimuli[k].id.Some? { RunSettles(g, depth, rules, stimuli, replies, stages, k - 1); }
    var end, ds := PassResettles(depth, stimuli[k].id, w, Asked(stimuli, stages, k), s, stages[k], g);
    GrowsSince(stages[k], stages[k + 1], ds);
  }

  // For variables nothing is asked of the rules' own targets.
  lemma {:induction false} RunSettlesVariables(g: Strata, depth: nat, rules: seq<Rule>, stimuli: seq<Stimulus>, replies: nat -> bool,
                                               stages: seq<State>, k: nat)
    requires Staged(depth, rules, stimuli, replies, stages) && k < |stimuli| && OnePointAtATime(stimuli)
    requires depth >= 2 * g.bound + 1 && Stratified(g, stages[0].vars) && Describes(g, rules) && SingleWriter(g, rules)
    ensures AllSettled(g, rules, stimuli[k].world, stages[k + 1].vars, ANY)
    decreases k
  {
    hide Pass, AllSettled, Describes, SingleWriter, PointUpdated;
    var s := Setup(rules, stimuli[k].world, replies);
    var w := if k == 0 then s.world else stimuli[k - 1].world;
    StagesStratified(g, depth, rules, stimuli, replies, stages, k);
    assert PassedAt(depth, rules, stimuli, replies, stages, k);
    if stimuli[k].id.Some? { RunSettlesVariables(g, depth, rules, stimuli, replies, stages, k - 1); }
    var end := PassResettlesVariables(depth, stimuli[k].id, w, s, stages[k], g);
  }

  // The same stimuli, each with a pass over all rules.
  function Unfiltered(stimuli: seq<Stimulus>): (full: seq<Stimulus>)
    ensures |full| == |stimuli|
  {
    seq(|stimuli|, k requires 0 <= k < |stimuli| => Stimulus(stimuli[k].world, None))
  }

  // Pass k of a run with the filter, and the pass over all rules in its place.
  lemma SamePassesAt(g: Strata, depth: nat, rules: seq<Rule>, stimuli: seq<Stimulus>, replies: nat -> bool, stages: seq<State>, k: nat, u: State)
    returns (u': State, ds: seq<Deed>, es: seq<Deed>)
    requires Staged(depth, rules, stimuli, replies, stages) && k < |stimuli| && OnePointAtATime(stimuli)
    requires depth >= 2 * g.bound + 1 && Stratified(g, stages[0].vars) && Describes(g, rules) && SingleWriter(g, rules)
    requires u.vars == stages[k].vars
    ensures Pass(depth, 0, None, Setup(rules, stimuli[k].world, replies), u) == Some(u') && u'.vars == stages[k + 1].vars
    ensures Grows(stages[k], stages[k + 1], ds) && Grows(u, u', es) && WritesOf(ds) == WritesOf(es)
  {
    hide Pass, AllSettled, Describes, SingleWriter, PointUpdated, Grows, WritesOf;
    var s, st := Setup(rules, stimuli[k].world, replies), stages[k];
    StagesStratified(g, depth, rules, stimuli, replies, stages, k);
    assert PassedAt(depth, rules, stimuli, replies, stages, k);
    if stimuli[k].id.None? {
      ds := PassDeeds(depth, 0, None, s, st, s, u);
      es, u' := ds, Pass(depth, 0, None, s, u).value;
      SameVars(st, stages[k + 1], u, u', ds);
    } else {
      RunSettlesVariables(g, depth, rules, stimuli, replies, stages, k - 1);
      var filtered, full, ds1, es1 := FilteredWritesAsFull(depth, stimuli[k].id.value, stimuli[k - 1].world, s, st, g);
      es := PassDeeds(depth, 0, None, s, st, s, u);
      SameDeeds(st, full, es, es1);
      ds, u' := ds1, Pass(depth, 0, None, s, u).value;
      SameVars(st, full, u, u', es);
    }
  }

  lemma SameVars(st: State, st': State, u: State, u': State, ds: seq<Deed>)
    requires Grows(st, st', ds) && Grows(u, u', ds) && st.vars == u.vars
    ensures st'.vars == u'.vars
  {
  }

  // The filter is an optimization: over a whole run the variables are written as if
  // every pass went over all rules, and hold the same after every pass.
  lemma {:induction false} FilteredRunWritesAsFull(g: Strata, depth: nat, rules: seq<Rule>, stimuli: seq<Stimulus>, replies: nat -> bool,
                                                   stages: seq<State>, k: nat)
    returns (full: State, ds: seq<Deed>, es: seq<Deed>)
    requires Staged(depth, rules, stimuli, replies, stages) && k <= |stimuli| && OnePointAtATime(stimuli)
    requires depth >= 2 * g.bound + 1 && Stratified(g, stages[0].vars) && Describes(g, rules) && SingleWriter(g, rules)
    ensures Run(depth, rules, Unfiltered(stimuli)[..k], replies, stages[0]) == Some(full)
    ensures full.vars == stages[k].vars
    ensures Grows(stages[0], stages[k], ds) && Grows(stages[0], full, es) && WritesOf(ds) == WritesOf(es)
    decreases k
  {
    hide Pass, Describes, SingleWriter, OnePointAtATime, Grows, WritesOf;
    if k == 0 {
      GrowsNot(stages[0]);
      return stages[0], [], [];
    }
    var u, before, before' := FilteredRunWritesAsFull(g, depth, rules, stimuli, replies, stages, k - 1);
    var here, here';
    full, here, here' := SamePassesAt(g, depth, rules, stimuli, replies, stages, k - 1, u);
    RunGoesOn(depth, rules, Unfiltered(stimuli)[..k - 1], Unfiltered(stimuli)[k - 1], replies, stages[0]);
    assert Unfiltered(stimuli)[..k] == Unfiltered(stimuli)[..k - 1] + [Unfiltered(stimuli)[k - 1]];
    ds, es := before + here, before' + here';
    GrowsOn(stages[0], stages[k - 1], stages[k], before, here);
    GrowsOn(stages[0], u, full, before', here');
    WritesSplit(before, here);
    WritesSplit(before', here');
  }

  lemma {:induction false} RunGoesOn(depth: nat, rules: seq<Rule>, stimuli: seq<Stimulus>, last: Stimulus, replies: nat -> bool, st: State)
    requires Run(depth, rules, stimuli, replies, st).Some?
    ensures Run(depth, rules, stimuli + [last], replies, st)
         == Pass(depth, 0, last.id, Setup(rules, last.world, replies), Run(depth, rules, stimuli, replies, st).value)
    decreases |stimuli|
  {
    hide Pass;
    if stimuli == [] {
      assert ([] + [last])[1..] == [];
    } else {
      var st' := Pass(depth, 0, stimuli[0].id, Setup(rules, stimuli[0].world, replies), st).value;
      assert (stimuli + [last])[1..] == stimuli[1..] + [last];
      RunGoesOn(depth, rules, stimuli[1..], last, replies, st');
    }
  }
}
