/**
 Overlapping calls of the worker's packet-data policy (worker.py), from await
 to await: samples, operator commands and reconnects on one shared state.
 */
module DataOverlap {
  import opened Basics

  /** Data is allowed: asked for by the operator, and either known to be at home or allowed abroad. */
  predicate Allowed(wanted: bool, roaming: Option<bool>, roamingAllowed: bool) {
    wanted && (roaming == Some(false) || roamingAllowed)
  }

  /** The two stored preferences, and what the worker shows; shown is its copy of the roaming preference. */
  datatype State = State(
    wanted: bool, roamingAllowed: bool, shown: bool,
    registered: bool, roaming: Option<bool>, enabled: bool,
    attached: Option<bool>, active: Option<bool>, blocked: bool)

  /** What _enforce_data_policy does once it has read the data state. */
  datatype Verdict = Returns | Disables | Attaches

  /** Up to the first await: the roaming preference is copied. */
  function Begun(s: State): State {
    s.(shown := s.roamingAllowed)
  }

  /** From the read to the next await, or to the end. */
  function AfterRead(s: State, force: bool, attached: Option<bool>, active: Option<bool>): (State, Verdict) {
    var blocked := s.wanted && s.roaming != Some(false) && !s.shown;
    var effective := s.wanted && !blocked;
    var needsAttach := s.registered && attached == Some(false);
    (s.(attached := attached, active := active, blocked := blocked, enabled := effective),
     if !effective && (active == Some(true) || needsAttach || (force && active == None)) then Disables
     else if effective && needsAttach then Attaches
     else Returns)
  }

  /** After the switch returned. */
  function AfterSwitch(s: State, attaching: bool, attached: Option<bool>, active: Option<bool>): State {
    s.(attached := attached, active := active, enabled := s.enabled || attaching)
  }

  // ------------------------------------------------------------ runs

  /** Where a call stands: reading the registration, reading IMS, reading the data state, or switching. */
  datatype Stage = Refreshing | Waiting | Reading | Attaching | Disabling

  datatype Call = Call(stage: Stage, force: bool, sample: bool)

  datatype World = World(state: State, calls: map<nat, Call>, next: nat)

  datatype Preference = Data | Roaming

  /**
   A command stores its preference and then enforces it; with the radio off it
   reads no registration first. A sample begins with its read of the
   registration. Any call may be abandoned: a read raises, or its task is
   cancelled.
   */
  datatype Step =
    | Stored(preference: Preference, value: bool, radioOff: bool)
    | Sampled
    | RegistrationRead(id: nat, registered: bool, roaming: Option<bool>)
    | Resumed(id: nat)
    | ReadReturned(id: nat, attached: Option<bool>, active: Option<bool>)
    | SwitchReturned(id: nat, attached: Option<bool>, active: Option<bool>)
    | SwitchFailed(id: nat)
    | Abandoned(id: nat)
    | WentOffline
    | Connected(registered: bool, roaming: Option<bool>, attached: Option<bool>, active: Option<bool>)

  predicate At(w: World, id: nat, stage: Stage) {
    id in w.calls && w.calls[id].stage == stage
  }

  /** The call has not yet come to the point where it decides. */
  predicate Undecided(w: World, id: nat) {
    At(w, id, Refreshing) || At(w, id, Waiting) || At(w, id, Reading)
  }

  predicate Enabled(w: World, step: Step) {
    match step
    case Stored(_, _, _) => true
    case Sampled => true
    case RegistrationRead(id, _, _) => At(w, id, Refreshing)
    case Resumed(id) => At(w, id, Waiting)
    case ReadReturned(id, _, _) => At(w, id, Reading)
    case SwitchReturned(id, _, _) => At(w, id, Attaching) || At(w, id, Disabling)
    case SwitchFailed(id) => At(w, id, Attaching) || At(w, id, Disabling)
    case Abandoned(id) => Undecided(w, id)
    case WentOffline => true
    case Connected(_, _, _, _) => true
  }

  function Moved(w: World, state: State, id: nat, stage: Stage): World
    requires id in w.calls
  {
    w.(state := state, calls := w.calls[id := w.calls[id].(stage := stage)])
  }

  function Opened(w: World, state: State, call: Call): World {
    World(state, w.calls[w.next := call], w.next + 1)
  }

  function Closed(w: World, state: State, id: nat): World {
    w.(state := state, calls := w.calls - {id})
  }

  function StorePreference(s: State, preference: Preference, value: bool): State {
    match preference
    case Data => s.(wanted := value)
    case Roaming => s.(roamingAllowed := value)
  }

  function Next(w: World, step: Step): World
    requires Enabled(w, step)
  {
    var s := w.state;
    match step
    case Stored(preference, value, radioOff) =>
      var stored := StorePreference(s, preference, value);
      var force := preference == Data || !value;
      if radioOff then Opened(w, Begun(stored), Call(Reading, force, false))
      else Opened(w, stored, Call(Refreshing, force, false))
    case Sampled => Opened(w, s, Call(Refreshing, false, true))
    case RegistrationRead(id, registered, roaming) =>
      var read := s.(registered := registered, roaming := roaming);
      if w.calls[id].sample then Moved(w, read, id, Waiting) else Moved(w, Begun(read), id, Reading)
    case Resumed(id) => Moved(w, Begun(s), id, Reading)
    case ReadReturned(id, attached, active) =>
      var (read, verdict) := AfterRead(s, w.calls[id].force, attached, active);
      (match verdict
       case Returns => Closed(w, read, id)
       case Disables => Moved(w, read, id, Disabling)
       case Attaches => Moved(w, read, id, Attaching))
    case SwitchReturned(id, attached, active) =>
      Closed(w, AfterSwitch(s, w.calls[id].stage == Attaching, attached, active), id)
    case SwitchFailed(id) => Closed(w, s, id)
    case Abandoned(id) => Closed(w, s, id)
    case WentOffline => w.(state := s.(enabled := false, attached := None, active := None, blocked := false))
    case Connected(registered, roaming, attached, active) =>
      var online := s.(registered := registered, roaming := roaming, enabled := s.wanted,
        attached := attached, active := active);
      Opened(w, Begun(online), Call(Reading, true, false))
  }

  /** The first connection of a new process, before anything was enforced. */
  predicate Init(w: World) {
    && w.calls == map[0 := Call(Reading, true, false)] && w.next == 1
    && w.state.enabled == w.state.wanted && w.state.shown == w.state.roamingAllowed
  }

  ghost predicate Moves(worlds: seq<World>, steps: seq<Step>, i: nat)
    requires i < |steps| && |worlds| == |steps| + 1
  {
    Enabled(worlds[i], steps[i]) && worlds[i + 1] == Next(worlds[i], steps[i])
  }

  ghost predicate Path(worlds: seq<World>, steps: seq<Step>) {
    |worlds| == |steps| + 1 && forall i :: 0 <= i < |steps| ==> Moves(worlds, steps, i)
  }

  // ------------------------------------------------------------ what may do harm

  /** Data becomes forbidden: no longer wanted, no longer allowed abroad, or no longer known to be at home. */
  datatype Change = Unwanted | Forbidden | HomeLost

  /** Such a change while another call stands at a stage, or a call that ends before it decides. */
  datatype Hazard = Overlap(stage: Stage, change: Change) | Abandons

  function ChangeOf(s: State, step: Step): Option<Change> {
    match step
    case Stored(Data, value, _) => if s.wanted && !value then Some(Unwanted) else None
    case Stored(Roaming, value, _) => if s.roamingAllowed && !value then Some(Forbidden) else None
    case RegistrationRead(_, _, roaming) =>
      if s.roaming == Some(false) && roaming != Some(false) then Some(HomeLost) else None
    case Connected(_, roaming, _, _) =>
      if s.roaming == Some(false) && roaming != Some(false) then Some(HomeLost) else None
    case _ => None
  }

  /** What the step risks is among the hazards. */
  ghost predicate HazardsIn(w: World, step: Step, hazards: set<Hazard>) {
    && (step.Abandoned? ==> Abandons in hazards)
    && (ChangeOf(w.state, step).Some? ==>
      forall id :: id in w.calls && !(step.RegistrationRead? && step.id == id) ==>
        Overlap(w.calls[id].stage, ChangeOf(w.state, step).value) in hazards)
  }

  ghost predicate Within(worlds: seq<World>, steps: seq<Step>, hazards: set<Hazard>) {
    Path(worlds, steps) && forall i :: 0 <= i < |steps| ==> HazardsIn(worlds[i], steps[i], hazards)
  }

  const HARMFUL: set<Hazard> :=
    {Overlap(Attaching, Unwanted), Overlap(Attaching, Forbidden), Overlap(Attaching, HomeLost),
     Overlap(Reading, Forbidden), Abandons}

  predicate Permitted(s: State) {
    Allowed(s.wanted, s.roaming, s.roamingAllowed)
  }

  /** Once no call is left, data shown as enabled is allowed. */
  predicate SettledHonest(w: World) {
    w.calls == map[] && w.state.enabled ==> Permitted(w.state)
  }

  // ------------------------------------------------------------ without harm

  ghost predicate Pending(w: World) {
    exists id :: Undecided(w, id)
  }

  ghost predicate Inv(w: World) {
    && (forall id :: id in w.calls ==> id < w.next)
    && (forall id :: At(w, id, Attaching) ==> Permitted(w.state))
    && (forall id :: At(w, id, Reading) ==> (w.state.shown ==> w.state.roamingAllowed))
    && (Pending(w) || (w.state.enabled ==> Permitted(w.state)))
  }

  lemma StepKeeps(w: World, step: Step, hazards: set<Hazard>)
    requires Inv(w) && Enabled(w, step) && HazardsIn(w, step, hazards) && hazards !! HARMFUL
    ensures Inv(Next(w, step))
  {
    match step
    case Stored(_, _, _) => OpensKeep(w, step, hazards);
    case Sampled => OpensKeep(w, step, hazards);
    case Connected(_, _, _, _) => OpensKeep(w, step, hazards);
    case RegistrationRead(_, _, _) => RefreshKeeps(w, step, hazards);
    case Resumed(_) => RefreshKeeps(w, step, hazards);
    case ReadReturned(_, _, _) => ReadKeeps(w, step);
    case SwitchReturned(_, _, _) => SwitchKeeps(w, step);
    case SwitchFailed(_) => SwitchKeeps(w, step);
    case Abandoned(_) => assert false;
    case WentOffline => OfflineKeeps(w);
  }

  lemma OpensKeep(w: World, step: Step, hazards: set<Hazard>)
    requires Inv(w) && HazardsIn(w, step, hazards) && hazards !! HARMFUL
    requires step.Stored? || step.Sampled? || step.Connected?
    ensures Inv(Next(w, step))
  {
    var next := Next(w, step);
    assert Undecided(next, w.next);
    forall id ensures At(next, id, Attaching) ==> At(w, id, Attaching) && Permitted(next.state) {
      if At(w, id, Attaching) {
        NoChangeAt(w, step, hazards, id);
      }
    }
    forall id ensures At(next, id, Reading) ==> (next.state.shown ==> next.state.roamingAllowed) {
      if At(w, id, Reading) {
        NoChangeAt(w, step, hazards, id);
      }
    }
  }

  /** Without those hazards: no change at all during an attach, no withdrawn permission during a read. */
  lemma NoChangeAt(w: World, step: Step, hazards: set<Hazard>, id: nat)
    requires HazardsIn(w, step, hazards) && hazards !! HARMFUL && id in w.calls
    requires step.RegistrationRead? ==> step.id != id
    ensures At(w, id, Attaching) ==> ChangeOf(w.state, step) == None
    ensures At(w, id, Reading) ==> ChangeOf(w.state, step) != Some(Forbidden)
  {
    assert Overlap(Attaching, Unwanted) in HARMFUL && Overlap(Attaching, Forbidden) in HARMFUL;
    assert Overlap(Attaching, HomeLost) in HARMFUL && Overlap(Reading, Forbidden) in HARMFUL;
  }

  lemma RefreshKeeps(w: World, step: Step, hazards: set<Hazard>)
    requires Inv(w) && Enabled(w, step) && HazardsIn(w, step, hazards) && hazards !! HARMFUL
    requires step.RegistrationRead? || step.Resumed?
    ensures Inv(Next(w, step))
  {
    var next := Next(w, step);
    assert Undecided(next, step.id);
    forall id ensures At(next, id, Attaching) ==> Permitted(next.state) {
      if At(w, id, Attaching) {
        NoChangeAt(w, step, hazards, id);
      }
    }
    forall id ensures At(next, id, Reading) ==> (next.state.shown ==> next.state.roamingAllowed) {
      assert id != step.id && At(next, id, Reading) ==> At(w, id, Reading);
    }
  }

  lemma ReadKeeps(w: World, step: Step)
    requires Inv(w) && Enabled(w, step) && step.ReadReturned?
    ensures Inv(Next(w, step))
  {
    var next := Next(w, step);
    assert At(w, step.id, Reading);
    assert next.state.enabled ==> Permitted(next.state);
    forall id ensures At(next, id, Attaching) ==> Permitted(next.state) {
      assert id != step.id && At(next, id, Attaching) ==> At(w, id, Attaching);
    }
    forall id ensures At(next, id, Reading) ==> (next.state.shown ==> next.state.roamingAllowed) {
      assert At(next, id, Reading) ==> At(w, id, Reading);
    }
  }

  lemma SwitchKeeps(w: World, step: Step)
    requires Inv(w) && Enabled(w, step) && (step.SwitchReturned? || step.SwitchFailed?)
    ensures Inv(Next(w, step))
  {
    var next := Next(w, step);
    forall id, stage | id != step.id ensures At(next, id, stage) == At(w, id, stage) {
    }
    if id :| Undecided(w, id) {
      assert id != step.id;
      assert Undecided(next, id);
    }
  }

  lemma OfflineKeeps(w: World)
    requires Inv(w)
    ensures Inv(Next(w, WentOffline))
  {
    var next := Next(w, WentOffline);
    assert forall id, stage :: At(next, id, stage) == At(w, id, stage);
  }

  lemma {:induction false} PathKeeps(worlds: seq<World>, steps: seq<Step>, hazards: set<Hazard>, k: nat)
    requires Within(worlds, steps, hazards) && hazards !! HARMFUL && k <= |steps| && Inv(worlds[0])
    ensures Inv(worlds[k])
  {
    hide Inv, HazardsIn;
    if k > 0 {
      PathKeeps(worlds, steps, hazards, k - 1);
      assert Moves(worlds, steps, k - 1);
      StepKeeps(worlds[k - 1], steps[k - 1], hazards);
    }
  }

  lemma InitHolds(w: World)
    requires Init(w)
    ensures Inv(w)
  {
    assert Undecided(w, 0);
  }

  lemma SettledByInv(w: World)
    requires Inv(w)
    ensures SettledHonest(w)
  {
  }

  // ------------------------------------------------------------ with harm

  /** Two calls are left: one awaits its attach, the other has read a state in which data is forbidden. */
  ghost predicate LateAttach(w: World) {
    && w.calls.Keys == {0, 1} && w.calls[0].stage == Attaching && w.calls[1].stage == Reading
    && !Allowed(w.state.wanted, w.state.roaming, w.state.shown) && !Permitted(w.state)
  }

  /** The second call turns data off and returns; then the attach returns and shows it as enabled. */
  lemma LateAttachLies(w: World, hazards: set<Hazard>) returns (worlds: seq<World>, steps: seq<Step>)
    requires LateAttach(w)
    ensures Within(worlds, steps, hazards) && worlds[0] == w && !SettledHonest(worlds[|steps|])
  {
    var read := ReadReturned(1, Some(true), Some(false));
    var back := SwitchReturned(0, Some(true), Some(false));
    var w1 := Next(w, read);
    assert w1.calls == map[0 := w.calls[0]];
    var w2 := Next(w1, back);
    assert w2.calls == map[];
    worlds, steps := [w, w1, w2], [read, back];
    assert Moves(worlds, steps, 0) && Moves(worlds, steps, 1);
  }

  lemma Joined(a: seq<World>, up: seq<Step>, b: seq<World>, down: seq<Step>, hazards: set<Hazard>)
    requires Within(a, up, hazards) && Within(b, down, hazards) && a[|up|] == b[0]
    ensures Within(a + b[1..], up + down, hazards) && (a + b[1..])[|up + down|] == b[|down|]
  {
    hide Next, HazardsIn;
    var worlds, steps := a + b[1..], up + down;
    forall i | 0 <= i < |steps| ensures Moves(worlds, steps, i) && HazardsIn(worlds[i], steps[i], hazards) {
      if i < |up| {
        assert Moves(a, up, i) && HazardsIn(a[i], up[i], hazards);
      } else {
        assert Moves(b, down, i - |up|) && HazardsIn(b[i - |up|], down[i - |up|], hazards);
      }
    }
  }

  /** The first connection finds the module detached, with data allowed. */
  function Fresh(roamingAllowed: bool, roaming: Option<bool>): World {
    World(State(true, roamingAllowed, roamingAllowed, true, roaming, true, None, None, false),
          map[0 := Call(Reading, true, false)], 1)
  }

  const DETACHED := ReadReturned(0, Some(false), Some(false))

  /** Data is no longer wanted while the first call awaits its attach. */
  lemma UnwantedLate() returns (worlds: seq<World>, steps: seq<Step>)
    ensures Within(worlds, steps, {Overlap(Attaching, Unwanted)}) && Init(worlds[0]) && LateAttach(worlds[|steps|])
  {
    var w0 := Fresh(false, Some(false));
    var w1 := Next(w0, DETACHED);
    var w2 := Next(w1, Stored(Data, false, false));
    var w3 := Next(w2, RegistrationRead(1, true, Some(false)));
    worlds, steps := [w0, w1, w2, w3], [DETACHED, Stored(Data, false, false), RegistrationRead(1, true, Some(false))];
    assert Moves(worlds, steps, 0) && Moves(worlds, steps, 1) && Moves(worlds, steps, 2);
  }

  /** The permission to roam is withdrawn while the first call awaits its attach. */
  lemma ForbiddenLate() returns (worlds: seq<World>, steps: seq<Step>)
    ensures Within(worlds, steps, {Overlap(Attaching, Forbidden)}) && Init(worlds[0]) && LateAttach(worlds[|steps|])
  {
    var w0 := Fresh(true, Some(true));
    var w1 := Next(w0, DETACHED);
    var w2 := Next(w1, Stored(Roaming, false, false));
    var w3 := Next(w2, RegistrationRead(1, true, Some(true)));
    worlds, steps := [w0, w1, w2, w3], [DETACHED, Stored(Roaming, false, false), RegistrationRead(1, true, Some(true))];
    assert Moves(worlds, steps, 0) && Moves(worlds, steps, 1) && Moves(worlds, steps, 2);
  }

  /** The permission is withdrawn while the first call reads: it decides on its old copy. */
  lemma ForbiddenEarly() returns (worlds: seq<World>, steps: seq<Step>)
    ensures Within(worlds, steps, {Overlap(Reading, Forbidden)}) && Init(worlds[0]) && LateAttach(worlds[|steps|])
  {
    var w0 := Fresh(true, Some(true));
    var w1 := Next(w0, Stored(Roaming, false, false));
    var w2 := Next(w1, DETACHED);
    var w3 := Next(w2, RegistrationRead(1, true, Some(true)));
    worlds, steps := [w0, w1, w2, w3], [Stored(Roaming, false, false), DETACHED, RegistrationRead(1, true, Some(true))];
    assert Moves(worlds, steps, 0) && Moves(worlds, steps, 1) && Moves(worlds, steps, 2);
  }

  /** A sample finds the module abroad while the first call awaits its attach. */
  lemma HomeLostLate() returns (worlds: seq<World>, steps: seq<Step>)
    ensures Within(worlds, steps, {Overlap(Attaching, HomeLost)}) && Init(worlds[0]) && LateAttach(worlds[|steps|])
  {
    var w0 := Fresh(false, Some(false));
    var w1 := Next(w0, DETACHED);
    var w2 := Next(w1, Sampled);
    var w3 := Next(w2, RegistrationRead(1, true, Some(true)));
    var w4 := Next(w3, Resumed(1));
    worlds, steps := [w0, w1, w2, w3, w4], [DETACHED, Sampled, RegistrationRead(1, true, Some(true)), Resumed(1)];
    assert Moves(worlds, steps, 0) && Moves(worlds, steps, 1) && Moves(worlds, steps, 2) && Moves(worlds, steps, 3);
  }

  /** The operator's wish is stored, and the call that should have enforced it is abandoned. */
  lemma AbandonedLies() returns (worlds: seq<World>, steps: seq<Step>)
    ensures Within(worlds, steps, {Abandons}) && Init(worlds[0]) && !SettledHonest(worlds[|steps|])
  {
    var w0 := Fresh(false, Some(false));
    var read := ReadReturned(0, Some(true), Some(false));
    var w1 := Next(w0, read);
    var w2 := Next(w1, Stored(Data, false, false));
    var w3 := Next(w2, Abandoned(1));
    assert w1.calls == map[] && w3.calls == map[];
    worlds, steps := [w0, w1, w2, w3], [read, Stored(Data, false, false), Abandoned(1)];
    assert Moves(worlds, steps, 0) && Moves(worlds, steps, 1) && Moves(worlds, steps, 2);
  }

  /** Each harmful overlap alone leads to a late attach. */
  lemma ReachesLateAttach(hazard: Hazard) returns (worlds: seq<World>, steps: seq<Step>)
    requires hazard in HARMFUL && hazard != Abandons
    ensures Within(worlds, steps, {hazard}) && Init(worlds[0]) && LateAttach(worlds[|steps|])
  {
    hide Within, Init, LateAttach;
    match hazard
    case Overlap(Attaching, Unwanted) => worlds, steps := UnwantedLate();
    case Overlap(Attaching, Forbidden) => worlds, steps := ForbiddenLate();
    case Overlap(Attaching, HomeLost) => worlds, steps := HomeLostLate();
    case _ => worlds, steps := ForbiddenEarly();
  }

  lemma MoreHazards(worlds: seq<World>, steps: seq<Step>, few: set<Hazard>, many: set<Hazard>)
    requires Within(worlds, steps, few) && few <= many
    ensures Within(worlds, steps, many)
  {
    hide Next;
    forall i | 0 <= i < |steps| ensures HazardsIn(worlds[i], steps[i], many) {
      assert HazardsIn(worlds[i], steps[i], few);
    }
  }

  /** The hazard alone shows data as enabled when no call is left and it is not allowed. */
  lemma HarmfulRun(hazard: Hazard) returns (worlds: seq<World>, steps: seq<Step>)
    requires hazard in HARMFUL
    ensures Within(worlds, steps, {hazard}) && Init(worlds[0]) && !SettledHonest(worlds[|steps|])
  {
    hide Init, LateAttach, SettledHonest;
    if hazard == Abandons {
      worlds, steps := AbandonedLies();
      return;
    }
    var a, up := ReachesLateAttach(hazard);
    var b, down := LateAttachLies(a[|up|], {hazard});
    Joined(a, up, b, down, {hazard});
    worlds, steps := a + b[1..], up + down;
  }

  /** In every run with these hazards, once no call is left, data shown as enabled is allowed. */
  ghost predicate AlwaysHonest(hazards: set<Hazard>) {
    forall worlds: seq<World>, steps: seq<Step> ::
      Within(worlds, steps, hazards) && Init(worlds[0]) ==> SettledHonest(worlds[|steps|])
  }

  /**
   What the worker shows is honest in every run if and only if no call ends
   before it decides, nothing forbids data while a call awaits its attach, and
   the permission to roam is not withdrawn while a call reads the data state.
   */
  lemma HonestIff(hazards: set<Hazard>)
    ensures AlwaysHonest(hazards) <==> hazards !! HARMFUL
  {
    hide Init, SettledHonest, Inv;
    if hazards !! HARMFUL {
      forall worlds: seq<World>, steps: seq<Step> | Within(worlds, steps, hazards) && Init(worlds[0])
        ensures SettledHonest(worlds[|steps|])
      {
        InitHolds(worlds[0]);
        PathKeeps(worlds, steps, hazards, |steps|);
        SettledByInv(worlds[|steps|]);
      }
    } else {
      var hazard :| hazard in hazards && hazard in HARMFUL;
      var worlds, steps := HarmfulRun(hazard);
      MoreHazards(worlds, steps, {hazard}, hazards);
    }
  }
}
