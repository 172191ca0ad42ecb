/** Switching a camera on and off: a compare-and-swap phase word, patches under a lock, and spawned connection tasks. */
module Camera {

  datatype Phase = Disabled | Enabling | Enabled | Disabling {
    predicate IsOn() {
      Enabling? || Enabled?
    }

    predicate IsOff() {
      Disabled? || Disabling?
    }

    /** Off, switching on, on, switching off, and around again. */
    function Succ(): Phase {
      match this
      case Disabled => Enabling
      case Enabling => Enabled
      case Enabled => Disabling
      case Disabling => Disabled
    }
  }

  /** What a compare-and-swap leaves. */
  function Swapped(phase: Phase, from: Phase, to: Phase): Phase {
    if phase == from then to else phase
  }

  /** The shared phase word. */
  class State {
    var phase: Phase

    constructor (phase: Phase)
      ensures this.phase == phase
    {
      this.phase := phase;
    }

    method Set(from: Phase, to: Phase) returns (done: bool)
      modifies this
      ensures done == (old(phase) == from) && phase == if old(phase) == from then to else old(phase)
    {
      done := phase == from;
      if phase == from {
        phase := to;
      }
    }

    method StartEnabling() returns (done: bool)
      modifies this
      ensures done == old(phase).Disabled? && phase == if old(phase).Disabled? then Enabling else old(phase)
    {
      done := Set(Disabled, Enabling);
    }

    method FinishEnabling() returns (done: bool)
      modifies this
      ensures done == old(phase).Enabling? && phase == if old(phase).Enabling? then Enabled else old(phase)
    {
      done := Set(Enabling, Enabled);
    }

    method StartDisabling() returns (done: bool)
      modifies this
      ensures done == old(phase).Enabled? && phase == if old(phase).Enabled? then Disabling else old(phase)
    {
      done := Set(Enabled, Disabling);
    }

    method FinishDisabling() returns (done: bool)
      modifies this
      ensures done == old(phase).Disabling? && phase == if old(phase).Disabling? then Disabled else old(phase)
    {
      done := Set(Disabling, Disabled);
    }

    method Force(to: Phase)
      modifies this
      ensures phase == to
    {
      phase := to;
    }

    /** A request to switch, as a patch carries it: what it does to the phase, and whether the camera was on before. */
    method Request(wanted: Wanted) returns (wasOn: bool)
      modifies this
      ensures wasOn <==> old(phase).Enabling? || old(phase).Enabled?
      ensures phase == Requested(old(phase), wanted)
      ensures wanted.On? ==> phase == if old(phase).Disabled? then Enabling else old(phase)
      ensures wanted.Off? ==> phase == if old(phase).Enabled? then Disabling else old(phase)
      ensures wanted.Unchanged? ==> phase == old(phase)
    {
      wasOn := phase.IsOn();
      match wanted {
        case On =>
          var done := StartEnabling();
        case Off =>
          var done := StartDisabling();
        case Unchanged =>
      }
    }
  }

  /** What a patch says about being enabled. */
  datatype Wanted = On | Off | Unchanged

  function Requested(phase: Phase, wanted: Wanted): Phase {
    match wanted
    case On => Swapped(phase, Disabled, Enabling)
    case Off => Swapped(phase, Enabled, Disabling)
    case Unchanged => phase
  }

  /** A connection task: spawned, but not yet run; processing events; out of the loop, but not yet reset. */
  datatype Task = Spawned | Processing | Leaving

  /** Where the one patch that holds the lock stands: saved, with the camera on or off before; about to spawn. */
  datatype Patch = Idle | Saved(wasOn: bool) | Connecting

  /** `lost`: saving failed just after a patch had started to enable the camera. */
  datatype Camera = Camera(phase: Phase, tasks: seq<Task>, patch: Patch, lost: bool)

  /** On loading, a camera that was on is switched on and connected again; any other is off. */
  function Loaded(was: Phase): Camera {
    if was.IsOn() then Camera(Enabling, [Spawned], Idle, false) else Camera(Disabled, [], Idle, false)
  }

  datatype Step =
    | Change(wanted: Wanted, saves: bool)
    | Skip
    | Look
    | Spawn
    | Start(task: nat)
    | Stop(task: nat)
    | End(task: nat)

  predicate IsEnabled(c: Camera, s: Step) {
    match s
    case Change(_, _) => c.patch.Idle?
    case Skip => c.patch == Saved(true)
    case Look => c.patch == Saved(false)
    case Spawn => c.patch.Connecting?
    case Start(t) => t < |c.tasks| && c.tasks[t].Spawned?
    case Stop(t) => t < |c.tasks| && c.tasks[t].Processing? && c.phase.IsOff()
    case End(t) => t < |c.tasks| && c.tasks[t].Leaving?
  }

  function Next(c: Camera, s: Step): Camera
    requires IsEnabled(c, s)
  {
    match s
    case Change(wanted, saves) =>
      var phase := Requested(c.phase, wanted);
      if saves then c.(phase := phase, patch := Saved(c.phase.IsOn()))
      else c.(phase := phase, lost := c.lost || (phase != c.phase && phase.Enabling?))
    case Skip => c.(patch := Idle)
    case Look => c.(patch := if c.phase.Enabling? then Connecting else Idle)
    case Spawn => c.(tasks := c.tasks + [Spawned], patch := Idle)
    case Start(t) => c.(phase := Swapped(c.phase, Enabling, Enabled), tasks := c.tasks[t := Processing])
    case Stop(t) => c.(tasks := c.tasks[t := Leaving])
    case End(t) => c.(phase := Swapped(c.phase, Disabling, Disabled), tasks := c.tasks[..t] + c.tasks[t + 1..])
  }

  /** A run of the camera, in any interleaving of patches and tasks. */
  ghost predicate IsRun(run: seq<Camera>) {
    && run != []
    && (exists was :: run[0] == Loaded(was))
    && forall i, j | 0 <= i < j < |run| && j == i + 1 :: Leads(run[i], run[j])
  }

  ghost predicate Leads(a: Camera, b: Camera) {
    exists s :: IsEnabled(a, s) && b == Next(a, s)
  }

  /** At most one task, and the phase says how far it is. */
  predicate Inv(c: Camera) {
    && |c.tasks| <= 1
    && (c.tasks == [Spawned] ==> c.phase.Enabling?)
    && (c.tasks == [Processing] ==> c.phase.Enabled? || c.phase.Disabling?)
    && (c.tasks == [Leaving] ==> c.phase.Disabling?)
    && (c.tasks == [] ==>
      c.phase.Disabled? || (c.phase.Enabling? && (c.lost || c.patch == Saved(false) || c.patch.Connecting?)))
    && (c.lost ==> c.tasks == [] && c.phase.Enabling? && (c.patch.Idle? || c.patch == Saved(true)))
    && (c.patch.Connecting? ==> c.tasks == [] && c.phase.Enabling?)
    && (c.patch == Saved(false) && c.phase.Enabling? ==> c.tasks == [])
  }

  lemma StepKeeps(c: Camera, s: Step)
    requires Inv(c) && IsEnabled(c, s)
    ensures Inv(Next(c, s))
    ensures Next(c, s).phase == c.phase || Next(c, s).phase == c.phase.Succ()
    ensures c.lost ==> Next(c, s).lost && Next(c, s).phase == c.phase
  {
    OneTask(c.tasks);
    match s
    case Start(t) => assert Next(c, s).tasks == [Processing];
    case Stop(t) => assert Next(c, s).tasks == [Leaving];
    case End(t) => assert Next(c, s).tasks == [];
    case Spawn => assert Next(c, s).tasks == [Spawned];
    case _ =>
  }

  lemma OneTask(tasks: seq<Task>)
    requires |tasks| <= 1
    ensures tasks == [] || tasks == [Spawned] || tasks == [Processing] || tasks == [Leaving]
  {
    if |tasks| == 1 {
      assert tasks == [tasks[0]];
      match tasks[0]
      case Spawned =>
      case Processing =>
      case Leaving =>
    }
  }

  lemma StepOf(run: seq<Camera>, i: nat) returns (s: Step)
    requires IsRun(run) && i + 1 < |run|
    ensures IsEnabled(run[i], s) && run[i + 1] == Next(run[i], s)
  {
    assert Leads(run[i], run[i + 1]);
    s :| IsEnabled(run[i], s) && run[i + 1] == Next(run[i], s);
  }

  lemma {:induction false} RunKeeps(run: seq<Camera>, i: nat)
    requires IsRun(run) && i < |run|
    ensures Inv(run[i])
  {
    if i > 0 {
      RunKeeps(run, i - 1);
      var s := StepOf(run, i - 1);
      StepKeeps(run[i - 1], s);
    }
  }

  /** Some run passes through this state. */
  ghost predicate Reachable(c: Camera) {
    exists run: seq<Camera> :: IsRun(run) && c in run
  }

  lemma ReachableKeeps(c: Camera)
    requires Reachable(c)
    ensures Inv(c)
  {
    var run: seq<Camera> :| IsRun(run) && c in run;
    var i :| 0 <= i < |run| && run[i] == c;
    RunKeeps(run, i);
  }

  /** In every interleaving there is at most one connection, and the phase only moves on around its circle. */
  lemma SingleConnection(c: Camera, s: Step)
    requires Reachable(c) && IsEnabled(c, s)
    ensures |c.tasks| <= 1
    ensures Next(c, s).phase == c.phase || Next(c, s).phase == c.phase.Succ()
  {
    ReachableKeeps(c);
    hide Reachable;
    StepKeeps(c, s);
  }

  /** Between patches the phase is off exactly when there is no task, unless a failed save has left the camera
   * switching on for good. */
  lemma PhaseTellsConnection(c: Camera)
    requires Reachable(c) && c.patch.Idle?
    ensures (c.phase.Disabled? <==> c.tasks == []) <==> !c.lost
  {
    ReachableKeeps(c);
    hide Reachable;
    OneTask(c.tasks);
  }

  /** A task that leaves its loop finds the camera switching off, and switches it off. */
  lemma LeavingFindsDisabling(c: Camera, t: nat)
    requires Reachable(c) && t < |c.tasks| && c.tasks[t].Leaving?
    ensures c.phase.Disabling? && Next(c, End(t)).phase.Disabled? && Next(c, End(t)).tasks == []
  {
    ReachableKeeps(c);
    hide Reachable;
    OneTask(c.tasks);
  }

  /** A task that starts finds the camera switching on, and switches it on. */
  lemma StartingFindsEnabling(c: Camera, t: nat)
    requires Reachable(c) && t < |c.tasks| && c.tasks[t].Spawned?
    ensures c.phase.Enabling? && Next(c, Start(t)).phase.Enabled?
  {
    ReachableKeeps(c);
    hide Reachable;
    OneTask(c.tasks);
  }

  // ---- requests are carried out ----

  /** Switching a camera on: with the patch holding the lock, nothing can happen but that it connects, and then the task
   * can only start. */
  lemma OnConnects(c: Camera)
    requires Reachable(c) && c.patch.Idle? && c.phase.Disabled?
    ensures var saved := Next(c, Change(On, true));
      && saved.phase.Enabling? && saved.tasks == [] && IsEnabled(saved, Look)
      && (forall s :: IsEnabled(saved, s) ==> s == Look)
      && var looked := Next(saved, Look);
      && IsEnabled(looked, Spawn) && (forall s :: IsEnabled(looked, s) ==> s == Spawn)
      && Next(looked, Spawn) == c.(phase := Enabling, tasks := [Spawned], patch := Idle)
  {
    ReachableKeeps(c);
    hide Reachable;
    OneTask(c.tasks);
  }

  /** A spawned task switches the camera on, whenever it starts; until then nothing else touches task or phase. */
  lemma SpawnedStarts(c: Camera, s: Step)
    requires Reachable(c) && c.tasks == [Spawned] && IsEnabled(c, s)
    ensures IsEnabled(c, Start(0)) && c.phase.Enabling?
    ensures var d := Next(c, s);
      if s == Start(0) then d.phase.Enabled? && d.tasks == [Processing]
      else d.phase.Enabling? && d.tasks == [Spawned]
  {
    ReachableKeeps(c);
    hide Reachable;
    assert s.Start? ==> s.task == 0;
    assert [Spawned][0 := Processing] == [Processing];
  }

  /** Switching off a camera that is connected: the task may leave its loop, and leaving leads to off. */
  lemma OffStops(c: Camera)
    requires Reachable(c) && c.patch.Idle? && c.phase.Enabled?
    ensures var saved := Next(c, Change(Off, true));
      && saved.phase.Disabling? && saved.tasks == [Processing] && IsEnabled(saved, Stop(0))
      && var stopped := Next(saved, Stop(0));
      && stopped.phase.Disabling? && stopped.tasks == [Leaving] && IsEnabled(stopped, End(0))
      && Next(stopped, End(0)).phase.Disabled? && Next(stopped, End(0)).tasks == []
  {
    ReachableKeeps(c);
    hide Reachable;
    OneTask(c.tasks);
    assert [Processing][0 := Leaving] == [Leaving];
  }

  /** Once switching off, a camera ends up off whatever is requested meanwhile: nothing moves but its task, which can
   * always go on to its end. */
  lemma DisablingEnds(c: Camera, s: Step)
    requires Reachable(c) && c.phase.Disabling? && IsEnabled(c, s)
    ensures c.tasks == [Processing] || c.tasks == [Leaving]
    ensures IsEnabled(c, if c.tasks == [Processing] then Stop(0) else End(0))
    ensures var d := Next(c, s);
      if s == End(0) then d.phase.Disabled? && d.tasks == []
      else d.phase.Disabling? && d.tasks == if s == Stop(0) then [Leaving] else c.tasks
  {
    ReachableKeeps(c);
    hide Reachable;
    OneTask(c.tasks);
    assert s.Stop? ==> s.task == 0;
    assert s.End? ==> s.task == 0;
    assert [Processing][0 := Leaving] == [Leaving];
  }

  /** A camera that was on is switched on and connected again when it is loaded; any other is off. */
  lemma LoadingReconnects(was: Phase)
    ensures was.Enabling? || was.Enabled? ==> Loaded(was) == Camera(Enabling, [Spawned], Idle, false)
    ensures was.Disabled? || was.Disabling? ==> Loaded(was) == Camera(Disabled, [], Idle, false)
    ensures Reachable(Loaded(was))
  {
    assert IsRun([Loaded(was)]);
    assert Loaded(was) in [Loaded(was)];
  }

  /** What a failed save costs: from then on no request has any effect and nothing ever connects. */
  lemma {:induction false} LostForGood(run: seq<Camera>, i: nat, j: nat)
    requires IsRun(run) && i <= j < |run| && run[i].lost
    ensures run[j].lost && run[j].phase.Enabling? && run[j].tasks == []
    decreases j
  {
    hide Inv, IsRun, Next, IsEnabled;
    if i < j {
      LostForGood(run, i, j - 1);
      RunKeeps(run, j - 1);
      var s := StepOf(run, j - 1);
      StepKeeps(run[j - 1], s);
    }
    RunKeeps(run, j);
    LostIsStuck(run[j]);
  }

  lemma LostIsStuck(c: Camera)
    requires Inv(c) && c.lost
    ensures c.phase.Enabling? && c.tasks == []
  {
  }

  /** It happens exactly on a patch that switches an idle camera on and cannot be saved. */
  lemma LostExactlyWhen(c: Camera, s: Step)
    requires Inv(c) && IsEnabled(c, s) && !c.lost
    ensures Next(c, s).lost <==> s == Change(On, false) && c.phase.Disabled?
  {
  }

  /** And it does happen. */
  lemma SavingCanLoseTheCamera()
    ensures exists c :: Reachable(c) && c.lost
  {
    var a := Loaded(Disabled);
    var b := Next(a, Change(On, false));
    var run := [a, b];
    assert run[0] == Loaded(Disabled);
    assert IsEnabled(a, Change(On, false)) && Leads(a, b);
    assert IsRun(run) && b in run;
    assert Reachable(b) && b.lost;
  }
}
