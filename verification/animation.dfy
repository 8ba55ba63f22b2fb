/**
 The interactive state of main.js: the two sets of seven cubes (solid meshes
 and wireframes) and which of them is visible, the pause flag `still` toggled
 by the 's' key, and the time bookkeeping `animate` does every frame.

 The clock is outside the model: a frame receives the three readings
 `animate` takes from it (`getDelta()` and then, while paused, two calls of
 `getElapsedTime()`). `Math.sin` is outside too: the angle is computed from
 the value the sine returned, and pi is a parameter.
 */
module Animation {

  /** Both `mesh_cubes` and `wireframe_cubes` are filled by loops of seven. */
  const NumCubes: nat := 7

  /** The oscillation period T in seconds. */
  const Period: real := 3.0

  datatype State = State(
    still: bool,
    meshVisible: seq<bool>,
    wireVisible: seq<bool>,
    animationTime: real,
    deltaAnimationTime: real,
    pausedStartTime: real,
    deltaPauseTime: real)

  /** The clock readings of one frame, in the order `animate` takes them. */
  datatype ClockReading = ClockReading(delta: real, elapsed1: real, elapsed2: real)

  /** The two sets of cubes `animate` can place. */
  datatype CubeSet = MeshCubes | WireframeCubes

  /** The state once the script has run: meshes shown, wireframes hidden, not paused, all times 0. */
  function Init(): (st: State)
    ensures |st.meshVisible| == |st.wireVisible| == NumCubes
  {
    State(false, seq(NumCubes, _ => true), seq(NumCubes, _ => false), 0.0, 0.0, 0.0, 0.0)
  }

  /** `toggleWireframe` reads `wireframe_cubes[i]` for every index of `mesh_cubes`. */
  predicate Paired(st: State) {
    |st.meshVisible| <= |st.wireVisible|
  }

  /**
   `toggleWireframe`: flips the visibility of mesh cube i and of wireframe
   cube i for every index of the mesh list.
   */
  method ToggleWireframe(st: State) returns (r: State)
    requires Paired(st)
    ensures r == Toggled(st)
  {
    var mesh := st.meshVisible;
    var wire := st.wireVisible;
    var i := 0;
    while i < |mesh|
      invariant 0 <= i <= |mesh|
      invariant |mesh| == |st.meshVisible| && |wire| == |st.wireVisible|
      invariant forall k :: 0 <= k < |mesh| ==> mesh[k] == (if k < i then !st.meshVisible[k] else st.meshVisible[k])
      invariant forall k :: 0 <= k < |wire| ==> wire[k] == (if k < i then !st.wireVisible[k] else st.wireVisible[k])
    {
      wire := wire[i := !wire[i]];
      mesh := mesh[i := !mesh[i]];
      i := i + 1;
    }
    r := st.(meshVisible := mesh, wireVisible := wire);
  }

  /** What `toggleWireframe` computes, stated index by index. */
  function Toggled(st: State): (r: State)
    requires Paired(st)
    ensures Paired(r)
    ensures |r.meshVisible| == |st.meshVisible| && |r.wireVisible| == |st.wireVisible|
  {
    var n := |st.meshVisible|;
    st.(meshVisible := seq(n, i requires 0 <= i < n => !st.meshVisible[i]),
        wireVisible := seq(|st.wireVisible|, i requires 0 <= i < |st.wireVisible| =>
                             if i < n then !st.wireVisible[i] else st.wireVisible[i]))
  }

  /** `onKeyPress`: 's' pauses or resumes, 'w' swaps the cube sets, any other key only logs. */
  function OnKeyPress(st: State, key: string): (r: State)
    requires Paired(st)
    ensures Paired(r)
    ensures |r.meshVisible| == |st.meshVisible| && |r.wireVisible| == |st.wireVisible|
    ensures r.still != st.still <==> key == "s"
    ensures |st.meshVisible| > 0 ==> (r.meshVisible[0] != st.meshVisible[0] <==> key == "w")
    ensures r.(still := st.still, meshVisible := st.meshVisible, wireVisible := st.wireVisible) == st
  {
    if key == "s" then st.(still := !st.still)
    else if key == "w" then Toggled(st)
    else st
  }

  /**
   The time bookkeeping at the top of `animate`. While paused the frame
   records when the pause was observed and the time between the two readings;
   otherwise the animation clock advances by the frame's delta less the pause
   time, which is then cleared.
   */
  function Frame(st: State, c: ClockReading): (r: State)
    ensures r.still == st.still && r.meshVisible == st.meshVisible && r.wireVisible == st.wireVisible
    ensures r.deltaAnimationTime == c.delta
    ensures st.still ==> r.animationTime == st.animationTime
    ensures !st.still ==> r.deltaPauseTime == 0.0 && r.pausedStartTime == st.pausedStartTime
  {
    var st1 := st.(deltaAnimationTime := c.delta);
    if st1.still then
      var paused := c.elapsed1;
      st1.(pausedStartTime := paused, deltaPauseTime := c.elapsed2 - paused)
    else
      st1.(animationTime := st1.animationTime + st1.deltaAnimationTime - st1.deltaPauseTime,
           deltaPauseTime := 0.0)
  }

  /** The set the loop places: `mesh_cubes` when the first mesh cube is visible. */
  function ActiveSet(st: State): CubeSet
    requires |st.meshVisible| > 0
  {
    if st.meshVisible[0] then MeshCubes else WireframeCubes
  }

  function Other(s: CubeSet): CubeSet {
    if s == MeshCubes then WireframeCubes else MeshCubes
  }

  function VisibilityOf(st: State, s: CubeSet): seq<bool> {
    match s
    case MeshCubes => st.meshVisible
    case WireframeCubes => st.wireVisible
  }

  /* ---------- the rotation angle ---------- */

  /** `MAX_ANGLE = 20 * Math.PI / 360`, for the given value of pi. */
  function MaxAngle(pi: real): real {
    20.0 * pi / 360.0
  }

  /** The argument of the sine: `animation_time * 2 * Math.PI / T`. */
  function Phase(t: real, pi: real): real {
    t * 2.0 * pi / Period
  }

  /** `rotation_angle = MAX_ANGLE / 2 * (1 + sine)` where `sine` is what `Math.sin` returned. */
  function RotationAngle(pi: real, sine: real): real {
    MaxAngle(pi) / 2.0 * (1.0 + sine)
  }

  /* ---------- the invariant ---------- */

  /**
   What every reachable state satisfies: seven cubes of each kind, every cube
   shown exactly when its twin is hidden, and all meshes shown or all hidden.
   */
  ghost predicate Inv(st: State) {
    && |st.meshVisible| == NumCubes && |st.wireVisible| == NumCubes
    && (forall i :: 0 <= i < NumCubes ==> st.meshVisible[i] != st.wireVisible[i])
    && (forall i :: 0 <= i < NumCubes ==> st.meshVisible[i] == st.meshVisible[0])
  }

  /** The initial state shows all seven meshes and hides all seven wireframes. */
  lemma InitShowsMeshes()
    ensures Inv(Init())
    ensures forall i :: 0 <= i < NumCubes ==> Init().meshVisible[i] && !Init().wireVisible[i]
    ensures !Init().still && Init().animationTime == 0.0 && Init().deltaPauseTime == 0.0
  {
  }

  /** Toggling flips exactly the first |meshVisible| cubes of each kind and touches nothing else. */
  lemma ToggledFlips(st: State)
    requires Paired(st)
    ensures var r := Toggled(st);
      && (forall i :: 0 <= i < |st.meshVisible| ==>
            r.meshVisible[i] == !st.meshVisible[i] && r.wireVisible[i] == !st.wireVisible[i])
      && (forall i :: |st.meshVisible| <= i < |st.wireVisible| ==> r.wireVisible[i] == st.wireVisible[i])
      && r.(meshVisible := st.meshVisible, wireVisible := st.wireVisible) == st
  {
  }

  /** Toggling twice restores the state. */
  lemma ToggleTwice(st: State)
    requires Paired(st)
    ensures Toggled(Toggled(st)) == st
  {
    var r := Toggled(Toggled(st));
    assert r.meshVisible == st.meshVisible;
    assert r.wireVisible == st.wireVisible;
  }

  /** Toggling keeps every cube opposite its twin and the meshes uniform. */
  lemma ToggleKeepsInv(st: State)
    requires Inv(st)
    ensures Inv(Toggled(st))
    ensures Toggled(st).meshVisible[0] == !st.meshVisible[0]
  {
  }

  /** 's' flips only `still`. */
  lemma PauseKeyFlipsStill(st: State)
    requires Paired(st)
    ensures OnKeyPress(st, "s") == st.(still := !st.still)
    ensures OnKeyPress(OnKeyPress(st, "s"), "s") == st
  {
  }

  /** 'w' changes only the visibility of the cubes. */
  lemma WireKeyTogglesOnly(st: State)
    requires Paired(st)
    ensures OnKeyPress(st, "w") == Toggled(st)
    ensures OnKeyPress(st, "w").(meshVisible := st.meshVisible, wireVisible := st.wireVisible) == st
  {
  }

  /** Every other key, 'S' and 'W' included, leaves the state as it was. */
  lemma OtherKeysIgnored(st: State, key: string)
    requires Paired(st)
    requires key != "s" && key != "w"
    ensures OnKeyPress(st, key) == st
  {
  }

  /** A key press keeps the invariant. */
  lemma KeyPressKeepsInv(st: State, key: string)
    requires Inv(st)
    ensures Inv(OnKeyPress(st, key))
  {
    if key == "w" {
      ToggleKeepsInv(st);
    }
  }

  /** A paused frame leaves the animation clock where it was. */
  lemma StillFrameFreezesTime(st: State, c: ClockReading)
    requires st.still
    ensures Frame(st, c).animationTime == st.animationTime
    ensures Frame(st, c).pausedStartTime == c.elapsed1
    ensures Frame(st, c).deltaPauseTime == c.elapsed2 - c.elapsed1
  {
  }

  /** The set `animate` places is always the set on screen, and the other set is hidden. */
  lemma ActiveSetIsVisible(st: State)
    requires Inv(st)
    ensures forall i :: 0 <= i < NumCubes ==> VisibilityOf(st, ActiveSet(st))[i]
    ensures forall i :: 0 <= i < NumCubes ==> !VisibilityOf(st, Other(ActiveSet(st)))[i]
  {
    if st.meshVisible[0] {
      assert ActiveSet(st) == MeshCubes;
      assert VisibilityOf(st, MeshCubes) == st.meshVisible;
      assert VisibilityOf(st, WireframeCubes) == st.wireVisible;
      forall i | 0 <= i < NumCubes
        ensures st.meshVisible[i] && !st.wireVisible[i]
      {
        assert st.meshVisible[i] == st.meshVisible[0];
      }
    } else {
      assert ActiveSet(st) == WireframeCubes;
      assert VisibilityOf(st, MeshCubes) == st.meshVisible;
      assert VisibilityOf(st, WireframeCubes) == st.wireVisible;
      forall i | 0 <= i < NumCubes
        ensures !st.meshVisible[i] && st.wireVisible[i]
      {
        assert st.meshVisible[i] == st.meshVisible[0];
      }
    }
  }

  /** The angle stays between 0 and MAX_ANGLE, reaching each end exactly at the sine's extremes. */
  lemma AngleInRange(pi: real, sine: real)
    requires pi > 0.0
    requires -1.0 <= sine <= 1.0
    ensures 0.0 <= RotationAngle(pi, sine) <= MaxAngle(pi)
    ensures RotationAngle(pi, sine) == 0.0 <==> sine == -1.0
    ensures RotationAngle(pi, sine) == MaxAngle(pi) <==> sine == 1.0
  {
    var half := MaxAngle(pi) / 2.0;
    assert half > 0.0;
    assert RotationAngle(pi, sine) == half * (1.0 + sine);
    assert MaxAngle(pi) == half * 2.0;
    if sine > -1.0 {
      assert half * (1.0 + sine) > 0.0;
    }
    if sine < 1.0 {
      assert half * (1.0 + sine) < half * 2.0;
    }
  }

  /** MAX_ANGLE is 10 degrees (pi / 18), half the 20 degrees its comment names. */
  lemma MaxAngleIsTenDegrees(pi: real)
    ensures MaxAngle(pi) == 10.0 * (pi / 180.0)
    ensures pi > 0.0 ==> MaxAngle(pi) == (20.0 * (pi / 180.0)) / 2.0
  {
  }

  /** After one period T the phase has advanced by a full turn 2 pi, so the angle repeats. */
  lemma PhaseRepeatsEachPeriod(t: real, pi: real)
    ensures Phase(t + Period, pi) == Phase(t, pi) + 2.0 * pi
  {
  }

  /* ---------- runs of events ---------- */

  datatype Event = KeyDown(key: string) | AnimationFrame(reading: ClockReading)

  function Step(st: State, e: Event): (r: State)
    requires Paired(st)
    ensures Paired(r)
    ensures |r.meshVisible| == |st.meshVisible| && |r.wireVisible| == |st.wireVisible|
  {
    match e
    case KeyDown(key) => OnKeyPress(st, key)
    case AnimationFrame(c) => Frame(st, c)
  }

  /** The state after handling the events in order. */
  function Run(st: State, events: seq<Event>): (r: State)
    requires Paired(st)
    ensures Paired(r)
    ensures |r.meshVisible| == |st.meshVisible| && |r.wireVisible| == |st.wireVisible|
    decreases |events|
  {
    if events == [] then st else Run(Step(st, events[0]), events[1..])
  }

  /** How many of the events are presses of `key`. */
  function Presses(events: seq<Event>, key: string): nat {
    if events == [] then 0
    else (if events[0] == KeyDown(key) then 1 else 0) + Presses(events[1..], key)
  }

  /** Every run keeps the invariant. */
  lemma {:induction false} RunKeepsInv(st: State, events: seq<Event>)
    requires Inv(st)
    ensures Inv(Run(st, events))
    decreases |events|
  {
    if events != [] {
      var e := events[0];
      match e {
        case KeyDown(key) => KeyPressKeepsInv(st, key);
        case AnimationFrame(c) =>
      }
      RunKeepsInv(Step(st, e), events[1..]);
    }
  }

  /** The meshes are on screen after a run exactly when 'w' was pressed an even number of times. */
  lemma {:induction false} RunVisibility(st: State, events: seq<Event>)
    requires Inv(st)
    ensures Inv(Run(st, events))
    ensures Run(st, events).meshVisible[0] == (st.meshVisible[0] == (Presses(events, "w") % 2 == 0))
    decreases |events|
  {
    RunKeepsInv(st, events);
    if events != [] {
      var e := events[0];
      match e {
        case KeyDown(key) =>
          KeyPressKeepsInv(st, key);
          if key == "w" {
            ToggleKeepsInv(st);
          }
        case AnimationFrame(c) =>
      }
      RunVisibility(Step(st, e), events[1..]);
    }
  }

  /** From the start, the meshes show exactly after an even number of 'w' presses. */
  lemma ShownSetAfterRun(events: seq<Event>)
    ensures Inv(Run(Init(), events))
    ensures ActiveSet(Run(Init(), events)) == (if Presses(events, "w") % 2 == 0 then MeshCubes else WireframeCubes)
  {
    InitShowsMeshes();
    RunKeepsInv(Init(), events);
    RunVisibility(Init(), events);
  }

  /** While paused and 's' is never pressed, no run moves the animation clock. */
  lemma {:induction false} PausedRunFreezesTime(st: State, events: seq<Event>)
    requires Paired(st)
    requires st.still
    requires Presses(events, "s") == 0
    ensures Run(st, events).still
    ensures Run(st, events).animationTime == st.animationTime
    decreases |events|
  {
    if events != [] {
      var e := events[0];
      assert e != KeyDown("s");
      PausedRunFreezesTime(Step(st, e), events[1..]);
    }
  }

  /** How many of the events are animation frames. */
  function Frames(events: seq<Event>): nat {
    if events == [] then 0
    else (if events[0].AnimationFrame? then 1 else 0) + Frames(events[1..])
  }

  /** The sum of the clock deltas read by the animation frames among the events. */
  function SumDeltas(events: seq<Event>): real {
    if events == [] then 0.0
    else (if events[0].AnimationFrame? then events[0].reading.delta else 0.0) + SumDeltas(events[1..])
  }

  /**
   While running and 's' is never pressed, the animation clock advances by
   the sum of the frames' deltas, less the pause time still pending at the
   start, which the first frame consumes and clears.
   */
  lemma {:induction false} RunningRunAdvances(st: State, events: seq<Event>)
    requires Paired(st)
    requires !st.still
    requires Presses(events, "s") == 0
    ensures !Run(st, events).still
    ensures Run(st, events).animationTime
         == st.animationTime - (if Frames(events) > 0 then st.deltaPauseTime else 0.0) + SumDeltas(events)
    ensures Run(st, events).deltaPauseTime == (if Frames(events) > 0 then 0.0 else st.deltaPauseTime)
    decreases |events|
  {
    if events != [] {
      var e := events[0];
      assert e != KeyDown("s");
      RunningRunAdvances(Step(st, e), events[1..]);
    }
  }
}
