/** The node that owns the map and the controller and runs its events one at a time. */
module AutowareControllers {
  import opened Base
  import opened LaneSpec
  import opened LaneletMaps
  import opened Resolvers
  import opened TripSpec
  import opened TripControllers
  import opened Runs

  class AutowareController {
    const laneMap: LaneletMap
    const t: Timings
    var tripCtrl: TripController?
    ghost const startGps: Option<Gps>

    ghost predicate Valid()
      reads this, laneMap, laneMap.buffer, tripCtrl
    {
      && laneMap.Valid()
      && (tripCtrl != null ==> tripCtrl.laneMap == laneMap && tripCtrl.t == t && tripCtrl.Valid())
      && (tripCtrl == null ==> (laneMap.Cache(), laneMap.StartPose()) == BootMap(Lanes(laneMap.w), startGps))
    }

    ghost function TheEnv(): Env {
      Env(Lanes(laneMap.w), t)
    }

    /** Loads the map and resolves the configured start, if there is one. */
    constructor (w: World, name: string, start: Option<Gps>, t: Timings)
      requires WellFormed(w)
      ensures Valid() && fresh(laneMap) && fresh(laneMap.buffer) && laneMap.w == w && this.t == t
      ensures tripCtrl == null && startGps == start
    {
      var lanes := new LaneletMap(w);
      if start.Some? {
        lanes.SetDefaultStart(name, start.value);
      }
      laneMap := lanes;
      this.t := t;
      tripCtrl := null;
      startGps := start;
    }

    /** The first closure posted to the strand. */
    method Initialize(now: int)
      requires Valid() && tripCtrl == null
      modifies this
      ensures Valid() && tripCtrl != null && fresh(tripCtrl)
      ensures tripCtrl.View() == Boot(Lanes(laneMap.w), startGps, now)
    {
      var c := new TripController(laneMap, t);
      c.InitializeInMap(now);
      tripCtrl := c;
    }

    /** The strand: every posted event is handled to its end before the next. */
    method RunStrand(evs: seq<Timed>)
      requires Valid() && tripCtrl != null
      modifies tripCtrl, laneMap`buffer, laneMap`size, laneMap.buffer
      ensures Valid() && laneMap.buffer == old(laneMap.buffer)
      ensures tripCtrl.View() == Exec(TheEnv(), old(tripCtrl.View()), evs)
    {
      var c := tripCtrl;
      for i := 0 to |evs|
        invariant Valid() && c == tripCtrl && laneMap.buffer == old(laneMap.buffer)
        invariant c.View() == Exec(TheEnv(), old(c.View()), evs[..i])
      {
        assert evs[..i + 1][..i] == evs[..i];
        c.Handle(evs[i].now, evs[i].ev);
      }
      assert evs[..|evs|] == evs;
    }
  }

  /** From construction on, the object's behaviour is a run of the specified state machine. */
  method BootAndRun(w: World, name: string, start: Option<Gps>, t: Timings, t0: int, evs: seq<Timed>)
    returns (c: AutowareController, ghost r: Run)
    requires WellFormed(w)
    ensures c.Valid() && c.tripCtrl != null
    ensures IsRun(Env(Lanes(w), t), r) && r.evs == evs && r.states[|evs|] == c.tripCtrl.View()
  {
    c := new AutowareController(w, name, start, t);
    c.Initialize(t0);
    c.RunStrand(evs);
    LanesSound(w);
    r := ExecIsRun(Env(Lanes(w), t), start, t0, evs);
  }
}
