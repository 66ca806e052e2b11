// The control component itself: an object whose methods change its fields,
// the store and the clock step by step, each proved to do what `Controls`
// says its block does. Dicts are gone through in an order of their own, which
// a method hands back as a ghost.

module ControlObjects {
  import opened Values
  import opened Records
  import opened Clocks
  import opened Controls
  import opened Guarantees
  import opened Effects
  import opened MemoryStores

  // The least of a dict's values.
  method Earliest(dues: map<string, int>) returns (least: int)
    requires dues != map[]
    ensures least == LeastOf(dues)
  {
    var k :| k in dues;
    least := dues[k];
    var rest := dues.Keys - {k};
    while rest != {}
      invariant rest <= dues.Keys
      invariant exists j :: j in dues && dues[j] == least
      invariant forall j :: j in dues.Keys - rest ==> least <= dues[j]
    {
      var j :| j in rest;
      if dues[j] < least {
        least := dues[j];
      }
      rest := rest - {j};
    }
  }

  // A read of the board from a bound, as a stretch of the log.
  lemma TailOfLog(r: Record, floor: nat)
    ensures var hi := Min(|r.log|, floor + TAIL);
            ReadBoard(r, floor + 1, Some(TAIL)) == if hi <= floor then [] else ChangesOf(r.log)[floor..hi]
  {
  }

  predicate Names(kinds: map<Region, Kind>, change: BoardChange, acked: nat, subs: Option<set<Region>>, name: Name) {
    && change.sequence > acked && change.writer != Some(name)
    && change.region in kinds && Wants(subs, change.region, kinds[change.region])
  }

  // The regions a tail names to one agent.
  method RegionsNamed(
    tail: seq<BoardChange>, kinds: map<Region, Kind>, acked: nat, subs: Option<set<Region>>, name: Name,
    ghost log: seq<Entry>, ghost lo: nat, ghost hi: nat)
    returns (regions: set<Region>)
    requires hi <= |log| && lo <= acked && tail == if hi <= lo then [] else ChangesOf(log)[lo..hi]
    ensures regions == Changed(log, acked, hi, kinds, subs, name)
  {
    regions := {};
    var i := 0;
    assert Changed(log, acked, Min(lo, hi), kinds, subs, name) == {};
    while i < |tail|
      invariant 0 <= i <= |tail| && (hi <= lo || |tail| == hi - lo)
      invariant regions == Changed(log, acked, Min(lo + i, hi), kinds, subs, name)
    {
      ghost var e := log[lo + i];
      ghost var before, after := Changed(log, acked, lo + i, kinds, subs, name),
                                 Changed(log, acked, lo + i + 1, kinds, subs, name);
      assert tail[i].sequence == lo + i + 1 && tail[i].region == e.region && tail[i].writer == e.writer;
      if Names(kinds, tail[i], acked, subs, name) {
        assert forall region :: region in after <==> region in before || region == e.region;
        regions := regions + {tail[i].region};
      } else {
        assert forall region :: region in after <==> region in before;
      }
      i := i + 1;
    }
  }

  lemma TouchIdleLeaves(w: World)
    ensures var v := Controls.TouchIdle(w);
            v.ctl.agents == w.ctl.agents && v.ctl.last == w.ctl.last && v.ctl.reach == w.ctl.reach
  {
  }

  lemma WholeBoard(r: Record)
    ensures ReadBoard(r, 0, None) == ChangesOf(r.log)
  {
  }

  ghost function Pending(w: World, decl: Declaration): map<Region, Instant>
    requires w.ctl.kinds.Keys == w.ctl.windows.Keys
  {
    Joining(w, decl).pending
  }

  // Declaring the regions a Control is given

  function KindsIn(regions: seq<RegionDeclaration>): map<Region, Kind> {
    if regions == [] then map[]
    else KindsIn(regions[..|regions| - 1])[regions[|regions| - 1].name := KindOf(regions[|regions| - 1])]
  }

  // A declaration converges: a region the record held is recorded and not
  // declared again, unless it is held as the other kind; one it did not hold
  // is declared, unless the Control only adopts.
  function Refusal(held: map<Region, Kind>, region: RegionDeclaration, adopt: bool): Option<Error> {
    if region.name in held then if held[region.name] == KindOf(region) then None else Some(WrongKind)
    else if adopt then Some(Undeclared)
    else None
  }

  ghost predicate TwiceNew(held: map<Region, Kind>, regions: seq<RegionDeclaration>) {
    exists i, j :: 0 <= i < j < |regions| && regions[i].name == regions[j].name && regions[i].name !in held
  }

  // The record ends with the regions it held and the ones given exactly when
  // none is refused and none that is new is given twice.
  method Converge(store: InMemoryStore, regions: seq<RegionDeclaration>, adopt: bool)
    returns (refused: Option<Error>)
    requires store.Valid()
    modifies store
    ensures store.Valid()
    ensures store.Rec() == old(store.Rec()).(kinds := store.Rec().kinds)
    ensures refused.None? <==>
              && (forall i :: 0 <= i < |regions| ==> Refusal(old(store.Rec()).kinds, regions[i], adopt).None?)
              && !TwiceNew(old(store.Rec()).kinds, regions)
    ensures refused.None? ==> store.Rec().kinds == old(store.Rec()).kinds + KindsIn(regions)
  {
    hide InMemoryStore.Valid, InMemoryStore.Rec, TwiceNew, KindsIn;
    ghost var r := store.Rec();
    var held := store.ReadRegions();
    NothingGiven(r.kinds, regions);
    var i := 0;
    while i < |regions|
      invariant store.Valid() && 0 <= i <= |regions| && held == r.kinds
      invariant store.Rec() == r.(kinds := r.kinds + KindsIn(regions[..i]))
      invariant forall k :: 0 <= k < i ==> Refusal(r.kinds, regions[k], adopt).None?
      invariant !TwiceNew(r.kinds, regions[..i])
    {
      var region := regions[i];
      assert regions[..i + 1][..i] == regions[..i];
      var refusal := Refusal(held, region, adopt);
      if refusal.Some? {
        return refusal;
      }
      if region.name !in held {
        GivenBefore(r.kinds, regions, i);
        var twice := store.Declare(region);
        if twice.Some? {
          return twice;
        }
      }
      KindsGrow(r.kinds, regions, i);
      i := i + 1;
    }
    assert regions[..i] == regions;
    return None;
  }

  lemma NothingGiven(held: map<Region, Kind>, regions: seq<RegionDeclaration>)
    ensures !TwiceNew(held, regions[..0]) && held + KindsIn(regions[..0]) == held
  {
  }

  // What one more region adds, and that it makes none new twice.
  lemma KindsGrow(held: map<Region, Kind>, regions: seq<RegionDeclaration>, i: nat)
    requires i < |regions| && !TwiceNew(held, regions[..i])
    requires regions[i].name in held ==> held[regions[i].name] == KindOf(regions[i])
    requires forall k :: 0 <= k < i && regions[k].name in held ==> held[regions[k].name] == KindOf(regions[k])
    requires forall k :: 0 <= k < i && regions[k].name == regions[i].name ==> regions[i].name in held
    ensures !TwiceNew(held, regions[..i + 1])
    ensures held + KindsIn(regions[..i + 1]) ==
            if regions[i].name in held then held + KindsIn(regions[..i])
            else (held + KindsIn(regions[..i]))[regions[i].name := KindOf(regions[i])]
  {
    assert regions[..i + 1][..i] == regions[..i];
    KindsAgree(held, regions[..i]);
    NoneNewTwice(held, regions, i);
  }

  lemma NoneNewTwice(held: map<Region, Kind>, regions: seq<RegionDeclaration>, i: nat)
    requires i < |regions| && !TwiceNew(held, regions[..i])
    requires forall k :: 0 <= k < i && regions[k].name == regions[i].name ==> regions[i].name in held
    ensures !TwiceNew(held, regions[..i + 1])
  {
    var init, more := regions[..i], regions[..i + 1];
    forall a, b | 0 <= a < b < |more| ensures more[a].name != more[b].name || more[a].name in held {
      if b < i { assert init[a] == more[a] && init[b] == more[b]; }
    }
  }

  // A region declared that was not held before was given before.
  lemma GivenBefore(held: map<Region, Kind>, regions: seq<RegionDeclaration>, i: nat)
    requires i < |regions| && regions[i].name !in held
    requires forall k :: 0 <= k < i && regions[k].name in held ==> held[regions[k].name] == KindOf(regions[k])
    ensures regions[i].name in held + KindsIn(regions[..i]) ==> TwiceNew(held, regions)
    ensures regions[i].name !in held + KindsIn(regions[..i]) ==>
              forall k :: 0 <= k < i ==> regions[k].name != regions[i].name
  {
    KindsAgree(held, regions[..i]);
    if regions[i].name in KindsIn(regions[..i]) {
      var k :| 0 <= k < |regions[..i]| && regions[..i][k].name == regions[i].name;
      assert regions[k].name == regions[i].name;
    } else {
      forall k | 0 <= k < i ensures regions[k].name != regions[i].name {
        assert regions[..i][k] == regions[k];
      }
    }
  }

  lemma {:induction false} KindsAgree(held: map<Region, Kind>, regions: seq<RegionDeclaration>)
    requires forall k :: 0 <= k < |regions| && regions[k].name in held ==> held[regions[k].name] == KindOf(regions[k])
    ensures forall n :: n in KindsIn(regions) && n in held ==> KindsIn(regions)[n] == held[n]
    ensures forall n :: n in KindsIn(regions) <==> exists k :: 0 <= k < |regions| && regions[k].name == n
  {
    if regions != [] {
      KindsAgree(held, regions[..|regions| - 1]);
      assert regions == regions[..|regions| - 1] + [regions[|regions| - 1]];
    }
  }

  class Control {
    const store: InMemoryStore
    const clock: ManualClock<TimerCall>
    const kinds: map<Region, Kind>
    const windows: map<Region, Duration>
    const idle: Duration
    const reach: bool
    const judged: bool
    var last: nat
    var agents: map<Name, AgentState>
    var outcome: Option<Outcome>
    var idleGeneration: nat
    var idleCall: Option<nat>
    var wallCall: Option<nat>
    var queue: seq<Delivery>

    ghost function W(): World
      reads this, store, clock
    {
      World(Controls.Control.Control(kinds, windows, idle, reach, judged, last, agents, outcome,
                             idleGeneration, idleCall, wallCall),
            clock.State(), store.Rec())
    }

    ghost predicate Valid()
      reads this, store, clock
    {
      && store.Valid() && clock.Valid()
      && PartOf(kinds, store.Rec().kinds) && kinds.Keys == windows.Keys
      && forall a :: a in agents ==> agents[a].decl.name == a
    }

    // Over a board that holds the regions it is given: the sequence continues
    // from what the record ends at, and the run is opened there.
    constructor (
      store: InMemoryStore, clock: ManualClock<TimerCall>,
      kinds: map<Region, Kind>, windows: map<Region, Duration>,
      wall: Duration, idle: Duration, reach: bool, judged: bool)
      requires store.Valid() && clock.Valid() && PartOf(kinds, store.Rec().kinds) && kinds.Keys == windows.Keys
      modifies store`run, clock
      ensures Valid() && this.store == store && this.clock == clock && queue == []
      ensures W() == Begin(kinds, windows, wall, idle, reach, judged, old(clock.State()), old(store.Rec()))
    {
      this.store, this.clock := store, clock;
      this.kinds, this.windows, this.idle, this.reach, this.judged := kinds, windows, idle, reach, judged;
      last, agents, outcome, idleGeneration, idleCall, wallCall, queue := 0, map[], None, 0, None, None, [];
      new;
      Opens(wall);
    }

    method Opens(wall: Duration)
      requires Valid() && last == 0 && wallCall.None?
      modifies this`last, this`wallCall, store`run, clock
      ensures Valid()
      ensures var w := old(W());
              W() == World(w.ctl.(last := |w.rec.log|, wallCall := Some(w.clock.armed)),
                           Arm(w.clock, w.clock.now + wall, WallClockPassed),
                           Records.OpenRun(w.rec, wall, idle))
    {
      hide InMemoryStore.Valid, InMemoryStore.Rec, ManualClock.Valid, ReadBoard, ChangesOf;
      WholeBoard(store.Rec());
      var written := store.ReadBoard(0, None);
      last := if written == [] then 0 else written[|written| - 1].sequence;
      store.OpenRun(wall, idle);
      var handle := clock.CallAt(clock.now + wall, WallClockPassed);
      wallCall := Some(handle);
    }

    method TouchIdle()
      requires Valid()
      modifies this`idleGeneration, this`idleCall, store`run, clock
      ensures Valid()
      ensures W() == Controls.TouchIdle(old(W()))
    {
      hide InMemoryStore.Valid, InMemoryStore.Rec, ManualClock.Valid;
      if outcome.Some? {
        return;
      }
      store.TouchRun(idle);
      if idleCall.Some? {
        clock.CancelCall(idleCall.value);
      }
      idleGeneration := idleGeneration + 1;
      var handle := clock.CallAt(clock.now + idle, TimerCall.IdlePassed(idleGeneration));
      idleCall := Some(handle);
    }

    // The window an agent had armed let go, and what was pending with it.
    method Empty(name: Name)
      requires Valid() && name in agents
      modifies this`agents, clock
      ensures Valid() && agents.Keys == old(agents.Keys)
      ensures var w := old(W());
              var st := w.ctl.agents[name];
              W() == WithAgent(w, name, Unarmed(st).(pending := map[])).(clock := CancelIf(w.clock, st.call))
    {
      hide InMemoryStore.Valid, InMemoryStore.Rec, ManualClock.Valid;
      var st := agents[name];
      if st.call.Some? {
        clock.CancelCall(st.call.value);
        st := st.(call := None, due := None, generation := st.generation + 1);
      }
      agents := agents[name := st.(pending := map[])];
    }

    // The record told, and what it was told cached.
    method Tell(name: Name)
      requires Valid() && name in agents
      modifies this`agents, store`agents
      ensures Valid() && agents.Keys == old(agents.Keys)
      ensures var w := old(W());
              var st := w.ctl.agents[name];
              W() == WithAgent(w, name, st.(notified := Max(st.notified, w.ctl.last)))
                     .(rec := Records.MarkNotified(w.rec, name, w.ctl.last))
    {
      hide InMemoryStore.Valid, InMemoryStore.Rec, ManualClock.Valid, OnlyRises, Records.Acknowledge;
      store.MarkNotified(name, last);
      agents := agents[name := agents[name].(notified := Max(agents[name].notified, last))];
    }

    method Dispatch(name: Name) returns (d: Delivery)
      requires Valid() && name in agents && CarrierFor(reach, agents[name].decl).Some?
      modifies this`agents, this`idleGeneration, this`idleCall, store`run, store`agents, clock
      ensures Valid() && agents.Keys == old(agents.Keys)
      ensures (W(), d) == Controls.Dispatch(old(W()), name)
      ensures CarriedBy(reach, agents[name].decl, d.carrier)
    {
      CarrierIs(reach, agents[name].decl);
      hide InMemoryStore.Valid, InMemoryStore.Rec, ManualClock.Valid, ManualClock.State, Controls.TouchIdle, CancelIf;
      ghost var w := W();
      var regions := agents[name].pending.Keys;
      Empty(name);
      var st := agents[name];
      TouchIdleLeaves(W());
      TouchIdle();
      Tell(name);
      d := Delivery(CarrierFor(reach, st.decl).value, Notification(last, name, st.acked + 1, last, regions));
      assert d.note == NoteFor(w.ctl, name);
    }

    method Evaluate(name: Name) returns (ds: seq<Delivery>)
      requires Valid() && name in agents
      modifies this`agents, this`idleGeneration, this`idleCall, store`run, store`agents, clock
      ensures Valid() && agents.Keys == old(agents.Keys)
      ensures (W(), ds) == Controls.Evaluate(old(W()), name)
    {
      hide InMemoryStore.Valid, InMemoryStore.Rec, ManualClock.Valid, Controls.Dispatch;
      var st := agents[name];
      if st.pending == map[] {
        return [];
      }
      if CarrierFor(reach, st.decl).None? {
        agents := agents[name := st.(pending := map[])];
        return [];
      }
      if last <= st.acked {
        agents := agents[name := st.(pending := map[])];
        return [];
      }
      var earliest := Earliest(st.pending);
      if earliest <= clock.now {
        var d := Dispatch(name);
        return [d];
      }
      if st.due.None? || earliest < st.due.value {
        Arms(name, earliest);
      }
      return [];
    }

    // The batch window armed, or armed again for an earlier instant.
    method Arms(name: Name, earliest: Instant)
      requires Valid() && name in agents
      modifies this`agents, clock
      ensures Valid() && agents.Keys == old(agents.Keys)
      ensures var w := old(W());
              var st := w.ctl.agents[name];
              var cut := CancelIf(w.clock, st.call);
              W() == WithAgent(w, name, st.(call := Some(cut.armed), due := Some(earliest),
                                            generation := st.generation + 1))
                     .(clock := Arm(cut, earliest, TimerCall.CloseWindow(name, st.generation + 1)))
    {
      hide InMemoryStore.Valid, InMemoryStore.Rec, ManualClock.Valid;
      var st := agents[name];
      if st.call.Some? {
        clock.CancelCall(st.call.value);
      }
      var generation := st.generation + 1;
      var handle := clock.CallAt(earliest, TimerCall.CloseWindow(name, generation));
      agents := agents[name := st.(call := Some(handle), due := Some(earliest), generation := generation)];
    }

    // One held agent, hearing of a change just sequenced.
    method Note(name: Name, region: Region, writer: Name) returns (ds: seq<Delivery>)
      requires Valid() && name in agents && region in windows
      modifies this`agents, this`idleGeneration, this`idleCall, store`run, store`agents, clock
      ensures Valid() && agents.Keys == old(agents.Keys)
      ensures (W(), ds) == Controls.Note(old(W()), name, region, writer)
    {
      hide InMemoryStore.Valid, InMemoryStore.Rec, ManualClock.Valid, Controls.Evaluate;
      var st := agents[name];
      if st.decl.name == writer {
        return [];
      }
      if !Wants(st.decl.subs, region, kinds[region]) {
        return [];
      }
      var due := clock.now + windows[region];
      agents := agents[name := st.(pending := AddDue(st.pending, region, due))];
      ds := Evaluate(name);
    }

    method NoteRegionChange(region: Region, writer: Name, hearers: seq<Name>)
      returns (ds: seq<Delivery>, ghost order: seq<Name>)
      requires Valid() && region in windows
      modifies this`agents, this`idleGeneration, this`idleCall, store`run, store`agents, clock
      ensures Valid() && Enumerates(order, old(agents.Keys))
      ensures var (v, reached) := Controls.ReachRest(old(W()), hearers, windows[region]);
              var (u, noted) := NoteAll(v, order, region, writer);
              W() == u && ds == reached + noted
    {
      hide InMemoryStore.Valid, InMemoryStore.Rec, ManualClock.Valid, Controls.ReachRest, Controls.Note;
      var reached := ReachRest(hearers, windows[region]);
      ghost var v := W();
      var rest := agents.Keys;
      var noted := [];
      order := [];
      while rest != {}
        invariant Valid() && rest <= agents.Keys == old(agents.Keys)
        invariant (W(), noted) == NoteAll(v, order, region, writer)
        invariant Enumerates(order, old(agents.Keys) - rest)
      {
        var name :| name in rest;
        var more := Note(name, region, writer);
        assert (order + [name])[..|order|] == order;
        order, noted, rest := order + [name], noted + more, rest - {name};
      }
      assert old(agents.Keys) - rest == old(agents.Keys);
      ds := reached + noted;
    }

    // The agents a write should wake, in the order they were read.
    method WhoHears(region: Region, writer: Name) returns (hearers: seq<Name>)
      requires Valid()
      ensures Enumerates(hearers, Controls.WhoHears(store.Rec(), kinds, region, writer))
      ensures forall a :: a in hearers <==> IsToHear(store.Rec(), kinds, region, writer, a)
    {
      HearersAre(store.Rec(), kinds, region, writer);
      hearers := [];
      if region !in kinds {
        assert Controls.WhoHears(store.Rec(), kinds, region, writer) == {};
        return;
      }
      var declared := store.ReadAgents();
      hide InMemoryStore.Valid, InMemoryStore.Rec, ManualClock.Valid;
      var rest := declared.Keys;
      while rest != {}
        invariant rest <= declared.Keys
        invariant forall a :: a in hearers <==> a in declared.Keys - rest && Hears(store.Rec(), kinds, region, writer, a)
        invariant forall i, j :: 0 <= i < j < |hearers| ==> hearers[i] != hearers[j]
      {
        var name :| name in rest;
        assert name !in declared.Keys - rest && name !in hearers;
        if name != writer && Wants(declared[name].subs, region, kinds[region]) {
          hearers := hearers + [name];
        }
        rest := rest - {name};
      }
    }

    method Owed(hearers: seq<Name>) returns (owed: seq<Name>)
      requires Valid()
      ensures owed == Filter(hearers, Elsewhere(W()))
      ensures forall a :: a in owed <==> a in hearers && IsAway(W(), a) && last > store.Rec().agents[a].acked
    {
      assert forall a :: Elsewhere(W())(a) <==> IsAway(W(), a) && last > store.Rec().agents[a].acked;
      var declared := store.ReadAgents();
      hide InMemoryStore.Valid, InMemoryStore.Rec, ManualClock.Valid;
      owed := [];
      var i := 0;
      while i < |hearers|
        invariant 0 <= i <= |hearers| && owed == Filter(hearers[..i], Elsewhere(W()))
      {
        assert hearers[..i + 1][..i] == hearers[..i];
        var a := hearers[i];
        if a in declared && a !in agents && declared[a].addr.Some? && last > declared[a].acked {
          owed := owed + [a];
        }
        i := i + 1;
      }
      assert hearers[..i] == hearers;
    }

    // The least any of them has answered.
    method Floor(owed: seq<Name>) returns (floor: nat)
      requires Valid() && owed != [] && forall a :: a in owed ==> a in store.Rec().agents
      ensures AnsweredBy(store.Rec(), owed) != map[] && floor == LeastOf(AnsweredBy(store.Rec(), owed))
      ensures forall a :: a in owed ==> floor <= store.Rec().agents[a].acked
    {
      var declared := store.ReadAgents();
      hide InMemoryStore.Valid, InMemoryStore.Rec, ManualClock.Valid;
      ghost var answered := AnsweredBy(store.Rec(), owed);
      floor := declared[owed[0]].acked;
      assert owed[0] in answered && answered[owed[0]] == floor;
      var i := 1;
      while i < |owed|
        invariant 1 <= i <= |owed|
        invariant exists a :: a in answered && answered[a] == floor
        invariant forall j :: 0 <= j < i ==> floor <= answered[owed[j]]
      {
        assert owed[i] in answered;
        if declared[owed[i]].acked < floor {
          floor := declared[owed[i]].acked;
          assert answered[owed[i]] == floor;
        }
        i := i + 1;
      }
      assert forall a :: a in answered ==> floor <= answered[a];
      assert forall a :: a in owed ==> a in answered;
    }

    method ReachOne(agent: Name, declared: Progress, tail: seq<BoardChange>, ghost floor: nat, ghost hi: nat)
      returns (ds: seq<Delivery>)
      requires Valid() && agent in store.Rec().agents && declared.addr.Some?
      requires declared == store.Rec().agents[agent].(notified := declared.notified)
      requires floor <= declared.acked && hi <= |store.Rec().log|
      requires tail == if hi <= floor then [] else ChangesOf(store.Rec().log)[floor..hi]
      modifies store`agents
      ensures Valid()
      ensures (W(), ds) == Controls.ReachOne(old(W()), agent, hi)
    {
      hide InMemoryStore.Valid, InMemoryStore.Rec, ManualClock.Valid, Changed, ChangesOf;
      var regions := RegionsNamed(tail, kinds, declared.acked, declared.subs, agent, store.Rec().log, floor, hi);
      if regions == {} {
        return [];
      }
      store.MarkNotified(agent, last);
      return [Delivery(Transport(declared.addr.value), Notification(last, agent, declared.acked + 1, last, regions))];
    }

    // The agents this process holds no callable for, reached by address.
    method ReachRest(hearers: seq<Name>, window: Duration) returns (ds: seq<Delivery>)
      requires Valid()
      modifies store`agents
      ensures Valid()
      ensures (W(), ds) == Controls.ReachRest(old(W()), hearers, window)
    {
      hide InMemoryStore.Valid, InMemoryStore.Rec, ManualClock.Valid, ChangesOf, AnsweredBy, LeastOf, ReachAll;
      if !reach || window > 0 {
        return [];
      }
      ghost var w := W();
      var owed := Owed(hearers);
      if owed == [] {
        return [];
      }
      assert forall a :: a in owed ==> ReachableElsewhere(w, a);
      var floor := Floor(owed);
      ghost var hi := Min(|w.rec.log|, floor + TAIL);
      ds := ReachEach(owed, floor, hi);
    }

    method ReachEach(owed: seq<Name>, floor: nat, ghost hi: nat) returns (ds: seq<Delivery>)
      requires Valid() && hi == Min(|store.Rec().log|, floor + TAIL)
      requires forall a :: a in owed ==>
                 && a in store.Rec().agents && store.Rec().agents[a].addr.Some?
                 && floor <= store.Rec().agents[a].acked
      modifies store`agents
      ensures Valid()
      ensures (W(), ds) == ReachAll(old(W()), owed, hi)
    {
      hide InMemoryStore.Valid, InMemoryStore.Rec, ManualClock.Valid, ChangesOf, Controls.ReachOne, ReadBoard;
      ghost var w := W();
      var declared := store.ReadAgents();
      TailOfLog(w.rec, floor);
      var tail := store.ReadBoard(floor + 1, Some(TAIL));
      ds := [];
      var i := 0;
      while i < |owed|
        invariant Valid() && 0 <= i <= |owed|
        invariant (W(), ds) == ReachAll(w, owed[..i], hi)
        invariant store.Rec() == w.rec.(agents := store.Rec().agents)
        invariant forall a :: a in w.rec.agents ==>
                    && a in store.Rec().agents
                    && declared[a] == store.Rec().agents[a].(notified := declared[a].notified)
      {
        assert owed[..i + 1][..i] == owed[..i];
        ghost var v := W();
        var more := ReachOne(owed[i], declared[owed[i]], tail, floor, hi);
        ReachOneMarks(v, owed[i], hi);
        ds := ds + more;
        i := i + 1;
      }
      assert owed[..i] == owed;
    }

    // The store's step of a write.
    method Put(p: Proposal, key: Option<Key>, writer: Name, notify: set<Name>) returns (answer: Answer)
      requires Valid()
      modifies store
      ensures Valid()
      ensures (store.Rec(), answer) == Controls.Put(old(store.Rec()), p, key, writer, notify)
      ensures W() == old(W()).(rec := store.Rec())
    {
      hide InMemoryStore.Valid, InMemoryStore.Rec, ManualClock.Valid, Writes, KeyedAt;
      match p {
        case LevelWrite(level, content) =>
          answer := store.Append(level, content, key, Some(writer), notify);
        case PremiseWrite(premise, value, expected) =>
          answer := store.Set(premise, value, expected, key, Some(writer), notify);
      }
    }

    // The sequencing block of a write, under the lock.
    method Sequence(p: Proposal, key: Option<Key>, writer: Name)
      returns (ds: seq<Delivery>, result: Result, ghost hearers: seq<Name>, ghost order: seq<Name>)
      requires Valid() && p.region in windows
      modifies this`last, this`agents, this`idleGeneration, this`idleCall, store, clock
      ensures Valid()
      ensures Enumerates(hearers, Controls.WhoHears(old(store.Rec()), kinds, p.region, writer))
      ensures Enumerates(order, old(agents.Keys))
      ensures (W(), ds, result) == Controls.Sequence(old(W()), p, key, writer, hearers, order)
      ensures result.Accepted? && !result.written.repeated ==>
                WriteTells(old(W()), p.region, writer, result.written.sequence, ds, agents)
    {
      ghost var w := W();
      ds, result, hearers, order := DoSequence(p, key, writer);
      if result.Accepted? && !result.written.repeated {
        SequenceTells(w, p, key, writer, hearers, order, result.written.sequence);
      }
    }

    // The block itself, step by step.
    method DoSequence(p: Proposal, key: Option<Key>, writer: Name)
      returns (ds: seq<Delivery>, result: Result, ghost hearers: seq<Name>, ghost order: seq<Name>)
      requires Valid() && p.region in windows
      modifies this`last, this`agents, this`idleGeneration, this`idleCall, store, clock
      ensures Valid()
      ensures Enumerates(hearers, Controls.WhoHears(old(store.Rec()), kinds, p.region, writer))
      ensures Enumerates(order, old(agents.Keys))
      ensures (W(), ds, result) == Controls.Sequence(old(W()), p, key, writer, hearers, order)
    {
      hide InMemoryStore.Valid, InMemoryStore.Rec, ManualClock.Valid, Controls.WhoHears, Controls.Put;
      hide Controls.ReachRest, NoteAll;
      ds := [];
      order := SomeOrder(agents.Keys);
      if outcome.Some? {
        hearers := SomeOrder(Controls.WhoHears(store.Rec(), kinds, p.region, writer));
        result := Rejected(RunClosed);
        return;
      }
      var heard := WhoHears(p.region, writer);
      hearers := heard;
      var notify := set a | a in heard;
      assert notify == Controls.WhoHears(store.Rec(), kinds, p.region, writer);
      PutStoresOnce(store.Rec(), p, key, writer, notify);
      var answer := Put(p, key, writer, notify);
      match answer {
        case Refused(error) => result := Raised(error);
        case Conflict(current) => result := Conflicted(current);
        case Done(written) =>
          result := Accepted(written);
          if !written.repeated {
            last := written.sequence;
            ds, order := NoteRegionChange(p.region, writer, heard);
          }
      }
    }

    // What a write is refused for before its proposal is put to admission.
    method Refuses(p: Proposal) returns (refusal: Option<Result>)
      requires Valid()
      ensures refusal == Controls.Refuses(W().ctl, p)
      ensures refusal == Some(Raised(WrongKind)) ==>
                forall key, writer, notify ::
                  Controls.Put(store.Rec(), p, key, writer, notify) == (store.Rec(), Answer.Refused(WrongKind))
      ensures refusal.None? ==>
                forall key, writer, notify ::
                  Controls.Put(store.Rec(), p, key, writer, notify).1.Refused? ==>
                    Controls.Put(store.Rec(), p, key, writer, notify).1.error == KeyReused
    {
      if outcome.Some? {
        return Some(Rejected(RunClosed));
      }
      if p.region !in kinds {
        return Some(Raised(Undeclared));
      }
      if kinds[p.region] != (if p.LevelWrite? then LevelKind else PremiseKind) {
        return Some(Raised(WrongKind));
      }
      return None;
    }

    method MayWriteTo(writer: Name) returns (declared: Option<set<Region>>)
      ensures declared == Controls.MayWriteTo(W(), writer)
    {
      if writer in agents {
        return agents[writer].decl.writes;
      }
      var found := store.ReadAgents();
      return if writer in found then found[writer].writes else None;
    }

    // Each delivery called in turn, and its row marked where the call sent it.
    method Deliver(ds: seq<Delivery>, sends: Delivery -> bool)
      requires Valid() && queue == []
      modifies this`queue, store`outbox
      ensures Valid() && queue == []
      ensures W() == old(W()).(rec := DeliverAll(old(store.Rec()), ds, sends))
      ensures store.Rec() == old(store.Rec()).(outbox := store.Rec().outbox) && store.Rec().outbox <= old(store.Rec()).outbox
      ensures forall row :: row in old(store.Rec()).outbox ==>
                (row !in store.Rec().outbox <==> exists d :: d in ds && Reaches(d, sends, row))
    {
      hide InMemoryStore.Valid, InMemoryStore.Rec, ManualClock.Valid, Controls.MarkDelivered;
      DeliveredRowsGo(store.Rec(), ds, sends);
      queue := queue + ds;
      ghost var made := 0;
      assert ds[..0] == [] && ds[0..] == ds;
      while queue != []
        invariant Valid() && 0 <= made <= |ds| && queue == ds[made..]
        invariant W() == old(W()).(rec := DeliverAll(old(store.Rec()), ds[..made], sends))
        decreases |queue|
      {
        var d := queue[0];
        queue := queue[1..];
        Marks(d, sends(d));
        assert ds[..made + 1][..made] == ds[..made];
        made := made + 1;
      }
      assert ds[..made] == ds;
    }

    method Marks(d: Delivery, sent: bool)
      requires Valid()
      modifies store`outbox
      ensures Valid()
      ensures W() == old(W()).(rec := MarkDelivered(old(store.Rec()), d, sent))
    {
      hide InMemoryStore.Valid, InMemoryStore.Rec, ManualClock.Valid;
      if sent && !d.carrier.MarksSent() {
        store.MarkSent(d.note.agent, d.note.to);
      }
    }

    // A whole write, and the deliveries and the event it makes.
    method Write(p: Proposal, key: Option<Key>, writer: Name, admitted: bool, sends: Delivery -> bool)
      returns (result: Result, ghost hearers: seq<Name>, ghost order: seq<Name>)
      requires Valid() && queue == []
      modifies this`last, this`agents, this`idleGeneration, this`idleCall, this`queue, store, clock
      ensures Valid() && queue == []
      ensures Enumerates(order, old(agents.Keys))
      ensures result.Accepted? ==> Enumerates(hearers, Controls.WhoHears(old(store.Rec()), kinds, p.region, writer))
      ensures var (v, ds, answer, event) := WholeWrite(old(W()), p, key, writer, admitted, hearers, order);
              && result == answer
              && W() == if event then Controls.TouchIdle(v.(rec := DeliverAll(v.rec, ds, sends))) else v
      ensures var w := old(W());
              && (result == Rejected(RunClosed) <==> w.ctl.outcome.Some?)
              && (result == Raised(Undeclared) <==> w.ctl.outcome.None? && p.region !in kinds)
              && (result == Raised(WrongKind) <==> w.ctl.outcome.None? && p.region in kinds && !LetThrough(w, p))
              && (result == Rejected(NotPermitted) <==> LetThrough(w, p) && Barred(w, p, writer))
              && (result == Rejected(Admission) <==> LetThrough(w, p) && !Barred(w, p, writer) && !admitted)
              && (Barred(w, p, writer) ==> !result.Accepted? && W() == w)
      ensures if IsEvent(result) then Pushed(old(W()), W()) else W() == old(W())
      ensures if result.Accepted? && !result.written.repeated
              then && store.Rec().log == old(store.Rec()).log + [Stored(old(W()), p, key, writer)]
                   && result.written.sequence == |store.Rec().log|
              else agents == old(agents) && store.Rec() == old(store.Rec()).(run := store.Rec().run)
    {
      ghost var w := W();
      result, hearers, order := DoWrite(p, key, writer, admitted, sends);
      WriteAnswers(w, p, key, writer, admitted, hearers, order);
      WriteStores(w, p, key, writer, admitted, hearers, order);
      EventsPush(w, p, key, writer, admitted, hearers, order, sends);
    }

    // The write itself, step by step.
    method DoWrite(p: Proposal, key: Option<Key>, writer: Name, admitted: bool, sends: Delivery -> bool)
      returns (result: Result, ghost hearers: seq<Name>, ghost order: seq<Name>)
      requires Valid() && queue == []
      modifies this`last, this`agents, this`idleGeneration, this`idleCall, this`queue, store, clock
      ensures Valid() && queue == []
      ensures Enumerates(order, old(agents.Keys))
      ensures var (v, ds, answer, event) := WholeWrite(old(W()), p, key, writer, admitted, hearers, order);
              && result == answer && W() == Finished(v, ds, event, sends)
      ensures result.Accepted? ==> Enumerates(hearers, Controls.WhoHears(old(store.Rec()), kinds, p.region, writer))
    {
      hide InMemoryStore.Valid, InMemoryStore.Rec, ManualClock.Valid, Controls.Sequence, Controls.TouchIdle;
      hide DeliverAll, Controls.WhoHears;
      hearers, order := [], SomeOrder(agents.Keys);
      var refusal := Refuses(p);
      if refusal.Some? {
        return refusal.value, hearers, order;
      }
      if p.LevelWrite? {
        var declared := MayWriteTo(writer);
        if declared.Some? && p.region !in declared.value {
          return Rejected(NotPermitted), hearers, order;
        }
      }
      if !admitted {
        result := Rejected(Admission);
        Happens([], sends);
      } else {
        result, hearers, order := Stores(p, key, writer, sends);
      }
    }

    // The write put to the store, and what came of it delivered.
    method Stores(p: Proposal, key: Option<Key>, writer: Name, sends: Delivery -> bool)
      returns (result: Result, ghost hearers: seq<Name>, ghost order: seq<Name>)
      requires Valid() && queue == [] && p.region in windows
      modifies this`last, this`agents, this`idleGeneration, this`idleCall, this`queue, store, clock
      ensures Valid() && queue == []
      ensures Enumerates(order, old(agents.Keys))
      ensures Enumerates(hearers, Controls.WhoHears(old(store.Rec()), kinds, p.region, writer))
      ensures var (v, ds, answer) := Controls.Sequence(old(W()), p, key, writer, hearers, order);
              && result == answer
              && W() == Finished(v, ds, !answer.Raised? && (answer.Accepted? ==> !answer.written.repeated), sends)
    {
      hide InMemoryStore.Valid, InMemoryStore.Rec, ManualClock.Valid, Controls.Sequence, Controls.TouchIdle;
      hide WriteTells, DeliverAll, Controls.WhoHears;
      var ds;
      ds, result, hearers, order := Sequence(p, key, writer);
      if result.Raised? || (result.Accepted? && result.written.repeated) {
        return;
      }
      Happens(ds, sends);
    }

    // Deliveries made, and an event recorded.
    method Happens(ds: seq<Delivery>, sends: Delivery -> bool)
      requires Valid() && queue == []
      modifies this`idleGeneration, this`idleCall, this`queue, store`outbox, store`run, clock
      ensures Valid() && queue == []
      ensures W() == Finished(old(W()), ds, true, sends)
    {
      hide InMemoryStore.Valid, InMemoryStore.Rec, ManualClock.Valid, Controls.TouchIdle, DeliverAll, Reaches;
      Deliver(ds, sends);
      TouchIdle();
    }

    // Registers an agent and wakes it.
    method RegisterAgent(decl: Declaration) returns (ds: seq<Delivery>, refusal: Option<RegistrationError>)
      requires Valid()
      modifies this`agents, this`idleGeneration, this`idleCall, store`agents, store`run, clock
      ensures Valid()
      ensures refusal == RefusesAgent(old(W()).ctl, decl)
      ensures (W(), ds) == if refusal.Some? then (old(W()), []) else Controls.Register(old(W()), decl)
      ensures refusal.None? ==>
                exists st :: BeginsBehind(old(W()), decl, st) && Wakes(old(W()), decl, st, ds)
    {
      RegisterWakes(W(), decl);
      hide InMemoryStore.Valid, InMemoryStore.Rec, ManualClock.Valid, Controls.Evaluate, Controls.Join;
      ds := [];
      refusal := Admits(decl);
      if refusal.Some? {
        return;
      }
      Join(decl);
      ds := Evaluate(decl.name);
    }

    // The declaration recorded and the agent's state begun, with whatever
    // window it had here cancelled.
    method Join(decl: Declaration)
      requires Valid()
      modifies this`agents, store`agents, clock
      ensures Valid() && decl.name in agents
      ensures W() == Controls.Join(old(W()), decl)
    {
      hide InMemoryStore.Valid, InMemoryStore.Rec, ManualClock.Valid, Unfinished;
      if decl.name in agents && agents[decl.name].call.Some? {
        clock.CancelCall(agents[decl.name].call.value);
      }
      var declared := store.ReadAgents();
      var answered := if decl.name in declared then declared[decl.name].acked else 0;
      store.DeclareAgent(decl.name, decl.subs, decl.writes, decl.addr);
      var pending := Standing(decl);
      agents := agents[decl.name := AgentState(decl, answered, answered, pending, None, None, 0)];
    }

    method Admits(decl: Declaration) returns (refusal: Option<RegistrationError>)
      requires Valid()
      ensures refusal == RefusesAgent(W().ctl, decl)
      ensures refusal.None? <==>
                && outcome.None? && (decl.subs.Some? ==> decl.subs.value <= store.Rec().kinds.Keys * kinds.Keys)
                && (decl.writes.Some? ==>
                      forall region :: region in decl.writes.value ==>
                        region in kinds && Requires(store.Rec(), region, LevelKind).None?)
    {
      if outcome.Some? {
        return Some(Closed);
      }
      if decl.subs.Some? && exists region :: region in decl.subs.value && region !in kinds {
        return Some(SubscribesUndeclared);
      }
      if decl.writes.Some? {
        if exists region :: region in decl.writes.value && region !in kinds {
          return Some(WritesUndeclared);
        }
        if exists region :: region in decl.writes.value && kinds[region] != LevelKind {
          return Some(WritesPremise);
        }
      }
      return None;
    }

    // What an agent joining now is behind on: each region it subscribes to
    // that already holds something.
    method Standing(decl: Declaration) returns (pending: map<Region, Instant>)
      requires Valid()
      ensures pending == Pending(W(), decl)
    {
      hide InMemoryStore.Valid, InMemoryStore.Rec, ManualClock.Valid, Writes;
      pending := map[];
      var rest := kinds.Keys;
      while rest != {}
        invariant rest <= kinds.Keys
        invariant pending.Keys == Pending(W(), decl).Keys - rest
        invariant forall r :: r in pending ==> pending[r] == Pending(W(), decl)[r]
      {
        var name :| name in rest;
        rest := rest - {name};
        if Wants(decl.subs, name, kinds[name]) {
          var holds := Holds(name);
          if holds {
            pending := pending[name := if kinds[name] == PremiseKind then clock.now + windows[name] else clock.now];
          }
        }
      }
    }

    method Holds(name: Region) returns (holds: bool)
      requires Valid() && name in kinds
      ensures holds <==> Writes(store.Rec().log, name) > 0
    {
      hide InMemoryStore.Valid, InMemoryStore.Rec, ManualClock.Valid, Writes;
      if kinds[name] == PremiseKind {
        PremiseVersion(store.Rec().log, name);
        var state := store.ReadPremise(name);
        return state.Found?;
      }
      LevelHolds(store.Rec().log, name);
      var found := store.ReadLevel(name, 0, None);
      return found.value != [];
    }

    // The store's answer comes first: where it is none nothing here moves, and
    // where it is one the cursor cached here rises and the deadline moves.
    method Ack(agent: Name, through: int) returns (known: bool)
      requires Valid()
      modifies this`agents, this`idleGeneration, this`idleCall, store`agents, store`run, clock
      ensures Valid()
      ensures var w := old(W());
              var (rec, prior) := Acknowledge(w.rec, agent, through);
              && known == (prior.Some? || (w.rec.run.Some? && w.rec.run.value.closed.Some?))
              && W() == if prior.None? || prior.value.acked >= through then w
                        else Controls.TouchIdle(AckHere(w.(rec := rec), agent, through))
      ensures var r := old(store.Rec());
              if agent in r.agents && r.agents[agent].acked < through <= r.agents[agent].notified
              then && agent in store.Rec().agents && store.Rec().agents[agent].acked == through
                   && (agent in agents ==> agents[agent].acked >= through)
                   && (outcome.None? ==> Pushed(old(W()), W()))
              else W() == old(W())
    {
      ghost var w := W();
      known := DoAck(agent, through);
      if agent in w.rec.agents && w.rec.agents[agent].acked < through <= w.rec.agents[agent].notified {
        AckPushes(w, agent, through);
      }
    }

    // The acknowledgment itself, step by step.
    method DoAck(agent: Name, through: int) returns (known: bool)
      requires Valid()
      modifies this`agents, this`idleGeneration, this`idleCall, store`agents, store`run, clock
      ensures Valid()
      ensures var w := old(W());
              var (rec, prior) := Acknowledge(w.rec, agent, through);
              && known == (prior.Some? || (w.rec.run.Some? && w.rec.run.value.closed.Some?))
              && W() == if prior.None? || prior.value.acked >= through then w
                        else Controls.TouchIdle(AckHere(w.(rec := rec), agent, through))
    {
      hide InMemoryStore.Valid, InMemoryStore.Rec, ManualClock.Valid, Controls.TouchIdle;
      AnsweredAlready(store.Rec(), agent, through);
      var prior := store.Acknowledge(agent, through);
      if prior.None? {
        var run := store.ReadRun();
        return run.Some? && run.value.0.closed.Some?;
      }
      if prior.value.acked >= through {
        return true;
      }
      if agent in agents {
        agents := agents[agent := agents[agent].(acked := Max(agents[agent].acked, through))];
      }
      TouchIdle();
      return true;
    }

    // Closing

    method CloseLocked(closing: Outcome)
      requires Valid()
      modifies this`agents, this`outcome, this`idleCall, this`idleGeneration, store`run, store`agents, store`outbox, clock
      ensures Valid() && agents.Keys == old(agents.Keys)
      ensures W() == Close(old(W()), closing)
    {
      hide InMemoryStore.Valid, InMemoryStore.Rec, ManualClock.Valid, ManualClock.State, CancelAll;
      hide Records.CloseRun, OutcomeOf, ClosedAsOf, ReasonOf, Handles, DeadlinesOf, WindowedOf, Quiet;
      if outcome.Some? {
        return;
      }
      ghost var w := W();
      CloseRunLeaves(w.rec, ClosedAsOf(closing), ReasonOf(closing), closing.unfinished);
      var held := closing;
      var won := store.CloseRun(ClosedAsOf(closing), ReasonOf(closing), closing.unfinished);
      if !won {
        var written := store.ReadRun();
        if written.Some? && written.value.0.closed.Some? {
          held := OutcomeOf(written.value.0);
        }
      }
      outcome := Some(held);
      StopDeadlines();
      LetAllGo(w, DeadlinesOf(w.ctl.wallCall, w.ctl.idleCall));
      HandlesParted(w.ctl);
    }

    method StopDeadlines()
      requires Valid()
      modifies this`idleCall, this`idleGeneration, clock
      ensures Valid() && idleCall == None && idleGeneration == old(idleGeneration) + 1
      ensures clock.State() == CancelAll(old(clock.State()), DeadlinesOf(old(wallCall), old(idleCall)))
    {
      hide InMemoryStore.Valid, InMemoryStore.Rec, ManualClock.Valid, ManualClock.State, CancelAll;
      ghost var c := clock.State();
      ghost var cancelled: set<nat> := {};
      CancelNone(c);
      if wallCall.Some? {
        CancelMore(c, cancelled, wallCall.value);
        clock.CancelCall(wallCall.value);
        cancelled := cancelled + {wallCall.value};
      }
      if idleCall.Some? {
        CancelMore(c, cancelled, idleCall.value);
        clock.CancelCall(idleCall.value);
        cancelled := cancelled + {idleCall.value};
        idleCall := None;
      }
      idleGeneration := idleGeneration + 1;
      assert cancelled == DeadlinesOf(old(wallCall), old(idleCall));
    }

    method LetGo(name: Name, ghost c: Clock<TimerCall>, ghost cancelled: set<nat>)
      requires Valid() && name in agents && clock.State() == CancelAll(c, cancelled)
      modifies this`agents, clock
      ensures Valid() && agents == old(agents)[name := Quiet(old(agents)[name])]
      ensures clock.State() == CancelAll(c, cancelled + OneWindow(old(agents)[name]))
    {
      hide InMemoryStore.Valid, InMemoryStore.Rec, ManualClock.Valid, ManualClock.State, CancelAll;
      var st := agents[name];
      if st.call.Some? {
        CancelMore(c, cancelled, st.call.value);
        clock.CancelCall(st.call.value);
        st := st.(call := None, due := None, generation := st.generation + 1);
      }
      assert cancelled + {} == cancelled;
      agents := agents[name := st.(pending := map[])];
    }

    // Every window cancelled and every pending set cleared.
    method LetAllGo(ghost w: World, ghost already: set<nat>)
      requires Valid() && w.ctl.agents == agents && clock.State() == CancelAll(w.clock, already)
      modifies this`agents, clock
      ensures Valid() && agents == map a | a in w.ctl.agents :: Quiet(w.ctl.agents[a])
      ensures clock.State() == CancelAll(w.clock, already + Windowed(w.ctl))
    {
      hide InMemoryStore.Valid, InMemoryStore.Rec, ManualClock.Valid, ManualClock.State, CancelAll, WindowedOf, OneWindow;
      WindowedNone(w.ctl);
      assert already + {} == already && w.ctl.agents.Keys - agents.Keys == {};
      var rest := agents.Keys;
      ghost var cancelled := already;
      while rest != {}
        invariant Valid() && rest <= agents.Keys == w.ctl.agents.Keys
        invariant forall a :: a in agents ==>
                    agents[a] == if a in rest then w.ctl.agents[a] else Quiet(w.ctl.agents[a])
        invariant clock.State() == CancelAll(w.clock, cancelled)
        invariant cancelled == already + WindowedOf(w.ctl, w.ctl.agents.Keys - rest)
      {
        var name :| name in rest;
        ghost var done := w.ctl.agents.Keys - rest;
        WindowedMore(w.ctl, done, name);
        rest := rest - {name};
        assert w.ctl.agents.Keys - rest == done + {name};
        assert cancelled + OneWindow(w.ctl.agents[name])
               == already + (WindowedOf(w.ctl, done) + OneWindow(w.ctl.agents[name]));
        LetGo(name, w.clock, cancelled);
        cancelled := cancelled + OneWindow(w.ctl.agents[name]);
      }
      assert w.ctl.agents.Keys - rest == w.ctl.agents.Keys;
    }

    method Abort(reason: string)
      requires Valid()
      modifies this`agents, this`outcome, this`idleCall, this`idleGeneration, store`run, store`agents, store`outbox, clock
      ensures Valid()
      ensures W() == Close(old(W()), Aborted(reason, {}))
      ensures Concluded(old(W()), W())
      ensures old(outcome).None? && old(store.Rec()).Open() ==> outcome == Some(Aborted(reason, {}))
      ensures old(outcome).None? && store.Rec().run.Some? ==> SaysOf(store.Rec().run.value, outcome.value)
    {
      if outcome.None? && store.Rec().run.Some? { CloseSays(W(), Aborted(reason, {})); }
      hide InMemoryStore.Valid, InMemoryStore.Rec, ManualClock.Valid, Close, Concluded;
      CloseConcludes(W(), Aborted(reason, {}));
      CloseLocked(Aborted(reason, {}));
    }

    // The agents told further than they have answered.
    method UnfinishedNow() returns (names: set<Name>)
      requires Valid()
      ensures names == Unfinished(store.Rec())
    {
      var declared := store.ReadAgents();
      names := set a | a in declared && declared[a].Outstanding();
    }

    // Timers

    method WallClockExpired()
      requires Valid()
      modifies this`agents, this`outcome, this`idleCall, this`idleGeneration, store`run, store`agents, store`outbox, clock
      ensures Valid()
      ensures W() == WallFires(old(W()))
      ensures Concluded(old(W()), W())
      ensures old(outcome).None? && old(store.Rec()).Open() ==>
                && outcome.Some? && outcome.value.WallClockExpired?
                && store.Rec().run.value.closed == Some(AsWallClockExpired)
                && NamesBehind(old(store.Rec()), store.Rec()) && SaysOf(store.Rec().run.value, outcome.value)
    {
      hide InMemoryStore.Valid, InMemoryStore.Rec, ManualClock.Valid, Unfinished, Close;
      if outcome.None? && store.Rec().Open() { DeadlinesSay(W(), 0); }
      if outcome.Some? {
        return;
      }
      var unfinished := UnfinishedNow();
      CloseConcludes(W(), Outcome.WallClockExpired(unfinished));
      CloseLocked(Outcome.WallClockExpired(unfinished));
    }

    // The idle deadline passing. Where a predicate is to be asked, the lock is
    // let go first, and `Judge` is what runs once it has answered.
    method IdlePassed(generation: nat) returns (asked: bool)
      requires Valid()
      modifies this`agents, this`outcome, this`idleCall, this`idleGeneration, store`run, store`agents, store`outbox, clock
      ensures Valid()
      ensures W() == IdleFires(old(W()), generation)
      ensures asked <==> judged && old(outcome).None? && generation == old(idleGeneration)
      ensures old(outcome).None? && old(store.Rec()).Open() && generation == old(idleGeneration) && !judged ==>
                && outcome.Some? && outcome.value.Settled?
                && store.Rec().run.value.closed == Some(AsSettled)
                && NamesBehind(old(store.Rec()), store.Rec()) && SaysOf(store.Rec().run.value, outcome.value)
    {
      hide InMemoryStore.Valid, InMemoryStore.Rec, ManualClock.Valid, Unfinished, Close;
      if outcome.None? && store.Rec().Open() { DeadlinesSay(W(), generation); }
      if outcome.Some? || generation != idleGeneration {
        return false;
      }
      if judged {
        return true;
      }
      var unfinished := UnfinishedNow();
      CloseLocked(Settled(unfinished));
      return false;
    }

    method Judge(generation: nat, complete: bool)
      requires Valid()
      modifies this`agents, this`outcome, this`idleCall, this`idleGeneration, store`run, store`agents, store`outbox, clock
      ensures Valid()
      ensures W() == IdleJudged(old(W()), generation, complete)
      ensures generation != old(idleGeneration) || !complete ==> outcome == old(outcome)
      ensures generation != old(idleGeneration) ==> W() == old(W())
      ensures generation == old(idleGeneration) && complete ==> Concluded(old(W()), W())
      ensures old(outcome).None? && old(store.Rec()).Open() && generation == old(idleGeneration) && complete ==>
                && outcome.Some? && outcome.value.Settled?
                && store.Rec().run.value.closed == Some(AsSettled)
                && NamesBehind(old(store.Rec()), store.Rec()) && SaysOf(store.Rec().run.value, outcome.value)
      ensures generation == old(idleGeneration) && !complete && outcome.None? ==>
                generation != idleGeneration
                && (store.Rec().Open() ==> store.Rec().run.value.idle == store.Rec().now + idle)
    {
      hide InMemoryStore.Valid, InMemoryStore.Rec, ManualClock.Valid, Unfinished, Close;
      if outcome.None? && store.Rec().Open() { DeadlinesSay(W(), generation); }
      if outcome.Some? || generation != idleGeneration {
        return;
      }
      if complete {
        var unfinished := UnfinishedNow();
        CloseConcludes(W(), Settled(unfinished));
        CloseLocked(Settled(unfinished));
      } else {
        TouchIdle();
      }
    }

    method CloseWindow(name: Name, generation: nat) returns (ds: seq<Delivery>)
      requires Valid() && Carried(W().ctl)
      modifies this`agents, this`idleGeneration, this`idleCall, store`run, store`agents, clock
      ensures Valid()
      ensures (W(), ds) == CloseWindowFires(old(W()), name, generation)
    {
      hide InMemoryStore.Valid, InMemoryStore.Rec, ManualClock.Valid, Controls.Dispatch;
      if name !in agents || outcome.Some? || agents[name].generation != generation {
        return [];
      }
      var st := agents[name];
      assert st.pending != map[] ==> CarrierFor(reach, st.decl).Some?;
      agents := agents[name := st.(call := None, due := None, generation := st.generation + 1)];
      if st.pending == map[] {
        return [];
      }
      var d := Dispatch(name);
      return [d];
    }

    // Polling and relaying

    method EvaluateEach(names: seq<Name>) returns (ds: seq<Delivery>)
      requires Valid() && forall name :: name in names ==> name in agents
      modifies this`agents, this`idleGeneration, this`idleCall, store`run, store`agents, clock
      ensures Valid() && agents.Keys == old(agents.Keys)
      ensures (W(), ds) == EvaluateAll(old(W()), names)
    {
      hide InMemoryStore.Valid, InMemoryStore.Rec, ManualClock.Valid, Controls.Evaluate;
      ds := [];
      var i := 0;
      while i < |names|
        invariant Valid() && 0 <= i <= |names| && agents.Keys == old(agents.Keys)
        invariant (W(), ds) == EvaluateAll(old(W()), names[..i])
      {
        assert names[..i + 1][..i] == names[..i];
        var more := Evaluate(names[i]);
        ds := ds + more;
        i := i + 1;
      }
      assert names[..i] == names;
    }

    // The least any of the considered agents has answered.
    method LeastAnswered(considered: set<Name>) returns (floor: nat)
      requires considered != {} && considered <= agents.Keys
      ensures floor == FloorOf(W().ctl, considered)
    {
      ghost var answered := map a | a in considered :: agents[a].acked;
      var name :| name in considered;
      assert name in answered;
      floor := agents[name].acked;
      var rest := considered - {name};
      while rest != {}
        invariant rest <= considered
        invariant exists a :: a in answered && answered[a] == floor
        invariant forall a :: a in considered - rest ==> floor <= answered[a]
      {
        var other :| other in rest;
        assert other in answered;
        floor := Min(floor, agents[other].acked);
        rest := rest - {other};
      }
      assert considered - rest == considered;
    }

    // What a tail adds to one agent's pending set.
    method AddTailTo(
      st: AgentState, tail: seq<BoardChange>, relaying: bool, storeNow: Instant,
      ghost w: World, ghost lo: nat, ghost hi: nat)
      returns (after: AgentState)
      requires w.ctl.kinds == kinds && w.ctl.windows == windows && kinds.Keys == windows.Keys
      requires w.clock.now == clock.now && w.rec.now == storeNow
      requires lo <= hi <= |w.rec.log| && tail == ChangesOf(w.rec.log)[lo..hi]
      ensures after == AddTail(w, st, lo, hi, relaying)
      ensures TailLeaves(w, st, after, lo, hi, relaying)
    {
      TailDues(w, st, lo, hi, relaying);
      after := st;
      var i := 0;
      while i < |tail|
        invariant 0 <= i <= |tail| == hi - lo
        invariant after == AddTail(w, st, lo, lo + i, relaying)
      {
        var change := tail[i];
        assert change.sequence == lo + i + 1 && change.region == w.rec.log[lo + i].region
               && change.writer == w.rec.log[lo + i].writer && change.at == w.rec.log[lo + i].at;
        if (relaying || change.sequence > st.notified) && change.writer != Some(st.decl.name)
           && change.region in kinds && Wants(st.decl.subs, change.region, kinds[change.region]) {
          var left := Max(change.at + windows[change.region] - storeNow, 0);
          after := after.(pending := AddDue(after.pending, change.region, clock.now + left));
        }
        i := i + 1;
      }
    }

    method TakeTail(storeNow: Instant, only: Option<set<Name>>)
      requires Valid() && storeNow == store.Rec().now
      modifies this`last, this`agents
      ensures Valid() && agents.Keys == old(agents.Keys)
      ensures W() == Controls.TakeTail(old(W()), only)
    {
      hide InMemoryStore.Valid, InMemoryStore.Rec, ManualClock.Valid, FloorOf, ChangesOf, ReadBoard, Tailed;
      hide Controls.TakeTail;
      var considered := Considers(only);
      NothingConsidered(W(), only);
      if considered == {} {
        return;
      }
      hide Considered;
      ghost var w := W();
      var floor := LeastAnswered(considered);
      ghost var hi := Min(|w.rec.log|, floor + TAIL);
      TailOfLog(w.rec, floor);
      TakeTailIs(w, only);
      var tail := store.ReadBoard(floor + 1, Some(TAIL));
      if tail == [] {
        TailShort(w.rec.log, floor, hi);
        return;
      }
      TailEnds(w.rec.log, floor, hi);
      last := Max(last, tail[|tail| - 1].sequence);
      TakeEach(considered, tail, only.Some?, storeNow, w, floor, hi);
      TailedNames(w, considered, floor, hi, only.Some?);
    }

    method Considers(only: Option<set<Name>>) returns (considered: set<Name>)
      ensures considered == Considered(W().ctl, only) && considered <= agents.Keys
    {
      considered := set a | a in agents && (only.Some? ==> a in only.value);
    }

    method TakeEach(
      considered: set<Name>, tail: seq<BoardChange>, relaying: bool, storeNow: Instant,
      ghost w: World, ghost lo: nat, ghost hi: nat)
      requires considered <= agents.Keys && agents == w.ctl.agents
      requires w.ctl.kinds == kinds && w.ctl.windows == windows && kinds.Keys == windows.Keys
      requires w.clock.now == clock.now && w.rec.now == storeNow
      requires lo <= hi <= |w.rec.log| && tail == ChangesOf(w.rec.log)[lo..hi]
      modifies this`agents
      ensures agents == Tailed(w, considered, lo, hi, relaying)
    {
      hide AddTail, ChangesOf;
      var rest := considered;
      while rest != {}
        invariant rest <= considered && agents.Keys == w.ctl.agents.Keys
        invariant forall a :: a in agents ==>
                    agents[a] == (if a in considered - rest then AddTail(w, w.ctl.agents[a], lo, hi, relaying)
                                  else w.ctl.agents[a])
      {
        var name :| name in rest;
        var after := AddTailTo(agents[name], tail, relaying, storeNow, w, lo, hi);
        agents := agents[name := after];
        rest := rest - {name};
      }
      assert considered - rest == considered;
    }

    // One poll: adopt a closing, or fold in the tail and evaluate every agent.
    method NotifyDue() returns (ds: seq<Delivery>, ghost order: seq<Name>)
      requires Valid()
      modifies this`last, this`agents, this`outcome, this`idleCall, this`idleGeneration
      modifies store`run, store`agents, store`outbox, clock
      ensures Valid() && Enumerates(order, old(agents.Keys))
      ensures (W(), ds) == Poll(old(W()), order)
      ensures old(outcome).None? && old(store.Rec()).Open() ==> TellsElapsed(old(W()), ds)
      ensures old(outcome).None? && old(store.Rec()).run.Some? && !old(store.Rec()).Open() ==>
                && ds == [] && store.Rec() == old(store.Rec())
                && outcome.Some? && SaysOf(store.Rec().run.value, outcome.value)
    {
      ghost var w := W();
      ds, order := DoPoll();
      if w.ctl.outcome.None? && w.rec.Open() {
        PollTells(w, order);
      } else if w.ctl.outcome.None? && w.rec.run.Some? {
        PollAdopts(w, order);
      }
    }

    // The poll itself, step by step.
    method DoPoll() returns (ds: seq<Delivery>, ghost order: seq<Name>)
      requires Valid()
      modifies this`last, this`agents, this`outcome, this`idleCall, this`idleGeneration
      modifies store`run, store`agents, store`outbox, clock
      ensures Valid() && Enumerates(order, old(agents.Keys))
      ensures (W(), ds) == Poll(old(W()), order)
    {
      hide InMemoryStore.Valid, InMemoryStore.Rec, ManualClock.Valid, Close, Controls.TakeTail, EvaluateAll;
      order := SomeOrder(agents.Keys);
      ds := [];
      if outcome.Some? {
        return;
      }
      var run := store.ReadRun();
      if run.None? {
        return;
      }
      if run.value.0.closed.Some? {
        CloseLocked(OutcomeOf(run.value.0));
        return;
      }
      var names := InSomeOrder(agents.Keys);
      order := names;
      TakeTail(run.value.1, None);
      ds := EvaluateEach(names);
    }

    static method InSomeOrder(names: set<Name>) returns (order: seq<Name>)
      ensures Enumerates(order, names)
    {
      order := [];
      var rest := names;
      while rest != {}
        invariant rest <= names
        invariant forall a :: a in order <==> a in names - rest
        invariant forall i, j :: 0 <= i < j < |order| ==> order[i] != order[j]
      {
        var name :| name in rest;
        assert name !in order;
        order, rest := order + [name], rest - {name};
      }
    }

    // Which agents the first rows are owed to, and the last of those rows.
    method RowsOwed(held: bool) returns (rows: map<Name, nat>)
      requires Valid()
      ensures forall a :: a in rows ==> (a in agents <==> held) && (a, rows[a]) in store.Rec().outbox
      ensures |store.Rec().outbox| <= TAIL ==>
                forall row :: row in store.Rec().outbox && (row.0 in agents <==> held) ==>
                  row.0 in rows && row.1 <= rows[row.0]
    {
      hide InMemoryStore.Valid, InMemoryStore.Rec, ManualClock.Valid;
      var unsent := store.Unsent(TAIL);
      UnsentIsAll(store.Rec(), unsent);
      rows := map[];
      var i := 0;
      while i < |unsent|
        invariant 0 <= i <= |unsent|
        invariant forall a :: a in rows ==> (a in agents <==> held) && (a, rows[a]) in store.Rec().outbox
        invariant forall j :: 0 <= j < i && (unsent[j].0 in agents <==> held) ==>
                    unsent[j].0 in rows && unsent[j].1 <= rows[unsent[j].0]
      {
        if (unsent[i].0 in agents) == held {
          rows := rows[unsent[i].0 := unsent[i].1];
        }
        i := i + 1;
      }
    }

    // The agents this process does not hold, each sent to at the address the
    // run records. `returned` says which sends return.
    method RelayByAddress(returned: Name -> bool)
      returns (
        sent: seq<Name>,
        ghost rows: map<Name, nat>, ghost declared: map<Name, Progress>, ghost board: seq<Entry>, ghost order: seq<Name>)
      requires Valid()
      modifies store`agents, store`outbox
      ensures Valid()
      ensures reach ==>
                && (forall a :: a in rows ==> a !in agents && (a, rows[a]) in old(store.Rec()).outbox)
                && (|old(store.Rec()).outbox| <= TAIL ==>
                      forall row :: row in old(store.Rec()).outbox && row.0 !in agents ==>
                        row.0 in rows && row.1 <= rows[row.0])
                && declared == old(store.Rec()).agents && board == Prefix(old(store.Rec()).log, Some(TAIL))
                && Enumerates(order, rows.Keys)
      ensures forall a ::
                a in sent <==> reach && a in rows && RelaySends(kinds, declared, board, a) && returned(a)
      ensures W() == if reach
                     then old(W()).(rec := RelayAll(old(store.Rec()), kinds, rows, declared, board, order, returned))
                     else old(W())
    {
      hide InMemoryStore.Valid, InMemoryStore.Rec, ManualClock.Valid, RelayOne, RelaySends, ReadBoard, ChangesOf;
      rows, declared, board, order := map[], store.Rec().agents, Prefix(store.Rec().log, Some(TAIL)), [];
      sent := [];
      if !reach {
        return;
      }
      ghost var r := store.Rec();
      var owed := RowsOwed(false);
      rows := owed;
      var found := store.ReadAgents();
      FirstOfBoard(r);
      var changes := store.ReadBoard(0, Some(TAIL));
      var names := InSomeOrder(owed.Keys);
      order := names;
      var i := 0;
      while i < |names|
        invariant Valid() && 0 <= i <= |names|
        invariant W() == old(W()).(rec := RelayAll(r, kinds, owed, found, board, names[..i], returned))
        invariant forall a :: a in sent <==> a in names[..i] && RelaySends(kinds, found, board, a) && returned(a)
      {
        assert names[..i + 1] == names[..i] + [names[i]];
        var reached := RelayTo(names[i], owed, found, changes, returned(names[i]), board);
        if reached {
          sent := sent + [names[i]];
        }
        i := i + 1;
      }
      assert names[..i] == names;
    }

    method RelayTo(
      name: Name, rows: map<Name, nat>, declared: map<Name, Progress>, changes: seq<BoardChange>, returned: bool,
      ghost board: seq<Entry>)
      returns (sent: bool)
      requires Valid() && name in rows && changes == ChangesOf(board)
      modifies store`agents, store`outbox
      ensures Valid()
      ensures sent <==> RelaySends(kinds, declared, board, name) && returned
      ensures W() == old(W()).(rec := RelayOne(old(store.Rec()), kinds, rows, declared, board, name, returned))
    {
      hide InMemoryStore.Valid, InMemoryStore.Rec, ManualClock.Valid, Changed;
      if name !in declared || declared[name].addr.None? {
        return false;
      }
      assert changes == (if |board| <= 0 then [] else ChangesOf(board)[0..|board|]);
      var regions := RegionsNamed(changes, kinds, declared[name].acked, declared[name].subs, name, board, 0, |board|);
      if regions == {} {
        store.MarkSent(name, rows[name]);
        return false;
      }
      var end := if changes == [] then 0 else changes[|changes| - 1].sequence;
      store.MarkNotified(name, end);
      if returned {
        store.MarkSent(name, end);
      }
      return returned;
    }

    // The agents this process holds that a row is owed to.
    method RelayHeld() returns (ds: seq<Delivery>, ghost owed: seq<Name>)
      requires Valid()
      modifies this`last, this`agents, this`idleCall, this`idleGeneration, store`run, store`agents, clock
      ensures Valid()
      ensures forall a :: a in owed ==> a in old(agents) && exists n :: (a, n) in old(store.Rec()).outbox
      ensures old(outcome).None? && |old(store.Rec()).outbox| <= TAIL ==>
                forall row :: row in old(store.Rec()).outbox && row.0 in old(agents) ==> row.0 in owed
      ensures (W(), ds) == Controls.RelayHeld(old(W()), owed)
    {
      hide InMemoryStore.Valid, InMemoryStore.Rec, ManualClock.Valid, Controls.TakeTail, EvaluateAll;
      ds, owed := [], [];
      if outcome.Some? || agents == map[] {
        return;
      }
      var rows := RowsOwed(true);
      var names := InSomeOrder(rows.Keys);
      owed := names;
      if names == [] {
        return;
      }
      var run := store.ReadRun();
      if run.None? {
        return;
      }
      TakeTail(run.value.1, Some(set a | a in names));
      ds := EvaluateEach(names);
    }
  }

  // A sweep's step for one run, which needs no Control.
  method CloseExpired(store: InMemoryStore) returns (won: bool)
    requires store.Valid()
    modifies store
    ensures store.Valid()
    ensures won <==> Expired(old(store.Rec())).Some?
    ensures store.Rec() == var r := old(store.Rec());
                           if Expired(r).None? then r
                           else Records.CloseRun(r, Expired(r).value, None, Unfinished(r)).0
    ensures won <==> var r := old(store.Rec()); r.Open() && (r.now >= r.run.value.wall || r.now >= r.run.value.idle)
    ensures won ==>
              && store.Rec().run.Some? && NamesBehind(old(store.Rec()), store.Rec())
              && store.Rec().agents == map[] && store.Rec().outbox == {}
              && store.Rec().run.value.closed ==
                 Some(if store.Rec().now >= old(store.Rec()).run.value.wall then AsWallClockExpired else AsSettled)
  {
    UnfinishedAre(store.Rec());
    hide InMemoryStore.Valid, InMemoryStore.Rec, Unfinished;
    var found := store.ReadRun();
    if found.None? {
      return false;
    }
    var (run, now) := found.value;
    if run.closed.Some? || (now < run.wall && now < run.idle) {
      return false;
    }
    var declared := store.ReadAgents();
    var unfinished := set a | a in declared && declared[a].Outstanding();
    assert unfinished == Unfinished(store.Rec()) by { UnfinishedIs(store.Rec()); }
    won := store.CloseRun(if now >= run.wall then AsWallClockExpired else AsSettled, None, unfinished);
  }

  lemma UnfinishedIs(r: Record)
    ensures Unfinished(r) == set a | a in r.agents && r.agents[a].Outstanding()
  {
  }

  lemma TailEnds(log: seq<Entry>, floor: nat, hi: nat)
    requires floor < hi <= |log|
    ensures var tail := ChangesOf(log)[floor..hi]; tail != [] && tail[|tail| - 1].sequence == hi
  {
  }

  lemma TailShort(log: seq<Entry>, floor: nat, hi: nat)
    requires hi <= |log| && (hi <= floor || ChangesOf(log)[floor..hi] == [])
    ensures hi <= floor
  {
  }

  lemma TailedNames(w: World, considered: set<Name>, lo: nat, hi: nat, relaying: bool)
    requires hi <= |w.rec.log| && w.ctl.kinds.Keys == w.ctl.windows.Keys
    ensures var agents := Tailed(w, considered, lo, hi, relaying);
            agents.Keys == w.ctl.agents.Keys && forall a :: a in agents ==> agents[a].decl == w.ctl.agents[a].decl
  {
  }

  lemma NothingConsidered(w: World, only: Option<set<Name>>)
    requires w.ctl.kinds.Keys == w.ctl.windows.Keys
    ensures Considered(w.ctl, only) == {} ==> Controls.TakeTail(w, only) == w
  {
  }

  lemma TakeTailIs(w: World, only: Option<set<Name>>)
    requires w.ctl.kinds.Keys == w.ctl.windows.Keys && Considered(w.ctl, only) != {}
    ensures var considered := Considered(w.ctl, only);
            var lo := FloorOf(w.ctl, considered);
            var hi := Min(|w.rec.log|, lo + TAIL);
            Controls.TakeTail(w, only) ==
              if hi <= lo then w
              else w.(ctl := w.ctl.(last := Max(w.ctl.last, hi), agents := Tailed(w, considered, lo, hi, only.Some?)))
  {
    hide Tailed, FloorOf, Considered;
  }

  lemma FirstOfBoard(r: Record)
    ensures ReadBoard(r, 0, Some(TAIL)) == ChangesOf(Prefix(r.log, Some(TAIL)))
  {
  }

  // Reading as many rows as there are reads them all.
  lemma UnsentIsAll(r: Record, rows: seq<(Name, nat)>)
    requires Records.Unsent(r, TAIL, rows)
    ensures |r.outbox| <= TAIL ==> forall row :: row in r.outbox ==> row in rows
  {
    if |r.outbox| <= TAIL {
      DistinctFill(rows, r.outbox);
    }
  }

  lemma {:induction false} DistinctFill<T>(rows: seq<T>, all: set<T>)
    requires |rows| == |all| && forall i :: 0 <= i < |rows| ==> rows[i] in all
    requires forall i, j :: 0 <= i < j < |rows| ==> rows[i] != rows[j]
    ensures forall x :: x in all ==> x in rows
  {
    if rows != [] {
      var last := rows[|rows| - 1];
      DistinctFill(rows[..|rows| - 1], all - {last});
      assert forall x :: x in all ==> x == last || x in all - {last};
    }
  }

  lemma CancelNone(c: Clock<TimerCall>)
    ensures CancelAll(c, {}) == c
  {
    assert CancelAll(c, {}).scheduled == c.scheduled;
  }

  lemma CancelMore(c: Clock<TimerCall>, orders: set<nat>, order: nat)
    ensures Cancel(CancelAll(c, orders), order) == CancelAll(c, orders + {order})
  {
    assert Cancel(CancelAll(c, orders), order).scheduled == CancelAll(c, orders + {order}).scheduled;
  }

  ghost function WindowedOf(ctl: Controls.Control, names: set<Name>): set<nat> {
    set a | a in ctl.agents && a in names && ctl.agents[a].call.Some? :: ctl.agents[a].call.value
  }

  function OneWindow(st: AgentState): set<nat> { if st.call.Some? then {st.call.value} else {} }

  lemma WindowedNone(ctl: Controls.Control)
    ensures WindowedOf(ctl, {}) == {}
  {
  }

  lemma WindowedMore(ctl: Controls.Control, names: set<Name>, name: Name)
    requires name in ctl.agents
    ensures WindowedOf(ctl, names + {name}) ==
            WindowedOf(ctl, names) + OneWindow(ctl.agents[name])
  {
  }

  ghost function Windowed(ctl: Controls.Control): set<nat> { WindowedOf(ctl, ctl.agents.Keys) }

  lemma CloseRunLeaves(r: Record, closedAs: ClosedAs, reason: Option<string>, unfinished: set<Name>)
    ensures var t := Records.CloseRun(r, closedAs, reason, unfinished).0; t.kinds == r.kinds && t.log == r.log
  {
  }

  ghost function DeadlinesOf(wallCall: Option<nat>, idleCall: Option<nat>): set<nat> {
    (if wallCall.Some? then {wallCall.value} else {}) + (if idleCall.Some? then {idleCall.value} else {})
  }

  lemma HandlesParted(ctl: Controls.Control)
    ensures DeadlinesOf(ctl.wallCall, ctl.idleCall) + Windowed(ctl) == Handles(ctl)
  {
  }

  // An acknowledgment already made moves nothing on the record.
  lemma AnsweredAlready(r: Record, agent: Name, through: int)
    ensures var (t, prior) := Acknowledge(r, agent, through);
            prior.None? || prior.value.acked >= through ==> t == r
  {
    if agent in r.agents { assert r.agents[agent := r.agents[agent]] == r.agents; }
  }

  lemma {:induction false} LevelHolds(log: seq<Entry>, level: Region)
    ensures AtOrAfter(LevelOf(log, level), 0) == LevelOf(log, level)
    ensures LevelOf(log, level) != [] <==> Writes(log, level) > 0
  {
    if log != [] {
      var init := log[..|log| - 1];
      LevelHolds(init, level);
      var found := LevelOf(log, level);
      if log[|log| - 1].region == level {
        assert found[..|found| - 1] == LevelOf(init, level);
      } else {
        assert found == LevelOf(init, level);
      }
    }
  }

  // A write refused, in conflict or repeated stores nothing.
  lemma PutStoresOnce(r: Record, p: Proposal, key: Option<Key>, writer: Name, notify: set<Name>)
    ensures var (t, answer) := Controls.Put(r, p, key, writer, notify);
            !answer.Done? || answer.written.repeated ==> t == r
  {
  }

  ghost function SomeOrder(names: set<Name>): (order: seq<Name>)
    ensures Enumerates(order, names)
  {
    if names == {} then []
    else
      var name :| name in names;
      SomeOrder(names - {name}) + [name]
  }

  // Reaching an agent tells the record it was notified, and nothing else.
  lemma ReachOneMarks(w: World, agent: Name, hi: nat)
    ensures var v := Controls.ReachOne(w, agent, hi).0;
            && v.rec == w.rec.(agents := v.rec.agents)
            && forall a :: a in w.rec.agents ==>
                 a in v.rec.agents && v.rec.agents[a] == w.rec.agents[a].(notified := v.rec.agents[a].notified)
  {
  }
}
