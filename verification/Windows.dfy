// Batch windows, the idle deadline and the wall clock limit: which calls
// stand on the clock at any moment of a Control's life, and what that leaves
// undone once time has been moved forward.

module Windows {
  import opened Values
  import opened Records
  import opened Clocks
  import opened Controls
  import opened Sessions

  type Calls = set<Timer<TimerCall>>

  // The calls that stand: scheduled and not cancelled.
  ghost function Live(c: Clock<TimerCall>): Calls { set t | t in c.scheduled && !t.cancelled }

  ghost predicate Distinct(live: Calls, armed: nat) {
    && (forall t :: t in live ==> t.order < armed && !t.cancelled)
    && (forall t, u :: t in live && u in live && t.order == u.order ==> t == u)
  }

  function WindowCall(a: Name, st: AgentState): Timer<TimerCall>
    requires st.call.Some? && st.due.Some?
  {
    Timer(st.due.value, st.call.value, CloseWindow(a, st.generation), false)
  }

  // An agent's window: where it is armed its own call stands, and where
  // anything is pending it is armed for no later than any of it.
  ghost predicate AgentWired(reach: bool, live: Calls, a: Name, st: AgentState, loose: bool) {
    && (st.call.Some? <==> st.due.Some?)
    && (st.call.Some? ==> WindowCall(a, st) in live)
    && (!loose && st.pending != map[] ==>
          && st.due.Some? && CarrierFor(reach, st.decl).Some?
          && forall r :: r in st.pending ==> st.due.value <= st.pending[r])
  }

  // Every call that stands is one the Control would act on.
  ghost predicate Wanted(ctl: Control, t: Timer<TimerCall>) {
    match t.call
    case CloseWindow(a, _) => a in ctl.agents && ctl.agents[a].call == Some(t.order)
    case IdlePassed(_) => ctl.idleCall == Some(t.order)
    case WallClockPassed => ctl.wallCall == Some(t.order)
  }

  // One deadline of the current generation stands or is being judged, from
  // the first event on.
  ghost predicate IdleWired(s: Session, live: Calls, armed: nat) {
    && (s.touched.Some? <==> s.ctl.idleCall.Some?)
    && (s.touched.Some? ==>
          && s.ctl.idleCall.value < armed
          && (forall t :: t in live && t.order == s.ctl.idleCall.value ==> t.call == IdlePassed(s.ctl.idleGeneration))
          && (s.ctl.idleGeneration in s.judging
              || Timer(s.touched.value + s.ctl.idle, s.ctl.idleCall.value, IdlePassed(s.ctl.idleGeneration), false) in live))
  }

  ghost predicate WallWired(s: Session, live: Calls) {
    s.ctl.wallCall.Some? && Timer(s.wallDue, s.ctl.wallCall.value, WallClockPassed, false) in live
  }

  ghost predicate Wired(s: Session, live: Calls, armed: nat, loose: set<Name>) {
    && s.ctl.outcome.None? && Distinct(live, armed)
    && (forall a :: a in s.ctl.agents ==> AgentWired(s.ctl.reach, live, a, s.ctl.agents[a], a in loose))
    && (forall t :: t in live ==> Wanted(s.ctl, t))
    && IdleWired(s, live, armed) && WallWired(s, live)
  }

  // A closed Control: nothing pending, no window armed, and no call standing.
  ghost predicate Silent(s: Session, live: Calls) {
    && s.ctl.outcome.Some? && live == {}
    && (forall a :: a in s.ctl.agents ==> s.ctl.agents[a].pending == map[] && s.ctl.agents[a].call.None?)
  }

  ghost predicate Standing(s: Session, c: Clock<TimerCall>) {
    && Ordered(c)
    && (s.ctl.outcome.None? ==> Wired(s, Live(c), c.armed, {}))
    && (s.ctl.outcome.Some? ==> Silent(s, Live(c)))
  }

  ghost predicate Loosely(s: Session, c: Clock<TimerCall>, loose: set<Name>) {
    Ordered(c) && Wired(s, Live(c), c.armed, loose)
  }

  // The clock's operations, on the calls that stand

  lemma CancelStands(c: Clock<TimerCall>, order: nat)
    requires Ordered(c)
    ensures Ordered(Cancel(c, order)) && Cancel(c, order).armed == c.armed
    ensures forall t :: t in Live(Cancel(c, order)) <==> t in Live(c) && t.order != order
  {
    var d := Cancel(c, order);
    forall t | t in Live(c) && t.order != order ensures t in Live(d) {
      var i :| 0 <= i < |c.scheduled| && c.scheduled[i] == t;
      assert d.scheduled[i] == t;
    }
  }

  lemma CancelAllStands(c: Clock<TimerCall>, orders: set<nat>)
    requires Ordered(c)
    ensures Ordered(CancelAll(c, orders))
    ensures forall t :: t in Live(CancelAll(c, orders)) <==> t in Live(c) && t.order !in orders
  {
    var d := CancelAll(c, orders);
    forall t | t in Live(c) && t.order !in orders ensures t in Live(d) {
      var i :| 0 <= i < |c.scheduled| && c.scheduled[i] == t;
      assert d.scheduled[i] == t;
    }
  }

  lemma ArmStands(c: Clock<TimerCall>, when: Instant, call: TimerCall)
    requires Ordered(c)
    ensures Ordered(Arm(c, when, call)) && Arm(c, when, call).armed == c.armed + 1
    ensures Live(Arm(c, when, call)) == Live(c) + {Timer(when, c.armed, call, false)}
  {
  }

  lemma CancelIfStands(c: Clock<TimerCall>, handle: Option<nat>)
    requires Ordered(c)
    ensures Ordered(CancelIf(c, handle)) && CancelIf(c, handle).armed == c.armed
    ensures forall t :: t in Live(CancelIf(c, handle)) <==> t in Live(c) && handle != Some(t.order)
  {
    if handle.Some? { CancelStands(c, handle.value); }
  }

  // The pieces of a block

  function CallOf(ctl: Control, name: Name): Option<nat> {
    if name in ctl.agents then ctl.agents[name].call else None
  }

  // One agent's state replaced, its old call gone and a new one standing
  // where the new state has one.
  lemma Rewires(s: Session, stood: Calls, armed: nat, loose: set<Name>, name: Name, st: AgentState, live: Calls, more: nat)
    requires Wired(s, stood, armed, loose)
    requires (st.call.Some? <==> st.due.Some?) && (st.call.Some? ==> st.call.value == armed < more) && armed <= more
    requires forall t :: t in live <==>
               || (t in stood && CallOf(s.ctl, name) != Some(t.order))
               || (st.call.Some? && t == WindowCall(name, st))
    ensures Wired(s.(ctl := s.ctl.(agents := s.ctl.agents[name := st])), live, more, loose + {name})
  {
    var agents := s.ctl.agents[name := st];
    assert Distinct(live, more);
    if CallOf(s.ctl, name).Some? { assert WindowCall(name, s.ctl.agents[name]) in stood; }
    forall a | a in agents ensures AgentWired(s.ctl.reach, live, a, agents[a], a in loose + {name}) {
      if a != name {
        assert AgentWired(s.ctl.reach, stood, a, s.ctl.agents[a], a in loose);
        if s.ctl.agents[a].call.Some? { assert WindowCall(a, s.ctl.agents[a]) in stood; }
      }
    }
    forall t | t in live ensures Wanted(s.ctl.(agents := agents), t) {
      if t in stood { assert Wanted(s.ctl, t); }
    }
  }

  // An agent's window put in order.
  lemma Tightens(s: Session, live: Calls, armed: nat, loose: set<Name>, name: Name)
    requires Wired(s, live, armed, loose)
    requires name in s.ctl.agents ==> AgentWired(s.ctl.reach, live, name, s.ctl.agents[name], false)
    ensures Wired(s, live, armed, loose - {name})
  {
    forall a | a in s.ctl.agents
      ensures AgentWired(s.ctl.reach, live, a, s.ctl.agents[a], a in loose - {name})
    {
      assert AgentWired(s.ctl.reach, live, a, s.ctl.agents[a], a in loose);
    }
  }

  // The idle deadline moved, whichever generations are being judged after it.
  lemma TouchRewires(
    s: Session, stood: Calls, armed: nat, loose: set<Name>, now: Instant, live: Calls, judging: set<nat>)
    requires Wired(s, stood, armed, loose)
    requires forall t :: t in live <==>
               || (t in stood && s.ctl.idleCall != Some(t.order))
               || t == Timer(now + s.ctl.idle, armed, IdlePassed(s.ctl.idleGeneration + 1), false)
    ensures Wired(s.(touched := Some(now), judging := judging,
                     ctl := s.ctl.(idleGeneration := s.ctl.idleGeneration + 1, idleCall := Some(armed))),
                  live, armed + 1, loose)
  {
    assert Distinct(live, armed + 1);
    forall a | a in s.ctl.agents ensures AgentWired(s.ctl.reach, live, a, s.ctl.agents[a], a in loose) {
      assert AgentWired(s.ctl.reach, stood, a, s.ctl.agents[a], a in loose);
      if s.ctl.agents[a].call.Some? { assert WindowCall(a, s.ctl.agents[a]) in stood; }
    }
    var ctl := s.ctl.(idleGeneration := s.ctl.idleGeneration + 1, idleCall := Some(armed));
    forall t | t in live ensures Wanted(ctl, t) {
      if t in stood { assert Wanted(s.ctl, t); }
    }
  }

  // One agent's state replaced, its window kept.
  lemma Repends(s: Session, live: Calls, armed: nat, loose: set<Name>, name: Name, st: AgentState)
    requires Wired(s, live, armed, loose) && name in s.ctl.agents
    requires var was := s.ctl.agents[name];
             st.call == was.call && st.due == was.due && st.generation == was.generation
    ensures Wired(s.(ctl := s.ctl.(agents := s.ctl.agents[name := st])), live, armed, loose + {name})
  {
    var agents := s.ctl.agents[name := st];
    assert AgentWired(s.ctl.reach, live, name, s.ctl.agents[name], name in loose);
    forall a | a in agents ensures AgentWired(s.ctl.reach, live, a, agents[a], a in loose + {name}) {
      if a != name { assert AgentWired(s.ctl.reach, live, a, s.ctl.agents[a], a in loose); }
    }
    forall t | t in live ensures Wanted(s.ctl.(agents := agents), t) {
      assert Wanted(s.ctl, t);
    }
  }

  // What a block adds to what it was told does not touch the wiring.
  lemma SameWiring(s: Session, t: Session, live: Calls, armed: nat, loose: set<Name>)
    requires Wired(s, live, armed, loose)
    requires t.ctl == s.ctl && t.judging == s.judging && t.touched == s.touched && t.wallDue == s.wallDue
    ensures Wired(t, live, armed, loose)
  {
  }

  lemma WiredAgent(s: Session, live: Calls, armed: nat, loose: set<Name>, name: Name)
    requires Wired(s, live, armed, loose) && name in s.ctl.agents
    ensures AgentWired(s.ctl.reach, live, name, s.ctl.agents[name], name in loose) && s.ctl.outcome.None?
  {
  }

  // The blocks

  lemma OpenWhileWired(s: Session, live: Calls, armed: nat, loose: set<Name>)
    requires Wired(s, live, armed, loose)
    ensures s.ctl.outcome.None?
  {
  }

  lemma TouchWires(s: Session, c: Clock<TimerCall>, loose: set<Name>)
    requires Loosely(s, c, loose)
    ensures var v := TouchIdle(WorldOf(s, c)); Loosely(After(s, v, []), v.clock, loose)
  {
    TouchWiresAs(s, c, loose, s.judging);
  }

  lemma TouchWiresAs(s: Session, c: Clock<TimerCall>, loose: set<Name>, judging: set<nat>)
    requires Loosely(s, c, loose)
    ensures var v := TouchIdle(WorldOf(s, c)); Loosely(After(s, v, []).(judging := judging), v.clock, loose)
  {
    hide Wired, Ordered, Live, CancelIf, Arm;
    var v := TouchIdle(WorldOf(s, c));
    var cut := CancelIf(c, s.ctl.idleCall);
    OpenWhileWired(s, Live(c), c.armed, loose);
    CancelIfStands(c, s.ctl.idleCall);
    assert cut.now == c.now by { CancelKeepsTime(c, s.ctl.idleCall); }
    ArmStands(cut, cut.now + s.ctl.idle, IdlePassed(s.ctl.idleGeneration + 1));
    TouchRewires(s, Live(c), c.armed, loose, c.now, Live(v.clock), judging);
    ArmKeepsTime(cut, cut.now + s.ctl.idle, IdlePassed(s.ctl.idleGeneration + 1));
    SameWiring(s.(touched := Some(c.now), judging := judging, ctl := v.ctl), After(s, v, []).(judging := judging),
               Live(v.clock), v.clock.armed, loose);
  }

  lemma CancelKeepsTime(c: Clock<TimerCall>, handle: Option<nat>)
    ensures CancelIf(c, handle).now == c.now
  {
  }

  lemma ArmKeepsTime(c: Clock<TimerCall>, when: Instant, call: TimerCall)
    ensures Arm(c, when, call).now == c.now
  {
  }

  // The first part of a dispatch: the window let go and nothing left pending.
  lemma LetGoWires(s: Session, c: Clock<TimerCall>, loose: set<Name>, name: Name)
    requires Loosely(s, c, loose) && name in s.ctl.agents
    ensures var st := s.ctl.agents[name];
            Loosely(s.(ctl := s.ctl.(agents := s.ctl.agents[name := Unarmed(st).(pending := map[])])),
                    CancelIf(c, st.call), loose + {name})
  {
    hide Wired, Ordered, Live, CancelIf;
    var st := s.ctl.agents[name];
    WiredAgent(s, Live(c), c.armed, loose, name);
    CancelIfStands(c, st.call);
    Rewires(s, Live(c), c.armed, loose, name, Unarmed(st).(pending := map[]), Live(CancelIf(c, st.call)), c.armed);
  }

  // The last part: what the agent has been told, its window kept.
  lemma ToldWires(s: Session, c: Clock<TimerCall>, loose: set<Name>, name: Name, st: AgentState)
    requires Loosely(s, c, loose) && name in s.ctl.agents && st.pending == map[]
    requires var was := s.ctl.agents[name];
             st.call == was.call && st.due == was.due && st.generation == was.generation
    ensures Loosely(s.(ctl := s.ctl.(agents := s.ctl.agents[name := st])), c, loose - {name})
  {
    hide Wired, Ordered, Live;
    Repends(s, Live(c), c.armed, loose, name, st);
    var t := s.(ctl := s.ctl.(agents := s.ctl.agents[name := st]));
    WiredAgent(t, Live(c), c.armed, loose + {name}, name);
    Tightens(t, Live(c), c.armed, loose + {name}, name);
    assert (loose + {name}) - {name} == loose - {name};
  }

  lemma DispatchWires(s: Session, c: Clock<TimerCall>, loose: set<Name>, name: Name)
    requires Loosely(s, c, loose) && name in s.ctl.agents
    requires CarrierFor(s.ctl.reach, s.ctl.agents[name].decl).Some?
    ensures var (v, d) := Dispatch(WorldOf(s, c), name); Loosely(After(s, v, [d]), v.clock, loose - {name})
  {
    hide Loosely, CancelIf, Arm;
    var st := s.ctl.agents[name];
    var calm := Unarmed(st).(pending := map[]);
    LetGoWires(s, c, loose, name);
    var let := s.(ctl := s.ctl.(agents := s.ctl.agents[name := calm]));
    var cut := CancelIf(c, st.call);
    TouchWires(let, cut, loose + {name});
    var touched := TouchIdle(WorldOf(let, cut));
    var after := After(let, touched, []);
    var told := Unarmed(st).(pending := map[], notified := Max(st.notified, s.ctl.last));
    ToldWires(after, touched.clock, loose + {name}, name, told);
    var (v, d) := Dispatch(WorldOf(s, c), name);
    assert (loose + {name}) - {name} == loose - {name};
    SameStands(after.(ctl := v.ctl), After(s, v, [d]), v.clock, loose - {name});
  }

  lemma SameStands(s: Session, t: Session, c: Clock<TimerCall>, loose: set<Name>)
    requires Loosely(s, c, loose)
    requires t.ctl == s.ctl && t.judging == s.judging && t.touched == s.touched && t.wallDue == s.wallDue
    ensures Loosely(t, c, loose)
  {
    hide Wired;
    SameWiring(s, t, Live(c), c.armed, loose);
  }

  lemma Settles(s: Session, t: Session, c: Clock<TimerCall>, loose: set<Name>, name: Name)
    requires Loosely(s, c, loose)
    requires t.ctl == s.ctl && t.judging == s.judging && t.touched == s.touched && t.wallDue == s.wallDue
    requires name in s.ctl.agents ==> AgentWired(s.ctl.reach, Live(c), name, s.ctl.agents[name], false)
    ensures Loosely(t, c, loose - {name})
  {
    hide Wired;
    Tightens(s, Live(c), c.armed, loose, name);
    SameWiring(s, t, Live(c), c.armed, loose - {name});
  }

  lemma EvaluateWires(s: Session, c: Clock<TimerCall>, loose: set<Name>, name: Name)
    requires Loosely(s, c, loose)
    ensures var (v, ds) := Evaluate(WorldOf(s, c), name); Loosely(After(s, v, ds), v.clock, loose - {name})
  {
    var w := WorldOf(s, c);
    var (v, ds) := Evaluate(w, name);
    hide Wired, Ordered, Live, Dispatch, CancelIf, Arm;
    if name in s.ctl.agents { WiredAgent(s, Live(c), c.armed, loose, name); }
    if name !in s.ctl.agents || s.ctl.agents[name].pending == map[] {
      Settles(s, After(s, v, ds), c, loose, name);
    } else {
      var st := s.ctl.agents[name];
      hide Loosely;
      if CarrierFor(w.ctl.reach, st.decl).None? || w.ctl.last <= st.acked {
        ToldWires(s, c, loose, name, st.(pending := map[]));
        SameStands(s.(ctl := v.ctl), After(s, v, ds), c, loose - {name});
      } else if LeastOf(st.pending) <= c.now {
        DispatchWires(s, c, loose, name);
      } else if st.due.None? || LeastOf(st.pending) < st.due.value {
        RearmWires(s, c, loose, name, LeastOf(st.pending));
        SameStands(s.(ctl := v.ctl), After(s, v, ds), v.clock, loose - {name});
      } else {
        Settles(s, After(s, v, ds), c, loose, name);
      }
    }
  }

  lemma RearmWires(s: Session, c: Clock<TimerCall>, loose: set<Name>, name: Name, earliest: Instant)
    requires Loosely(s, c, loose) && name in s.ctl.agents
    requires CarrierFor(s.ctl.reach, s.ctl.agents[name].decl).Some?
    requires forall r :: r in s.ctl.agents[name].pending ==> earliest <= s.ctl.agents[name].pending[r]
    ensures var st := s.ctl.agents[name];
            var cut := CancelIf(c, st.call);
            var armed := st.(call := Some(cut.armed), due := Some(earliest), generation := st.generation + 1);
            Loosely(s.(ctl := s.ctl.(agents := s.ctl.agents[name := armed])),
                    Arm(cut, earliest, CloseWindow(name, st.generation + 1)), loose - {name})
  {
    hide Wired, Ordered, Live, CancelIf, Arm;
    var st := s.ctl.agents[name];
    var cut := CancelIf(c, st.call);
    var armed := st.(call := Some(cut.armed), due := Some(earliest), generation := st.generation + 1);
    var d := Arm(cut, earliest, CloseWindow(name, st.generation + 1));
    CancelIfStands(c, st.call);
    ArmStands(cut, earliest, CloseWindow(name, st.generation + 1));
    Rewires(s, Live(c), c.armed, loose, name, armed, Live(d), d.armed);
    var t := s.(ctl := s.ctl.(agents := s.ctl.agents[name := armed]));
    WiredAgent(t, Live(d), d.armed, loose + {name}, name);
    Tightens(t, Live(d), d.armed, loose + {name}, name);
    assert loose + {name} - {name} == loose - {name};
  }

  lemma {:induction false} EvaluateAllWires(s: Session, c: Clock<TimerCall>, loose: set<Name>, order: seq<Name>)
    requires Loosely(s, c, loose)
    ensures var (v, ds) := EvaluateAll(WorldOf(s, c), order);
            Loosely(After(s, v, ds), v.clock, loose - set a | a in order)
  {
    hide Loosely, Evaluate;
    var w := WorldOf(s, c);
    var (v, ds) := EvaluateAll(w, order);
    if order == [] {
      assert loose - (set a | a in order) == loose;
      SameStands(s, After(s, v, ds), c, loose);
    } else {
      var init, last := order[..|order| - 1], order[|order| - 1];
      var (u, es) := EvaluateAll(w, init);
      EvaluateAllWires(s, c, loose, init);
      EvaluateWires(After(s, u, es), u.clock, loose - (set a | a in init), last);
      var (x, fs) := Evaluate(u, last);
      EvaluateAllBlocks(w, init);
      EvaluateBlocks(u, last);
      TwiceAfter(s, c, u, es, x, fs, loose - (set a | a in init) - {last});
      assert order == init + [last];
      assert loose - (set a | a in init) - {last} == loose - (set a | a in order);
    }
  }

  // Two blocks one after the other are one block.
  lemma TwiceAfter(
    s: Session, c: Clock<TimerCall>, v: World, ds: seq<Delivery>, u: World, es: seq<Delivery>, loose: set<Name>)
    requires Blocks(WorldOf(s, c), v) && Blocks(v, u)
    requires Loosely(After(After(s, v, ds), u, es), u.clock, loose)
    ensures Loosely(After(s, u, ds + es), u.clock, loose)
  {
    hide Loosely;
    SameStands(After(After(s, v, ds), u, es), After(s, u, ds + es), u.clock, loose);
  }

  lemma NoteWires(s: Session, c: Clock<TimerCall>, loose: set<Name>, name: Name, region: Region, writer: Name)
    requires Loosely(s, c, loose)
    ensures var (v, ds) := Note(WorldOf(s, c), name, region, writer); Loosely(After(s, v, ds), v.clock, loose)
  {
    hide Loosely, Evaluate;
    var w := WorldOf(s, c);
    var (v, ds) := Note(w, name, region, writer);
    if name !in s.ctl.agents || region !in s.ctl.kinds || region !in s.ctl.windows || name == writer
       || !Wants(s.ctl.agents[name].decl.subs, region, s.ctl.kinds[region]) {
      SameStands(s, After(s, v, ds), c, loose);
    } else {
      var st := s.ctl.agents[name];
      var waiting := st.(pending := AddDue(st.pending, region, c.now + s.ctl.windows[region]));
      WaitingWires(s, c, loose, name, waiting);
      var added := s.(ctl := s.ctl.(agents := s.ctl.agents[name := waiting]));
      EvaluateWires(added, c, loose + {name}, name);
      NoLooser(After(added, v, ds), v.clock, loose + {name} - {name}, loose);
      SameStands(After(added, v, ds), After(s, v, ds), v.clock, loose);
    }
  }

  lemma WaitingWires(s: Session, c: Clock<TimerCall>, loose: set<Name>, name: Name, st: AgentState)
    requires Loosely(s, c, loose) && name in s.ctl.agents && st == s.ctl.agents[name].(pending := st.pending)
    ensures Loosely(s.(ctl := s.ctl.(agents := s.ctl.agents[name := st])), c, loose + {name})
  {
    hide Wired;
    Repends(s, Live(c), c.armed, loose, name, st);
  }

  lemma NoLooser(s: Session, c: Clock<TimerCall>, loose: set<Name>, looser: set<Name>)
    requires Loosely(s, c, loose) && loose <= looser
    ensures Loosely(s, c, looser)
  {
    forall a | a in s.ctl.agents ensures AgentWired(s.ctl.reach, Live(c), a, s.ctl.agents[a], a in looser) {
      assert AgentWired(s.ctl.reach, Live(c), a, s.ctl.agents[a], a in loose);
    }
  }

  lemma {:induction false} NoteAllWires(
    s: Session, c: Clock<TimerCall>, loose: set<Name>, order: seq<Name>, region: Region, writer: Name)
    requires Loosely(s, c, loose)
    ensures var (v, ds) := NoteAll(WorldOf(s, c), order, region, writer); Loosely(After(s, v, ds), v.clock, loose)
  {
    hide Loosely, Note;
    var w := WorldOf(s, c);
    var (v, ds) := NoteAll(w, order, region, writer);
    if order == [] {
      SameStands(s, After(s, v, ds), c, loose);
    } else {
      var init, last := order[..|order| - 1], order[|order| - 1];
      var (u, es) := NoteAll(w, init, region, writer);
      NoteAllWires(s, c, loose, init, region, writer);
      NoteWires(After(s, u, es), u.clock, loose, last, region, writer);
      var (x, fs) := Note(u, last, region, writer);
      NoteAllBlocks(w, init, region, writer);
      NoteBlocks(u, last, region, writer);
      TwiceAfter(s, c, u, es, x, fs, loose);
    }
  }

  lemma SequenceWires(
    s: Session, c: Clock<TimerCall>, p: Proposal, key: Option<Key>, writer: Name, hearers: seq<Name>, order: seq<Name>)
    requires Loosely(s, c, {}) && p.region in s.ctl.windows
    ensures var (v, ds, _) := Sequence(WorldOf(s, c), p, key, writer, hearers, order);
            Loosely(After(s, v, ds), v.clock, {})
  {
    hide Wired, Ordered, Live, Put, WhoHears, ReachRest, NoteAll;
    var w := WorldOf(s, c);
    var (x, all, _) := Sequence(w, p, key, writer, hearers, order);
    OpenWhileWired(s, Live(c), c.armed, {});
    hide Loosely;
    var (rec, answer) := Put(w.rec, p, key, writer, WhoHears(w.rec, w.ctl.kinds, p.region, writer));
    if answer.Done? && !answer.written.repeated {
      var landed := w.(rec := rec, ctl := w.ctl.(last := answer.written.sequence));
      ReachRestHere(landed, hearers, w.ctl.windows[p.region]);
      var (v, ds) := ReachRest(landed, hearers, w.ctl.windows[p.region]);
      LastWires(s, c, {}, v.ctl);
      var t := s.(ctl := v.ctl, rec := v.rec);
      SameStands(s.(ctl := v.ctl), t, c, {});
      NoteAllWires(t, c, {}, order, p.region, writer);
      var (u, es) := NoteAll(v, order, p.region, writer);
      SameStands(After(t, u, es), After(s, u, ds + es), u.clock, {});
    } else {
      SameStands(s, After(s, x, all), c, {});
    }
  }

  // Reading further, or a new tail pending, leaves every armed window armed.
  lemma LastWires(s: Session, c: Clock<TimerCall>, loose: set<Name>, ctl: Control)
    requires Loosely(s, c, {}) && ctl == s.ctl.(last := ctl.last, agents := ctl.agents)
    requires ctl.agents.Keys == s.ctl.agents.Keys
    requires forall a :: a in ctl.agents ==> ctl.agents[a] == s.ctl.agents[a].(pending := ctl.agents[a].pending)
    requires forall a :: a in ctl.agents && a !in loose ==> ctl.agents[a] == s.ctl.agents[a]
    ensures Loosely(s.(ctl := ctl), c, loose)
  {
    var live := Live(c);
    forall a | a in ctl.agents ensures AgentWired(ctl.reach, live, a, ctl.agents[a], a in loose) {
      assert AgentWired(s.ctl.reach, live, a, s.ctl.agents[a], a in {});
    }
    forall t | t in live ensures Wanted(ctl, t) {
      assert Wanted(s.ctl, t);
    }
  }

  lemma {:induction false} TailWires(s: Session, c: Clock<TimerCall>, only: Option<set<Name>>, order: seq<Name>)
    requires Loosely(s, c, {}) && s.ctl.kinds.Keys == s.ctl.windows.Keys
    requires forall a :: a in Considered(s.ctl, only) ==> a in order
    ensures var (v, ds) := EvaluateAll(TakeTail(WorldOf(s, c), only), order);
            Loosely(After(s, v, ds), v.clock, {})
  {
    hide Wired, Ordered, Live;
    var w := WorldOf(s, c);
    var tailed := TakeTail(w, only);
    var (v, ds) := EvaluateAll(tailed, order);
    LastWires(s, c, Considered(s.ctl, only), tailed.ctl);
    hide TakeTail, EvaluateAll, Loosely;
    EvaluateAllWires(s.(ctl := tailed.ctl), c, Considered(s.ctl, only), order);
    assert Considered(s.ctl, only) - (set a | a in order) == {};
    SameStands(After(s.(ctl := tailed.ctl), v, ds), After(s, v, ds), v.clock, {});
  }

  lemma RegisterWires(s: Session, c: Clock<TimerCall>, decl: Declaration)
    requires Loosely(s, c, {}) && s.ctl.kinds.Keys == s.ctl.windows.Keys
    ensures var (v, ds) := Register(WorldOf(s, c), decl); Loosely(After(s, v, ds), v.clock, {})
  {
    hide Wired, Ordered, Live, Evaluate, CancelIf;
    var w := WorldOf(s, c);
    var joined := Join(w, decl);
    var (v, ds) := Evaluate(joined, decl.name);
    CancelIfStands(c, CallOf(s.ctl, decl.name));
    Rewires(s, Live(c), c.armed, {}, decl.name, Joining(w, decl), Live(joined.clock), joined.clock.armed);
    CancelKeepsTime(c, CallOf(s.ctl, decl.name));
    hide Loosely, Joining;
    var t := s.(ctl := joined.ctl, rec := joined.rec);
    SameStands(s.(ctl := joined.ctl), t, joined.clock, {} + {decl.name});
    EvaluateWires(t, joined.clock, {} + {decl.name}, decl.name);
    assert {} + {decl.name} - {decl.name} == {};
    SameStands(After(t, v, ds), After(s, v, ds), v.clock, {});
  }

  // Closing leaves no call standing.
  lemma CloseSilences(s: Session, c: Clock<TimerCall>, outcome: Outcome)
    requires Loosely(s, c, {})
    ensures var v := Close(WorldOf(s, c), outcome);
            v.ctl.outcome.Some? && Ordered(v.clock) && Silent(After(s, v, []), Live(v.clock))
  {
    var v := Close(WorldOf(s, c), outcome);
    CancelAllStands(c, Handles(s.ctl));
    forall t | t in Live(c) ensures t.order in Handles(s.ctl) {
      assert Wanted(s.ctl, t);
    }
    assert forall a :: a in s.ctl.agents ==> AgentWired(s.ctl.reach, Live(c), a, s.ctl.agents[a], false);
    assert Live(v.clock) == {};
  }

  // Every act keeps it

  // A closed Control stays closed and silent, and sequences, declares, tells
  // and touches nothing on the record.
  lemma ClosedStays(s: Session, c: Clock<TimerCall>, act: Act)
    requires Standing(s, c) && s.ctl.outcome.Some?
    ensures var (t, d) := Does(s, c, act);
            && Standing(t, d) && t.ctl.outcome == s.ctl.outcome && d == c
            && (act.Joins? || act.Writes? || act.Touches? || act.Polls? || act.RelaysHeld? || act.Aborts? || act.Verdict?
                ==> t.rec == s.rec)
  {
    var (t, d) := Does(s, c, act);
    assert d == c;
    assert t.ctl == s.ctl || (act.AckHeres? && t.ctl == AckHere(WorldOf(s, c), act.agent, act.through).ctl);
  }

  lemma VerdictWires(s: Session, c: Clock<TimerCall>, generation: nat, complete: bool)
    requires Loosely(s, c, {})
    ensures var (t, d) := Does(s, c, Verdict(generation, complete)); Standing(t, d)
  {
    OpenWhileWired(s, Live(c), c.armed, {});
    var (t, d) := Does(s, c, Verdict(generation, complete));
    if generation in s.judging {
      if generation != s.ctl.idleGeneration {
        assert Told([]) == {};
        FewerJudged(s, Live(c), c.armed, generation);
      } else if complete {
        CloseSilences(s, c, Settled(Unfinished(s.rec)));
        hide Close, Wired;
        var v := Close(WorldOf(s, c), Settled(Unfinished(s.rec)));
        assert Silent(t, Live(d));
      } else {
        TouchWiresAs(s, c, {}, s.judging - {generation});
        hide Wired;
        OpenWhileWired(t, Live(d), d.armed, {});
      }
    }
  }

  lemma FewerJudged(s: Session, live: Calls, armed: nat, generation: nat)
    requires Wired(s, live, armed, {}) && generation != s.ctl.idleGeneration
    ensures Wired(s.(judging := s.judging - {generation}, told := s.told + {}), live, armed, {})
  {
  }

  lemma StandsOpen(s: Session, c: Clock<TimerCall>)
    requires Loosely(s, c, {})
    ensures Standing(s, c)
  {
  }

  lemma DoesWires(s: Session, c: Clock<TimerCall>, act: Act)
    requires Standing(s, c)
    ensures var (t, d) := Does(s, c, act); Standing(t, d)
  {
    if s.ctl.outcome.Some? {
      ClosedStays(s, c, act);
    } else {
      assert Loosely(s, c, {});
      StandsOpen(s, c);
      var w := WorldOf(s, c);
      var (t, d) := Does(s, c, act);
      hide Standing, Loosely, Register, Sequence, EvaluateAll, TakeTail, Close, TouchIdle;
      match act {
        case Joins(decl) =>
          if Accepts(s.ctl, decl) {
            RegisterWires(s, c, decl);
            SameStands(After(s, Register(w, decl).0, Register(w, decl).1), t, d, {});
            StandsOpen(t, d);
          }
        case Writes(p, key, writer, hearers, order) =>
          if p.region in s.ctl.windows && Enumerates(order, s.ctl.agents.Keys) {
            SequenceWires(s, c, p, key, writer, hearers, order);
            StandsOpen(t, d);
          }
        case Touches =>
          TouchWires(s, c, {});
          StandsOpen(t, d);
        case Polls(order) => PollWires(s, c, order);
        case RelaysHeld(owed) => RelayHeldWires(s, c, owed);
        case Aborts(reason) =>
          CloseSilences(s, c, Aborted(reason, {}));
          SilentStands(t, d);
        case Verdict(generation, complete) => VerdictWires(s, c, generation, complete);
        case AckHeres(agent, through) => AckHereWires(s, c, agent, through);
        case _ =>
          SameStands(s, t, c, {});
          StandsOpen(t, d);
      }
    }
  }

  lemma SilentStands(s: Session, c: Clock<TimerCall>)
    requires Ordered(c) && Silent(s, Live(c))
    ensures Standing(s, c)
  {
  }

  lemma AckHereWires(s: Session, c: Clock<TimerCall>, agent: Name, through: int)
    requires Loosely(s, c, {})
    ensures var (t, d) := Does(s, c, AckHeres(agent, through)); Standing(t, d)
  {
    var (t, d) := Does(s, c, AckHeres(agent, through));
    if agent in s.ctl.agents && t != s {
      WiredAgent(s, Live(c), c.armed, {}, agent);
      hide Wired;
      Repends(s, Live(c), c.armed, {}, agent, t.ctl.agents[agent]);
      var u := s.(ctl := s.ctl.(agents := s.ctl.agents[agent := t.ctl.agents[agent]]));
      Tightens(u, Live(c), c.armed, {} + {agent}, agent);
      assert {} + {agent} - {agent} == {};
      SameWiring(u, t, Live(c), c.armed, {});
      OpenWhileWired(t, Live(c), c.armed, {});
    } else {
      hide Wired;
      SameWiring(s, t, Live(c), c.armed, {});
      OpenWhileWired(t, Live(c), c.armed, {});
    }
  }

  lemma PollWires(s: Session, c: Clock<TimerCall>, order: seq<Name>)
    requires Loosely(s, c, {})
    ensures var (t, d) := Does(s, c, Polls(order)); Standing(t, d)
  {
    StandsOpen(s, c);
    OpenWhileWired(s, Live(c), c.armed, {});
    hide Standing, Loosely, EvaluateAll, TakeTail, Close;
    var (t, d) := Does(s, c, Polls(order));
    if Enumerates(order, s.ctl.agents.Keys) && s.ctl.kinds.Keys == s.ctl.windows.Keys {
      if s.rec.run.None? {
        SameStands(s, t, c, {});
        StandsOpen(t, d);
      } else if s.rec.run.value.closed.Some? {
        CloseSilences(s, c, OutcomeOf(s.rec.run.value));
        SilentStands(t, d);
      } else {
        TailWires(s, c, None, order);
        StandsOpen(t, d);
      }
    }
  }

  lemma RelayHeldWires(s: Session, c: Clock<TimerCall>, owed: seq<Name>)
    requires Loosely(s, c, {})
    ensures var (t, d) := Does(s, c, RelaysHeld(owed)); Standing(t, d)
  {
    StandsOpen(s, c);
    hide Standing, Loosely, EvaluateAll, TakeTail;
    var (t, d) := Does(s, c, RelaysHeld(owed));
    if s.ctl.kinds.Keys == s.ctl.windows.Keys {
      if s.ctl.outcome.Some? || owed == [] || s.rec.run.None? {
        SameStands(s, t, c, {});
      } else {
        TailWires(s, c, Some(set a | a in owed), owed);
      }
      StandsOpen(t, d);
    }
  }

  // Every firing keeps it

  lemma LapseWires(s: Session, c: Clock<TimerCall>, d: Clock<TimerCall>, t: Timer<TimerCall>)
    requires Loosely(s, c, {}) && Ordered(d) && d.armed == c.armed
    requires t in Live(c) && t.call.CloseWindow?
    requires forall u :: u in Live(d) <==> u in Live(c) && u.order != t.order
    ensures t.call.agent in s.ctl.agents && t.call.generation == s.ctl.agents[t.call.agent].generation
    ensures var st := s.ctl.agents[t.call.agent];
            var lapsed := st.(call := None, due := None, generation := st.generation + 1);
            && (st.pending != map[] ==> CarrierFor(s.ctl.reach, st.decl).Some?)
            && Loosely(s.(ctl := s.ctl.(agents := s.ctl.agents[t.call.agent := lapsed])), d, {t.call.agent})
  {
    var name := t.call.agent;
    assert Wanted(s.ctl, t);
    WiredAgent(s, Live(c), c.armed, {}, name);
    var st := s.ctl.agents[name];
    assert WindowCall(name, st) == t;
    hide Wired;
    Rewires(s, Live(c), c.armed, {}, name, st.(call := None, due := None, generation := st.generation + 1),
            Live(d), d.armed);
    assert {} + {name} == {name};
  }

  lemma CloseWindowWires(s: Session, c: Clock<TimerCall>, d: Clock<TimerCall>, t: Timer<TimerCall>)
    requires Loosely(s, c, {}) && Ordered(d) && d.armed == c.armed
    requires t in Live(c) && t.call.CloseWindow?
    requires forall u :: u in Live(d) <==> u in Live(c) && u.order != t.order
    ensures var (v, ds) := CloseWindowFires(WorldOf(s, d), t.call.agent, t.call.generation);
            Loosely(After(s, v, ds), v.clock, {})
  {
    hide Wired, Ordered, Live, Dispatch;
    LapseWires(s, c, d, t);
    OpenWhileWired(s, Live(c), c.armed, {});
    var name := t.call.agent;
    var st := s.ctl.agents[name];
    var lapsed := s.(ctl := s.ctl.(agents := s.ctl.agents[name :=
      st.(call := None, due := None, generation := st.generation + 1)]));
    var (v, ds) := CloseWindowFires(WorldOf(s, d), name, t.call.generation);
    assert {name} - {name} == {};
    if st.pending == map[] {
      Settles(lapsed, After(s, v, ds), d, {name}, name);
    } else {
      hide Loosely;
      DispatchWires(lapsed, d, {name}, name);
      SameStands(After(lapsed, v, ds), After(s, v, ds), v.clock, {});
    }
  }

  // The call taken off the clock, and its block.
  lemma FiredWires(s: Session, c: Clock<TimerCall>, target: Instant)
    requires Standing(s, c) && TakeDue(c, target).1.Some?
    ensures var (d, head) := TakeDue(c, target);
            var (t, e) := Fired(s, d, head.value.call);
            Standing(t, e)
  {
    TakeDueTakes(c, target);
    var (d, head) := TakeDue(c, target);
    var t := head.value;
    assert t in Live(c);
    assert forall u :: u in Live(d) <==> u in Live(c) && u.order != t.order;
    assert Loosely(s, c, {});
    hide TakeDue, Live;
    match t.call {
      case CloseWindow(agent, generation) =>
        hide Wired;
        CloseWindowWires(s, c, d, t);
        hide Loosely, CloseWindowFires, Ordered;
        StandsOpen(Fired(s, d, t.call).0, Fired(s, d, t.call).1);
      case IdlePassed(generation) => IdleFiredWires(s, c, d, t);
      case WallClockPassed =>
        Unstands(s, c, d, t);
        hide Wired, Ordered;
        assert s.ctl.outcome.None?;
        SilentStands(Fired(s, d, t.call).0, Fired(s, d, t.call).1);
    }
  }

  // Closing on a call just taken.
  lemma Unstands(s: Session, c: Clock<TimerCall>, d: Clock<TimerCall>, t: Timer<TimerCall>)
    requires Loosely(s, c, {}) && Ordered(d) && t in Live(c)
    requires forall u :: u in Live(d) <==> u in Live(c) && u.order != t.order
    ensures forall outcome :: var v := Close(WorldOf(s, d), outcome);
              v.ctl.outcome.Some? && Ordered(v.clock) && Silent(After(s, v, []), Live(v.clock))
  {
    CancelAllStands(d, Handles(s.ctl));
    forall u | u in Live(d) ensures u.order in Handles(s.ctl) {
      assert Wanted(s.ctl, u);
    }
    assert forall a :: a in s.ctl.agents ==> AgentWired(s.ctl.reach, Live(c), a, s.ctl.agents[a], false);
    assert Live(CancelAll(d, Handles(s.ctl))) == {};
  }

  lemma IdleFiredWires(s: Session, c: Clock<TimerCall>, d: Clock<TimerCall>, t: Timer<TimerCall>)
    requires Loosely(s, c, {}) && Ordered(d) && d.armed == c.armed && t in Live(c) && t.call.IdlePassed?
    requires forall u :: u in Live(d) <==> u in Live(c) && u.order != t.order
    ensures var (u, e) := Fired(s, d, t.call); Standing(u, e)
  {
    assert Wanted(s.ctl, t);
    assert t.call.generation == s.ctl.idleGeneration;
    if s.ctl.judged {
      JudgedWires(s, Live(c), c.armed, t, Live(d));
    } else {
      Unstands(s, c, d, t);
      hide Wired, Ordered, Live;
      SilentStands(Fired(s, d, t.call).0, Fired(s, d, t.call).1);
    }
  }

  lemma JudgedWires(s: Session, stood: Calls, armed: nat, t: Timer<TimerCall>, live: Calls)
    requires Wired(s, stood, armed, {}) && t in stood && t.call == IdlePassed(s.ctl.idleGeneration)
    requires forall u :: u in live <==> u in stood && u.order != t.order
    ensures Wired(s.(judging := s.judging + {s.ctl.idleGeneration}), live, armed, {})
  {
    forall a | a in s.ctl.agents ensures AgentWired(s.ctl.reach, live, a, s.ctl.agents[a], false) {
      assert AgentWired(s.ctl.reach, stood, a, s.ctl.agents[a], false);
      if s.ctl.agents[a].call.Some? { assert WindowCall(a, s.ctl.agents[a]) in stood; }
    }
    forall u | u in live ensures Wanted(s.ctl, u) {
      assert Wanted(s.ctl, u);
    }
  }

  // A life of acts and advances

  lemma BeginsStanding(
    kinds: map<Region, Kind>, windows: map<Region, Duration>, wall: Duration, idle: Duration,
    reach: bool, judged: bool, start: Instant, rec: Record)
    ensures var (s, c) := Begins(kinds, windows, wall, idle, reach, judged, start, rec); Standing(s, c)
  {
    var (s, c) := Begins(kinds, windows, wall, idle, reach, judged, start, rec);
    var t := Timer(start + wall, 0, WallClockPassed, false);
    assert c.scheduled == [t];
    OneLive(c, t);
    hide Live;
  }

  lemma OneLive(c: Clock<TimerCall>, t: Timer<TimerCall>)
    requires c.scheduled == [t] && !t.cancelled
    ensures Live(c) == {t}
  {
  }

  lemma {:induction false} ActsKeepStanding(s: Session, c: Clock<TimerCall>, acts: seq<Act>)
    requires Standing(s, c)
    ensures var (t, d) := DoesAll(s, c, acts); Standing(t, d)
    ensures var (t, d) := DoesAll(s, c, acts); Later(c, d)
  {
    hide Standing, Does;
    ArmIsLater(c, 0, WallClockPassed);
    if acts != [] {
      var init, last := acts[..|acts| - 1], acts[|acts| - 1];
      ActsKeepStanding(s, c, init);
      var (t, d) := DoesAll(s, c, init);
      DoesWires(t, d, last);
      DoesBlocks(t, d, last);
      LaterTransitive(c, d, Does(t, d, last).1);
    }
  }

  lemma {:induction false} ActsAreLater(s: Session, c: Clock<TimerCall>, acts: seq<Act>)
    ensures Later(c, DoesAll(s, c, acts).1)
  {
    hide Does;
    ArmIsLater(c, 0, WallClockPassed);
    if acts != [] {
      var init, last := acts[..|acts| - 1], acts[|acts| - 1];
      ActsAreLater(s, c, init);
      var (t, d) := DoesAll(s, c, init);
      DoesBlocks(t, d, last);
      LaterTransitive(c, d, Does(t, d, last).1);
    }
  }

  // A callback of the clock is the Control's own block and then whatever acts
  // the application, with a state of its own, makes of what it delivered.
  ghost predicate Reacts<A(!new)>(fire: Callback<(Session, A), TimerCall>) {
    forall s: Session, app: A, c, t :: Reaction(fire, s, app, c, t)
  }

  ghost predicate Reaction<A(!new)>(
    fire: Callback<(Session, A), TimerCall>, s: Session, app: A, c: Clock<TimerCall>, t: Timer<TimerCall>)
  {
    var (u, d) := Fired(s, c, t.call);
    exists acts :: DoesAll(u, d, acts) == (fire((s, app), c, t).0.0, fire((s, app), c, t).1)
  }

  lemma ReactsIsWellBehaved<A(!new)>(fire: Callback<(Session, A), TimerCall>)
    requires Reacts(fire)
    ensures WellBehaved(fire)
  {
    forall w: (Session, A), c, t ensures Later(c, fire(w, c, t).1) {
      hide Fired, DoesAll;
      assert Reaction(fire, w.0, w.1, c, t);
      var (u, d) := Fired(w.0, c, t.call);
      var acts :| DoesAll(u, d, acts) == (fire((w.0, w.1), c, t).0.0, fire((w.0, w.1), c, t).1);
      FiredBlocks(w.0, c, t.call);
      ActsAreLater(u, d, acts);
      assert w == (w.0, w.1);
      LaterTransitive(c, d, fire(w, c, t).1);
    }
  }

  lemma TurnKeepsStanding<A(!new)>(
    w: (Session, A), c: Clock<TimerCall>, target: Instant, fire: Callback<(Session, A), TimerCall>)
    requires Standing(w.0, c) && Reacts(fire) && TakeDue(c, target).1.Some?
    ensures var (d, head) := TakeDue(c, target);
            var (x, e) := fire(w, d, head.value);
            Standing(x.0, e)
  {
    hide Standing, Fired, DoesAll, TakeDue;
    var (d, head) := TakeDue(c, target);
    FiredWires(w.0, c, target);
    assert Reaction(fire, w.0, w.1, d, head.value);
    var (u, e) := Fired(w.0, d, head.value.call);
    var acts :| DoesAll(u, e, acts) == (fire((w.0, w.1), d, head.value).0.0, fire((w.0, w.1), d, head.value).1);
    assert w == (w.0, w.1);
    ActsKeepStanding(u, e, acts);
  }

  lemma {:induction false} AdvanceKeepsStanding<A(!new)>(
    w: (Session, A), c: Clock<TimerCall>, target: Instant, fire: Callback<(Session, A), TimerCall>, turns: nat)
    requires Standing(w.0, c) && Reacts(fire)
    requires Drive(w, c, target, fire, turns).Some?
    ensures var d := Drive(w, c, target, fire, turns).value; Standing(d.world.0, d.clock)
    decreases turns
  {
    var (d, head) := TakeDue(c, target);
    if head.None? {
      NothingTaken(w.0, c, target);
    } else {
      TurnKeepsStanding(w, c, target, fire);
      hide Standing;
      var (x, e) := fire(w, d, head.value);
      AdvanceKeepsStanding(x, e, target, fire, turns - 1);
    }
  }

  lemma NothingTaken(s: Session, c: Clock<TimerCall>, target: Instant)
    requires Standing(s, c) && TakeDue(c, target).1.None?
    ensures Standing(s, TakeDue(c, target).0)
  {
    TakeDueTakes(c, target);
    var d := TakeDue(c, target).0;
    assert Live(d) == Live(c);
  }

  // What an advance leaves behind it. An open Control has no pending change
  // whose window has elapsed, has passed neither its wall clock limit nor an
  // idle limit no predicate is being asked about; a closed one has nothing
  // pending and no call standing.
  lemma {:induction false} NothingOverdue<A(!new)>(
    w: (Session, A), c: Clock<TimerCall>, target: Instant, fire: Callback<(Session, A), TimerCall>, turns: nat)
    requires Standing(w.0, c) && Reacts(fire) && c.now <= target
    requires Drive(w, c, target, fire, turns).Some?
    ensures var d := Drive(w, c, target, fire, turns).value;
            var s := d.world.0;
            && d.clock.now == target
            && (s.ctl.outcome.None? ==>
                  && (forall a, r :: a in s.ctl.agents && r in s.ctl.agents[a].pending ==>
                        s.ctl.agents[a].pending[r] > target)
                  && s.wallDue > target
                  && (s.touched.Some? && s.ctl.idleGeneration !in s.judging ==>
                        s.touched.value + s.ctl.idle > target))
            && (s.ctl.outcome.Some? ==>
                  && (forall a :: a in s.ctl.agents ==> s.ctl.agents[a].pending == map[])
                  && (forall t :: t in d.clock.scheduled ==> t.cancelled))
  {
    ReactsIsWellBehaved(fire);
    AdvanceKeepsStanding(w, c, target, fire, turns);
    AdvanceReachesTarget(w, c, target, fire, turns);
    var d := Drive(w, c, target, fire, turns).value;
    hide Drive, Reacts;
    var s := d.world.0;
    if s.ctl.outcome.None? {
      forall a, r | a in s.ctl.agents && r in s.ctl.agents[a].pending
        ensures s.ctl.agents[a].pending[r] > target
      {
        WiredAgent(s, Live(d.clock), d.clock.armed, {}, a);
        assert WindowCall(a, s.ctl.agents[a]) in Live(d.clock);
      }
    } else {
      forall t | t in d.clock.scheduled ensures t.cancelled {
        assert t !in Live(d.clock);
      }
    }
  }

  // A standing Control carries all it holds pending.
  lemma StandingCarries(s: Session, c: Clock<TimerCall>)
    requires Standing(s, c)
    ensures Carried(s.ctl)
  {
    forall a | a in s.ctl.agents && s.ctl.agents[a].pending != map[]
      ensures CarrierFor(s.ctl.reach, s.ctl.agents[a].decl).Some?
    {
      if s.ctl.outcome.None? { WiredAgent(s, Live(c), c.armed, {}, a); }
    }
  }

  // The range of a notification

  // A notification covers something unless its agent has answered all this
  // process has read, which is asked before a dispatch and not as a window
  // closes: there the range is empty exactly when it would have been refused.
  lemma WindowRangeIff(w: World, name: Name, generation: nat)
    requires w.ctl.outcome.None? && name in w.ctl.agents && w.ctl.agents[name].generation == generation
    requires w.ctl.agents[name].pending != map[] && CarrierFor(w.ctl.reach, w.ctl.agents[name].decl).Some?
    ensures var ds := CloseWindowFires(w, name, generation).1;
            && |ds| == 1
            && (ds[0].note.from <= ds[0].note.to <==> w.ctl.last > w.ctl.agents[name].acked)
            && (w.ctl.last <= w.ctl.agents[name].acked <==>
                  Evaluate(w, name) == (WithAgent(w, name, w.ctl.agents[name].(pending := map[])), []))
  {
    var st := w.ctl.agents[name];
    if w.ctl.last > st.acked && LeastOf(st.pending) <= w.clock.now {
      assert Evaluate(w, name).1 != [];
    }
  }

  // And it is issued: an agent answers, to another process, all that a
  // window armed here was to tell it.
  const PREMISE: map<Region, Kind> := map["p" := PremiseKind]
  const WINDOW: map<Region, Duration> := map["p" := 5]
  const HELD := Declaration("a", Some(false), None, None, None)

  function Answering(log: seq<Entry>, notified: nat, acked: nat): Record {
    Record(0, PREMISE, log, Some(Records.Run(10, 100, None, None, {})),
           map["a" := Progress(notified, acked, None, None, None)], {})
  }

  function Awaiting(last: nat, st: AgentState, rec: Record): Session {
    Session(Control(PREMISE, WINDOW, 10, false, false, last, map["a" := st], None, 0, None, Some(0)),
            rec, {}, None, {}, 100)
  }

  const SET := Entry("p", "", Some(1), None, Some("writer"), 0)
  const WALL_CALL: Timer<TimerCall> := Timer(100, 0, WallClockPassed, false)
  const FRESH := AgentState(HELD, 0, 0, map[], None, None, 0)
  const WINDOWED := AgentState(HELD, 0, 0, map["p" := 5], Some(1), Some(5), 1)

  function ToldAcks(): seq<Act> {
    [Joins(HELD), Others(Answering([SET], 1, 0)), Polls(["a"]), AckStores("a", 1), AckHeres("a", 1)]
  }

  lemma EmptyRangeIsIssued()
    ensures var (s, c) := Begins(PREMISE, WINDOW, 100, 10, false, false, 0, Blank(0).(kinds := PREMISE));
            var (t, d) := DoesAll(s, c, ToldAcks());
            && Timer(5, 1, CloseWindow("a", 1), false) in Live(d)
            && CloseWindowFires(WorldOf(t, d), "a", 1).1
               == [Delivery(Callable(false), Notification(1, "a", 2, 1, {"p"}))]
  {
    var (s, c) := Begins(PREMISE, WINDOW, 100, 10, false, false, 0, Blank(0).(kinds := PREMISE));
    assert c.scheduled == [WALL_CALL];
    ToldAcksLead(s, c);
    EmptyRange(DoesAll(s, c, ToldAcks()).1);
  }

  lemma {:induction false} ToldAcksLead(s: Session, c: Clock<TimerCall>)
    requires (s, c) == Begins(PREMISE, WINDOW, 100, 10, false, false, 0, Blank(0).(kinds := PREMISE))
    requires c == Clock(0, [WALL_CALL], 1)
    ensures DoesAll(s, c, ToldAcks()) ==
            (Awaiting(1, WINDOWED.(acked := 1), Answering([SET], 1, 1)),
             Clock(0, [WALL_CALL, Timer(5, 1, CloseWindow("a", 1), false)], 2))
  {
    hide Does, Begins, Awaiting, Answering;
    var acts := ToldAcks();
    var d := Clock(0, [WALL_CALL, Timer(5, 1, CloseWindow("a", 1), false)], 2);
    OneAct(s, c, acts, 0);
    HeldJoins(s, c);
    OneAct(s, c, acts, 1);
    OthersAct(c);
    OneAct(s, c, acts, 2);
    HeldPolls(Awaiting(0, FRESH, Answering([SET], 1, 0)), c);
    OneAct(s, c, acts, 3);
    OneAct(s, c, acts, 4);
    HeldAnswers(d);
    assert acts[..5] == acts;
  }

  lemma OthersAct(c: Clock<TimerCall>)
    ensures Does(Awaiting(0, FRESH, Answering([], 0, 0)), c, Others(Answering([SET], 1, 0)))
            == (Awaiting(0, FRESH, Answering([SET], 1, 0)), c)
  {
  }

  lemma EmptyRange(c: Clock<TimerCall>)
    requires c == Clock(0, [WALL_CALL, Timer(5, 1, CloseWindow("a", 1), false)], 2)
    ensures var t := Awaiting(1, WINDOWED.(acked := 1), Answering([SET], 1, 1));
            && Timer(5, 1, CloseWindow("a", 1), false) in Live(c)
            && CloseWindowFires(WorldOf(t, c), "a", 1).1
               == [Delivery(Callable(false), Notification(1, "a", 2, 1, {"p"}))]
  {
    assert c.scheduled[1] in Live(c);
    assert map["p" := 5].Keys == {"p"};
  }

  lemma HeldJoins(s: Session, c: Clock<TimerCall>)
    requires (s, c) == Begins(PREMISE, WINDOW, 100, 10, false, false, 0, Blank(0).(kinds := PREMISE))
    ensures Does(s, c, Joins(HELD)) == (Awaiting(0, FRESH, Answering([], 0, 0)), c)
  {
    var w := WorldOf(s, c);
    assert PREMISE.Keys == WINDOW.Keys;
    assert Joining(w, HELD).pending == map[];
    assert Register(w, HELD) == (Join(w, HELD), []);
    assert Accepts(s.ctl, HELD);
    hide Register;
    assert Told([]) == {} && s.told - {"a"} + {} == {};
    var t := Does(s, c, Joins(HELD)).0;
    assert t.ctl.agents == map["a" := FRESH];
    assert t.rec == Answering([], 0, 0);
  }

  const TAILED := FRESH.(pending := map["p" := 5])

  lemma HeldTail(w: World)
    requires w == WorldOf(Awaiting(0, FRESH, Answering([SET], 1, 0)), Clock(0, [WALL_CALL], 1))
    ensures TakeTail(w, None) == w.(ctl := Awaiting(1, TAILED, w.rec).ctl)
  {
    assert PREMISE.Keys == WINDOW.Keys;
    assert Considered(w.ctl, None) == {"a"};
    var answered := map a | a in {"a"} :: w.ctl.agents[a].acked;
    assert answered["a"] == 0;
    assert FloorOf(w.ctl, {"a"}) == 0;
    assert AddTail(w, FRESH, 0, 0, false) == FRESH;
    assert AddTail(w, FRESH, 0, 1, false) == TAILED;
    assert TakeTail(w, None).ctl.agents == map["a" := TAILED];
  }

  lemma {:induction false} HeldEvaluates(w: World)
    requires w.ctl == Awaiting(1, TAILED, w.rec).ctl && w.clock == Clock(0, [WALL_CALL], 1)
    ensures EvaluateAll(w, ["a"]) ==
            (World(Awaiting(1, WINDOWED, w.rec).ctl,
                   Clock(0, [WALL_CALL, Timer(5, 1, CloseWindow("a", 1), false)], 2), w.rec), [])
  {
    assert map["p" := 5]["p"] == 5;
    assert LeastOf(map["p" := 5]) == 5;
    var v := Evaluate(w, "a").0;
    assert v.ctl.agents == map["a" := WINDOWED];
    assert v.clock.scheduled == [WALL_CALL, Timer(5, 1, CloseWindow("a", 1), false)];
    assert v.ctl == Awaiting(1, WINDOWED, w.rec).ctl && v.clock.armed == 2;
    assert v == World(Awaiting(1, WINDOWED, w.rec).ctl, v.clock, w.rec);
    assert v.clock == Clock(0, [WALL_CALL, Timer(5, 1, CloseWindow("a", 1), false)], 2);
    assert Evaluate(w, "a") == (v, []);
    hide Evaluate, Awaiting;
    assert ["a"][..0] == [];
    assert EvaluateAll(w, []) == (w, []);
    var none: seq<Delivery> := [];
    assert none + none == none;
    assert EvaluateAll(w, ["a"]) == (v, none + none);
  }

  lemma HeldPolls(s: Session, c: Clock<TimerCall>)
    requires s == Awaiting(0, FRESH, Answering([SET], 1, 0)) && c == Clock(0, [WALL_CALL], 1)
    ensures Does(s, c, Polls(["a"])) ==
            (Awaiting(1, WINDOWED, Answering([SET], 1, 0)),
             Clock(0, [WALL_CALL, Timer(5, 1, CloseWindow("a", 1), false)], 2))
  {
    assert PREMISE.Keys == WINDOW.Keys;
    assert Enumerates(["a"], s.ctl.agents.Keys);
    HeldTail(WorldOf(s, c));
    HeldEvaluates(TakeTail(WorldOf(s, c), None));
    hide TakeTail, EvaluateAll;
    assert Told([]) == {} && s.told + {} == {};
  }

  lemma HeldAnswers(c: Clock<TimerCall>)
    ensures Does(Awaiting(1, WINDOWED, Answering([SET], 1, 0)), c, AckStores("a", 1))
            == (Awaiting(1, WINDOWED, Answering([SET], 1, 1)), c)
    ensures Does(Awaiting(1, WINDOWED, Answering([SET], 1, 1)), c, AckHeres("a", 1))
            == (Awaiting(1, WINDOWED.(acked := 1), Answering([SET], 1, 1)), c)
  {
    var empty: set<Name> := {};
    assert Told([]) == {} && empty + {} == {};
    assert map["a" := Progress(1, 0, None, None, None)]["a" := Progress(1, 1, None, None, None)]
           == map["a" := Progress(1, 1, None, None, None)];
    assert map["a" := WINDOWED]["a" := WINDOWED.(acked := 1)] == map["a" := WINDOWED.(acked := 1)];
  }

  lemma {:induction false} OneAct(s: Session, c: Clock<TimerCall>, acts: seq<Act>, k: nat)
    requires k < |acts|
    ensures DoesAll(s, c, acts[..k + 1])
            == Does(DoesAll(s, c, acts[..k]).0, DoesAll(s, c, acts[..k]).1, acts[k])
    ensures k == 0 ==> DoesAll(s, c, acts[..k]) == (s, c)
  {
    hide Does;
    assert acts[..k + 1][..k] == acts[..k];
  }
}
