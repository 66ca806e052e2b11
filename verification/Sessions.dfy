// One Control and the clock it arms calls on, through everything that can
// happen to it: its own blocks, calls firing, and whatever other processes do
// to the record it shares.

module Sessions {
  import opened Values
  import opened Records
  import opened Clocks
  import opened Controls

  // A Control with what its life so far leaves to be asked about it: the idle
  // generations whose predicate is being asked, the instant of the last event
  // that moved its idle deadline, the agents it has told something since they
  // registered, and the instant its wall clock limit was armed for.
  datatype Session = Session(
    ctl: Control, rec: Record,
    judging: set<nat>, touched: Option<Instant>, told: set<Name>, wallDue: Instant)

  datatype Act =
    | Joins(decl: Declaration)
    | Writes(proposal: Proposal, key: Option<Key>, writer: Name, hearers: seq<Name>, order: seq<Name>)
    | Touches
    | AckStores(agent: Name, through: int)
    | AckHeres(agent: Name, through: int)
    | Polls(order: seq<Name>)
    | RelaysHeld(owed: seq<Name>)
    | Aborts(reason: string)
    | Verdict(generation: nat, complete: bool)
    | StoreTicks(span: nat)
    | RowsSent(agent: Name, through: int)
    // Anything other processes do to the record.
    | Others(rec: Record)

  function WorldOf(s: Session, c: Clock<TimerCall>): World { World(s.ctl, c, s.rec) }

  function Told(ds: seq<Delivery>): set<Name> { set d | d in ds :: d.note.agent }

  // A session after one of its blocks.
  function After(s: Session, v: World, ds: seq<Delivery>): Session {
    s.(ctl := v.ctl, rec := v.rec, told := s.told + Told(ds),
       touched := if v.ctl.idleGeneration != s.ctl.idleGeneration then Some(v.clock.now) else s.touched)
  }

  predicate Accepts(ctl: Control, decl: Declaration) {
    ctl.kinds.Keys == ctl.windows.Keys && RefusesAgent(ctl, decl).None?
  }

  ghost function Does(s: Session, c: Clock<TimerCall>, act: Act): (Session, Clock<TimerCall>) {
    var w := WorldOf(s, c);
    match act
    case Joins(decl) =>
      if !Accepts(s.ctl, decl) then (s, c)
      else
        var (v, ds) := Register(w, decl);
        (After(s.(told := s.told - {decl.name}), v, ds), v.clock)
    case Writes(proposal, key, writer, hearers, order) =>
      if proposal.region !in s.ctl.windows || !Enumerates(order, s.ctl.agents.Keys) then (s, c)
      else
        var (v, ds, _) := Sequence(w, proposal, key, writer, hearers, order);
        (After(s, v, ds), v.clock)
    case Touches => (After(s, TouchIdle(w), []), TouchIdle(w).clock)
    case AckStores(agent, through) => (s.(rec := Acknowledge(s.rec, agent, through).0), c)
    case AckHeres(agent, through) =>
      // What the record has just accepted.
      if agent !in s.rec.agents || through > s.rec.agents[agent].acked then (s, c)
      else (After(s, AckHere(w, agent, through), []), c)
    case Polls(order) =>
      if !Enumerates(order, s.ctl.agents.Keys) || s.ctl.kinds.Keys != s.ctl.windows.Keys then (s, c)
      else
        var (v, ds) := Poll(w, order);
        (After(s, v, ds), v.clock)
    case RelaysHeld(owed) =>
      if s.ctl.kinds.Keys != s.ctl.windows.Keys then (s, c)
      else
        var (v, ds) := RelayHeld(w, owed);
        (After(s, v, ds), v.clock)
    case Aborts(reason) =>
      var v := Close(w, Aborted(reason, {}));
      (After(s, v, []), v.clock)
    case Verdict(generation, complete) =>
      if generation !in s.judging then (s, c)
      else
        var v := IdleJudged(w, generation, complete);
        (After(s.(judging := s.judging - {generation}), v, []), v.clock)
    case StoreTicks(span) => (s.(rec := s.rec.(now := s.rec.now + span)), c)
    case RowsSent(agent, through) => (s.(rec := MarkSent(s.rec, agent, through)), c)
    case Others(rec) => (s.(rec := rec), c)
  }

  ghost function DoesAll(s: Session, c: Clock<TimerCall>, acts: seq<Act>): (Session, Clock<TimerCall>) {
    if acts == [] then (s, c)
    else
      var (t, d) := DoesAll(s, c, acts[..|acts| - 1]);
      Does(t, d, acts[|acts| - 1])
  }

  // A call firing. Where a predicate is to be asked, asking begins here and
  // its verdict is an act of its own.
  ghost function Fired(s: Session, c: Clock<TimerCall>, call: TimerCall): (Session, Clock<TimerCall>) {
    var w := WorldOf(s, c);
    match call
    case CloseWindow(agent, generation) =>
      var (v, ds) := CloseWindowFires(w, agent, generation);
      (After(s, v, ds), v.clock)
    case IdlePassed(generation) =>
      if s.ctl.judged && s.ctl.outcome.None? && generation == s.ctl.idleGeneration
      then (s.(judging := s.judging + {generation}), c)
      else
        var v := IdleFires(w, generation);
        (After(s, v, []), v.clock)
    case WallClockPassed =>
      var v := WallFires(w);
      (After(s, v, []), v.clock)
  }

  function Begins(
    kinds: map<Region, Kind>, windows: map<Region, Duration>, wall: Duration, idle: Duration,
    reach: bool, judged: bool, start: Instant, rec: Record): (Session, Clock<TimerCall>)
  {
    var w := Begin(kinds, windows, wall, idle, reach, judged, Clock(start, [], 0), rec);
    (Session(w.ctl, w.rec, {}, None, {}, start + wall), w.clock)
  }

  // What a block may do to its clock and to the idle deadline: time stands
  // still, calls are armed and cancelled, an idle call is armed only for an
  // idle limit from now and under a generation of its own, and what has
  // closed stays closed.
  ghost predicate Follows(w: World, v: World) {
    && Later(w.clock, v.clock)
    && v.ctl.idle == w.ctl.idle && v.ctl.wallCall == w.ctl.wallCall && v.ctl.judged == w.ctl.judged
    && v.ctl.kinds == w.ctl.kinds && v.ctl.windows == w.ctl.windows && v.ctl.reach == w.ctl.reach
    && w.ctl.idleGeneration <= v.ctl.idleGeneration
    && (w.ctl.outcome.Some? ==> v.ctl.outcome == w.ctl.outcome)
    && (forall i :: |w.clock.scheduled| <= i < |v.clock.scheduled| ==> NewCall(w, v, v.clock.scheduled[i]))
  }

  ghost predicate NewCall(w: World, v: World, t: Timer<TimerCall>) {
    match t.call
    case IdlePassed(generation) =>
      && t.when == w.clock.now + w.ctl.idle
      && w.ctl.idleGeneration < generation <= v.ctl.idleGeneration
    case CloseWindow(_, _) => true
    case WallClockPassed => false
  }

  lemma FollowsOn(w: World, v: World, u: World)
    requires Follows(w, v) && Follows(v, u)
    ensures Follows(w, u)
  {
    LaterTransitive(w.clock, v.clock, u.clock);
    forall i | |w.clock.scheduled| <= i < |u.clock.scheduled| ensures NewCall(w, u, u.clock.scheduled[i]) {
      if i < |v.clock.scheduled| {
        assert Stands(v.clock.scheduled[i], u.clock.scheduled[i]) && NewCall(w, v, v.clock.scheduled[i]);
      } else {
        assert NewCall(v, u, u.clock.scheduled[i]);
      }
    }
  }

  // What a block does to the deadline the record holds: it moves just when
  // this Control's own does, and to one idle limit from the record's now.
  ghost predicate Deadlines(w: World, v: World) {
    && v.rec.now == w.rec.now
    && (v.rec.Open() ==> w.rec.Open())
    && (v.ctl.outcome.None? && v.rec.Open() ==>
          && w.ctl.outcome.None?
          && v.rec.run.value.idle == (if v.ctl.idleGeneration != w.ctl.idleGeneration
                                      then w.rec.now + w.ctl.idle else w.rec.run.value.idle))
  }

  ghost predicate Blocks(w: World, v: World) { Follows(w, v) && Deadlines(w, v) }

  lemma BlocksOn(w: World, v: World, u: World)
    requires Blocks(w, v) && Blocks(v, u)
    ensures Blocks(w, u)
  {
    FollowsOn(w, v, u);
  }

  lemma TouchIdleBlocks(w: World)
    ensures Blocks(w, TouchIdle(w))
  {
  }

  lemma DispatchBlocks(w: World, name: Name)
    requires name in w.ctl.agents && CarrierFor(w.ctl.reach, w.ctl.agents[name].decl).Some?
    ensures Blocks(w, Dispatch(w, name).0)
  {
    var st := w.ctl.agents[name];
    var let := WithAgent(w, name, Unarmed(st).(pending := map[])).(clock := CancelIf(w.clock, st.call));
    assert Blocks(w, let);
    TouchIdleBlocks(let);
    BlocksOn(w, let, TouchIdle(let));
    hide TouchIdle;
    assert Blocks(TouchIdle(let), Dispatch(w, name).0);
    BlocksOn(w, TouchIdle(let), Dispatch(w, name).0);
  }

  lemma EvaluateBlocks(w: World, name: Name)
    ensures Blocks(w, Evaluate(w, name).0)
  {
    hide Dispatch;
    if name in w.ctl.agents && CarrierFor(w.ctl.reach, w.ctl.agents[name].decl).Some? {
      DispatchBlocks(w, name);
    }
  }

  lemma {:induction false} EvaluateAllBlocks(w: World, order: seq<Name>)
    ensures Blocks(w, EvaluateAll(w, order).0)
  {
    hide Evaluate;
    if order != [] {
      var v := EvaluateAll(w, order[..|order| - 1]).0;
      EvaluateAllBlocks(w, order[..|order| - 1]);
      EvaluateBlocks(v, order[|order| - 1]);
      hide Blocks;
      BlocksOn(w, v, EvaluateAll(w, order).0);
    }
  }

  lemma NoteBlocks(w: World, name: Name, region: Region, writer: Name)
    ensures Blocks(w, Note(w, name, region, writer).0)
  {
    hide Evaluate;
    if name in w.ctl.agents && region in w.ctl.kinds && region in w.ctl.windows {
      var st := w.ctl.agents[name];
      var added := WithAgent(w, name, st.(pending := AddDue(st.pending, region, w.clock.now + w.ctl.windows[region])));
      assert Blocks(w, added);
      EvaluateBlocks(added, name);
      BlocksOn(w, added, Evaluate(added, name).0);
    }
  }

  lemma {:induction false} NoteAllBlocks(w: World, order: seq<Name>, region: Region, writer: Name)
    ensures Blocks(w, NoteAll(w, order, region, writer).0)
  {
    hide Note;
    if order != [] {
      var v := NoteAll(w, order[..|order| - 1], region, writer).0;
      NoteAllBlocks(w, order[..|order| - 1], region, writer);
      NoteBlocks(v, order[|order| - 1], region, writer);
      hide Blocks;
      BlocksOn(w, v, NoteAll(w, order, region, writer).0);
    }
  }

  // Reaching agents by address moves the record and nothing this process holds.
  lemma {:induction false} ReachAllHere(w: World, owed: seq<Name>, hi: nat)
    ensures var v := ReachAll(w, owed, hi).0; v.ctl == w.ctl && v.clock == w.clock
    ensures var v := ReachAll(w, owed, hi).0; v.rec == w.rec.(agents := v.rec.agents)
  {
    if owed != [] {
      ReachAllHere(w, owed[..|owed| - 1], hi);
    }
  }

  lemma ReachRestHere(w: World, hearers: seq<Name>, window: Duration)
    ensures var v := ReachRest(w, hearers, window).0; v.ctl == w.ctl && v.clock == w.clock
    ensures var v := ReachRest(w, hearers, window).0; v.rec == w.rec.(agents := v.rec.agents)
  {
    forall owed: seq<Name>, hi: nat
      ensures var v := ReachAll(w, owed, hi).0;
              v.ctl == w.ctl && v.clock == w.clock && v.rec == w.rec.(agents := v.rec.agents)
    {
      ReachAllHere(w, owed, hi);
    }
    hide ReachAll;
  }

  lemma PutKeepsRun(r: Record, p: Proposal, key: Option<Key>, writer: Name, notify: set<Name>)
    ensures var t := Put(r, p, key, writer, notify).0; t.now == r.now && t.run == r.run
  {
  }

  lemma SequenceBlocks(
    w: World, p: Proposal, key: Option<Key>, writer: Name, hearers: seq<Name>, order: seq<Name>)
    requires p.region in w.ctl.windows
    ensures Blocks(w, Sequence(w, p, key, writer, hearers, order).0)
  {
    hide Put, WhoHears, ReachRest, NoteAll;
    var notify := WhoHears(w.rec, w.ctl.kinds, p.region, writer);
    var (rec, answer) := Put(w.rec, p, key, writer, notify);
    if w.ctl.outcome.None? && answer.Done? && !answer.written.repeated {
      var landed := w.(rec := rec, ctl := w.ctl.(last := answer.written.sequence));
      PutKeepsRun(w.rec, p, key, writer, notify);
      ReachRestHere(landed, hearers, w.ctl.windows[p.region]);
      var v := ReachRest(landed, hearers, w.ctl.windows[p.region]).0;
      assert Blocks(w, v);
      NoteAllBlocks(v, order, p.region, writer);
      BlocksOn(w, v, NoteAll(v, order, p.region, writer).0);
    }
  }

  lemma RegisterBlocks(w: World, decl: Declaration)
    requires w.ctl.kinds.Keys == w.ctl.windows.Keys
    ensures Blocks(w, Register(w, decl).0)
  {
    hide Evaluate, Joining;
    var joined := Join(w, decl);
    assert Blocks(w, joined);
    EvaluateBlocks(joined, decl.name);
    BlocksOn(w, joined, Evaluate(joined, decl.name).0);
  }

  lemma CloseBlocks(w: World, outcome: Outcome)
    ensures Blocks(w, Close(w, outcome))
  {
  }

  lemma {:induction false} TailBlocks(w: World, only: Option<set<Name>>, order: seq<Name>)
    requires w.ctl.kinds.Keys == w.ctl.windows.Keys
    ensures Blocks(w, EvaluateAll(TakeTail(w, only), order).0)
  {
    var tailed := TakeTail(w, only);
    assert Blocks(w, tailed);
    hide TakeTail, EvaluateAll;
    EvaluateAllBlocks(tailed, order);
    BlocksOn(w, tailed, EvaluateAll(tailed, order).0);
  }

  lemma CloseWindowBlocks(w: World, name: Name, generation: nat)
    ensures Blocks(w, CloseWindowFires(w, name, generation).0)
  {
    hide Dispatch;
    if name in w.ctl.agents {
      var st := w.ctl.agents[name];
      var lapsed := WithAgent(w, name, st.(call := None, due := None, generation := st.generation + 1));
      assert Blocks(w, lapsed);
      if CarrierFor(w.ctl.reach, st.decl).Some? {
        DispatchBlocks(lapsed, name);
        BlocksOn(w, lapsed, Dispatch(lapsed, name).0);
      }
    }
  }

  lemma BlocksStill(w: World)
    ensures Blocks(w, w)
  {
  }

  // Every act and every firing is a block, or moves the record alone.
  lemma DoesBlocks(s: Session, c: Clock<TimerCall>, act: Act)
    ensures var (t, d) := Does(s, c, act);
            && Follows(WorldOf(s, c), WorldOf(t, d))
            && (!act.Others? && !act.StoreTicks? ==> Deadlines(WorldOf(s, c), WorldOf(t, d)))
            && t.judging <= s.judging && t.wallDue == s.wallDue
            && t.touched == (if t.ctl.idleGeneration != s.ctl.idleGeneration then Some(c.now) else s.touched)
  {
    var w := WorldOf(s, c);
    BlocksStill(w);
    var v := WorldOf(Does(s, c, act).0, Does(s, c, act).1);
    if act.Others? || act.StoreTicks? {
      SameHereFollows(w, v.rec);
      return;
    }
    hide Follows, Deadlines, Register, Sequence, Poll, RelayHeld, Close, TouchIdle;
    match act {
      case Joins(decl) => if Accepts(s.ctl, decl) { RegisterBlocks(w, decl); }
      case Writes(p, key, writer, hearers, order) =>
        if p.region in s.ctl.windows { SequenceBlocks(w, p, key, writer, hearers, order); }
      case Touches => TouchIdleBlocks(w);
      case Polls(order) => if s.ctl.kinds.Keys == s.ctl.windows.Keys { PollBlocks(w, order); }
      case RelaysHeld(owed) => if s.ctl.kinds.Keys == s.ctl.windows.Keys { RelayHeldBlocks(w, owed); }
      case Aborts(reason) => CloseBlocks(w, Aborted(reason, {}));
      case Verdict(generation, complete) =>
        CloseBlocks(w, Settled(Unfinished(s.rec)));
        TouchIdleBlocks(w);
      case AckHeres(agent, through) => AckHereBlocks(w, agent, through);
      case AckStores(agent, through) => RecordAloneBlocks(w, v.rec);
      case RowsSent(agent, through) => RecordAloneBlocks(w, v.rec);
      case _ =>
    }
    TimeStands(w, v);
  }

  lemma RecordAloneBlocks(w: World, rec: Record)
    requires rec.now == w.rec.now && rec.run == w.rec.run
    ensures Blocks(w, w.(rec := rec))
  {
  }

  lemma TimeStands(w: World, v: World)
    requires Follows(w, v)
    ensures v.clock.now == w.clock.now
  {
  }

  lemma SameHereFollows(w: World, rec: Record)
    ensures Follows(w, w.(rec := rec))
  {
  }

  lemma AckHereBlocks(w: World, agent: Name, through: int)
    ensures Blocks(w, AckHere(w, agent, through))
  {
  }

  lemma PollBlocks(w: World, order: seq<Name>)
    requires w.ctl.kinds.Keys == w.ctl.windows.Keys
    ensures Blocks(w, Poll(w, order).0)
  {
    hide TakeTail, EvaluateAll, Close;
    BlocksStill(w);
    TailBlocks(w, None, order);
    if w.rec.run.Some? && w.rec.run.value.closed.Some? { CloseBlocks(w, OutcomeOf(w.rec.run.value)); }
  }

  lemma RelayHeldBlocks(w: World, owed: seq<Name>)
    requires w.ctl.kinds.Keys == w.ctl.windows.Keys
    ensures Blocks(w, RelayHeld(w, owed).0)
  {
    hide TakeTail, EvaluateAll;
    BlocksStill(w);
    TailBlocks(w, Some(set a | a in owed), owed);
  }

  lemma FiredBlocks(s: Session, c: Clock<TimerCall>, call: TimerCall)
    ensures var (t, d) := Fired(s, c, call); Blocks(WorldOf(s, c), WorldOf(t, d))
    ensures var (t, d) := Fired(s, c, call);
            && t.wallDue == s.wallDue
            && t.touched == (if t.ctl.idleGeneration != s.ctl.idleGeneration then Some(c.now) else s.touched)
  {
    var w := WorldOf(s, c);
    BlocksStill(w);
    hide Follows, Deadlines, CloseWindowFires, Close;
    match call {
      case CloseWindow(agent, generation) => CloseWindowBlocks(w, agent, generation);
      case IdlePassed(generation) => CloseBlocks(w, Settled(Unfinished(s.rec)));
      case WallClockPassed => CloseBlocks(w, WallClockExpired(Unfinished(s.rec)));
    }
    TimeStands(w, WorldOf(Fired(s, c, call).0, Fired(s, c, call).1));
  }
}
