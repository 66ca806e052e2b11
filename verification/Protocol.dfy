// Any number of Controls over one record, in any interleaving, with a crash
// at any step: what holds over every run of one opening.
//
// A locked block is one step. What the source does outside the lock is steps
// of its own: the two halves of an acknowledgment, a delivery started, ended
// and marked, the predicate asked between an idle deadline and its verdict,
// and each read and send of a relay's pass over the addresses. A timer may
// fire whenever its instant has come, cancelled or not, and more than once.

module Protocol {
  import opened Values
  import opened Records
  import opened Clocks
  import opened Controls
  import opened Cursors

  type Id = nat

  datatype Node = Node(ctl: Control, clock: Clock<TimerCall>, queue: seq<Delivery>)

  // A relay's pass over the addresses: the regions its Control knows, and what
  // it has read so far, which is for each agent it does not hold the last of
  // its rows, then the declarations, then the board.
  datatype Pass = Pass(
    owner: Id, kinds: map<Region, Kind>,
    rows: map<Name, nat>, agents: Option<map<Name, Progress>>, board: Option<seq<Entry>>)

  // A sweep between its reads and its closing: the limit it found passed, and
  // the agents it then found unfinished.
  datatype Sweep = Sweep(closedAs: ClosedAs, unfinished: Option<set<Name>>)

  datatype System = System(
    rec: Record,
    nodes: map<Id, Node>,
    // Every notification issued, those a send of which returned, and the rows
    // writes recorded.
    issued: set<Notification>, delivered: set<Notification>, owed: set<(Name, nat)>,
    // Calls in flight; sends returned and not yet marked; what lanes hold; and
    // what a lane's transport accepted and it has not yet marked.
    calling: set<(Id, Delivery)>, sent: set<(Id, Notification)>,
    lanes: set<Notification>, landed: set<Notification>,
    answered: set<(Name, int)>, judging: set<(Id, nat)>,
    passes: map<Id, Pass>, sweeps: map<Id, Sweep>,
    // How many times `close_run` answered True.
    closings: nat,
    // Rows a pass marked as moot without seeing the write they are for, and
    // the regions of the board that some Control able to relay does not know.
    unseen: set<(Name, nat)>, unknown: set<Region>,
    // Rows for changes their agent has since registered not to hear of.
    renounced: set<(Name, nat)>)

  datatype Step =
    | Construct(id: Id, windows: map<Region, Duration>, wall: Duration, idle: Duration,
                reach: bool, judged: bool, start: Instant)
    | Tick(id: Id, span: nat)
    | StoreTick(span: nat)
    | Join(id: Id, decl: Declaration)
    | Write(id: Id, proposal: Proposal, key: Option<Key>, writer: Name, hearers: seq<Name>, order: seq<Name>)
    | Touch(id: Id)
    | AckStore(agent: Name, through: int)
    | AckLocal(id: Id, agent: Name, through: int)
    | Polls(id: Id, order: seq<Name>)
    | RelaysHeld(id: Id, order: seq<Name>)
    | Fire(id: Id, timer: nat)
    | Judge(id: Id, generation: nat, complete: bool)
    | Abort(id: Id, reason: string)
    | SweepReadsRun(sweep: Id)
    | SweepReadsAgents(sweep: Id)
    | SweepCloses(sweep: Id)
    | DeliveryStarts(id: Id)
    | DeliveryEnds(id: Id, delivery: Delivery, returned: bool)
    | DeliveryMarks(id: Id, note: Notification)
    | LaneSends(note: Notification)
    | LaneMarks(note: Notification)
    | RelayReadsRows(id: Id, pass: Id, rows: map<Name, nat>)
    | RelayReadsAgents(pass: Id)
    | RelayReadsBoard(pass: Id)
    | RelayTakes(pass: Id, agent: Name)
    | Crash(id: Id)

  function WorldOf(s: System, id: Id): World
    requires id in s.nodes
  {
    World(s.nodes[id].ctl, s.nodes[id].clock, s.rec)
  }

  // One block having run in one process: its deliveries join that process's queue.
  function Ran(s: System, id: Id, v: World, ds: seq<Delivery>, owing: set<(Name, nat)>): System
    requires id in s.nodes
  {
    s.(rec := v.rec,
       nodes := s.nodes[id := Node(v.ctl, v.clock, s.nodes[id].queue + ds)],
       issued := s.issued + Notes(ds),
       owed := s.owed + owing,
       closings := s.closings + (if s.rec.Open() && !v.rec.Open() then 1 else 0))
  }

  // A timer whose instant has come, fired.
  ghost function Fires(s: System, id: Id, timer: nat): System {
    if id !in s.nodes || timer >= |s.nodes[id].clock.scheduled|
       || s.nodes[id].clock.scheduled[timer].when > s.nodes[id].clock.now then s
    else
      var w := WorldOf(s, id);
      match w.clock.scheduled[timer].call
      case CloseWindow(agent, generation) =>
        var (v, ds) := CloseWindowFires(w, agent, generation);
        Ran(s, id, v, ds, {})
      case IdlePassed(generation) =>
        if w.ctl.judged && w.ctl.outcome.None? && generation == w.ctl.idleGeneration
        then s.(judging := s.judging + {(id, generation)})
        else Ran(s, id, IdleFires(w, generation), [], {})
      case WallClockPassed => Ran(s, id, WallFires(w), [], {})
  }

  // One agent taken by a relay's pass: skipped, marked moot, or sent to.
  ghost function Takes(s: System, pass: Id, agent: Name): System {
    if pass !in s.passes || s.passes[pass].board.None? || s.passes[pass].agents.None?
       || agent !in s.passes[pass].rows then s
    else
      var p := s.passes[pass];
      var over := s.(passes := s.passes[pass := p.(rows := p.rows - {agent})]);
      var declared := p.agents.value;
      if agent !in declared || declared[agent].addr.None? then over
      else if PassRegions(p, agent) == {} then
        over.(rec := MarkSent(s.rec, agent, p.rows[agent]), unseen := s.unseen + Unseen(s.rec, p, agent))
      else
        var note := PassNote(p, agent);
        over.(rec := MarkNotified(s.rec, agent, note.to),
              issued := s.issued + {note},
              calling := s.calling + {(p.owner, Delivery(Transport(declared[agent].addr.value), note))})
  }

  ghost function Next(s: System, step: Step): System {
    match step
    case Construct(id, windows, wall, idle, reach, judged, start) =>
      // Constructing on a closed run opens it anew, which begins another history.
      if id in s.nodes || !s.rec.Open() || !(windows.Keys <= s.rec.kinds.Keys) then s
      else
        var w := Begin(Restricted(s.rec.kinds, windows.Keys), windows, wall, idle, reach, judged,
                       Clock(start, [], 0), s.rec);
        s.(rec := w.rec, nodes := s.nodes[id := Node(w.ctl, w.clock, [])],
           unknown := s.unknown + (if reach then s.rec.kinds.Keys - windows.Keys else {}))
    case Tick(id, span) =>
      if id !in s.nodes then s
      else
        var node := s.nodes[id];
        s.(nodes := s.nodes[id := node.(clock := node.clock.(now := node.clock.now + span))])
    case StoreTick(span) => s.(rec := s.rec.(now := s.rec.now + span))
    case Join(id, decl) =>
      if id !in s.nodes || RefusesAgent(s.nodes[id].ctl, decl).Some?
         || s.nodes[id].ctl.kinds.Keys != s.nodes[id].ctl.windows.Keys then s
      else
        var (v, ds) := Register(WorldOf(s, id), decl);
        Ran(s.(renounced := s.renounced + Renounced(s.rec, decl)), id, v, ds, {})
    case Write(id, proposal, key, writer, hearers, order) =>
      if id !in s.nodes || proposal.region !in s.nodes[id].ctl.windows then s
      else
        var w := WorldOf(s, id);
        var (v, ds, result) := Sequence(w, proposal, key, writer, hearers, order);
        var owing := if result.Accepted? && !result.written.repeated
                     then Owing(WhoHears(w.rec, w.ctl.kinds, proposal.region, writer), result.written.sequence)
                     else {};
        Ran(s, id, v, ds, owing)
    case Touch(id) =>
      if id !in s.nodes then s else Ran(s, id, TouchIdle(WorldOf(s, id)), [], {})
    case AckStore(agent, through) =>
      var (rec, prior) := Acknowledge(s.rec, agent, through);
      s.(rec := rec, answered := if prior.Some? then s.answered + {(agent, through)} else s.answered)
    case AckLocal(id, agent, through) =>
      if id !in s.nodes || (agent, through) !in s.answered then s
      else Ran(s, id, AckHere(WorldOf(s, id), agent, through), [], {})
    case Polls(id, order) =>
      if id !in s.nodes || s.nodes[id].ctl.kinds.Keys != s.nodes[id].ctl.windows.Keys then s
      else
        var (v, ds) := Poll(WorldOf(s, id), order);
        Ran(s, id, v, ds, {})
    case RelaysHeld(id, order) =>
      if id !in s.nodes || s.nodes[id].ctl.kinds.Keys != s.nodes[id].ctl.windows.Keys then s
      else
        var (v, ds) := RelayHeld(WorldOf(s, id), order);
        Ran(s, id, v, ds, {})
    case Fire(id, timer) => Fires(s, id, timer)
    case Judge(id, generation, complete) =>
      if id !in s.nodes || (id, generation) !in s.judging then s
      else
        Ran(s.(judging := s.judging - {(id, generation)}), id,
            IdleJudged(WorldOf(s, id), generation, complete), [], {})
    case Abort(id, reason) =>
      if id !in s.nodes then s else Ran(s, id, Close(WorldOf(s, id), Aborted(reason, {})), [], {})
    case SweepReadsRun(sweep) =>
      if sweep in s.sweeps || Expired(s.rec).None? then s
      else s.(sweeps := s.sweeps[sweep := Sweep(Expired(s.rec).value, None)])
    case SweepReadsAgents(sweep) =>
      if sweep !in s.sweeps || s.sweeps[sweep].unfinished.Some? then s
      else s.(sweeps := s.sweeps[sweep := s.sweeps[sweep].(unfinished := Some(Unfinished(s.rec)))])
    case SweepCloses(sweep) =>
      if sweep !in s.sweeps || s.sweeps[sweep].unfinished.None? then s
      else
        var (rec, won) := CloseRun(s.rec, s.sweeps[sweep].closedAs, None, s.sweeps[sweep].unfinished.value);
        s.(rec := rec, sweeps := s.sweeps - {sweep}, closings := s.closings + (if won then 1 else 0))
    case DeliveryStarts(id) =>
      if id !in s.nodes || s.nodes[id].queue == [] then s
      else
        var node := s.nodes[id];
        s.(nodes := s.nodes[id := node.(queue := node.queue[1..])],
           calling := s.calling + {(id, node.queue[0])})
    case DeliveryEnds(id, delivery, returned) =>
      if (id, delivery) !in s.calling then s
      else
        var over := s.(calling := s.calling - {(id, delivery)});
        if !returned then over
        else if delivery.carrier.MarksSent() then over.(lanes := over.lanes + {delivery.note})
        else over.(delivered := over.delivered + {delivery.note}, sent := over.sent + {(id, delivery.note)})
    case DeliveryMarks(id, note) =>
      if (id, note) !in s.sent then s
      else s.(sent := s.sent - {(id, note)}, rec := MarkSent(s.rec, note.agent, note.to))
    case LaneSends(note) =>
      if note !in s.lanes then s
      else s.(lanes := s.lanes - {note}, delivered := s.delivered + {note}, landed := s.landed + {note})
    case LaneMarks(note) =>
      if note !in s.landed then s
      else s.(landed := s.landed - {note}, rec := MarkSent(s.rec, note.agent, note.to))
    case RelayReadsRows(id, pass, rows) =>
      if id !in s.nodes || !s.nodes[id].ctl.reach || pass in s.passes
         || !forall a :: a in rows ==> (a, rows[a]) in s.rec.outbox && a !in s.nodes[id].ctl.agents then s
      else s.(passes := s.passes[pass := Pass(id, s.nodes[id].ctl.kinds, rows, None, None)])
    case RelayReadsAgents(pass) =>
      if pass !in s.passes || s.passes[pass].agents.Some? then s
      else s.(passes := s.passes[pass := s.passes[pass].(agents := Some(s.rec.agents))])
    case RelayReadsBoard(pass) =>
      if pass !in s.passes || s.passes[pass].agents.None? || s.passes[pass].board.Some? then s
      else s.(passes := s.passes[pass := s.passes[pass].(board := Some(Prefix(s.rec.log, Some(TAIL))))])
    case RelayTakes(pass, agent) => Takes(s, pass, agent)
    case Crash(id) =>
      s.(nodes := s.nodes - {id},
         calling := (set c | c in s.calling && c.0 != id),
         sent := (set c | c in s.sent && c.0 != id),
         judging := (set j | j in s.judging && j.0 != id),
         passes := map p | p in s.passes && s.passes[p].owner != id :: s.passes[p])
  }

  // The rows of an agent for changes a declaration of it does not want.
  ghost function Renounced(r: Record, decl: Declaration): set<(Name, nat)> {
    set row | row in r.outbox && row.0 == decl.name && 1 <= row.1 <= |r.log|
              && !Concerns(r.log[row.1 - 1], r.kinds, decl.subs, decl.name)
  }

  function Restricted(kinds: map<Region, Kind>, regions: set<Region>): map<Region, Kind> {
    map region | region in kinds && region in regions :: kinds[region]
  }

  // What a pass names to an agent: what the part of the board it read holds
  // since the agent's answer, in the regions its Control knows.
  ghost function PassRegions(p: Pass, agent: Name): set<Region>
    requires p.board.Some? && p.agents.Some? && agent in p.agents.value
  {
    var declared := p.agents.value[agent];
    Changed(p.board.value, declared.acked, |p.board.value|, p.kinds, declared.subs, agent)
  }

  // Rows a moot mark takes whose writes the pass did not see: past what it
  // read of the board, or in a region its Control does not know.
  ghost function Unseen(r: Record, p: Pass, agent: Name): set<(Name, nat)>
    requires p.board.Some? && agent in p.rows
  {
    set row | row in r.outbox && row.0 == agent && row.1 <= p.rows[agent]
              && (row.1 > |p.board.value|
                  || (1 <= row.1 <= |r.log| && r.log[row.1 - 1].region !in p.kinds))
  }

  ghost function PassNote(p: Pass, agent: Name): Notification
    requires p.board.Some? && p.agents.Some? && agent in p.agents.value
  {
    var last := |p.board.value|;
    Notification(last, agent, p.agents.value[agent].acked + 1, last, PassRegions(p, agent))
  }

  ghost function Reached(s: System, steps: seq<Step>): System {
    if steps == [] then s else Next(Reached(s, steps[..|steps| - 1]), steps[|steps| - 1])
  }

  // An opening begins with a run just opened: any log, no agent, nothing owed.
  ghost predicate Opening(s: System) {
    && s.rec.Open() && s.rec.agents == map[] && s.rec.outbox == {}
    && s == System(s.rec, map[], {}, {}, {}, {}, {}, {}, {}, {}, {}, map[], map[], 0, {}, {}, {})
  }

  // What was promised, and what keeps it.

  // At least once: each row a write recorded is still there, or a send that
  // covers the write returned, or the agent has answered past it. A pass that
  // could not see the write may have given the row up, and an agent that
  // registers for less gives up its own.
  ghost predicate AtLeastOnce(s: System) {
    s.rec.Open() ==> forall row :: row in s.owed ==> Kept(s, row) || row in s.unseen || row in s.renounced
  }

  // Every other row is for a change its agent, as declared now, is to hear of.
  ghost predicate WantsOk(s: System) {
    s.rec.Open() ==> forall row :: row in s.rec.outbox ==> row in s.renounced || RowWanted(s.rec, row)
  }

  // What no pass could see: a write past the most a pass reads, or in a region
  // some Control able to relay does not know.
  ghost predicate OutOfSight(s: System, row: (Name, nat)) {
    1 <= row.1 <= |s.rec.log| && (row.1 > TAIL || s.rec.log[row.1 - 1].region in s.unknown)
  }

  ghost predicate SightOk(s: System) {
    && (s.rec.Open() ==> forall row :: row in s.unseen ==> OutOfSight(s, row))
    && (forall id :: id in s.nodes && s.nodes[id].ctl.reach ==> Knows(s.unknown, s.rec.kinds, s.nodes[id].ctl.kinds))
    && (forall p :: p in s.passes ==> Knows(s.unknown, s.rec.kinds, s.passes[p].kinds))
  }

  ghost predicate Knows(unknown: set<Region>, board: map<Region, Kind>, kinds: map<Region, Kind>) {
    PartOf(kinds, board) && board.Keys - kinds.Keys <= unknown
  }

  ghost predicate Kept(s: System, row: (Name, nat)) {
    || row in s.rec.outbox
    || Covers(s.delivered, row.0, row.1)
    || (row.0 in s.rec.agents && row.1 <= s.rec.agents[row.0].acked)
  }

  ghost predicate Answers(r: Record, answered: set<(Name, int)>) {
    r.Open() ==> forall a :: a in answered ==> a.0 in r.agents && a.1 <= r.agents[a.0].acked
  }

  ghost predicate PassOk(r: Record, p: Pass, gone: set<(Name, nat)>) {
    && (forall a :: a in p.rows ==> p.rows[a] <= |r.log|)
    && (p.agents.Some? ==> forall a :: a in p.agents.value ==> PassAgentOk(r, p, a, gone))
    && (p.board.Some? ==>
          && |p.board.value| <= TAIL && p.board.value <= r.log
          && (|p.board.value| < TAIL ==> forall a :: a in p.rows ==> p.rows[a] <= |p.board.value|))
  }

  // What a pass read of an agent is behind the record, and every row it may
  // mark moot, but those given up by their agent, is for a change the agent, as it read it, is to hear of.
  ghost predicate PassAgentOk(r: Record, p: Pass, a: Name, gone: set<(Name, nat)>)
    requires p.agents.Some? && a in p.agents.value
  {
    r.Open() ==>
      && a in r.agents && p.agents.value[a].acked <= r.agents[a].acked
      && (a in p.rows ==>
            forall n: nat :: (a, n) in r.outbox && n <= p.rows[a] && (a, n) !in gone ==>
              1 <= n <= |r.log| && Concerns(r.log[n - 1], r.kinds, p.agents.value[a].subs, a))
  }

  ghost predicate NodesOk(s: System) {
    forall id :: id in s.nodes ==> Behind(s.rec, s.nodes[id].ctl) && Notes(s.nodes[id].queue) <= s.issued
  }

  ghost predicate FlightsOk(s: System) {
    && (forall c :: c in s.calling ==> c.1.note in s.issued)
    && (forall c :: c in s.sent ==> c.1 in s.delivered)
    && s.lanes <= s.issued && s.landed <= s.delivered <= s.issued
  }

  ghost predicate PassesOk(s: System) {
    forall p :: p in s.passes ==> PassOk(s.rec, s.passes[p], s.renounced)
  }

  ghost predicate ClosedOnce(s: System) {
    s.closings == if s.rec.Open() then 0 else 1
  }

  ghost predicate Inv(s: System) {
    && RecordOk(s.rec, s.issued)
    && NodesOk(s) && FlightsOk(s) && PassesOk(s)
    && Answers(s.rec, s.answered)
    && ClosedOnce(s)
    && SightOk(s) && WantsOk(s)
    && AtLeastOnce(s)
  }

  // Keeping it

  // What no step takes back: the record only grows, and so does the history.
  ghost predicate Onward(s: System, t: System) {
    Grows(s.rec, t.rec) && s.owed <= t.owed && s.issued <= t.issued && s.delivered <= t.delivered
  }

  ghost predicate Holds(s: System, t: System) { Inv(t) && Onward(s, t) }

  lemma StillHolds(s: System)
    requires Inv(s)
    ensures Holds(s, s)
  {
    hide Inv;
    GrowsStill(s.rec);
  }

  lemma GrowsStill(r: Record)
    ensures Grows(r, r)
  {
    assert r.log[..|r.log|] == r.log;
    assert forall a :: a in r.agents ==> AgentGrows(r, r, a);
  }

  lemma HoldsOn(s: System, t: System, u: System)
    requires Holds(s, t) && Holds(t, u)
    ensures Holds(s, u)
  {
    hide Inv, Grows;
    GrowsTransitive(s.rec, t.rec, u.rec);
  }

  // What follows from the record growing alone.
  lemma GrowthKeeps(s: System, r: Record)
    requires NodesOk(s) && PassesOk(s) && Answers(s.rec, s.answered) && Grows(s.rec, r)
    ensures NodesOk(s.(rec := r)) && PassesOk(s.(rec := r)) && Answers(r, s.answered)
  {
    forall id | id in s.nodes ensures Behind(r, s.nodes[id].ctl) {
      hide Behind, Grows;
      OthersStayBehind(s.rec, r, s.nodes[id].ctl);
    }
    forall p | p in s.passes ensures PassOk(r, s.passes[p], s.renounced) {
      PassGrows(s.rec, r, s.passes[p], s.renounced);
    }
    if r.Open() {
      forall a | a in s.answered ensures a.0 in r.agents && a.1 <= r.agents[a.0].acked {
        assert AgentGrows(s.rec, r, a.0);
      }
    }
  }

  lemma PassGrows(r: Record, t: Record, p: Pass, gone: set<(Name, nat)>)
    requires PassOk(r, p, gone) && Grows(r, t)
    ensures PassOk(t, p, gone)
  {
    if p.agents.Some? {
      forall a | a in p.agents.value && t.Open() ensures PassAgentOk(t, p, a, gone) {
        assert PassAgentOk(r, p, a, gone) && AgentGrows(r, t, a);
        if a in p.rows {
          forall n: nat | (a, n) in t.outbox && n <= p.rows[a] && (a, n) !in gone
            ensures 1 <= n <= |t.log| && Concerns(t.log[n - 1], t.kinds, p.agents.value[a].subs, a)
          {
            assert (a, n) in r.outbox;
            assert t.log[n - 1] == t.log[..|r.log|][n - 1];
          }
        }
      }
    }
    if p.board.Some? {
      assert t.log[..|r.log|][..|p.board.value|] == t.log[..|p.board.value|];
    }
  }

  lemma KeptGrows(s: System, t: System, row: (Name, nat))
    requires Kept(s, row) && Grows(s.rec, t.rec) && t.rec.Open()
    requires s.delivered <= t.delivered
    requires row in s.rec.outbox ==> row in t.rec.outbox
    ensures Kept(t, row)
  {
    if Covers(s.delivered, row.0, row.1) {
      var n :| n in s.delivered && n.agent == row.0 && n.from <= row.1 <= n.to;
      assert n in t.delivered;
    } else if row !in s.rec.outbox {
      assert AgentGrows(s.rec, t.rec, row.0);
    }
  }

  // What was out of a pass's sight stays so, whatever the record becomes.
  lemma SightKeeps(s: System, t: System)
    requires SightOk(s) && Grows(s.rec, t.rec) && t.unseen == s.unseen && t.unknown == s.unknown
    requires forall id :: id in t.nodes ==>
               id in s.nodes && t.nodes[id].ctl.kinds == s.nodes[id].ctl.kinds
               && t.nodes[id].ctl.reach == s.nodes[id].ctl.reach
    requires forall p :: p in t.passes ==> p in s.passes && t.passes[p].kinds == s.passes[p].kinds
    ensures SightOk(t)
  {
    forall row | row in t.unseen && t.rec.Open() ensures OutOfSight(t, row) {
      assert OutOfSight(s, row);
      assert t.rec.log[row.1 - 1] == t.rec.log[..|s.rec.log|][row.1 - 1];
    }
  }

  lemma WantsKeep(s: System, t: System)
    requires WantsOk(s) && Grows(s.rec, t.rec) && KeepsWants(s.rec, t.rec) && t.renounced == s.renounced
    ensures WantsOk(t)
  {
    if t.rec.Open() {
      forall row | row in t.rec.outbox && row !in t.renounced ensures RowWanted(t.rec, row) {
        if row in s.rec.outbox { StillWanted(s.rec, t.rec, row); }
      }
    }
  }

  // A block of one process.
  lemma RanKeeps(s: System, id: Id, v: World, ds: seq<Delivery>, owing: set<(Name, nat)>)
    requires Inv(s) && id in s.nodes
    requires Moves(WorldOf(s, id), s.issued, v, ds)
    requires v.rec.Open() ==> owing <= v.rec.outbox
    ensures Holds(s, Ran(s, id, v, ds, owing))
  {
    hide NodesOk, FlightsOk, PassesOk, SightOk, RecordOk, Behind, Grows, KeepsWants, WantsOk;
    WantsKeep(s, Ran(s, id, v, ds, owing));
    BlockKeeps(s, id, v, ds, owing);
  }

  lemma BlockKeeps(s: System, id: Id, v: World, ds: seq<Delivery>, owing: set<(Name, nat)>)
    requires Inv(s) && id in s.nodes
    requires Sound(v, s.issued + Notes(ds)) && Grows(s.rec, v.rec) && KeepsRows(s.rec, v.rec)
    requires v.ctl.kinds == s.nodes[id].ctl.kinds && v.ctl.reach == s.nodes[id].ctl.reach
    requires WantsOk(Ran(s, id, v, ds, owing))
    requires v.rec.Open() ==> owing <= v.rec.outbox
    ensures Holds(s, Ran(s, id, v, ds, owing))
  {
    hide WantsOk;
    var t := Ran(s, id, v, ds, owing);
    hide RecordOk, Behind, Grows, PassOk;
    RanSight(s, id, v, ds, owing);
    hide SightOk;
    GrowthKeeps(s, v.rec);
    NotesJoin(s.nodes[id].queue, ds);
    assert NodesOk(t);
    assert FlightsOk(t);
    assert PassesOk(t);
    RunStays(s.rec, v.rec);
    if t.rec.Open() {
      forall row | row in t.owed && row !in t.unseen + t.renounced ensures Kept(t, row) {
        if row in s.owed { KeptGrows(s, t, row); }
      }
    }
  }

  lemma RanSight(s: System, id: Id, v: World, ds: seq<Delivery>, owing: set<(Name, nat)>)
    requires SightOk(s) && id in s.nodes && Grows(s.rec, v.rec)
    requires v.ctl.kinds == s.nodes[id].ctl.kinds && v.ctl.reach == s.nodes[id].ctl.reach
    ensures SightOk(Ran(s, id, v, ds, owing))
  {
    hide SightOk, Grows;
    SightKeeps(s, Ran(s, id, v, ds, owing));
  }

  lemma NotesJoin(ds: seq<Delivery>, es: seq<Delivery>)
    ensures Notes(ds + es) == Notes(ds) + Notes(es)
  {
  }

  lemma RunStays(r: Record, t: Record)
    requires Grows(r, t)
    ensures t.Open() ==> r.Open()
  {
  }

  // A step that moves the record and nothing a process holds.
  lemma RecordStepKeeps(s: System, r: Record, t: System)
    requires Inv(s) && RecordOk(r, s.issued) && Grows(s.rec, r) && KeepsRows(s.rec, r) && KeepsWants(s.rec, r)
    requires t == s.(rec := r, answered := t.answered, sweeps := t.sweeps, closings := t.closings)
    requires Answers(r, t.answered) && ClosedOnce(t)
    ensures Holds(s, t)
  {
    hide RecordOk, Behind, Grows, PassOk, KeepsWants, WantsOk;
    GrowthKeeps(s, r);
    RunStays(s.rec, r);
    SightKeeps(s, t);
    WantsKeep(s, t);
    assert NodesOk(t) && PassesOk(t) && FlightsOk(t);
    if t.rec.Open() {
      forall row | row in t.owed && row !in t.unseen + t.renounced ensures Kept(t, row) { KeptGrows(s, t, row); }
    }
  }

  // Rows marked because a send that covers them returned.
  lemma MarkKeeps(s: System, note: Notification, t: System)
    requires Inv(s) && note in s.delivered
    requires t == s.(rec := MarkSent(s.rec, note.agent, note.to), sent := t.sent, landed := t.landed)
    requires t.sent <= s.sent && t.landed <= s.landed
    ensures Holds(s, t)
  {
    MarkSentOk(s.rec, s.issued, note.agent, note.to);
    assert Known(s.rec, note);
    hide RecordOk, Behind, Grows, PassOk, SightOk;
    GrowthKeeps(s, t.rec);
    SightKeeps(s, t);
    WantsKeep(s, t);
    assert NodesOk(t) && PassesOk(t) && FlightsOk(t);
    if t.rec.Open() {
      forall row | row in t.owed && row !in t.unseen + t.renounced ensures Kept(t, row) {
        assert Kept(s, row);
        if row in s.rec.outbox && row !in t.rec.outbox {
          // The notification reaches the row, unless the agent answered past
          // it before the notification was issued.
          assert row.1 >= note.from ==> Covers(t.delivered, row.0, row.1);
        } else {
          KeptGrows(s, t, row);
        }
      }
    }
  }

  // A row a relay finds moot: in the part of the board it read, the agent is
  // to hear of nothing since its answer.
  lemma MootKeeps(s: System, pass: Id, agent: Name, t: System)
    requires Inv(s) && pass in s.passes && s.passes[pass].board.Some? && s.passes[pass].agents.Some?
    requires agent in s.passes[pass].rows && agent in s.passes[pass].agents.value
    requires PassRegions(s.passes[pass], agent) == {}
    requires t == s.(rec := MarkSent(s.rec, agent, s.passes[pass].rows[agent]),
                     unseen := s.unseen + Unseen(s.rec, s.passes[pass], agent))
    ensures Holds(s, t)
  {
    var p := s.passes[pass];
    MarkSentOk(s.rec, s.issued, agent, p.rows[agent]);
    assert PassOk(s.rec, p, s.renounced);
    assert PassAgentOk(s.rec, p, agent, s.renounced);
    assert Knows(s.unknown, s.rec.kinds, p.kinds);
    if t.rec.Open() {
      forall row | row in s.rec.outbox && row !in t.rec.outbox && row !in t.unseen + t.renounced
        ensures row.0 in t.rec.agents && row.1 <= t.rec.agents[row.0].acked
      {
        MootRowAnswered(s.rec, p, agent, row.1, s.renounced);
      }
    }
    MootSight(s, pass, agent, t);
    hide RecordOk, Behind, Grows, PassOk, PassAgentOk, SightOk, Unseen;
    GrowthKeeps(s, t.rec);
    WantsKeep(s, t);
    assert NodesOk(t) && PassesOk(t) && FlightsOk(t);
    if t.rec.Open() {
      forall row | row in t.owed && row !in t.unseen + t.renounced ensures Kept(t, row) {
        assert Kept(s, row);
        if row !in s.rec.outbox || row in t.rec.outbox { KeptGrows(s, t, row); }
      }
    }
  }

  lemma MootSight(s: System, pass: Id, agent: Name, t: System)
    requires Inv(s) && pass in s.passes && s.passes[pass].board.Some? && agent in s.passes[pass].rows
    requires t == s.(rec := MarkSent(s.rec, agent, s.passes[pass].rows[agent]),
                     unseen := s.unseen + Unseen(s.rec, s.passes[pass], agent))
    ensures SightOk(t)
  {
    var p := s.passes[pass];
    MarkSentOk(s.rec, s.issued, agent, p.rows[agent]);
    assert PassOk(s.rec, p, s.renounced);
    assert Knows(s.unknown, s.rec.kinds, p.kinds);
    hide Grows, PassOk;
    SightKeeps(s, s.(rec := t.rec));
    if t.rec.Open() { UnseenOutOfSight(s, p, agent); }
  }

  // What a moot mark takes unseen was out of sight: a pass that read less
  // than it may has read past every row.
  lemma UnseenOutOfSight(s: System, p: Pass, agent: Name)
    requires RecordOk(s.rec, s.issued) && PassOk(s.rec, p, s.renounced) && Knows(s.unknown, s.rec.kinds, p.kinds)
    requires s.rec.Open() && p.board.Some? && agent in p.rows
    ensures forall row :: row in Unseen(s.rec, p, agent) ==> OutOfSight(s, row)
  {
  }

  // A moot row within the part of the board read, in a region the pass's
  // Control knows, is answered.
  lemma MootRowAnswered(r: Record, p: Pass, agent: Name, n: nat, gone: set<(Name, nat)>)
    requires PassOk(r, p, gone) && r.Open() && PartOf(p.kinds, r.kinds)
    requires p.board.Some? && p.agents.Some? && agent in p.agents.value && agent in p.rows
    requires PassRegions(p, agent) == {}
    requires (agent, n) in r.outbox && n <= p.rows[agent] && (agent, n) !in Unseen(r, p, agent) + gone
    ensures agent in r.agents && n <= r.agents[agent].acked
  {
    var board, declared := p.board.value, p.agents.value[agent];
    assert PassAgentOk(r, p, agent, gone);
    assert n <= |board|;
    assert board[n - 1] == r.log[n - 1];
    assert board[n - 1].region !in PassRegions(p, agent);
  }

  // A relay's notification, told to the record before it is sent.
  lemma RelayIssues(s: System, pass: Id, agent: Name, addr: Address, t: System)
    requires Inv(s) && pass in s.passes && s.passes[pass].board.Some? && s.passes[pass].agents.Some?
    requires agent in s.passes[pass].agents.value
    requires var note := PassNote(s.passes[pass], agent);
             t == s.(rec := MarkNotified(s.rec, agent, note.to), issued := s.issued + {note},
                     calling := s.calling + {(s.passes[pass].owner, Delivery(Transport(addr), note))})
    ensures Holds(s, t)
  {
    hide RecordOk, Behind, Grows, PassOk, PassNote, SightOk, WantsOk, KeepsWants;
    RelayNoteOk(s.rec, s.issued, s.passes[pass], agent, s.renounced);
    GrowthKeeps(s, t.rec);
    SightKeeps(s, t);
    WantsKeep(s, t);
    assert NodesOk(t) && PassesOk(t) && FlightsOk(t);
    if t.rec.Open() {
      forall row | row in t.owed && row !in t.unseen + t.renounced ensures Kept(t, row) { KeptGrows(s, t, row); }
    }
  }

  lemma RelayNoteOk(r: Record, issued: set<Notification>, p: Pass, agent: Name, gone: set<(Name, nat)>)
    requires RecordOk(r, issued) && PassOk(r, p, gone)
    requires p.board.Some? && p.agents.Some? && agent in p.agents.value
    ensures var note := PassNote(p, agent);
            var t := MarkNotified(r, agent, note.to);
            RecordOk(t, issued + {note}) && Grows(r, t) && KeepsRows(r, t) && KeepsWants(r, t)
  {
    assert PassAgentOk(r, p, agent, gone);
    MarkNotifiedOk(r, issued, PassNote(p, agent));
  }

  // A step that changes only what is in flight, delivered or read.
  lemma FlightKeeps(s: System, t: System)
    requires Inv(s)
    requires t.rec == s.rec && t.issued == s.issued && t.owed == s.owed
    requires t.answered == s.answered && t.closings == s.closings && t.unseen == s.unseen && t.renounced == s.renounced
    requires NodesOk(t) && FlightsOk(t) && PassesOk(t) && SightOk(t)
    requires s.delivered <= t.delivered
    ensures Holds(s, t)
  {
    hide RecordOk, NodesOk, FlightsOk, PassesOk, SightOk;
    if t.rec.Open() {
      assert Grows(s.rec, s.rec) by {
        assert s.rec.log[..|s.rec.log|] == s.rec.log;
        assert forall a :: a in s.rec.agents ==> AgentGrows(s.rec, s.rec, a);
      }
      forall row | row in t.owed && row !in t.unseen + t.renounced ensures Kept(t, row) { KeptGrows(s, t, row); }
    }
  }

  lemma OpenAgainOk(r: Record, issued: set<Notification>, wall: Duration, idle: Duration)
    requires RecordOk(r, issued) && r.Open()
    ensures var t := OpenRun(r, wall, idle); RecordOk(t, issued) && Grows(r, t) && KeepsRows(r, t) && KeepsWants(r, t)
  {
    var t := OpenRun(r, wall, idle);
    assert forall row :: RowKnown(r, row) ==> RowKnown(t, row);
    assert forall n :: Known(r, n) ==> Known(t, n);
    assert forall a :: a in r.agents ==> AgentGrows(r, t, a);
    assert t.log[..|r.log|] == r.log;
  }

  lemma ClockTickOk(r: Record, issued: set<Notification>, span: nat)
    requires RecordOk(r, issued)
    ensures var t := r.(now := r.now + span); RecordOk(t, issued) && Grows(r, t) && KeepsRows(r, t) && KeepsWants(r, t)
  {
    var t := r.(now := r.now + span);
    assert forall row :: RowKnown(r, row) ==> RowKnown(t, row);
    assert forall n :: Known(r, n) ==> Known(t, n);
    assert forall a :: a in r.agents ==> AgentGrows(r, t, a);
    assert t.log[..|r.log|] == r.log;
  }

  lemma ConstructKeeps(s: System, step: Step)
    requires Inv(s) && step.Construct?
    ensures Holds(s, Next(s, step))
  {
    hide RecordOk, Behind, Grows, PassOk, OutOfSight;
    var t := Next(s, step);
    if t != s {
      var w := Begin(Restricted(s.rec.kinds, step.windows.Keys), step.windows, step.wall, step.idle,
                     step.reach, step.judged, Clock(step.start, [], 0), s.rec);
      OpenAgainOk(s.rec, s.issued, step.wall, step.idle);
      BegunBehind(s.rec, step);
      var u := s.(rec := w.rec);
      RecordStepKeeps(s, w.rec, u);
      assert Notes([]) <= s.issued;
      assert NodesOk(t) && PassesOk(t) && FlightsOk(t);
      BegunSight(u, t, step.id);
      FlightKeeps(u, t);
      HoldsOn(s, u, t);
    } else {
      StillHolds(s);
    }
  }

  lemma BegunBehind(r: Record, step: Step)
    requires step.Construct? && step.windows.Keys <= r.kinds.Keys && r.Open()
    ensures var w := Begin(Restricted(r.kinds, step.windows.Keys), step.windows, step.wall, step.idle,
                           step.reach, step.judged, Clock(step.start, [], 0), r);
            Behind(w.rec, w.ctl)
  {
  }

  // A Control that begins knows the regions it was given, and where it can
  // relay the others join what some Control able to does not know.
  lemma BegunSight(s: System, t: System, id: Id)
    requires SightOk(s) && id in t.nodes && t.nodes == s.nodes[id := t.nodes[id]]
    requires t.rec == s.rec && t.unseen == s.unseen && t.passes == s.passes
    requires PartOf(t.nodes[id].ctl.kinds, s.rec.kinds)
    requires t.unknown == s.unknown + (if t.nodes[id].ctl.reach then s.rec.kinds.Keys - t.nodes[id].ctl.kinds.Keys
                                       else {})
    ensures SightOk(t)
  {
    assert forall row :: OutOfSight(s, row) ==> OutOfSight(t, row);
  }

  lemma WriteKeeps(s: System, step: Step)
    requires Inv(s) && step.Write?
    ensures Holds(s, Next(s, step))
  {
    if step.id in s.nodes && step.proposal.region in s.nodes[step.id].ctl.windows {
      var w := WorldOf(s, step.id);
      NodeSound(s, step.id);
      hide Inv, Sound, Grows, Put, WhoHears, ReachRest, NoteAll;
      SequenceMoves(w, s.issued, step.proposal, step.key, step.writer, step.hearers, step.order);
      PutMoves(w, s.issued, step.proposal, step.key, step.writer);
      var (v, ds, result) := Sequence(w, step.proposal, step.key, step.writer, step.hearers, step.order);
      var owing := if result.Accepted? && !result.written.repeated
                   then Owing(WhoHears(w.rec, w.ctl.kinds, step.proposal.region, step.writer),
                              result.written.sequence)
                   else {};
      SequenceKeepsRows(w, s.issued, step.proposal, step.key, step.writer, step.hearers, step.order);
      RanKeeps(s, step.id, v, ds, owing);
    }
  }

  // The rows a write owes are on the record when its block ends, if the run
  // is still open then.
  lemma SequenceKeepsRows(
    w: World, issued: set<Notification>, p: Proposal, key: Option<Key>, writer: Name,
    hearers: seq<Name>, order: seq<Name>)
    requires Sound(w, issued) && p.region in w.ctl.windows
    ensures var (v, ds, result) := Sequence(w, p, key, writer, hearers, order);
            result.Accepted? && !result.written.repeated ==>
              && Grows(Put(w.rec, p, key, writer, WhoHears(w.rec, w.ctl.kinds, p.region, writer)).0, v.rec)
              && (v.rec.Open() ==>
                    Owing(WhoHears(w.rec, w.ctl.kinds, p.region, writer), result.written.sequence) <= v.rec.outbox)
  {
    PutMoves(w, issued, p, key, writer);
    var notify := WhoHears(w.rec, w.ctl.kinds, p.region, writer);
    var (rec, answer) := Put(w.rec, p, key, writer, notify);
    if w.ctl.outcome.None? && answer.Done? && !answer.written.repeated {
      hide Sound, Grows, Put, WhoHears, ReachRest, NoteAll;
      var landed := w.(rec := rec, ctl := w.ctl.(last := answer.written.sequence));
      assert issued + Notes([]) == issued;
      ReachRestMoves(landed, issued, hearers, w.ctl.windows[p.region]);
      var (v, ds) := ReachRest(landed, hearers, w.ctl.windows[p.region]);
      NoteAllMoves(v, issued + Notes(ds), order, p.region, writer);
      var (u, es) := NoteAll(v, order, p.region, writer);
      MovesOn(landed, issued, v, ds, u, es);
    }
  }

  lemma FireKeeps(s: System, id: Id, timer: nat)
    requires Inv(s)
    ensures Holds(s, Fires(s, id, timer))
  {
    if id in s.nodes && timer < |s.nodes[id].clock.scheduled|
       && s.nodes[id].clock.scheduled[timer].when <= s.nodes[id].clock.now {
      var w := WorldOf(s, id);
      NodeSound(s, id);
      hide Inv, Sound, Grows, CloseWindowFires, Close;
      MovesStill(w, s.issued);
      match w.clock.scheduled[timer].call {
        case CloseWindow(agent, generation) =>
          CloseWindowMoves(w, s.issued, agent, generation);
          var (v, ds) := CloseWindowFires(w, agent, generation);
          RanKeeps(s, id, v, ds, {});
        case IdlePassed(generation) =>
          if w.ctl.judged && w.ctl.outcome.None? && generation == w.ctl.idleGeneration {
            var t := s.(judging := s.judging + {(id, generation)});
            InFlightOnly(s, t);
          } else {
            CloseMoves(w, s.issued, Settled(Unfinished(w.rec)));
            RanKeeps(s, id, IdleFires(w, generation), [], {});
          }
        case WallClockPassed =>
          CloseMoves(w, s.issued, WallClockExpired(Unfinished(w.rec)));
          RanKeeps(s, id, WallFires(w), [], {});
      }
    }
  }

  lemma InFlightOnly(s: System, t: System)
    requires Inv(s) && t == s.(judging := t.judging)
    ensures Holds(s, t)
  {
    hide RecordOk, Behind, PassOk;
    assert NodesOk(t) && PassesOk(t) && FlightsOk(t);
    FlightKeeps(s, t);
  }

  lemma TakesKeeps(s: System, pass: Id, agent: Name)
    requires Inv(s)
    ensures Holds(s, Takes(s, pass, agent))
  {
    if pass in s.passes && s.passes[pass].board.Some? && s.passes[pass].agents.Some?
       && agent in s.passes[pass].rows {
      var p := s.passes[pass];
      var t := Takes(s, pass, agent);
      var declared := p.agents.value;
      hide RecordOk, NodesOk, FlightsOk, PassesOk, PassRegions, PassNote;
      if agent !in declared || declared[agent].addr.None? {
        FewerRowsKeep(s, pass, agent, t);
      } else if PassRegions(p, agent) == {} {
        var u := s.(rec := MarkSent(s.rec, agent, p.rows[agent]), unseen := s.unseen + Unseen(s.rec, p, agent));
        MootKeeps(s, pass, agent, u);
        FewerRowsKeep(u, pass, agent, t);
      } else {
        var note := PassNote(p, agent);
        var u := s.(rec := MarkNotified(s.rec, agent, note.to), issued := s.issued + {note},
                    calling := s.calling + {(p.owner, Delivery(Transport(declared[agent].addr.value), note))});
        RelayIssues(s, pass, agent, declared[agent].addr.value, u);
        FewerRowsKeep(u, pass, agent, t);
      }
    }
  }

  lemma FewerRowsKeep(s: System, pass: Id, agent: Name, t: System)
    requires Inv(s) && pass in s.passes
    requires var p := s.passes[pass]; t == s.(passes := s.passes[pass := p.(rows := p.rows - {agent})])
    ensures Holds(s, t)
  {
    hide RecordOk, NodesOk, FlightsOk;
    var p := s.passes[pass];
    assert PassOk(s.rec, p, s.renounced);
    var fewer := p.(rows := p.rows - {agent});
    if p.agents.Some? {
      forall a | a in p.agents.value ensures PassAgentOk(s.rec, fewer, a, s.renounced) { assert PassAgentOk(s.rec, p, a, s.renounced); }
    }
    PassSetKeeps(s, pass, fewer);
  }

  lemma RelayReadsKeep(s: System, step: Step)
    requires Inv(s) && (step.RelayReadsRows? || step.RelayReadsAgents? || step.RelayReadsBoard?)
    ensures Holds(s, Next(s, step))
  {
    hide RecordOk, NodesOk, FlightsOk, PassOk;
    if Next(s, step) != s {
      match step {
        case RelayReadsRows(id, pass, rows) =>
          ReadRowsOk(s.rec, s.issued, Pass(id, s.nodes[id].ctl.kinds, rows, None, None), s.renounced);
          PassSetKeeps(s, pass, Pass(id, s.nodes[id].ctl.kinds, rows, None, None));
        case RelayReadsAgents(pass) =>
          ReadAgentsOk(s.rec, s.issued, s.passes[pass], s.renounced);
          PassSetKeeps(s, pass, s.passes[pass].(agents := Some(s.rec.agents)));
        case RelayReadsBoard(pass) =>
          ReadBoardOk(s.rec, s.passes[pass], s.renounced);
          PassSetKeeps(s, pass, s.passes[pass].(board := Some(Prefix(s.rec.log, Some(TAIL)))));
      }
    }
  }

  lemma PassSetKeeps(s: System, pass: Id, p: Pass)
    requires Inv(s) && PassOk(s.rec, p, s.renounced) && Knows(s.unknown, s.rec.kinds, p.kinds)
    ensures Holds(s, s.(passes := s.passes[pass := p]))
  {
    var t := s.(passes := s.passes[pass := p]);
    hide RecordOk, Behind, PassOk;
    assert NodesOk(t) && FlightsOk(t) && PassesOk(t);
    FlightKeeps(s, t);
  }

  lemma ReadRowsOk(r: Record, issued: set<Notification>, p: Pass, gone: set<(Name, nat)>)
    requires RecordOk(r, issued) && p.agents.None? && p.board.None?
    requires forall a :: a in p.rows ==> (a, p.rows[a]) in r.outbox
    ensures PassOk(r, p, gone)
  {
  }

  lemma ReadAgentsOk(r: Record, issued: set<Notification>, p: Pass, gone: set<(Name, nat)>)
    requires RecordOk(r, issued) && PassOk(r, p, gone)
    requires r.Open() ==> forall row :: row in r.outbox ==> row in gone || RowWanted(r, row)
    ensures PassOk(r, p.(agents := Some(r.agents)), gone)
  {
    var q := p.(agents := Some(r.agents));
    forall a | a in q.agents.value ensures PassAgentOk(r, q, a, gone) {
      assert r.Open() ==> forall n: nat :: (a, n) in r.outbox && (a, n) !in gone ==> RowWanted(r, (a, n));
    }
  }

  lemma ReadBoardOk(r: Record, p: Pass, gone: set<(Name, nat)>)
    requires PassOk(r, p, gone) && p.agents.Some?
    ensures PassOk(r, p.(board := Some(Prefix(r.log, Some(TAIL)))), gone)
  {
    var q := p.(board := Some(Prefix(r.log, Some(TAIL))));
    forall a | a in q.agents.value ensures PassAgentOk(r, q, a, gone) { assert PassAgentOk(r, p, a, gone); }
  }

  lemma DeliveryEndKeeps(s: System, id: Id, delivery: Delivery, returned: bool)
    requires Inv(s)
    ensures Holds(s, Next(s, DeliveryEnds(id, delivery, returned)))
  {
    hide RecordOk, NodesOk, FlightsOk, PassesOk, SightOk, AtLeastOnce, Answers, WantsOk;
    EndedFlights(s, id, delivery, returned);
    FlightsOnlyKeep(s, Next(s, DeliveryEnds(id, delivery, returned)));
  }

  // A step that changes only what is in flight and delivered.
  lemma FlightsOnlyKeep(s: System, t: System)
    requires Inv(s) && FlightsOk(t) && s.delivered <= t.delivered
    requires t == s.(calling := t.calling, sent := t.sent, lanes := t.lanes, landed := t.landed,
                     delivered := t.delivered, sweeps := t.sweeps)
    ensures Holds(s, t)
  {
    hide RecordOk, Behind, PassOk, AtLeastOnce, Answers, FlightsOk;
    assert NodesOk(t) && PassesOk(t);
    FlightKeeps(s, t);
  }

  lemma EndedFlights(s: System, id: Id, delivery: Delivery, returned: bool)
    requires FlightsOk(s)
    ensures FlightsOk(Next(s, DeliveryEnds(id, delivery, returned)))
  {
  }

  lemma LaneSendKeeps(s: System, note: Notification)
    requires Inv(s)
    ensures Holds(s, Next(s, LaneSends(note)))
  {
    var t := Next(s, LaneSends(note));
    hide RecordOk, NodesOk, PassesOk, SightOk, AtLeastOnce, Answers, WantsOk;
    assert FlightsOk(t);
    FlightsOnlyKeep(s, t);
  }

  lemma DeliveryStartKeeps(s: System, id: Id)
    requires Inv(s)
    ensures Holds(s, Next(s, DeliveryStarts(id)))
  {
    var t := Next(s, DeliveryStarts(id));
    if t != s {
      hide RecordOk, Behind, PassOk, AtLeastOnce, Answers;
      var queue := s.nodes[id].queue;
      FirstOfQueue(queue);
      assert NodesOk(t) && FlightsOk(t) && PassesOk(t);
      FlightKeeps(s, t);
    }
  }

  lemma FirstOfQueue(queue: seq<Delivery>)
    requires queue != []
    ensures queue[0].note in Notes(queue) && Notes(queue[1..]) <= Notes(queue)
  {
    assert queue == [queue[0]] + queue[1..];
  }

  lemma LeavingKeeps(s: System, step: Step)
    requires Inv(s) && (step.Crash? || step.Tick?)
    ensures Holds(s, Next(s, step))
  {
    var t := Next(s, step);
    hide RecordOk, Behind, PassOk;
    assert NodesOk(t) && FlightsOk(t) && PassesOk(t);
    FlightKeeps(s, t);
  }

  lemma NodeSound(s: System, id: Id)
    requires Inv(s) && id in s.nodes
    ensures Sound(WorldOf(s, id), s.issued)
    ensures s.nodes[id].ctl.kinds.Keys == s.nodes[id].ctl.windows.Keys
  {
    assert Behind(s.rec, s.nodes[id].ctl);
  }

  lemma TouchKeeps(s: System, id: Id)
    requires Inv(s)
    ensures Holds(s, Next(s, Touch(id)))
  {
    if id in s.nodes {
      NodeSound(s, id);
      hide Inv, Sound, Grows, TouchIdle;
      TouchIdleMoves(WorldOf(s, id), s.issued);
      RanKeeps(s, id, TouchIdle(WorldOf(s, id)), [], {});
    }
  }

  lemma AckLocalKeeps(s: System, id: Id, agent: Name, through: int)
    requires Inv(s)
    ensures Holds(s, Next(s, AckLocal(id, agent, through)))
  {
    if id in s.nodes && (agent, through) in s.answered {
      NodeSound(s, id);
      hide NodesOk, PassesOk, FlightsOk, Sound, Grows, AckHere, RecordOk;
      AckHereMoves(WorldOf(s, id), s.issued, agent, through);
      RanKeeps(s, id, AckHere(WorldOf(s, id), agent, through), [], {});
    }
  }

  lemma AbortKeeps(s: System, id: Id, reason: string)
    requires Inv(s)
    ensures Holds(s, Next(s, Abort(id, reason)))
  {
    if id in s.nodes {
      NodeSound(s, id);
      hide Inv, Sound, Grows, Close;
      CloseMoves(WorldOf(s, id), s.issued, Aborted(reason, {}));
      RanKeeps(s, id, Close(WorldOf(s, id), Aborted(reason, {})), [], {});
    }
  }

  lemma PollsKeep(s: System, id: Id, order: seq<Name>)
    requires Inv(s)
    ensures Holds(s, Next(s, Polls(id, order)))
  {
    if id in s.nodes {
      NodeSound(s, id);
      hide Inv, Sound, Grows, Poll;
      PollMoves(WorldOf(s, id), s.issued, order);
      RanKeeps(s, id, Poll(WorldOf(s, id), order).0, Poll(WorldOf(s, id), order).1, {});
    }
  }

  lemma RelayHeldKeeps(s: System, id: Id, order: seq<Name>)
    requires Inv(s)
    ensures Holds(s, Next(s, RelaysHeld(id, order)))
  {
    if id in s.nodes {
      NodeSound(s, id);
      hide Inv, Sound, Grows, RelayHeld;
      RelayHeldMoves(WorldOf(s, id), s.issued, order);
      RanKeeps(s, id, RelayHeld(WorldOf(s, id), order).0, RelayHeld(WorldOf(s, id), order).1, {});
    }
  }

  lemma JoinKeeps(s: System, id: Id, decl: Declaration)
    requires Inv(s)
    ensures Holds(s, Next(s, Step.Join(id, decl)))
  {
    if id in s.nodes {
      NodeSound(s, id);
      hide Inv, Sound, Grows, Register, RefusesAgent;
      StillHolds(s);
      JoiningKeeps(s, id, decl);
    } else {
      hide Inv, Grows;
      StillHolds(s);
    }
  }

  lemma JoiningKeeps(s: System, id: Id, decl: Declaration)
    requires Inv(s) && id in s.nodes
    requires s.nodes[id].ctl.kinds.Keys == s.nodes[id].ctl.windows.Keys
    ensures var (v, ds) := Register(WorldOf(s, id), decl);
            Holds(s, Ran(s.(renounced := s.renounced + Renounced(s.rec, decl)), id, v, ds, {}))
  {
    NodeSound(s, id);
    var u := s.(renounced := s.renounced + Renounced(s.rec, decl));
    RenouncingKeeps(s, u);
    hide Inv, Sound, Grows, Register, Renounced;
    RegisterMoves(WorldOf(s, id), s.issued, decl);
    var (v, ds) := Register(WorldOf(s, id), decl);
    RegisteredWants(s, id, decl, v, ds);
    BlockKeeps(u, id, v, ds, {});
    HoldsOn(s, u, Ran(u, id, v, ds, {}));
  }

  // Giving rows up breaks nothing.
  lemma RenouncingKeeps(s: System, t: System)
    requires Inv(s) && t == s.(renounced := t.renounced) && s.renounced <= t.renounced
    ensures Holds(s, t)
  {
    hide RecordOk, Behind;
    GrowsStill(s.rec);
    forall p | p in t.passes ensures PassOk(t.rec, t.passes[p], t.renounced) {
      assert PassOk(s.rec, s.passes[p], s.renounced);
      var pass := t.passes[p];
      if pass.agents.Some? {
        forall a | a in pass.agents.value ensures PassAgentOk(t.rec, pass, a, t.renounced) {
          assert PassAgentOk(s.rec, pass, a, s.renounced);
        }
      }
    }
    assert SightOk(t);
  }

  lemma RegisteredWants(s: System, id: Id, decl: Declaration, v: World, ds: seq<Delivery>)
    requires Inv(s) && id in s.nodes && Registers(WorldOf(s, id), s.issued, v, ds, decl)
    ensures WantsOk(Ran(s.(renounced := s.renounced + Renounced(s.rec, decl)), id, v, ds, {}))
  {
    if v.rec.Open() {
      forall row | row in v.rec.outbox && row !in s.renounced + Renounced(s.rec, decl)
        ensures RowWanted(v.rec, row)
      {
        if row in s.rec.outbox {
          assert RowWanted(s.rec, row);
          assert v.rec.log[row.1 - 1] == v.rec.log[..|s.rec.log|][row.1 - 1];
        }
      }
    }
  }

  lemma JudgeKeeps(s: System, id: Id, generation: nat, complete: bool)
    requires Inv(s)
    ensures Holds(s, Next(s, Judge(id, generation, complete)))
  {
    if id in s.nodes && (id, generation) in s.judging {
      var u := s.(judging := s.judging - {(id, generation)});
      InFlightOnly(s, u);
      hide Inv, IdleJudged;
      VerdictKeeps(u, id, generation, complete);
    }
  }

  lemma VerdictKeeps(s: System, id: Id, generation: nat, complete: bool)
    requires Inv(s) && id in s.nodes
    ensures Holds(s, Ran(s, id, IdleJudged(WorldOf(s, id), generation, complete), [], {}))
  {
    var w := WorldOf(s, id);
    NodeSound(s, id);
    hide Inv, Sound, Grows, Close, TouchIdle;
    MovesStill(w, s.issued);
    CloseMoves(w, s.issued, Settled(Unfinished(w.rec)));
    TouchIdleMoves(w, s.issued);
    RanKeeps(s, id, IdleJudged(w, generation, complete), [], {});
  }

  lemma StoreTickKeeps(s: System, span: nat)
    requires Inv(s)
    ensures Holds(s, Next(s, StoreTick(span)))
  {
    var t := Next(s, StoreTick(span));
    ClockTickOk(s.rec, s.issued, span);
    hide RecordOk, Grows, NodesOk, PassesOk, FlightsOk;
    AnswersGrow(s.rec, t.rec, s.answered);
    RecordStepKeeps(s, t.rec, t);
  }

  lemma SweepReadKeeps(s: System, step: Step)
    requires Inv(s) && (step.SweepReadsRun? || step.SweepReadsAgents?)
    ensures Holds(s, Next(s, step))
  {
    var t := Next(s, step);
    hide RecordOk, NodesOk, PassesOk, SightOk, AtLeastOnce, Answers, WantsOk;
    assert t == s.(sweeps := t.sweeps) && FlightsOk(t);
    FlightsOnlyKeep(s, t);
  }

  lemma SweepCloseKeeps(s: System, sweep: Id)
    requires Inv(s)
    ensures Holds(s, Next(s, SweepCloses(sweep)))
  {
    hide RecordOk, Grows, NodesOk, PassesOk, FlightsOk, SightOk, WantsOk, AtLeastOnce;
    var t := Next(s, SweepCloses(sweep));
    if t != s {
      CloseRunOk(s.rec, s.issued, s.sweeps[sweep].closedAs, None, s.sweeps[sweep].unfinished.value);
      AnswersGrow(s.rec, t.rec, s.answered);
      RecordStepKeeps(s, t.rec, t);
    } else {
      StillHolds(s);
    }
  }

  lemma AnswersGrow(r: Record, t: Record, answered: set<(Name, int)>)
    requires Answers(r, answered) && Grows(r, t)
    ensures Answers(t, answered)
  {
    if t.Open() {
      forall a | a in answered ensures a.0 in t.agents && a.1 <= t.agents[a.0].acked {
        assert AgentGrows(r, t, a.0);
      }
    }
  }

  lemma AckStoreKeeps(s: System, agent: Name, through: int)
    requires Inv(s)
    ensures Holds(s, Next(s, AckStore(agent, through)))
  {
    var t := Next(s, AckStore(agent, through));
    AcknowledgeOk(s.rec, s.issued, agent, through);
    hide RecordOk, Grows, NodesOk, PassesOk, FlightsOk;
    AnswersGrow(s.rec, t.rec, s.answered);
    RecordStepKeeps(s, t.rec, t);
  }

  lemma NextKeeps(s: System, step: Step)
    requires Inv(s)
    ensures Holds(s, Next(s, step))
  {
    hide Inv, Fires, Takes;
    match step {
      case Construct(_, _, _, _, _, _, _) => ConstructKeeps(s, step);
      case Write(_, _, _, _, _, _) => WriteKeeps(s, step);
      case Fire(id, timer) => FireKeeps(s, id, timer);
      case Judge(id, generation, complete) => JudgeKeeps(s, id, generation, complete);
      case RelayTakes(pass, agent) => TakesKeeps(s, pass, agent);
      case RelayReadsRows(_, _, _) => RelayReadsKeep(s, step);
      case RelayReadsAgents(_) => RelayReadsKeep(s, step);
      case RelayReadsBoard(_) => RelayReadsKeep(s, step);
      case DeliveryMarks(id, note) => MarkStepKeeps(s, step);
      case LaneMarks(note) => MarkStepKeeps(s, step);
      case AckStore(agent, through) => AckStoreKeeps(s, agent, through);
      case StoreTick(span) => StoreTickKeeps(s, span);
      case SweepReadsRun(_) => SweepReadKeeps(s, step);
      case SweepReadsAgents(_) => SweepReadKeeps(s, step);
      case SweepCloses(sweep) => SweepCloseKeeps(s, sweep);
      case DeliveryStarts(id) => DeliveryStartKeeps(s, id);
      case DeliveryEnds(id, delivery, returned) => DeliveryEndKeeps(s, id, delivery, returned);
      case LaneSends(note) => LaneSendKeeps(s, note);
      case Crash(_) => LeavingKeeps(s, step);
      case Tick(_, _) => LeavingKeeps(s, step);
      case Join(id, decl) => JoinKeeps(s, id, decl);
      case Polls(id, order) => PollsKeep(s, id, order);
      case RelaysHeld(id, order) => RelayHeldKeeps(s, id, order);
      case Touch(id) => TouchKeeps(s, id);
      case AckLocal(id, agent, through) => AckLocalKeeps(s, id, agent, through);
      case Abort(id, reason) => AbortKeeps(s, id, reason);
    }
  }

  lemma MarkStepKeeps(s: System, step: Step)
    requires Inv(s) && (step.DeliveryMarks? || step.LaneMarks?)
    ensures Holds(s, Next(s, step))
  {
    var t := Next(s, step);
    if t != s { MarkKeeps(s, step.note, t); }
  }

  lemma OpeningHolds(s: System)
    requires Opening(s)
    ensures Inv(s)
  {
    assert Notes([]) == {};
  }

  lemma {:induction false} EveryRunKeeps(s: System, steps: seq<Step>)
    requires Inv(s)
    ensures Holds(s, Reached(s, steps))
  {
    StillHolds(s);
    if steps != [] {
      EveryRunKeeps(s, steps[..|steps| - 1]);
      var t := Reached(s, steps[..|steps| - 1]);
      hide Inv, Next, Onward;
      NextKeeps(t, steps[|steps| - 1]);
      HoldsOn(s, t, Next(t, steps[|steps| - 1]));
    }
  }
}
