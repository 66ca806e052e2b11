// What one pass of the relay does to the rows it reads, and what it does not.
//
// A pass sends to agents this process does not hold, by the address the run
// records, from one read of the rows, of the declarations and of the first
// `TAIL` writes of the board; then it hands what is left to the agents it
// holds, from a read that starts at the least advanced of them.

module Relays {
  import opened Values
  import opened Records
  import opened Clocks
  import opened Controls
  import opened Cursors
  import opened Protocol
  import opened Guarantees

  // Progress by address

  // The last row of each agent a Control does not hold: what reading every
  // row in order and keeping the last of each name leaves.
  ghost predicate LastRows(outbox: set<(Name, nat)>, held: set<Name>, rows: map<Name, nat>) {
    && (forall a :: a in rows ==> a !in held && (a, rows[a]) in outbox)
    && (forall row :: row in outbox && row.0 !in held ==> row.0 in rows && row.1 <= rows[row.0])
  }

  // The part of a pass for one agent, its send having returned or raised.
  ghost function Serves(s: System, id: Id, pass: Id, agent: Name, returned: bool): System {
    var t := Takes(s, pass, agent);
    if pass !in s.passes || s.passes[pass].board.None? || s.passes[pass].agents.None?
       || agent !in s.passes[pass].agents.value || s.passes[pass].agents.value[agent].addr.None?
       || PassRegions(s.passes[pass], agent) == {} then t
    else
      var note := PassNote(s.passes[pass], agent);
      var delivery := Delivery(Transport(s.passes[pass].agents.value[agent].addr.value), note);
      var ended := Next(t, DeliveryEnds(id, delivery, returned));
      if returned then Next(ended, DeliveryMarks(id, note)) else ended
  }

  ghost function ServesAll(s: System, id: Id, pass: Id, order: seq<Name>): System {
    if order == [] then s
    else Serves(ServesAll(s, id, pass, order[..|order| - 1]), id, pass, order[|order| - 1], true)
  }

  // A whole pass with nothing else between its reads and its sends.
  ghost function PassRuns(s: System, id: Id, pass: Id, rows: map<Name, nat>, order: seq<Name>): System {
    var rowsRead := Next(s, RelayReadsRows(id, pass, rows));
    var agentsRead := Next(rowsRead, RelayReadsAgents(pass));
    ServesAll(Next(agentsRead, RelayReadsBoard(pass)), id, pass, order)
  }

  // What a pass holds while it runs alone: what it read is what the record
  // still says of the rows it has not yet come to.
  ghost predicate Serving(s: System, id: Id, pass: Id, start: Record, rows: map<Name, nat>, served: set<Name>) {
    && pass in s.passes
    && s.passes[pass] == Pass(id, s.passes[pass].kinds, rows - served, Some(start.agents),
                              Some(Prefix(start.log, Some(TAIL))))
    && s.rec.outbox <= start.outbox
    && (forall row :: row in s.rec.outbox && row.0 in served && row.0 in start.agents ==>
          start.agents[row.0].addr.None?)
  }

  // How far a pass marks an agent's rows, its send having returned.
  ghost function MarksThrough(s: System, pass: Id, agent: Name): nat
    requires pass in s.passes && s.passes[pass].board.Some? && s.passes[pass].agents.Some?
    requires agent in s.passes[pass].rows && agent in s.passes[pass].agents.value
  {
    if PassRegions(s.passes[pass], agent) == {} then s.passes[pass].rows[agent]
    else |s.passes[pass].board.value|
  }

  // The record's part of it is the loop body the Control runs, whether its
  // send returns or raises.
  lemma ServesIsRelayOne(s: System, id: Id, pass: Id, agent: Name, returned: bool)
    requires pass in s.passes && s.passes[pass].board.Some? && s.passes[pass].agents.Some?
    requires agent in s.passes[pass].rows && s.passes[pass].owner == id
    ensures var p := s.passes[pass];
            Serves(s, id, pass, agent, returned).rec ==
            RelayOne(s.rec, p.kinds, p.rows, p.agents.value, p.board.value, agent, returned)
  {
    var p := s.passes[pass];
    if agent in p.agents.value && p.agents.value[agent].addr.Some? && PassRegions(p, agent) != {} {
      hide Changed;
      var t := Takes(s, pass, agent);
      var note := PassNote(p, agent);
      var delivery := Delivery(Transport(p.agents.value[agent].addr.value), note);
      assert (id, delivery) in t.calling;
      var v := Next(t, DeliveryEnds(id, delivery, returned));
      assert v.rec == t.rec && (returned ==> (id, note) in v.sent);
    }
  }

  lemma ServesMarks(s: System, id: Id, pass: Id, agent: Name)
    requires pass in s.passes && s.passes[pass].board.Some? && s.passes[pass].agents.Some?
    requires agent in s.passes[pass].rows && s.passes[pass].owner == id
    ensures var p, u := s.passes[pass], Serves(s, id, pass, agent, true);
            && u.passes == s.passes[pass := p.(rows := p.rows - {agent})]
            && u.rec.outbox ==
               if agent in p.agents.value && p.agents.value[agent].addr.Some?
               then MarkSent(s.rec, agent, MarksThrough(s, pass, agent)).outbox
               else s.rec.outbox
  {
    ServesIsRelayOne(s, id, pass, agent, true);
    ServesTakesRows(s, id, pass, agent);
    hide Serves, Changed;
  }

  lemma ServesTakesRows(s: System, id: Id, pass: Id, agent: Name)
    requires pass in s.passes && s.passes[pass].board.Some? && s.passes[pass].agents.Some?
    requires agent in s.passes[pass].rows
    ensures var p := s.passes[pass];
            Serves(s, id, pass, agent, true).passes == s.passes[pass := p.(rows := p.rows - {agent})]
  {
    hide PassRegions, PassNote, Next;
    forall t, step: Step | step.DeliveryEnds? || step.DeliveryMarks? ensures Next(t, step).passes == t.passes {
      EndsKeepPasses(t, step);
    }
  }

  lemma EndsKeepPasses(s: System, step: Step)
    requires step.DeliveryEnds? || step.DeliveryMarks?
    ensures Next(s, step).passes == s.passes
  {
  }

  lemma ServesKeeps(
    s: System, id: Id, pass: Id, start: Record, held: set<Name>, rows: map<Name, nat>, served: set<Name>, agent: Name)
    requires Serving(s, id, pass, start, rows, served)
    requires LastRows(start.outbox, held, rows) && RowsSound(start.outbox, |start.log|) && |start.log| <= TAIL
    requires agent in rows && agent !in served
    ensures Serving(Serves(s, id, pass, agent, true), id, pass, start, rows, served + {agent})
  {
    ServesMarks(s, id, pass, agent);
    hide Serves, PassRegions;
    assert (rows - served) - {agent} == rows - (served + {agent});
    var u := Serves(s, id, pass, agent, true);
    forall row | row in u.rec.outbox && row.0 == agent && agent in start.agents
      ensures start.agents[agent].addr.None?
    {
      assert row in start.outbox && row.1 <= rows[agent] && row.1 <= |start.log|;
    }
  }

  lemma {:induction false} ServesAllKeeps(
    s: System, id: Id, pass: Id, start: Record, held: set<Name>, rows: map<Name, nat>, order: seq<Name>)
    requires Serving(s, id, pass, start, rows, {})
    requires LastRows(start.outbox, held, rows) && RowsSound(start.outbox, |start.log|) && |start.log| <= TAIL
    requires forall i :: 0 <= i < |order| ==> order[i] in rows
    requires forall i, j :: 0 <= i < j < |order| ==> order[i] != order[j]
    ensures Serving(ServesAll(s, id, pass, order), id, pass, start, rows, set a | a in order)
  {
    hide Serving, Serves, LastRows, RowsSound;
    if order == [] {
      assert (set a | a in order) == {};
    } else {
      var init := order[..|order| - 1];
      ServesAllKeeps(s, id, pass, start, held, rows, init);
      var served := set a | a in init;
      ServesKeeps(ServesAll(s, id, pass, init), id, pass, start, held, rows, served, order[|order| - 1]);
      assert order == init + [order[|order| - 1]];
      assert (set a | a in order) == served + {order[|order| - 1]};
    }
  }

  lemma RowsAreRead(s: System, id: Id, pass: Id, rows: map<Name, nat>)
    requires id in s.nodes && s.nodes[id].ctl.reach && pass !in s.passes
    requires LastRows(s.rec.outbox, s.nodes[id].ctl.agents.Keys, rows)
    ensures Next(s, RelayReadsRows(id, pass, rows)) ==
            s.(passes := s.passes[pass := Pass(id, s.nodes[id].ctl.kinds, rows, None, None)])
  {
  }

  lemma RestIsRead(s: System, pass: Id)
    requires pass in s.passes && s.passes[pass].agents.None? && s.passes[pass].board.None?
    ensures Next(Next(s, RelayReadsAgents(pass)), RelayReadsBoard(pass))
            == s.(passes := s.passes[pass := s.passes[pass].(agents := Some(s.rec.agents),
                                                             board := Some(Prefix(s.rec.log, Some(TAIL))))])
  {
    var t := Next(s, RelayReadsAgents(pass));
    assert t == s.(passes := s.passes[pass := s.passes[pass].(agents := Some(s.rec.agents))]);
  }

  // A pass whose sends all return leaves no row for any declared agent with
  // an address that this Control does not hold.
  lemma {:induction false} PassLeavesNothing(
    s: System, steps: seq<Step>, id: Id, pass: Id, rows: map<Name, nat>, order: seq<Name>)
    requires Opening(s)
    requires var t := Reached(s, steps);
             && id in t.nodes && t.nodes[id].ctl.reach && pass !in t.passes
             && |t.rec.log| <= TAIL
             && LastRows(t.rec.outbox, t.nodes[id].ctl.agents.Keys, rows)
             && Enumerates(order, rows.Keys)
    ensures var t := Reached(s, steps);
            forall row :: row in PassRuns(t, id, pass, rows, order).rec.outbox
                          && row.0 !in t.nodes[id].ctl.agents && row.0 in t.rec.agents ==>
              t.rec.agents[row.0].addr.None?
  {
    OpeningHolds(s);
    EveryRunKeeps(s, steps);
    var t := Reached(s, steps);
    assert RowsSound(t.rec.outbox, |t.rec.log|);
    hide Inv, RowsSound, Serves;
    var three := Next(Next(Next(t, RelayReadsRows(id, pass, rows)), RelayReadsAgents(pass)), RelayReadsBoard(pass));
    RowsAreRead(t, id, pass, rows);
    RestIsRead(Next(t, RelayReadsRows(id, pass, rows)), pass);
    hide Next;
    assert rows - {} == rows;
    assert Serving(three, id, pass, t.rec, rows, {});
    ServesAllKeeps(three, id, pass, t.rec, t.nodes[id].ctl.agents.Keys, rows, order);
  }

  // When a row may be given up

  // A life in which every relaying Control knows at least the regions `held`,
  // and an agent is owed the `n`th write, to `region`, while its row is gone,
  // no send that covers the write returned, and it has neither answered it nor
  // registered since not to hear of it.
  ghost predicate GivesUp(
    s: System, steps: seq<Step>, kinds: map<Region, Kind>, held: set<Region>, agent: Name, region: Region, n: nat)
  {
    && Opening(s) && s.rec.kinds == kinds && RelaysKnow(steps, held)
    && var t := Reached(s, steps);
       && t.rec.Open() && 1 <= n <= |t.rec.log| && t.rec.log[n - 1].region == region
       && (agent, n) in t.owed && (agent, n) !in t.renounced && !Kept(t, (agent, n))
  }

  // Some life gives up a row for the `n`th write exactly when the write is
  // past the most a pass reads of the board, or in a region a relaying
  // Control may not know.
  lemma RowsGivenUpIff(kinds: map<Region, Kind>, held: set<Region>, region: Region, n: nat)
    requires region in kinds && held <= kinds.Keys
    ensures (exists s, steps, agent :: GivesUp(s, steps, kinds, held, agent, region, n))
            <==> n >= 1 && (n > TAIL || region !in held)
  {
    forall s, steps, agent | GivesUp(s, steps, kinds, held, agent, region, n)
      ensures n >= 1 && (n > TAIL || region !in held)
    {
      GivenUpIsOutOfSight(s, steps, held, (agent, n));
    }
    if n >= 1 && (n > TAIL || region !in held) {
      var l := Life(kinds, held, region, n);
      RelayLosesARow(l);
      assert GivesUp(l.Start(), l.Steps(), kinds, held, "listener", region, n);
    }
  }

  const LISTED_AT: Option<Address> := Some("http://listener")

  // An agent that has only ever written hears of one more write, by another,
  // and a Control that does not hold the agent makes a pass.
  datatype Life = Life(kinds: map<Region, Kind>, held: set<Region>, region: Region, n: nat) {
    ghost predicate Possible() { region in kinds && held <= kinds.Keys && n >= 1 }

    predicate Premise() { region in kinds && kinds[region] == PremiseKind }

    function Own(count: nat): seq<Entry> {
      seq(count, (i: nat) => Entry(region, "", if Premise() then Some(i + 1) else None, None, Some("listener"), 0))
    }

    function Last(): Entry { Entry(region, "", if Premise() then Some(n) else None, None, Some("writer"), 0) }

    function Proposed(): Proposal { if Premise() then PremiseWrite(region, "", n - 1) else LevelWrite(region, "") }

    function Listener(): Declaration { Declaration("listener", None, Some({region}), None, LISTED_AT) }

    function Listed(): map<Name, Progress> {
      map["listener" := Progress(0, 0, Some({region}), None, LISTED_AT)]
    }

    function Waiting(): map<Name, AgentState> {
      map["listener" := AgentState(Listener(), 0, 0, map[], None, None, 0)]
    }

    function Rec(log: seq<Entry>, agents: map<Name, Progress>, outbox: set<(Name, nat)>): Record {
      Record(0, kinds, log, Some(Records.Run(10, 10, None, None, {})), agents, outbox)
    }

    function Long(): seq<Entry>
      requires Possible()
    {
      Own(n - 1) + [Last()]
    }

    function Start(): System
      requires Possible()
    {
      Afresh(Rec(Own(n - 1), map[], {}))
    }

    function Steps(): (steps: seq<Step>)
      ensures |steps| == 8
    {
      [Construct(0, NoWindows(kinds.Keys), 10, 10, false, false, 0),
       Step.Join(0, Listener()),
       Write(0, Proposed(), None, "writer", ["listener"], ["listener"]),
       Construct(1, NoWindows(held), 10, 10, true, false, 0),
       RelayReadsRows(1, 0, map["listener" := n]),
       RelayReadsAgents(0),
       RelayReadsBoard(0),
       RelayTakes(0, "listener")]
    }

    // After the first three steps the row is there, and after the next four a
    // pass has read all it reads.
    ghost function Written(): System
      requires Possible()
    {
      Start().(rec := Rec(Long(), Listed(), {("listener", n)}), owed := {("listener", n)},
               nodes := map[0 := Begun(kinds, false, n, Waiting())])
    }

    ghost function Read(): Pass
      requires Possible()
    {
      Pass(1, Restricted(kinds, held), map["listener" := n], Some(Listed()), Some(Prefix(Long(), Some(TAIL))))
    }

    ghost function Ready(): System
      requires Possible()
    {
      Written().(nodes := Written().nodes[1 := Begun(Restricted(kinds, held), true, n, map[])],
                 unknown := kinds.Keys - held, passes := map[0 := Read()])
    }
  }

  function NoWindows(regions: set<Region>): map<Region, Duration> { map region | region in regions :: 0 }

  function Afresh(rec: Record): System {
    System(rec, map[], {}, {}, {}, {}, {}, {}, {}, {}, {}, map[], map[], 0, {}, {}, {})
  }

  function Begun(kinds: map<Region, Kind>, reach: bool, last: nat, agents: map<Name, AgentState>): Node {
    Node(Control(kinds, NoWindows(kinds.Keys), 10, reach, false, last, agents, None, 0, None, Some(0)),
         Clock(0, [Timer(10, 0, WallClockPassed, false)], 1), [])
  }

  lemma {:induction false} OwnWrites(l: Life, count: nat)
    ensures Writes(l.Own(count), l.region) == count
  {
    if count > 0 {
      assert l.Own(count)[..count - 1] == l.Own(count - 1);
      OwnWrites(l, count - 1);
    }
  }

  // A block that leaves the run open and issues nothing.
  lemma NothingIssued(s: System, id: Id, v: World, owing: set<(Name, nat)>)
    requires id in s.nodes && s.rec.Open() && v.rec.Open()
    ensures Ran(s, id, v, [], owing) ==
            s.(rec := v.rec, nodes := s.nodes[id := Node(v.ctl, v.clock, s.nodes[id].queue)], owed := s.owed + owing)
  {
    assert Notes([]) == {};
    assert s.nodes[id].queue + [] == s.nodes[id].queue;
  }

  lemma Constructs(s: System, id: Id, regions: set<Region>, reach: bool)
    requires id !in s.nodes && s.rec.now == 0 && s.rec.run == Some(Records.Run(10, 10, None, None, {}))
    requires regions <= s.rec.kinds.Keys
    ensures Next(s, Construct(id, NoWindows(regions), 10, 10, reach, false, 0)) ==
            s.(nodes := s.nodes[id := Begun(Restricted(s.rec.kinds, regions), reach, |s.rec.log|, map[])],
               unknown := s.unknown + (if reach then s.rec.kinds.Keys - regions else {}))
  {
    assert NoWindows(regions).Keys == regions == Restricted(s.rec.kinds, regions).Keys;
    var w := Begin(Restricted(s.rec.kinds, regions), NoWindows(regions), 10, 10, reach, false,
                   Clock(0, [], 0), s.rec);
    assert w.rec == s.rec;
    assert Node(w.ctl, w.clock, []) == Begun(Restricted(s.rec.kinds, regions), reach, |s.rec.log|, map[]);
  }

  lemma ListenerJoins(l: Life, s: System)
    requires l.Possible() && s == l.Start().(nodes := map[0 := Begun(l.kinds, false, l.n - 1, map[])])
    ensures Next(s, l.Steps()[1]) ==
            s.(rec := l.Rec(l.Own(l.n - 1), l.Listed(), {}),
               nodes := map[0 := Begun(l.kinds, false, l.n - 1, l.Waiting())])
  {
    var w := WorldOf(s, 0);
    var joined := Controls.Join(w, l.Listener());
    var waiting := WithAgent(joined, "listener", l.Waiting()["listener"]);
    assert waiting.ctl == Begun(l.kinds, false, l.n - 1, l.Waiting()).ctl && waiting.clock == w.clock;
    assert waiting.rec == l.Rec(l.Own(l.n - 1), l.Listed(), {});
    assert Joining(w, l.Listener()).(pending := map[]) == l.Waiting()["listener"];
    assert joined.ctl.agents["listener" := l.Waiting()["listener"]] == l.Waiting();
    assert Register(w, l.Listener()) == (waiting, []);
    hide Register, Joining, Controls.Join, Evaluate;
    JoinRan(s, l.Listener(), waiting);
  }

  lemma JoinRan(s: System, decl: Declaration, v: World)
    requires 0 in s.nodes && s.rec.Open() && s.rec.outbox == {}
    requires RefusesAgent(s.nodes[0].ctl, decl).None? && s.nodes[0].ctl.kinds.Keys == s.nodes[0].ctl.windows.Keys
    requires Register(WorldOf(s, 0), decl) == (v, []) && v.rec.Open()
    ensures Next(s, Step.Join(0, decl)) ==
            s.(rec := v.rec, nodes := s.nodes[0 := Node(v.ctl, v.clock, s.nodes[0].queue)])
  {
    hide Register, RefusesAgent;
    assert s.(renounced := s.renounced + Renounced(s.rec, decl)) == s;
    NothingIssued(s, 0, v, {});
  }

  lemma LastWriteLands(l: Life, s: System)
    requires l.Possible()
    requires s == l.Start().(rec := l.Rec(l.Own(l.n - 1), l.Listed(), {}),
                             nodes := map[0 := Begun(l.kinds, false, l.n - 1, l.Waiting())])
    ensures Next(s, l.Steps()[2]) == l.Written()
  {
    hide Sequence, WhoHears, Ran;
    var w := WorldOf(s, 0);
    var v := LastSequence(l, w);
    assert Next(s, l.Steps()[2]) == Ran(s, 0, v, [], Owing({"listener"}, l.n));
    hide Next;
    assert {} + Owing({"listener"}, l.n) == {("listener", l.n)};
    NothingIssued(s, 0, v, Owing({"listener"}, l.n));
  }

  lemma LastSequence(l: Life, w: World) returns (v: World)
    requires l.Possible() && w.rec == l.Rec(l.Own(l.n - 1), l.Listed(), {})
    requires w.ctl == Begun(l.kinds, false, l.n - 1, l.Waiting()).ctl
    requires w.clock == Begun(l.kinds, false, l.n - 1, l.Waiting()).clock
    ensures v == World(Begun(l.kinds, false, l.n, l.Waiting()).ctl, w.clock,
                       l.Rec(l.Long(), l.Listed(), {("listener", l.n)}))
    ensures WhoHears(w.rec, l.kinds, l.region, "writer") == {"listener"}
    ensures exists version ::
              Sequence(w, l.Proposed(), None, "writer", ["listener"], ["listener"])
              == (v, [], Accepted(Written(l.n, version, false)))
  {
    assert WhoHears(w.rec, l.kinds, l.region, "writer") == {"listener"};
    OwnWrites(l, l.n - 1);
    var (rec, answer) := Put(w.rec, l.Proposed(), None, "writer", {"listener"});
    assert answer == Done(Written(l.n, l.Last().version, false));
    assert {} + Owing({"listener"}, l.n) == {("listener", l.n)};
    assert rec == l.Rec(l.Long(), l.Listed(), {("listener", l.n)});
    v := w.(rec := rec, ctl := w.ctl.(last := l.n));
    NothingHeard(l, v);
    hide Put, WhoHears, ReachRest, NoteAll;
    var all: seq<Delivery> := [] + ([] + []);
    assert all == [];
    assert Sequence(w, l.Proposed(), None, "writer", ["listener"], ["listener"])
           == (v, all, Accepted(Written(l.n, l.Last().version, false)));
  }

  // The Control that takes the write can carry nothing to the listener.
  lemma {:induction false} NothingHeard(l: Life, v: World)
    requires l.Possible() && v.ctl == Begun(l.kinds, false, l.n, l.Waiting()).ctl
    ensures ReachRest(v, ["listener"], 0) == (v, [])
    ensures NoteAll(v, ["listener"], l.region, "writer") == (v, [] + [])
  {
    var waiting := l.Waiting()["listener"];
    var added := WithAgent(v, "listener", waiting.(pending := AddDue(map[], l.region, v.clock.now)));
    assert v.ctl.agents["listener" := waiting] == v.ctl.agents;
    assert added.ctl.agents["listener" := waiting] == v.ctl.agents;
    assert Evaluate(added, "listener") == (v, []);
    assert Note(v, "listener", l.region, "writer") == (v, []);
    assert ["listener"][..0] == [];
    assert NoteAll(v, [], l.region, "writer") == (v, []);
  }

  lemma PassReads(l: Life)
    requires l.Possible()
    ensures Next(Next(Next(Next(l.Written(), l.Steps()[3]), l.Steps()[4]), l.Steps()[5]), l.Steps()[6]) == l.Ready()
  {
    hide Next, Begun;
    var s := l.Written();
    Constructs(s, 1, l.held, true);
    BegunAlone(Restricted(l.kinds, l.held), l.n);
    var u := Next(s, l.Steps()[3]);
    assert u.unknown == l.kinds.Keys - l.held;
    assert LastRows(u.rec.outbox, {}, map["listener" := l.n]);
    RowsAreRead(u, 1, 0, map["listener" := l.n]);
    RestIsRead(Next(u, l.Steps()[4]), 0);
  }

  lemma BegunAlone(kinds: map<Region, Kind>, last: nat)
    ensures var ctl := Begun(kinds, true, last, map[]).ctl; ctl.agents == map[] && ctl.reach && ctl.kinds == kinds
  {
  }

  // Nothing of what the pass sees concerns the listener, and its row goes.
  lemma PassTakes(l: Life)
    requires l.Possible() && (l.n > TAIL || l.region !in l.held)
    ensures var t := Next(l.Ready(), l.Steps()[7]);
            t.rec == l.Rec(l.Long(), l.Listed(), {}) && t.owed == {("listener", l.n)} && t.delivered == {} && t.renounced == {}
  {
    var s := l.Ready();
    assert Next(s, l.Steps()[7]) == Takes(s, 0, "listener");
    var board := l.Read().board.value;
    forall i | 0 <= i < |board| && i < l.n - 1 ensures board[i].writer == Some("listener") {
      assert board[i] == l.Own(l.n - 1)[i];
    }
    assert PassRegions(l.Read(), "listener") == {};
    assert MarkSent(s.rec, "listener", l.n).outbox == {};
  }

  lemma WriteLands(l: Life)
    requires l.Possible()
    ensures Next(Next(Next(l.Start(), l.Steps()[0]), l.Steps()[1]), l.Steps()[2]) == l.Written()
  {
    var s := l.Start();
    Constructs(s, 0, l.kinds.Keys, false);
    assert Restricted(l.kinds, l.kinds.Keys) == l.kinds;
    var s1 := s.(nodes := map[0 := Begun(l.kinds, false, l.n - 1, map[])]);
    hide Next, Begun;
    assert s.unknown + {} == {};
    assert Next(s, l.Steps()[0]) == s1;
    ListenerJoins(l, s1);
    LastWriteLands(l, Next(s1, l.Steps()[1]));
  }

  lemma RelayLosesARow(l: Life)
    requires l.Possible() && (l.n > TAIL || l.region !in l.held)
    ensures GivesUp(l.Start(), l.Steps(), l.kinds, l.held, "listener", l.region, l.n)
  {
    hide Next, Reached, GivesUp, Life.Written, Life.Ready, Life.Start, Life.Steps;
    WriteLands(l);
    PassReads(l);
    PassTakes(l);
    LosingUnrolls(l, l.Start());
    LosingEnds(l, Next(l.Ready(), l.Steps()[7]));
  }

  lemma LosingEnds(l: Life, t: System)
    requires l.Possible() && t == Reached(l.Start(), l.Steps())
    requires t.rec == l.Rec(l.Long(), l.Listed(), {}) && t.owed == {("listener", l.n)} && t.delivered == {} && t.renounced == {}
    ensures GivesUp(l.Start(), l.Steps(), l.kinds, l.held, "listener", l.region, l.n)
  {
    hide Reached, Next;
    assert NoWindows(l.held).Keys == l.held;
  }

  lemma {:induction false} LosingUnrolls(l: Life, s: System)
    ensures var a := l.Steps();
            var t := Next(Next(Next(Next(s, a[0]), a[1]), a[2]), a[3]);
            Reached(s, a) == Next(Next(Next(Next(t, a[4]), a[5]), a[6]), a[7])
  {
    hide Next, Reached, Life.Steps;
    var a := l.Steps();
    OneMore(s, a, 0); OneMore(s, a, 1); OneMore(s, a, 2); OneMore(s, a, 3);
    OneMore(s, a, 4); OneMore(s, a, 5); OneMore(s, a, 6); OneMore(s, a, 7);
    assert a[..8] == a;
  }

  lemma {:induction false} OneMore(s: System, steps: seq<Step>, k: nat)
    requires k < |steps|
    ensures Reached(s, steps[..k + 1]) == Next(Reached(s, steps[..k]), steps[k])
    ensures k == 0 ==> Reached(s, steps[..k]) == s
  {
    hide Next;
    assert steps[..k + 1][..k] == steps[..k];
  }

  // The agents a Control holds

  // What a tail leaves pending: what was pending, and the regions of every
  // change it reads that is to be added.
  lemma {:induction false} TailAdds(w: World, st: AgentState, lo: nat, hi: nat, relaying: bool)
    requires hi <= |w.rec.log| && w.ctl.kinds.Keys == w.ctl.windows.Keys
    ensures var from := if relaying then lo else Max(lo, st.notified);
            AddTail(w, st, lo, hi, relaying).pending.Keys ==
            st.pending.Keys + Changed(w.rec.log, from, hi, w.ctl.kinds, st.decl.subs, st.decl.name)
  {
    if lo < hi {
      TailAdds(w, st, lo, hi - 1, relaying);
      var from := if relaying then lo else Max(lo, st.notified);
      var before := Changed(w.rec.log, from, hi - 1, w.ctl.kinds, st.decl.subs, st.decl.name);
      var all := Changed(w.rec.log, from, hi, w.ctl.kinds, st.decl.subs, st.decl.name);
      var last := w.rec.log[hi - 1];
      if Adds(w.ctl, w.rec.log, hi, st, relaying) {
        assert forall region :: region in all <==> region in before || region == last.region;
      } else {
        assert forall region :: region in all <==> region in before;
      }
    }
  }

  // The source says a resent notification names exactly what a first one
  // would have named, everything the agent is to hear of since its answer. It
  // names what was pending and what changed since the least answer among the
  // agents resent to. Where one read reaches the board's end it never names
  // less than the source says, and names exactly that when, and only when,
  // whatever was pending, or changed between the least answer and this
  // agent's own, has changed again since.
  lemma ResentNamesIff(w: World, owed: set<Name>, agent: Name)
    requires w.ctl.kinds.Keys == w.ctl.windows.Keys
    requires agent in Considered(w.ctl, Some(owed))
    requires w.ctl.agents[agent].decl.name == agent && w.ctl.agents[agent].acked <= |w.rec.log|
    ensures var st := w.ctl.agents[agent];
            var lo := FloorOf(w.ctl, Considered(w.ctl, Some(owed)));
            var hi := Min(|w.rec.log|, lo + TAIL);
            var named := TakeTail(w, Some(owed)).ctl.agents[agent].pending.Keys;
            var answered := Changed(w.rec.log, lo, st.acked, w.ctl.kinds, st.decl.subs, agent);
            var since := Changed(w.rec.log, st.acked, |w.rec.log|, w.ctl.kinds, st.decl.subs, agent);
            && named == st.pending.Keys + Changed(w.rec.log, lo, hi, w.ctl.kinds, st.decl.subs, agent)
            && (hi == |w.rec.log| ==>
                  && since <= named
                  && (named == since <==> st.pending.Keys + answered <= since))
  {
    var lo := FloorOf(w.ctl, Considered(w.ctl, Some(owed)));
    var hi := Min(|w.rec.log|, lo + TAIL);
    var st := w.ctl.agents[agent];
    FloorBelow(w.ctl, Considered(w.ctl, Some(owed)), agent);
    TailAdds(w, st, lo, hi, true);
    if hi == |w.rec.log| {
      ChangedParts(w.rec.log, lo, st.acked, hi, w.ctl.kinds, st.decl.subs, agent);
    }
  }

  lemma FloorBelow(ctl: Control, considered: set<Name>, agent: Name)
    requires considered <= ctl.agents.Keys && agent in considered
    ensures FloorOf(ctl, considered) <= ctl.agents[agent].acked
  {
    var answered := map a | a in considered :: ctl.agents[a].acked;
    assert answered[agent] == ctl.agents[agent].acked;
  }

  lemma ChangedParts(
    log: seq<Entry>, lo: nat, mid: nat, hi: nat, kinds: map<Region, Kind>, subs: Option<set<Region>>, agent: Name)
    requires lo <= mid <= hi <= |log|
    ensures Changed(log, lo, hi, kinds, subs, agent) ==
            Changed(log, lo, mid, kinds, subs, agent) + Changed(log, mid, hi, kinds, subs, agent)
  {
  }

  // A life in which a resent notification names more

  const BOTH: map<Region, Kind> := map["quiet" := LevelKind, "loud" := LevelKind]
  const PAIR: seq<Name> := ["ahead", "behind"]
  const BOTH_SUBS: Option<set<Region>> := Some({"loud", "quiet"})

  function ChangeTo(region: Region): Entry { Entry(region, "", None, None, Some("writer"), 0) }
  function Decl(name: Name): Declaration { Declaration(name, Some(false), BOTH_SUBS, None, None) }

  function HeldAs(name: Name, told: nat, acked: nat): AgentState {
    AgentState(Decl(name), told, acked, map[], None, None, 0)
  }

  function Sent(name: Name, n: nat, from: nat, regions: set<Region>): Delivery {
    Delivery(Callable(false), Notification(n, name, from, n, regions))
  }

  // Two agents are held. The first change is heard by one of them, which
  // answers it; the send to the other raises, and so do both sends of the
  // second change.
  function Resending(): (steps: seq<Step>)
    ensures |steps| == 16
  {
    [Construct(0, NoWindows(BOTH.Keys), 10, 10, false, false, 0),
     Step.Join(0, Decl("ahead")),
     Step.Join(0, Decl("behind")),
     Write(0, LevelWrite("loud", ""), None, "writer", PAIR, PAIR),
     DeliveryStarts(0),
     DeliveryEnds(0, Sent("ahead", 1, 1, {"loud"}), true),
     DeliveryMarks(0, Sent("ahead", 1, 1, {"loud"}).note),
     DeliveryStarts(0),
     DeliveryEnds(0, Sent("behind", 1, 1, {"loud"}), false),
     AckStore("ahead", 1),
     AckLocal(0, "ahead", 1),
     Write(0, LevelWrite("quiet", ""), None, "writer", PAIR, PAIR),
     DeliveryStarts(0),
     DeliveryEnds(0, Sent("ahead", 2, 2, {"quiet"}), false),
     DeliveryStarts(0),
     DeliveryEnds(0, Sent("behind", 2, 1, {"quiet"}), false)]
  }

  // The Control holding both agents, told of the whole log, one of them
  // having answered some of it.
  ghost predicate Stands(
    s: System, log: seq<Entry>, told: nat, here: nat, acked: nat, outbox: set<(Name, nat)>, queue: seq<Delivery>)
  {
    && s.rec == PairRecord(log, told, acked, outbox)
    && 0 in s.nodes && s.nodes[0].queue == queue && s.nodes[0].clock.now == 0
    && Holding(s.nodes[0].ctl, |log|, Held(told, here))
  }

  function PairRecord(log: seq<Entry>, told: nat, acked: nat, outbox: set<(Name, nat)>): Record {
    Record(0, BOTH, log, Some(Records.Run(10, 10, None, None, {})),
           map["ahead" := Progress(told, acked, BOTH_SUBS, None, None),
               "behind" := Progress(told, 0, BOTH_SUBS, None, None)], outbox)
  }

  function Held(told: nat, here: nat): map<Name, AgentState> {
    map["ahead" := HeldAs("ahead", told, here), "behind" := HeldAs("behind", told, 0)]
  }

  ghost predicate Holding(ctl: Control, last: nat, agents: map<Name, AgentState>) {
    && ctl.kinds == BOTH && ctl.windows == NoWindows(BOTH.Keys) && ctl.idle == 10 && !ctl.reach
    && ctl.last == last && ctl.agents == agents && ctl.outcome.None?
  }

  // An evaluation of an agent with something pending that is due, no window
  // armed, and more sequenced than it has answered.
  lemma DispatchesNow(
    w: World, last: nat, agents: map<Name, AgentState>, name: Name, told: nat, acked: nat, pending: map<Region, Instant>)
    requires Holding(w.ctl, last, agents) && w.clock.now == 0 && w.rec.now == 0
    requires w.rec.run == Some(Records.Run(10, 10, None, None, {}))
    requires name in agents && agents[name] == HeldAs(name, told, acked).(pending := pending) && last > acked
    requires pending != map[] && forall region :: region in pending ==> pending[region] == 0
    ensures var (v, ds) := Evaluate(w, name);
            && ds == [Sent(name, last, acked + 1, pending.Keys)]
            && v.rec == MarkNotified(w.rec, name, last) && v.clock.now == 0
            && Holding(v.ctl, last, agents[name := HeldAs(name, Max(told, last), acked)])
  {
    assert LeastOf(pending) == 0;
    assert TouchRun(w.rec, 10) == w.rec;
  }

  lemma NoteDispatches(
    w: World, last: nat, agents: map<Name, AgentState>, name: Name, told: nat, acked: nat, region: Region)
    requires Holding(w.ctl, last, agents) && w.clock.now == 0 && w.rec.now == 0
    requires w.rec.run == Some(Records.Run(10, 10, None, None, {}))
    requires name in agents && agents[name] == HeldAs(name, told, acked) && last > acked
    requires region in BOTH && name in PAIR
    ensures var (v, ds) := Note(w, name, region, "writer");
            && ds == [Sent(name, last, acked + 1, {region})]
            && v.rec == MarkNotified(w.rec, name, last) && v.clock.now == 0
            && Holding(v.ctl, last, agents[name := HeldAs(name, Max(told, last), acked)])
  {
    hide Evaluate;
    var waiting := HeldAs(name, told, acked).(pending := map[region := 0]);
    assert AddDue(map[], region, 0) == map[region := 0];
    var added := WithAgent(w, name, waiting);
    DispatchesNow(added, last, agents[name := waiting], name, told, acked, map[region := 0]);
    assert agents[name := waiting][name := HeldAs(name, Max(told, last), acked)]
           == agents[name := HeldAs(name, Max(told, last), acked)];
    assert map[region := 0].Keys == {region};
    assert |"writer"| == 6 && |"ahead"| == 5 && |"behind"| == 6 && "writer"[0] == 'w' && "behind"[0] == 'b';
    assert Note(w, name, region, "writer") == Evaluate(added, name);
  }

  // A write to either region names it to both.
  lemma {:induction false} BothHear(
    w: World, told: nat, here: nat, acked: nat, outbox: set<(Name, nat)>, region: Region, log: seq<Entry>)
    requires log != [] && Holding(w.ctl, |log|, Held(told, here)) && w.clock.now == 0
    requires w.rec == PairRecord(log, told, acked, outbox)
    requires told < |log| && here < |log| && region in BOTH
    ensures var (v, ds) := NoteAll(w, PAIR, region, "writer");
            && ds == [Sent("ahead", |log|, here + 1, {region}), Sent("behind", |log|, 1, {region})]
            && v.rec == PairRecord(log, |log|, acked, outbox) && v.clock.now == 0
            && Holding(v.ctl, |log|, Held(|log|, here))
  {
    hide Note, Holding;
    var n := |log|;
    var (v, ds) := Note(w, "ahead", region, "writer");
    NoteDispatches(w, n, Held(told, here), "ahead", told, here, region);
    var half := Held(told, here)["ahead" := HeldAs("ahead", n, here)];
    NoteDispatches(v, n, half, "behind", told, 0, region);
    assert half["behind" := HeldAs("behind", n, 0)] == Held(n, here);
    var (u, es) := Note(v, "behind", region, "writer");
    assert u.rec == PairRecord(log, n, acked, outbox);
    assert PAIR[..1] == ["ahead"] && ["ahead"][..0] == [];
    assert NoteAll(w, [], region, "writer") == (w, []);
    assert NoteAll(w, ["ahead"], region, "writer") == (v, [] + ds);
    assert NoteAll(w, PAIR, region, "writer") == (u, ([] + ds) + es);
  }

  lemma PairSequence(
    w: World, told: nat, here: nat, acked: nat, outbox: set<(Name, nat)>, region: Region, log: seq<Entry>)
    returns (v: World)
    requires Holding(w.ctl, |log|, Held(told, here)) && w.clock.now == 0
    requires w.rec == PairRecord(log, told, acked, outbox)
    requires told <= |log| && here <= |log| && region in BOTH
    ensures var n := |log| + 1;
            && v.rec == PairRecord(log + [ChangeTo(region)], n, acked,
                                   outbox + {("ahead", n), ("behind", n)})
            && v.clock.now == 0 && Holding(v.ctl, n, Held(n, here))
            && Sequence(w, LevelWrite(region, ""), None, "writer", PAIR, PAIR)
               == (v, [Sent("ahead", n, here + 1, {region}), Sent("behind", n, 1, {region})],
                   Accepted(Written(n, None, false)))
  {
    hide NoteAll;
    var n := |log| + 1;
    var more := log + [ChangeTo(region)];
    PairHears(w.rec, region);
    var notify := WhoHears(w.rec, BOTH, region, "writer");
    hide WhoHears;
    assert Owing(notify, n) == {("ahead", n), ("behind", n)};
    var (rec, answer) := Put(w.rec, LevelWrite(region, ""), None, "writer", notify);
    assert rec == PairRecord(more, told, acked, outbox + {("ahead", n), ("behind", n)});
    var landed := w.(rec := rec, ctl := w.ctl.(last := n));
    assert ReachRest(landed, PAIR, 0) == (landed, []);
    BothHear(landed, told, here, acked, outbox + {("ahead", n), ("behind", n)}, region, more);
    var ds := NoteAll(landed, PAIR, region, "writer").1;
    v := NoteAll(landed, PAIR, region, "writer").0;
    assert [] + ds == ds;
  }

  lemma PairHears(r: Record, region: Region)
    requires r.agents.Keys == {"ahead", "behind"} && region in BOTH
    requires forall a :: a in r.agents ==> r.agents[a].subs == BOTH_SUBS
    ensures WhoHears(r, BOTH, region, "writer") == {"ahead", "behind"}
  {
    assert |"ahead"| == 5 && "writer"[0] == 'w' && "behind"[0] == 'b';
  }

  lemma PairWrites(
    s: System, log: seq<Entry>, told: nat, here: nat, acked: nat, outbox: set<(Name, nat)>, region: Region)
    requires Stands(s, log, told, here, acked, outbox, [])
    requires told <= |log| && here <= |log| && region in BOTH
    ensures var t := Next(s, Write(0, LevelWrite(region, ""), None, "writer", PAIR, PAIR));
            var n := |log| + 1;
            var ds := [Sent("ahead", n, here + 1, {region}), Sent("behind", n, 1, {region})];
            && Stands(t, log + [ChangeTo(region)], n, here, acked,
                      outbox + {("ahead", n), ("behind", n)}, ds)
            && t.issued == s.issued + Notes(ds) && t.calling == s.calling && t.answered == s.answered
  {
    hide Sequence, Holding;
    var v := PairSequence(WorldOf(s, 0), told, here, acked, outbox, region, log);
    assert region in NoWindows(BOTH.Keys);
    HoldingWindows(s.nodes[0].ctl, |log|, Held(told, here));
  }

  lemma HoldingWindows(ctl: Control, last: nat, agents: map<Name, AgentState>)
    requires Holding(ctl, last, agents)
    ensures ctl.windows == NoWindows(BOTH.Keys) && ctl.kinds == BOTH
  {
  }

  // A send in hand that raises leaves nothing behind; one that returns marks
  // what it covers.
  lemma SendRaises(
    s: System, log: seq<Entry>, told: nat, here: nat, acked: nat, outbox: set<(Name, nat)>, queue: seq<Delivery>)
    requires Stands(s, log, told, here, acked, outbox, queue) && queue != [] && (0, queue[0]) !in s.calling
    ensures var t := Next(Next(s, DeliveryStarts(0)), DeliveryEnds(0, queue[0], false));
            && Stands(t, log, told, here, acked, outbox, queue[1..])
            && t.issued == s.issued && t.calling == s.calling && t.answered == s.answered
  {
    var u := Next(s, DeliveryStarts(0));
    assert (0, queue[0]) in u.calling;
    assert u.calling - {(0, queue[0])} == s.calling;
  }

  lemma SendReturns(
    s: System, log: seq<Entry>, told: nat, here: nat, acked: nat, outbox: set<(Name, nat)>, queue: seq<Delivery>)
    requires Stands(s, log, told, here, acked, outbox, queue) && queue != [] && (0, queue[0]) !in s.calling
    requires queue[0].carrier == Callable(false)
    ensures var note := queue[0].note;
            var t := Next(Next(Next(s, DeliveryStarts(0)), DeliveryEnds(0, queue[0], true)), DeliveryMarks(0, note));
            && Stands(t, log, told, here, acked,
                      MarkSent(s.rec, note.agent, note.to).outbox, queue[1..])
            && t.issued == s.issued && t.calling == s.calling && t.answered == s.answered
  {
    SendStarts(s, log, told, here, acked, outbox, queue);
    var u := Next(s, DeliveryStarts(0));
    hide Stands;
    var v := Next(u, DeliveryEnds(0, queue[0], true));
    assert u.calling - {(0, queue[0])} == s.calling;
    assert (0, queue[0].note) in v.sent && v.rec == u.rec && v.nodes == u.nodes;
    RowsMarked(u, Next(v, DeliveryMarks(0, queue[0].note)), log, told, here, acked, outbox, queue[1..]);
  }

  lemma RowsMarked(
    s: System, t: System, log: seq<Entry>, told: nat, here: nat, acked: nat, outbox: set<(Name, nat)>,
    queue: seq<Delivery>)
    requires Stands(s, log, told, here, acked, outbox, queue)
    requires t.nodes == s.nodes && t.rec == s.rec.(outbox := t.rec.outbox)
    ensures Stands(t, log, told, here, acked, t.rec.outbox, queue)
  {
  }

  lemma SendStarts(
    s: System, log: seq<Entry>, told: nat, here: nat, acked: nat, outbox: set<(Name, nat)>, queue: seq<Delivery>)
    requires Stands(s, log, told, here, acked, outbox, queue) && queue != []
    ensures var t := Next(s, DeliveryStarts(0));
            && Stands(t, log, told, here, acked, outbox, queue[1..])
            && t == s.(nodes := t.nodes, calling := s.calling + {(0, queue[0])})
  {
  }

  lemma AheadAnswers(s: System, log: seq<Entry>, outbox: set<(Name, nat)>, queue: seq<Delivery>)
    requires Stands(s, log, 1, 0, 0, outbox, queue)
    ensures var t := Next(Next(s, AckStore("ahead", 1)), AckLocal(0, "ahead", 1));
            && Stands(t, log, 1, 1, 1, outbox, queue)
            && t.issued == s.issued && t.calling == s.calling
  {
    AheadAnswersStore(s, log, outbox, queue);
    hide Ran;
    var u := Next(s, AckStore("ahead", 1));
    var w := AckHere(WorldOf(u, 0), "ahead", 1);
    assert w.ctl.agents == Held(1, 1);
    NothingIssued(u, 0, w, {});
  }

  lemma AheadAnswersStore(s: System, log: seq<Entry>, outbox: set<(Name, nat)>, queue: seq<Delivery>)
    requires Stands(s, log, 1, 0, 0, outbox, queue)
    ensures var t := Next(s, AckStore("ahead", 1));
            && Stands(t, log, 1, 0, 1, outbox, queue) && ("ahead", 1) in t.answered
            && t.issued == s.issued && t.calling == s.calling
  {
    assert Next(s, AckStore("ahead", 1)).rec == PairRecord(log, 1, 1, outbox);
  }

  lemma PairBegins(s: System)
    requires s == Afresh(Record(0, BOTH, [], Some(Records.Run(10, 10, None, None, {})), map[], {}))
    ensures var a := Resending();
            var t := Next(Next(Next(s, a[0]), a[1]), a[2]);
            Stands(t, [], 0, 0, 0, {}, []) && t.issued == {} && t.calling == {}
  {
    hide Next, Begun, Holding;
    var a := Resending();
    Constructs(s, 0, BOTH.Keys, false);
    assert Restricted(BOTH, BOTH.Keys) == BOTH;
    BegunHolds();
    var t := Next(s, a[0]);
    var u := Next(t, a[1]);
    NewcomerJoins(t, map[], "ahead");
    var v := Next(u, a[2]);
    NewcomerJoins(u, map["ahead" := HeldAs("ahead", 0, 0)], "behind");
    assert map["ahead" := HeldAs("ahead", 0, 0), "behind" := HeldAs("behind", 0, 0)] == Held(0, 0);
    assert v.rec == PairRecord([], 0, 0, {});
  }

  lemma BegunHolds()
    ensures Holding(Begun(BOTH, false, 0, map[]).ctl, 0, map[])
    ensures Begun(BOTH, false, 0, map[]).queue == [] && Begun(BOTH, false, 0, map[]).clock.now == 0
  {
  }

  // A new agent joins over an empty board.
  lemma NewcomerJoins(s: System, agents: map<Name, AgentState>, name: Name)
    requires 0 in s.nodes && s.nodes[0].queue == [] && s.rec.Open() && s.rec.log == []
    requires Holding(s.nodes[0].ctl, 0, agents) && name !in agents && name !in s.rec.agents && s.rec.outbox == {}
    ensures var t := Next(s, Step.Join(0, Decl(name)));
            && t == s.(rec := t.rec, nodes := s.nodes[0 := t.nodes[0]])
            && t.rec == s.rec.(agents := s.rec.agents[name := Progress(0, 0, BOTH_SUBS, None, None)])
            && t.nodes[0] == Node(t.nodes[0].ctl, s.nodes[0].clock, [])
            && Holding(t.nodes[0].ctl, 0, agents[name := HeldAs(name, 0, 0)])
  {
    var w := WorldOf(s, 0);
    assert Joining(w, Decl(name)) == HeldAs(name, 0, 0);
    var v := Controls.Join(w, Decl(name));
    assert Evaluate(v, name) == (v, []);
    hide Joining, Evaluate;
    assert RefusesAgent(w.ctl, Decl(name)).None?;
    JoinRan(s, Decl(name), v);
  }

  function PairOpening(): System {
    Afresh(Record(0, BOTH, [], Some(Records.Run(10, 10, None, None, {})), map[], {}))
  }

  const LEFT: set<(Name, nat)> := {("behind", 1), ("ahead", 2), ("behind", 2)}

  lemma FirstHeard(s: System)
    requires Stands(s, [], 0, 0, 0, {}, []) && s.issued == {} && s.calling == {}
    ensures var a := Resending();
            var t := Next(Next(Next(Next(s, a[3]), a[4]), a[5]), a[6]);
            Stands(t, [ChangeTo("loud")], 1, 0, 0, {("behind", 1)}, [Sent("behind", 1, 1, {"loud"})])
            && t.calling == {} && t.issued == {Sent("ahead", 1, 1, {"loud"}).note, Sent("behind", 1, 1, {"loud"}).note}
  {
    hide Next, Holding;
    var a := Resending();
    var log := [ChangeTo("loud")];
    var ds := [Sent("ahead", 1, 1, {"loud"}), Sent("behind", 1, 1, {"loud"})];
    PairWrites(s, [], 0, 0, 0, {}, "loud");
    assert [] + log == log;
    var w := Next(s, a[3]);
    var rows: set<(Name, nat)> := {} + {("ahead", 1), ("behind", 1)};
    assert Stands(w, log, 1, 0, 0, rows, ds);
    assert Notes(ds) == {ds[0].note, ds[1].note};
    SendReturns(w, log, 1, 0, 0, rows, ds);
    hide Stands;
    MarkedAhead(w.rec, rows);
    assert ds[1..] == [Sent("behind", 1, 1, {"loud"})];
  }

  lemma MarkedAhead(r: Record, rows: set<(Name, nat)>)
    requires r.outbox == rows == {("ahead", 1), ("behind", 1)}
    ensures MarkSent(r, "ahead", 1).outbox == {("behind", 1)}
  {
    assert |"ahead"| == 5 && |"behind"| == 6;
  }

  lemma FirstAnswered(s: System)
    requires Stands(s, [ChangeTo("loud")], 1, 0, 0, {("behind", 1)}, [Sent("behind", 1, 1, {"loud"})])
    requires s.calling == {}
    ensures var a := Resending();
            var t := Next(Next(Next(Next(s, a[7]), a[8]), a[9]), a[10]);
            Stands(t, [ChangeTo("loud")], 1, 1, 1, {("behind", 1)}, []) && t.calling == {} && t.issued == s.issued
  {
    hide Next, Stands;
    var a := Resending();
    SendRaises(s, [ChangeTo("loud")], 1, 0, 0, {("behind", 1)}, [Sent("behind", 1, 1, {"loud"})]);
    AheadAnswers(Next(Next(s, a[7]), a[8]), [ChangeTo("loud")], {("behind", 1)}, []);
  }

  lemma SecondHeard(s: System)
    requires Stands(s, [ChangeTo("loud")], 1, 1, 1, {("behind", 1)}, []) && s.calling == {}
    ensures var a := Resending();
            var t := Next(Next(Next(Next(Next(s, a[11]), a[12]), a[13]), a[14]), a[15]);
            && Stands(t, [ChangeTo("loud"), ChangeTo("quiet")], 2, 1, 1, LEFT, [])
            && t.issued == s.issued + {Sent("ahead", 2, 2, {"quiet"}).note, Sent("behind", 2, 1, {"quiet"}).note}
  {
    hide Next, Holding;
    var a := Resending();
    var log := [ChangeTo("loud"), ChangeTo("quiet")];
    var ds := [Sent("ahead", 2, 2, {"quiet"}), Sent("behind", 2, 1, {"quiet"})];
    PairWrites(s, [ChangeTo("loud")], 1, 1, 1, {("behind", 1)}, "quiet");
    assert [ChangeTo("loud")] + [ChangeTo("quiet")] == log;
    var t := Next(s, a[11]);
    assert {("behind", 1)} + {("ahead", 2), ("behind", 2)} == LEFT;
    assert Stands(t, log, 2, 1, 1, LEFT, ds) && Notes(ds) == {ds[0].note, ds[1].note};
    SendRaises(t, log, 2, 1, 1, LEFT, ds);
    SendRaises(Next(Next(t, a[12]), a[13]), log, 2, 1, 1, LEFT, ds[1..]);
  }

  lemma {:induction false} ResendingUnrolls(s: System)
    ensures var a := Resending();
            var t := Next(Next(Next(s, a[0]), a[1]), a[2]);
            var u := Next(Next(Next(Next(t, a[3]), a[4]), a[5]), a[6]);
            var v := Next(Next(Next(Next(u, a[7]), a[8]), a[9]), a[10]);
            Reached(s, a) == Next(Next(Next(Next(Next(v, a[11]), a[12]), a[13]), a[14]), a[15])
  {
    hide Next, Reached, Resending;
    var a := Resending();
    OneMore(s, a, 0); OneMore(s, a, 1); OneMore(s, a, 2); OneMore(s, a, 3);
    OneMore(s, a, 4); OneMore(s, a, 5); OneMore(s, a, 6); OneMore(s, a, 7);
    OneMore(s, a, 8); OneMore(s, a, 9); OneMore(s, a, 10); OneMore(s, a, 11);
    OneMore(s, a, 12); OneMore(s, a, 13); OneMore(s, a, 14); OneMore(s, a, 15);
    assert a[..16] == a;
  }

  lemma QuietSince()
    ensures Changed([ChangeTo("loud"), ChangeTo("quiet")], 1, 2, BOTH, BOTH_SUBS, "ahead") == {"quiet"}
    ensures Changed([ChangeTo("loud"), ChangeTo("quiet")], 0, 2, BOTH, BOTH_SUBS, "ahead") == {"loud", "quiet"}
  {
    assert |"ahead"| == 5 && |"writer"| == 6;
    var log := [ChangeTo("loud"), ChangeTo("quiet")];
    assert log[0].region in Changed(log, 0, 2, BOTH, BOTH_SUBS, "ahead");
    assert log[1].region in Changed(log, 1, 2, BOTH, BOTH_SUBS, "ahead");
    assert log[1].region in Changed(log, 0, 2, BOTH, BOTH_SUBS, "ahead");
  }

  // A relay to both names to the one ahead a region nothing has changed since
  // its answer, where what it was first told named only what had.
  lemma ResentNamesAnswered()
    ensures var s, t := PairOpening(), Reached(PairOpening(), Resending());
            var first := Sent("ahead", 2, 2, {"quiet"}).note;
            var resent := Sent("ahead", 2, 2, {"loud", "quiet"}).note;
            && Opening(s) && t.rec.outbox == LEFT && "ahead" in t.rec.agents
            && Changed(t.rec.log, t.rec.agents["ahead"].acked, |t.rec.log|, BOTH, BOTH_SUBS, "ahead") == {"quiet"}
            && first in t.issued && resent !in t.issued
            && resent in Next(t, RelaysHeld(0, PAIR)).issued
  {
    hide Next, Reached;
    var s := PairOpening();
    PairBegins(s);
    var a := Resending();
    var t := Next(Next(Next(s, a[0]), a[1]), a[2]);
    FirstHeard(t);
    var u := Next(Next(Next(Next(t, a[3]), a[4]), a[5]), a[6]);
    var v := Next(Next(Next(Next(u, a[7]), a[8]), a[9]), a[10]);
    FirstAnswered(u);
    SecondHeard(v);
    ResendingUnrolls(s);
    QuietSince();
    RelayResends(Reached(s, a));
    assert |{"loud", "quiet"}| == 2 && |{"quiet"}| == 1;
  }

  lemma RelayResends(s: System)
    requires Stands(s, [ChangeTo("loud"), ChangeTo("quiet")], 2, 1, 1, LEFT, [])
    ensures Sent("ahead", 2, 2, {"loud", "quiet"}).note in Next(s, RelaysHeld(0, PAIR)).issued
  {
    hide RelayHeld;
    var w := WorldOf(s, 0);
    FirstResent(w);
    HoldingWindows(w.ctl, 2, Held(2, 1));
    var (v, ds) := RelayHeld(w, PAIR);
    assert ds[0].note in Notes(ds);
    assert BOTH.Keys == NoWindows(BOTH.Keys).Keys;
    assert Next(s, RelaysHeld(0, PAIR)) == Ran(s, 0, v, ds, {});
  }

  lemma FirstResent(w: World)
    requires w.rec == PairRecord([ChangeTo("loud"), ChangeTo("quiet")], 2, 1, LEFT)
    requires Holding(w.ctl, 2, Held(2, 1)) && w.clock.now == 0
    ensures RelayHeld(w, PAIR).1 != [] && RelayHeld(w, PAIR).1[0] == Sent("ahead", 2, 2, {"loud", "quiet"})
  {
    hide TakeTail, Evaluate;
    PairTail(w);
    var tailed := TakeTail(w, Some(set a | a in PAIR));
    DispatchesNow(tailed, 2, tailed.ctl.agents, "ahead", 2, 1, tailed.ctl.agents["ahead"].pending);
    hide Holding;
    var (v, ds) := Evaluate(tailed, "ahead");
    var (x, es) := Evaluate(v, "behind");
    assert PAIR[..1] == ["ahead"] && ["ahead"][..0] == [];
    assert EvaluateAll(tailed, []) == (tailed, []);
    assert EvaluateAll(tailed, ["ahead"]) == (v, [] + ds);
    assert EvaluateAll(tailed, PAIR) == (x, ([] + ds) + es);
    assert RelayHeld(w, PAIR) == EvaluateAll(tailed, PAIR) by { assert w.ctl.outcome.None? && w.rec.run.Some?; }
  }

  lemma PairTail(w: World)
    requires w.rec == PairRecord([ChangeTo("loud"), ChangeTo("quiet")], 2, 1, LEFT)
    requires Holding(w.ctl, 2, Held(2, 1)) && w.clock.now == 0
    ensures var tailed := TakeTail(w, Some(set a | a in PAIR));
            && tailed.rec == w.rec && tailed.clock == w.clock && Holding(tailed.ctl, 2, tailed.ctl.agents)
            && "ahead" in tailed.ctl.agents
            && var st := tailed.ctl.agents["ahead"];
               && st == HeldAs("ahead", 2, 1).(pending := st.pending)
               && st.pending.Keys == {"loud", "quiet"}
               && forall region :: region in st.pending ==> st.pending[region] == 0
  {
    var owed := set a | a in PAIR;
    assert PAIR[0] in owed && PAIR[1] in owed;
    assert Considered(w.ctl, Some(owed)) == owed;
    FloorBelow(w.ctl, owed, "behind");
    AheadTail(w);
    hide AddTail, FloorOf, Considered;
  }

  lemma {:induction false} AheadTail(w: World)
    requires w.rec == PairRecord([ChangeTo("loud"), ChangeTo("quiet")], 2, 1, LEFT)
    requires Holding(w.ctl, 2, Held(2, 1)) && w.clock.now == 0
    ensures AddTail(w, HeldAs("ahead", 2, 1), 0, 2, true)
            == HeldAs("ahead", 2, 1).(pending := map["loud" := 0, "quiet" := 0])
  {
    var st := HeldAs("ahead", 2, 1);
    assert |"ahead"| == 5 && |"writer"| == 6;
    assert AddTail(w, st, 0, 0, true) == st;
    assert AddTail(w, st, 0, 1, true) == st.(pending := map["loud" := 0]);
    assert AddTail(w, st, 0, 2, true) == st.(pending := map["loud" := 0, "quiet" := 0]);
  }
}
