// What every locked block of a `Control` keeps, whatever other processes do
// to the same record between blocks: the cursors it caches are behind the
// record's and never ahead, the record's own are in order, and what was
// issued covers what an agent was told and has not answered.

module Cursors {
  import opened Values
  import opened Records
  import opened Clocks
  import opened Controls

  ghost predicate InRange(r: Record) {
    forall a :: a in r.agents ==> r.agents[a].acked <= r.agents[a].notified <= |r.log|
  }

  // A row nothing has sent is owed to a declared agent, for a write to a
  // region of the board.
  ghost predicate RowsKnown(r: Record) {
    && RowsSound(r.outbox, |r.log|)
    && (r.Open() ==> forall row :: row in r.outbox ==> RowKnown(r, row))
  }

  ghost predicate RowKnown(r: Record, row: (Name, nat)) {
    row.0 in r.agents && 1 <= row.1 <= |r.log| && r.log[row.1 - 1].region in r.kinds
  }

  // The write is one the agent, as it is declared now, is to hear of.
  ghost predicate RowWanted(r: Record, row: (Name, nat)) {
    RowKnown(r, row) && Concerns(r.log[row.1 - 1], r.kinds, r.agents[row.0].subs, row.0)
  }

  // What a block that is not a registration does to declarations and rows.
  ghost predicate KeepsWants(r: Record, s: Record) {
    s.Open() ==>
      && (forall a :: a in r.agents ==> a in s.agents && s.agents[a].subs == r.agents[a].subs)
      && (forall row :: row in s.outbox ==> row in r.outbox || RowWanted(s, row))
  }

  ghost predicate Behind(r: Record, ctl: Control) {
    && ctl.last <= |r.log| && PartOf(ctl.kinds, r.kinds) && ctl.kinds.Keys == ctl.windows.Keys
    && (forall a :: a in ctl.agents ==> ctl.agents[a].decl.name == a)
    && Agrees(r, ctl)
    && (r.Open() ==> forall a :: a in ctl.agents ==> AgentBehind(r, a, ctl.agents[a]))
  }

  // A Control that has closed holds exactly the outcome the record holds.
  ghost predicate Agrees(r: Record, ctl: Control) {
    ctl.outcome.Some? ==>
      r.run.Some? && r.run.value.closed.Some? && ctl.outcome.value == OutcomeOf(r.run.value)
  }

  ghost predicate AgentBehind(r: Record, a: Name, st: AgentState) {
    a in r.agents && st.acked <= r.agents[a].acked && st.notified <= r.agents[a].notified
  }

  // An issued notification names its own end, which `acknowledge` accepts,
  // and starts no later than the agent's first unanswered write.
  ghost predicate IssuedKnown(r: Record, issued: set<Notification>) {
    forall n :: n in issued ==> Known(r, n)
  }

  ghost predicate Known(r: Record, n: Notification) {
    && n.id == n.to <= |r.log|
    && (r.Open() ==>
          n.agent in r.agents && n.to <= r.agents[n.agent].notified && n.from <= r.agents[n.agent].acked + 1)
  }

  ghost predicate Covers(issued: set<Notification>, a: Name, s: nat) {
    exists n :: n in issued && n.agent == a && n.from <= s <= n.to
  }

  // Every sequence an agent was told of and has not answered is in the range
  // of a notification issued to it.
  ghost predicate Covered(r: Record, issued: set<Notification>) {
    r.Open() ==>
      forall a, s: nat :: a in r.agents && r.agents[a].acked < s <= r.agents[a].notified ==> Covers(issued, a, s)
  }

  ghost predicate RecordOk(r: Record, issued: set<Notification>) {
    r.run.Some? && InRange(r) && RowsKnown(r) && IssuedKnown(r, issued) && Covered(r, issued)
  }

  ghost predicate Sound(w: World, issued: set<Notification>) {
    RecordOk(w.rec, issued) && Behind(w.rec, w.ctl)
  }

  // How the record moves under any step of any process, within one opening.
  ghost predicate Grows(r: Record, s: Record) {
    && s.kinds == r.kinds && |r.log| <= |s.log| && s.log[..|r.log|] == r.log
    && (s.Open() ==> r.Open() && forall a :: a in r.agents ==> AgentGrows(r, s, a))
    && (forall row :: row in s.outbox ==> row in r.outbox || row.1 > |r.log|)
    && (r.run.Some? ==> s.run.Some? && (r.run.value.closed.Some? ==> s.run == r.run))
  }

  ghost predicate AgentGrows(r: Record, s: Record, a: Name)
    requires a in r.agents
  {
    a in s.agents && r.agents[a].acked <= s.agents[a].acked && r.agents[a].notified <= s.agents[a].notified
  }

  // A block removes no row while the run stays open.
  ghost predicate KeepsRows(r: Record, s: Record) {
    s.Open() ==> r.outbox <= s.outbox
  }

  function Notes(ds: seq<Delivery>): set<Notification> { set d | d in ds :: d.note }

  ghost predicate Moves(w: World, issued: set<Notification>, v: World, ds: seq<Delivery>) {
    && Sound(v, issued + Notes(ds))
    && Grows(w.rec, v.rec) && KeepsRows(w.rec, v.rec) && KeepsWants(w.rec, v.rec)
    && v.ctl.kinds == w.ctl.kinds && v.ctl.reach == w.ctl.reach
  }

  lemma GrowsTransitive(r: Record, s: Record, t: Record)
    requires Grows(r, s) && Grows(s, t)
    ensures Grows(r, t)
  {
    assert t.log[..|r.log|] == t.log[..|s.log|][..|r.log|];
    if t.Open() {
      forall a | a in r.agents ensures AgentGrows(r, t, a) {
        assert AgentGrows(r, s, a) && AgentGrows(s, t, a);
      }
    }
  }

  lemma MovesStill(w: World, issued: set<Notification>)
    requires Sound(w, issued)
    ensures Moves(w, issued, w, [])
  {
    assert issued + Notes([]) == issued;
    assert w.rec.log[..|w.rec.log|] == w.rec.log;
  }

  lemma MovesOn(
    w: World, issued: set<Notification>, v: World, ds: seq<Delivery>, u: World, es: seq<Delivery>)
    requires Moves(w, issued, v, ds) && Moves(v, issued + Notes(ds), u, es)
    ensures Moves(w, issued, u, ds + es)
  {
    hide Grows, Sound;
    GrowsTransitive(w.rec, v.rec, u.rec);
    assert issued + Notes(ds + es) == (issued + Notes(ds)) + Notes(es);
    KeepsWantsOn(w.rec, v.rec, u.rec);
    assert u.rec.Open() ==> v.rec.Open() by { OpenBefore(v.rec, u.rec); }
  }

  lemma KeepsWantsOn(r: Record, s: Record, t: Record)
    requires KeepsWants(r, s) && KeepsWants(s, t) && Grows(s, t)
    ensures KeepsWants(r, t)
  {
    if t.Open() {
      forall row | row in t.outbox && row !in r.outbox ensures RowWanted(t, row) {
        if row in s.outbox { StillWanted(s, t, row); }
      }
    }
  }

  lemma StillWanted(r: Record, s: Record, row: (Name, nat))
    requires RowWanted(r, row) && Grows(r, s) && KeepsWants(r, s) && s.Open()
    ensures RowWanted(s, row)
  {
    assert s.log[row.1 - 1] == s.log[..|r.log|][row.1 - 1];
  }

  lemma OpenBefore(r: Record, s: Record)
    requires Grows(r, s)
    ensures s.Open() ==> r.Open()
  {
  }

  // Another process's moves leave this one's cached cursors behind.
  lemma OthersStayBehind(r: Record, s: Record, ctl: Control)
    requires Behind(r, ctl) && Grows(r, s)
    ensures Behind(s, ctl)
  {
    if s.Open() {
      forall a | a in ctl.agents ensures AgentBehind(s, a, ctl.agents[a]) {
        assert AgentBehind(r, a, ctl.agents[a]) && AgentGrows(r, s, a);
      }
    }
  }

  // The record's own operations

  lemma TouchOk(r: Record, idle: Duration, issued: set<Notification>)
    requires RecordOk(r, issued)
    ensures var s := TouchRun(r, idle);
            RecordOk(s, issued) && Grows(r, s) && KeepsRows(r, s) && KeepsWants(r, s) && s.agents == r.agents
  {
    var s := TouchRun(r, idle);
    assert s.Open() == r.Open();
    assert forall row :: RowKnown(r, row) ==> RowKnown(s, row);
    assert forall n :: Known(r, n) ==> Known(s, n);
    assert forall a :: a in r.agents ==> AgentGrows(r, s, a);
  }

  lemma MarkNotifiedOk(r: Record, issued: set<Notification>, n: Notification)
    requires RecordOk(r, issued)
    requires n.id == n.to <= |r.log|
    requires r.Open() ==> n.agent in r.agents && n.from <= r.agents[n.agent].acked + 1
    ensures var s := MarkNotified(r, n.agent, n.to);
            RecordOk(s, issued + {n}) && Grows(r, s) && KeepsRows(r, s) && KeepsWants(r, s)
  {
    var s := MarkNotified(r, n.agent, n.to);
    assert s.Open() == r.Open();
    forall row | row in s.outbox && s.Open() ensures RowKnown(s, row) { assert RowKnown(r, row); }
    forall m | m in issued + {n} ensures Known(s, m) {
      if m != n { assert Known(r, m); }
    }
    if s.Open() {
      forall a, q: nat | a in s.agents && s.agents[a].acked < q <= s.agents[a].notified
        ensures Covers(issued + {n}, a, q)
      {
        if a == n.agent && q > r.agents[a].notified {
          assert n in issued + {n} && n.from <= q <= n.to;
        } else {
          assert Covers(issued, a, q);
          var m :| m in issued && m.agent == a && m.from <= q <= m.to;
          assert m in issued + {n};
        }
      }
      assert forall a :: a in r.agents ==> AgentGrows(r, s, a);
    }
  }

  lemma DeclareOk(
    r: Record, issued: set<Notification>, agent: Name,
    subs: Option<set<Region>>, writes: Option<set<Region>>, addr: Option<Address>)
    requires RecordOk(r, issued)
    ensures var s := DeclareAgent(r, agent, subs, writes, addr);
            RecordOk(s, issued) && Grows(r, s) && KeepsRows(r, s)
  {
    var s := DeclareAgent(r, agent, subs, writes, addr);
    assert s.Open() == r.Open();
    forall row | row in s.outbox && s.Open() ensures RowKnown(s, row) { assert RowKnown(r, row); }
    forall n | n in issued ensures Known(s, n) { assert Known(r, n); }
    if s.Open() {
      forall a, q: nat | a in s.agents && s.agents[a].acked < q <= s.agents[a].notified
        ensures Covers(issued, a, q)
      {
        assert a in r.agents;
      }
      assert forall a :: a in r.agents ==> AgentGrows(r, s, a);
    }
  }

  lemma AcknowledgeOk(r: Record, issued: set<Notification>, agent: Name, through: int)
    requires RecordOk(r, issued)
    ensures var s := Acknowledge(r, agent, through).0;
            RecordOk(s, issued) && Grows(r, s) && KeepsRows(r, s) && KeepsWants(r, s)
  {
    var s := Acknowledge(r, agent, through).0;
    assert s.Open() == r.Open();
    forall row | row in s.outbox && s.Open() ensures RowKnown(s, row) { assert RowKnown(r, row); }
    forall n | n in issued ensures Known(s, n) { assert Known(r, n); }
    if s.Open() {
      forall a, q: nat | a in s.agents && s.agents[a].acked < q <= s.agents[a].notified
        ensures Covers(issued, a, q)
      {
        assert r.agents[a].acked < q <= r.agents[a].notified;
      }
      assert forall a :: a in r.agents ==> AgentGrows(r, s, a);
    }
  }

  lemma CloseRunOk(
    r: Record, issued: set<Notification>, closedAs: ClosedAs, reason: Option<string>, unfinished: set<Name>)
    requires RecordOk(r, issued)
    ensures var s := CloseRun(r, closedAs, reason, unfinished).0;
            RecordOk(s, issued) && Grows(r, s) && KeepsRows(r, s) && KeepsWants(r, s)
  {
    var s := CloseRun(r, closedAs, reason, unfinished).0;
    forall n | n in issued ensures Known(s, n) { assert Known(r, n); }
  }

  lemma MarkSentOk(r: Record, issued: set<Notification>, agent: Name, through: int)
    requires RecordOk(r, issued)
    ensures var s := MarkSent(r, agent, through); RecordOk(s, issued) && Grows(r, s) && KeepsWants(r, s)
  {
    var s := MarkSent(r, agent, through);
    assert s.Open() == r.Open();
    forall row | row in s.outbox && s.Open() ensures RowKnown(s, row) { assert RowKnown(r, row); }
    forall n | n in issued ensures Known(s, n) { assert Known(r, n); }
    assert forall a :: a in r.agents ==> AgentGrows(r, s, a);
    assert s.Open() ==> forall a, q: nat :: a in s.agents && s.agents[a].acked < q <= s.agents[a].notified
                          ==> Covers(issued, a, q);
  }

  // One entry sequenced with the rows owed for it.
  lemma LogExtendsOk(r: Record, issued: set<Notification>, e: Entry, notify: set<Name>)
    requires RecordOk(r, issued)
    requires forall a :: a in notify ==> a in r.agents && Concerns(e, r.kinds, r.agents[a].subs, a)
    ensures var s := r.(log := r.log + [e], outbox := r.outbox + Owing(notify, |r.log| + 1));
            RecordOk(s, issued) && Grows(r, s) && KeepsRows(r, s) && KeepsWants(r, s)
  {
    var s := r.(log := r.log + [e], outbox := r.outbox + Owing(notify, |r.log| + 1));
    assert s.Open() == r.Open();
    forall row | row in s.outbox && s.Open() ensures RowKnown(s, row) {
      if row in r.outbox { assert RowKnown(r, row); }
    }
    forall n | n in issued ensures Known(s, n) { assert Known(r, n); }
    assert forall a :: a in r.agents ==> AgentGrows(r, s, a);
    assert s.log[..|r.log|] == r.log;
    if s.Open() {
      forall a, q: nat | a in s.agents && s.agents[a].acked < q <= s.agents[a].notified
        ensures Covers(issued, a, q)
      { }
    }
  }

  // The blocks

  // A block that changes this process and not the record.
  lemma HereMoves(w: World, issued: set<Notification>, ctl: Control, clock: Clock<TimerCall>)
    requires Sound(w, issued) && Behind(w.rec, ctl) && ctl.kinds == w.ctl.kinds && ctl.reach == w.ctl.reach
    ensures Moves(w, issued, World(ctl, clock, w.rec), [])
  {
    hide RecordOk, Behind;
    assert issued + Notes([]) == issued;
    assert w.rec.log[..|w.rec.log|] == w.rec.log;
    assert forall a :: a in w.rec.agents ==> AgentGrows(w.rec, w.rec, a);
  }

  lemma WithAgentBehind(r: Record, ctl: Control, name: Name, st: AgentState)
    requires Behind(r, ctl) && st.decl.name == name
    requires r.Open() ==> AgentBehind(r, name, st)
    ensures Behind(r, ctl.(agents := ctl.agents[name := st]))
  {
    var agents := ctl.agents[name := st];
    if r.Open() {
      forall a | a in agents ensures AgentBehind(r, a, agents[a]) {
        if a != name { assert AgentBehind(r, a, ctl.agents[a]); }
      }
    }
  }

  lemma TouchIdleMoves(w: World, issued: set<Notification>)
    requires Sound(w, issued)
    ensures Moves(w, issued, TouchIdle(w), [])
  {
    MovesStill(w, issued);
    TouchOk(w.rec, w.ctl.idle, issued);
    var r := TouchRun(w.rec, w.ctl.idle);
    hide RecordOk, Grows, TouchRun;
    OthersStayBehind(w.rec, r, w.ctl);
    if r.Open() {
      assert forall a :: a in w.ctl.agents ==> AgentBehind(r, a, w.ctl.agents[a]);
    }
  }

  lemma DispatchMoves(w: World, issued: set<Notification>, name: Name)
    requires Sound(w, issued)
    requires name in w.ctl.agents && CarrierFor(w.ctl.reach, w.ctl.agents[name].decl).Some?
    ensures var (v, d) := Dispatch(w, name); Moves(w, issued, v, [d])
  {
    hide RecordOk, Grows;
    var st := w.ctl.agents[name];
    var let := WithAgent(w, name, Unarmed(st).(pending := map[])).(clock := CancelIf(w.clock, st.call));
    if w.rec.Open() { assert AgentBehind(w.rec, name, st); }
    WithAgentBehind(w.rec, w.ctl, name, Unarmed(st).(pending := map[]));
    HereMoves(w, issued, let.ctl, let.clock);
    TouchIdleMoves(let, issued);
    var touched := TouchIdle(let);
    MovesOn(w, issued, let, [], touched, []);
    var (v, d) := Dispatch(w, name);
    assert issued + Notes([]) == issued;
    if touched.rec.Open() { assert touched.rec.agents == w.rec.agents; }
    DispatchMarks(touched, issued, w.ctl.last, st, name, d);
    assert ([] + []) + [d] == [d];
    MovesOn(w, issued, touched, [] + [], v, [d]);
  }

  // The last part of a dispatch: the record told, and the cursor cached.
  lemma DispatchMarks(
    touched: World, issued: set<Notification>, last: nat, st: AgentState, name: Name, d: Delivery)
    requires Sound(touched, issued) && touched.ctl.last == last && st.decl.name == name
    requires touched.rec.Open() ==> AgentBehind(touched.rec, name, st)
    requires d.note.id == d.note.to == last && d.note.agent == name && d.note.from == st.acked + 1
    ensures var told := Unarmed(st).(pending := map[], notified := Max(st.notified, last));
            var v := WithAgent(touched, name, told).(rec := MarkNotified(touched.rec, name, last));
            Moves(touched, issued, v, [d])
  {
    MarkNotifiedOk(touched.rec, issued, d.note);
    var r := MarkNotified(touched.rec, name, last);
    hide RecordOk;
    OthersStayBehind(touched.rec, r, touched.ctl);
    var told := Unarmed(st).(pending := map[], notified := Max(st.notified, last));
    if r.Open() { assert touched.rec.Open(); }
    WithAgentBehind(r, touched.ctl, name, told);
    assert Notes([d]) == {d.note};
  }

  lemma EvaluateMoves(w: World, issued: set<Notification>, name: Name)
    requires Sound(w, issued)
    ensures var (v, ds) := Evaluate(w, name); Moves(w, issued, v, ds)
  {
    hide RecordOk, Grows, Dispatch;
    MovesStill(w, issued);
    if name in w.ctl.agents && w.ctl.agents[name].pending != map[] {
      var st := w.ctl.agents[name];
      if w.rec.Open() { assert AgentBehind(w.rec, name, st); }
      var v := Evaluate(w, name).0;
      if CarrierFor(w.ctl.reach, st.decl).Some? && w.ctl.last > st.acked && LeastOf(st.pending) <= w.clock.now {
        DispatchMoves(w, issued, name);
      } else if v != w {
        WithAgentBehind(w.rec, w.ctl, name, v.ctl.agents[name]);
        HereMoves(w, issued, v.ctl, v.clock);
      }
    }
  }

  lemma {:induction false} EvaluateAllMoves(w: World, issued: set<Notification>, order: seq<Name>)
    requires Sound(w, issued)
    ensures var (v, ds) := EvaluateAll(w, order); Moves(w, issued, v, ds)
  {
    hide Sound, Grows, Evaluate;
    if order == [] {
      MovesStill(w, issued);
    } else {
      EvaluateAllMoves(w, issued, order[..|order| - 1]);
      var (v, ds) := EvaluateAll(w, order[..|order| - 1]);
      EvaluateMoves(v, issued + Notes(ds), order[|order| - 1]);
      var (u, es) := Evaluate(v, order[|order| - 1]);
      MovesOn(w, issued, v, ds, u, es);
    }
  }

  lemma NoteMoves(w: World, issued: set<Notification>, name: Name, region: Region, writer: Name)
    requires Sound(w, issued)
    ensures var (v, ds) := Note(w, name, region, writer); Moves(w, issued, v, ds)
  {
    hide RecordOk, Grows, Evaluate;
    MovesStill(w, issued);
    if name in w.ctl.agents && region in w.ctl.kinds && region in w.ctl.windows && name != writer
       && Wants(w.ctl.agents[name].decl.subs, region, w.ctl.kinds[region]) {
      var st := w.ctl.agents[name];
      var waiting := st.(pending := AddDue(st.pending, region, w.clock.now + w.ctl.windows[region]));
      if w.rec.Open() { assert AgentBehind(w.rec, name, st); }
      WithAgentBehind(w.rec, w.ctl, name, waiting);
      var added := WithAgent(w, name, waiting);
      HereMoves(w, issued, added.ctl, added.clock);
      assert issued + Notes([]) == issued;
      EvaluateMoves(added, issued, name);
      var (v, ds) := Evaluate(added, name);
      MovesOn(w, issued, added, [], v, ds);
      assert [] + ds == ds;
    }
  }

  lemma {:induction false} NoteAllMoves(
    w: World, issued: set<Notification>, order: seq<Name>, region: Region, writer: Name)
    requires Sound(w, issued)
    ensures var (v, ds) := NoteAll(w, order, region, writer); Moves(w, issued, v, ds)
  {
    hide Sound, Grows, Note;
    if order == [] {
      MovesStill(w, issued);
    } else {
      NoteAllMoves(w, issued, order[..|order| - 1], region, writer);
      var (v, ds) := NoteAll(w, order[..|order| - 1], region, writer);
      NoteMoves(v, issued + Notes(ds), order[|order| - 1], region, writer);
      var (u, es) := Note(v, order[|order| - 1], region, writer);
      MovesOn(w, issued, v, ds, u, es);
    }
  }

  lemma ReachOneMoves(w: World, issued: set<Notification>, agent: Name, hi: nat)
    requires Sound(w, issued)
    ensures var (v, ds) := ReachOne(w, agent, hi); Moves(w, issued, v, ds)
  {
    MovesStill(w, issued);
    var (v, ds) := ReachOne(w, agent, hi);
    if ds != [] {
      MarkNotifiedOk(w.rec, issued, ds[0].note);
      hide RecordOk, Changed;
      OthersStayBehind(w.rec, v.rec, w.ctl);
      assert Notes(ds) == {ds[0].note};
    }
  }

  lemma {:induction false} ReachAllMoves(w: World, issued: set<Notification>, owed: seq<Name>, hi: nat)
    requires Sound(w, issued)
    ensures var (v, ds) := ReachAll(w, owed, hi); Moves(w, issued, v, ds)
  {
    hide Sound, Grows, ReachOne;
    if owed == [] {
      MovesStill(w, issued);
    } else {
      ReachAllMoves(w, issued, owed[..|owed| - 1], hi);
      var (v, ds) := ReachAll(w, owed[..|owed| - 1], hi);
      ReachOneMoves(v, issued + Notes(ds), owed[|owed| - 1], hi);
      var (u, es) := ReachOne(v, owed[|owed| - 1], hi);
      MovesOn(w, issued, v, ds, u, es);
    }
  }

  lemma ReachRestMoves(w: World, issued: set<Notification>, hearers: seq<Name>, window: Duration)
    requires Sound(w, issued)
    ensures var (v, ds) := ReachRest(w, hearers, window); Moves(w, issued, v, ds)
  {
    MovesStill(w, issued);
    forall owed: seq<Name>, hi: nat ensures var (v, ds) := ReachAll(w, owed, hi); Moves(w, issued, v, ds) {
      ReachAllMoves(w, issued, owed, hi);
    }
    hide Moves, Sound, ReachAll;
  }

  // The store's step of a write: the rows it adds are the hearers', and owed.
  lemma PutMoves(
    w: World, issued: set<Notification>, p: Proposal, key: Option<Key>, writer: Name)
    requires Sound(w, issued) && p.region in w.ctl.windows
    ensures var notify := WhoHears(w.rec, w.ctl.kinds, p.region, writer);
            var (rec, answer) := Put(w.rec, p, key, writer, notify);
            answer.Done? && !answer.written.repeated ==>
              && Moves(w, issued, w.(rec := rec, ctl := w.ctl.(last := answer.written.sequence)), [])
              && Owing(notify, answer.written.sequence) <= rec.outbox
  {
    hide Grows, KeepsWants, RecordOk;
    var notify := WhoHears(w.rec, w.ctl.kinds, p.region, writer);
    var (rec, answer) := Put(w.rec, p, key, writer, notify);
    if answer.Done? && !answer.written.repeated {
      var e := rec.log[|w.rec.log|];
      LogExtendsOk(w.rec, issued, e, notify);
      OthersStayBehind(w.rec, rec, w.ctl);
      assert issued + Notes([]) == issued;
      assert rec == w.rec.(log := w.rec.log + [e], outbox := w.rec.outbox + Owing(notify, |w.rec.log| + 1));
      if rec.Open() {
        assert forall a :: a in w.ctl.agents ==> AgentBehind(rec, a, w.ctl.agents[a]);
      }
    }
  }

  lemma SequenceMoves(
    w: World, issued: set<Notification>, p: Proposal, key: Option<Key>, writer: Name,
    hearers: seq<Name>, order: seq<Name>)
    requires Sound(w, issued) && p.region in w.ctl.windows
    ensures var (v, ds, result) := Sequence(w, p, key, writer, hearers, order);
            Moves(w, issued, v, ds)
  {
    MovesStill(w, issued);
    PutMoves(w, issued, p, key, writer);
    var notify := WhoHears(w.rec, w.ctl.kinds, p.region, writer);
    var (rec, answer) := Put(w.rec, p, key, writer, notify);
    if w.ctl.outcome.None? && answer.Done? && !answer.written.repeated {
      hide Sound, Grows, Put, WhoHears, ReachRest, NoteAll;
      var landed := w.(rec := rec, ctl := w.ctl.(last := answer.written.sequence));
      assert issued + Notes([]) == issued;
      ReachRestMoves(landed, issued, hearers, w.ctl.windows[p.region]);
      var (v, ds) := ReachRest(landed, hearers, w.ctl.windows[p.region]);
      NoteAllMoves(v, issued + Notes(ds), order, p.region, writer);
      var (u, es) := NoteAll(v, order, p.region, writer);
      MovesOn(landed, issued, v, ds, u, es);
      MovesOn(w, issued, landed, [], u, ds + es);
      assert [] + (ds + es) == ds + es;
    }
  }

  // A registration keeps all of it but what the agent it declares wants.
  lemma RegisterMoves(w: World, issued: set<Notification>, decl: Declaration)
    requires Sound(w, issued)
    ensures var (v, ds) := Register(w, decl); Registers(w, issued, v, ds, decl)
  {
    var joined := Join(w, decl);
    JoinMoves(w, issued, decl);
    hide RecordOk, Grows, Behind, Join, Evaluate;
    EvaluateMoves(joined, issued, decl.name);
    var (v, ds) := Evaluate(joined, decl.name);
    GrowsTransitive(w.rec, joined.rec, v.rec);
    OpenBefore(joined.rec, v.rec);
  }

  ghost predicate Registers(
    w: World, issued: set<Notification>, v: World, ds: seq<Delivery>, decl: Declaration)
  {
    && Sound(v, issued + Notes(ds))
    && Grows(w.rec, v.rec) && KeepsRows(w.rec, v.rec)
    && (v.rec.Open() ==>
          && (forall a :: a in w.rec.agents && a != decl.name ==>
                a in v.rec.agents && v.rec.agents[a].subs == w.rec.agents[a].subs)
          && decl.name in v.rec.agents && v.rec.agents[decl.name].subs == decl.subs
          && (forall row :: row in v.rec.outbox ==> row in w.rec.outbox || RowWanted(v.rec, row)))
    && v.ctl.kinds == w.ctl.kinds && v.ctl.reach == w.ctl.reach
  }

  lemma JoinMoves(w: World, issued: set<Notification>, decl: Declaration)
    requires Sound(w, issued)
    ensures Registers(w, issued, Join(w, decl), [], decl) && Join(w, decl).rec.outbox == w.rec.outbox
    ensures Sound(Join(w, decl), issued)
  {
    DeclareOk(w.rec, issued, decl.name, decl.subs, decl.writes, decl.addr);
    var joined := Join(w, decl);
    hide RecordOk, LogSound;
    OthersStayBehind(w.rec, joined.rec, w.ctl);
    if joined.rec.Open() {
      assert w.rec.Open();
      if decl.name in w.rec.agents { assert AgentGrows(w.rec, joined.rec, decl.name); }
      assert AgentBehind(joined.rec, decl.name, Joining(w, decl));
    }
    WithAgentBehind(joined.rec, w.ctl, decl.name, Joining(w, decl));
    assert issued + Notes([]) == issued;
  }

  lemma TakeTailMoves(w: World, issued: set<Notification>, only: Option<set<Name>>)
    requires Sound(w, issued) && w.ctl.kinds.Keys == w.ctl.windows.Keys
    ensures Moves(w, issued, TakeTail(w, only), [])
  {
    var v := TakeTail(w, only);
    TakeTailFills(w, only);
    hide TakeTail, RecordOk;
    if w.rec.Open() {
      forall a | a in v.ctl.agents ensures AgentBehind(w.rec, a, v.ctl.agents[a]) {
        assert AgentBehind(w.rec, a, w.ctl.agents[a]);
      }
    }
    assert Behind(w.rec, v.ctl);
    HereMoves(w, issued, v.ctl, v.clock);
  }

  // A tail changes nothing but pending sets and how far this process has read.
  lemma TakeTailFills(w: World, only: Option<set<Name>>)
    requires w.ctl.kinds.Keys == w.ctl.windows.Keys
    ensures var v := TakeTail(w, only);
            && v == w.(ctl := w.ctl.(last := v.ctl.last, agents := v.ctl.agents))
            && w.ctl.last <= v.ctl.last <= Max(w.ctl.last, |w.rec.log|)
            && v.ctl.agents.Keys == w.ctl.agents.Keys
            && forall a :: a in v.ctl.agents ==>
                 v.ctl.agents[a] == w.ctl.agents[a].(pending := v.ctl.agents[a].pending)
  {
    hide AddTail, FloorOf, Considered;
  }

  lemma CloseMoves(w: World, issued: set<Notification>, outcome: Outcome)
    requires Sound(w, issued)
    ensures Moves(w, issued, Close(w, outcome), [])
  {
    MovesStill(w, issued);
    if w.ctl.outcome.None? {
      var v := Close(w, outcome);
      CloseRunOk(w.rec, issued, ClosedAsOf(outcome), ReasonOf(outcome), outcome.unfinished);
      hide RecordOk, Handles, CancelAll;
      assert issued + Notes([]) == issued;
      assert !v.rec.Open();
      assert Behind(v.rec, v.ctl);
    }
  }

  lemma PollMoves(w: World, issued: set<Notification>, order: seq<Name>)
    requires Sound(w, issued) && w.ctl.kinds.Keys == w.ctl.windows.Keys
    ensures var (v, ds) := Poll(w, order); Moves(w, issued, v, ds)
  {
    hide RecordOk, Grows, Behind, TakeTail, EvaluateAll, Close;
    MovesStill(w, issued);
    if w.ctl.outcome.None? && w.rec.run.Some? {
      if w.rec.run.value.closed.Some? {
        CloseMoves(w, issued, OutcomeOf(w.rec.run.value));
      } else {
        TakeTailMoves(w, issued, None);
        TailThenAll(w, issued, None, order);
      }
    }
  }

  lemma RelayHeldMoves(w: World, issued: set<Notification>, owed: seq<Name>)
    requires Sound(w, issued) && w.ctl.kinds.Keys == w.ctl.windows.Keys
    ensures var (v, ds) := RelayHeld(w, owed); Moves(w, issued, v, ds)
  {
    hide RecordOk, Grows, Behind, TakeTail, EvaluateAll, Close;
    MovesStill(w, issued);
    if w.ctl.outcome.None? && w.rec.run.Some? && owed != [] {
      TakeTailMoves(w, issued, Some(set a | a in owed));
      TailThenAll(w, issued, Some(set a | a in owed), owed);
    }
  }

  lemma {:induction false} TailThenAll(w: World, issued: set<Notification>, only: Option<set<Name>>, order: seq<Name>)
    requires w.ctl.kinds.Keys == w.ctl.windows.Keys
    requires Sound(w, issued) && Moves(w, issued, TakeTail(w, only), [])
    ensures var (v, ds) := EvaluateAll(TakeTail(w, only), order); Moves(w, issued, v, ds)
  {
    hide Sound, Grows, TakeTail, EvaluateAll;
    var tailed := TakeTail(w, only);
    assert issued + Notes([]) == issued;
    EvaluateAllMoves(tailed, issued, order);
    var (v, ds) := EvaluateAll(tailed, order);
    MovesOn(w, issued, tailed, [], v, ds);
    assert [] + ds == ds;
  }

  lemma CloseWindowMoves(w: World, issued: set<Notification>, name: Name, generation: nat)
    requires Sound(w, issued)
    ensures var (v, ds) := CloseWindowFires(w, name, generation); Moves(w, issued, v, ds)
  {
    hide RecordOk, Grows, Dispatch, TouchIdle;
    MovesStill(w, issued);
    if name in w.ctl.agents && w.ctl.outcome.None? && w.ctl.agents[name].generation == generation {
      var st := w.ctl.agents[name];
      var lapsed := WithAgent(w, name, st.(call := None, due := None, generation := st.generation + 1));
      if w.rec.Open() { assert AgentBehind(w.rec, name, st); }
      WithAgentBehind(w.rec, w.ctl, name, lapsed.ctl.agents[name]);
      HereMoves(w, issued, lapsed.ctl, lapsed.clock);
      assert issued + Notes([]) == issued;
      if st.pending != map[] && CarrierFor(w.ctl.reach, st.decl).Some? {
        DispatchMoves(lapsed, issued, name);
        var (after, d) := Dispatch(lapsed, name);
        MovesOn(w, issued, lapsed, [], after, [d]);
        assert [] + [d] == [d];
      }
    }
  }

  lemma AckHereMoves(w: World, issued: set<Notification>, agent: Name, through: int)
    requires Sound(w, issued)
    requires w.rec.Open() ==> agent in w.rec.agents && through <= w.rec.agents[agent].acked
    ensures Moves(w, issued, AckHere(w, agent, through), [])
  {
    MovesStill(w, issued);
    if agent in w.ctl.agents {
      var st := w.ctl.agents[agent];
      if w.rec.Open() { assert AgentBehind(w.rec, agent, st); }
      WithAgentBehind(w.rec, w.ctl, agent, st.(acked := Max(st.acked, through)));
      HereMoves(w, issued, AckHere(w, agent, through).ctl, w.clock);
    }
  }
}
