// The pending sets, kept change by change, against a scan of the record.
//
// Within one Control, what is pending for an agent always includes the region
// of every change since the agent was last told or answered that it is to
// hear of, and from its first notification on it is exactly that; so what a
// notification names is what changed since the one before. Only a relay, which
// resends, puts more there (`Relays.ResentNamesIff`).

module PendingSets {
  import opened Values
  import opened Records
  import opened Clocks
  import opened Controls
  import opened Cursors
  import opened Sessions
  import opened Silence
  import Relays

  // The regions of the changes up to `upto` an agent has yet to hear of.
  ghost function Unheard(log: seq<Entry>, kinds: map<Region, Kind>, a: Name, st: AgentState, upto: nat): set<Region>
    requires upto <= |log|
  {
    Changed(log, Max(st.notified, st.acked), upto, kinds, st.decl.subs, a)
  }

  ghost predicate AgentScans(r: Record, ctl: Control, a: Name, st: AgentState, told: bool, upto: nat)
    requires upto <= |r.log|
  {
    && st.decl.name == a && a in r.agents
    && st.acked <= r.agents[a].acked <= r.agents[a].notified <= upto && st.notified <= r.agents[a].notified
    && (told ==> st.notified == r.agents[a].notified)
    && (CarrierFor(ctl.reach, st.decl).Some? ==>
          && Unheard(r.log, ctl.kinds, a, st, upto) <= st.pending.Keys
          && (told ==> st.pending.Keys <= Unheard(r.log, ctl.kinds, a, st, upto)))
  }

  // `behind` are the agents the last write has not been noted for yet.
  ghost predicate Scans(w: World, told: set<Name>, behind: set<Name>) {
    && w.ctl.outcome.None? && w.rec.Open() && w.ctl.last == |w.rec.log|
    && w.ctl.kinds.Keys == w.ctl.windows.Keys && InRange(w.rec)
    && (behind != {} ==> |w.rec.log| > 0)
    && forall a :: a in w.ctl.agents ==> ScansAt(w, told, behind, a)
  }

  // All of it but for one agent.
  ghost predicate ScansBut(w: World, told: set<Name>, behind: set<Name>, name: Name) {
    && w.ctl.outcome.None? && w.rec.Open() && w.ctl.last == |w.rec.log|
    && w.ctl.kinds.Keys == w.ctl.windows.Keys && InRange(w.rec)
    && (behind != {} ==> |w.rec.log| > 0)
    && forall a :: a in w.ctl.agents && a != name ==> ScansAt(w, told, behind, a)
  }

  ghost predicate ScansAt(w: World, told: set<Name>, behind: set<Name>, a: Name)
    requires a in w.ctl.agents && (a in behind ==> |w.rec.log| > 0)
  {
    AgentScans(w.rec, w.ctl, a, w.ctl.agents[a], a in told,
               if a in behind then |w.rec.log| - 1 else |w.rec.log|)
  }

  // What a block's notifications name, to the agents told before it.
  ghost predicate NamesChanges(w: World, log: seq<Entry>, told: set<Name>, ds: seq<Delivery>) {
    forall d :: d in ds && d.note.agent in told && d.note.agent in w.ctl.agents ==> NamesChange(w, log, d.note)
  }

  ghost predicate NamesChange(w: World, log: seq<Entry>, n: Notification)
    requires n.agent in w.ctl.agents
  {
    var st := w.ctl.agents[n.agent];
    n.to == |log| && n.regions == Changed(log, st.notified, |log|, w.ctl.kinds, st.decl.subs, n.agent)
  }

  // A block that leaves every agent's scan as it was.
  lemma SameScans(w: World, v: World, told: set<Name>, behind: set<Name>)
    requires Scans(w, told, behind)
    requires v.ctl.outcome.None? && v.rec.Open() && v.ctl.last == w.ctl.last
    requires v.ctl.kinds == w.ctl.kinds && v.ctl.windows == w.ctl.windows && v.ctl.reach == w.ctl.reach
    requires v.ctl.agents == w.ctl.agents
    requires v.rec.log == w.rec.log && v.rec.kinds == w.rec.kinds && v.rec.agents == w.rec.agents
    ensures Scans(v, told, behind)
  {
    forall a | a in v.ctl.agents ensures ScansAt(v, told, behind, a) {
      assert ScansAt(w, told, behind, a);
    }
  }

  lemma TouchScans(w: World, told: set<Name>, behind: set<Name>)
    requires Scans(w, told, behind)
    ensures Scans(TouchIdle(w), told, behind)
  {
    SameScans(w, TouchIdle(w), told, behind);
  }

  // One agent's state replaced, and what the record holds of it.
  lemma Replaced(
    w: World, told: set<Name>, behind: set<Name>, v: World, toldAfter: set<Name>, behindAfter: set<Name>, name: Name)
    requires ScansBut(w, told, behind, name)
    requires forall a :: a != name ==> (a in told <==> a in toldAfter) && (a in behind <==> a in behindAfter)
    requires behindAfter <= behind
    requires name in v.ctl.agents && v.ctl == w.ctl.(agents := w.ctl.agents[name := v.ctl.agents[name]],
                                                     idleGeneration := v.ctl.idleGeneration, idleCall := v.ctl.idleCall)
    requires name in v.rec.agents && v.rec == w.rec.(agents := w.rec.agents[name := v.rec.agents[name]], run := v.rec.run)
    requires v.rec.Open()
    requires ScansAt(v, toldAfter, behindAfter, name)
    ensures Scans(v, toldAfter, behindAfter)
  {
    forall a | a in v.ctl.agents ensures ScansAt(v, toldAfter, behindAfter, a) {
      if a != name { assert ScansAt(w, told, behind, a); }
    }
  }

  // A dispatch tells the agent of everything: nothing is left unheard.
  lemma DispatchScans(w: World, told: set<Name>, behind: set<Name>, name: Name)
    requires ScansBut(w, told, behind, name) && name in w.ctl.agents && name !in behind
    requires CarrierFor(w.ctl.reach, w.ctl.agents[name].decl).Some?
    requires w.ctl.agents[name].decl.name == name && name in w.rec.agents
    requires var st := w.ctl.agents[name]; st.acked <= w.rec.agents[name].acked && st.notified <= |w.rec.log|
    ensures var (v, d) := Dispatch(w, name); Scans(v, told + {name}, behind) && d.note.agent == name
  {
    var (v, d) := Dispatch(w, name);
    assert v.rec.agents[name].notified == |w.rec.log|;
    assert Unheard(v.rec.log, v.ctl.kinds, name, v.ctl.agents[name], |v.rec.log|) == {};
    Replaced(w, told, behind, v, told + {name}, behind, name);
  }

  // What a block of one agent leaves alone.
  ghost predicate Aside(w: World, v: World, names: set<Name>) {
    && v.ctl.agents.Keys == w.ctl.agents.Keys && v.rec.log == w.rec.log && v.ctl.kinds == w.ctl.kinds
    && v.ctl.windows == w.ctl.windows
    && forall a :: a in w.ctl.agents && a !in names ==> v.ctl.agents[a] == w.ctl.agents[a]
  }

  lemma DispatchAside(w: World, name: Name)
    requires name in w.ctl.agents && CarrierFor(w.ctl.reach, w.ctl.agents[name].decl).Some?
    ensures var (v, d) := Dispatch(w, name); Aside(w, v, {name}) && d.note.agent == name
  {
  }

  lemma EvaluateAside(w: World, name: Name)
    ensures var (v, ds) := Evaluate(w, name);
            Aside(w, v, {name}) && forall d :: d in ds ==> d.note.agent == name
  {
    hide Dispatch;
    if name in w.ctl.agents && CarrierFor(w.ctl.reach, w.ctl.agents[name].decl).Some? {
      DispatchAside(w, name);
    }
  }

  // Nothing dispatched: the window armed, or a pending set nothing could or
  // need carry dropped.
  lemma WaitsScans(w: World, told: set<Name>, behind: set<Name>, name: Name)
    requires Scans(w, told, behind) && name !in behind && Evaluate(w, name).1 == []
    ensures Scans(Evaluate(w, name).0, told, behind)
  {
    var v := Evaluate(w, name).0;
    if v != w {
      assert ScansAt(w, told, behind, name);
      hide Evaluate;
      EvaluateWaits(w, name);
      var st := v.ctl.agents[name];
      assert w.ctl.last <= st.acked ==> Unheard(w.rec.log, w.ctl.kinds, name, st, |w.rec.log|) == {};
      assert ScansAt(v, told, behind, name);
      Replaced(w, told, behind, v, told, behind, name);
    }
  }

  lemma EvaluateWaits(w: World, name: Name)
    requires Evaluate(w, name).1 == [] && Evaluate(w, name).0 != w
    ensures name in w.ctl.agents
    ensures var v := Evaluate(w, name).0;
            var was := w.ctl.agents[name];
            && v.rec == w.rec && v.ctl == w.ctl.(agents := w.ctl.agents[name := v.ctl.agents[name]])
            && var st := v.ctl.agents[name];
               && st.decl == was.decl && st.acked == was.acked && st.notified == was.notified
               && (st.pending == was.pending
                   || (st.pending == map[] && (CarrierFor(w.ctl.reach, was.decl).None? || w.ctl.last <= was.acked)))
  {
    hide Dispatch;
  }

  lemma EvaluateScans(w: World, told: set<Name>, behind: set<Name>, name: Name)
    requires Scans(w, told, behind) && name !in behind
    ensures var (v, ds) := Evaluate(w, name);
            Scans(v, told + Told(ds), behind) && NamesChanges(w, w.rec.log, told, ds)
  {
    var (v, ds) := Evaluate(w, name);
    if ds == [] {
      WaitsScans(w, told, behind, name);
      assert told + Told(ds) == told;
    } else {
      var st := w.ctl.agents[name];
      assert ScansAt(w, told, behind, name);
      assert ds == [Dispatch(w, name).1];
      hide LeastOf, Dispatch;
      DispatchScans(w, told, behind, name);
      NamesAtDispatch(w, told, behind, name);
      assert Told(ds) == {name};
    }
  }

  lemma NamesAtDispatch(w: World, told: set<Name>, behind: set<Name>, name: Name)
    requires Scans(w, told, behind) && name in w.ctl.agents && name !in behind
    requires CarrierFor(w.ctl.reach, w.ctl.agents[name].decl).Some?
    ensures NamesChanges(w, w.rec.log, told, [Dispatch(w, name).1])
  {
    assert ScansAt(w, told, behind, name);
    hide TouchIdle;
  }

  lemma {:induction false} EvaluateAllAside(w: World, order: seq<Name>)
    ensures var (v, ds) := EvaluateAll(w, order);
            Aside(w, v, set a | a in order) && forall d :: d in ds ==> d.note.agent in order
  {
    hide Evaluate;
    if order != [] {
      var init, last := order[..|order| - 1], order[|order| - 1];
      EvaluateAllAside(w, init);
      EvaluateAside(EvaluateAll(w, init).0, last);
      assert order == init + [last];
    }
  }

  lemma {:induction false} EvaluateAllScans(w: World, told: set<Name>, order: seq<Name>)
    requires Scans(w, told, {})
    requires forall i, j :: 0 <= i < j < |order| ==> order[i] != order[j]
    ensures var (v, ds) := EvaluateAll(w, order);
            Scans(v, told + Told(ds), {}) && NamesChanges(w, w.rec.log, told, ds)
  {
    if order == [] {
      assert told + Told([]) == told;
    } else {
      var init, last := order[..|order| - 1], order[|order| - 1];
      EvaluateAllScans(w, told, init);
      EvaluateAllAside(w, init);
      var (v, ds) := EvaluateAll(w, init);
      hide Scans, Evaluate;
      EvaluateScans(v, told + Told(ds), {}, last);
      EvaluateAside(v, last);
      var (u, es) := Evaluate(v, last);
      assert last !in init;
      NamesJoin(w, v, told, ds, es, last);
      ToldJoins(told, ds, es);
    }
  }

  // Two blocks' notifications, the second to an agent the first left alone.
  lemma NamesJoin(w: World, v: World, told: set<Name>, ds: seq<Delivery>, es: seq<Delivery>, last: Name)
    requires NamesChanges(w, w.rec.log, told, ds) && NamesChanges(v, v.rec.log, told + Told(ds), es)
    requires v.rec.log == w.rec.log && v.ctl.kinds == w.ctl.kinds && v.ctl.agents.Keys == w.ctl.agents.Keys
    requires last in w.ctl.agents ==> v.ctl.agents[last] == w.ctl.agents[last]
    requires forall d :: d in es ==> d.note.agent == last
    ensures NamesChanges(w, w.rec.log, told, ds + es)
  {
    forall d | d in ds + es && d.note.agent in told && d.note.agent in w.ctl.agents
      ensures NamesChange(w, w.rec.log, d.note)
    {
      if d in es { assert NamesChange(v, v.rec.log, d.note); }
    }
  }

  // The last change of the log, heard by one agent.
  lemma LastUnheard(log: seq<Entry>, kinds: map<Region, Kind>, a: Name, st: AgentState)
    requires log != [] && Max(st.notified, st.acked) < |log|
    ensures Unheard(log, kinds, a, st, |log|) ==
            Unheard(log, kinds, a, st, |log| - 1)
            + (if Concerns(log[|log| - 1], kinds, st.decl.subs, a) then {log[|log| - 1].region} else {})
  {
    var last := log[|log| - 1];
    assert last.region in Unheard(log, kinds, a, st, |log|) <== Concerns(last, kinds, st.decl.subs, a);
  }

  // The last write, for an agent that is not to hear of it.
  lemma PassedOver(w: World, told: set<Name>, behind: set<Name>, name: Name)
    requires Scans(w, told, behind) && name in behind && name in w.ctl.agents
    requires !Concerns(w.rec.log[|w.rec.log| - 1], w.ctl.kinds, w.ctl.agents[name].decl.subs, name)
    ensures Scans(w, told, behind - {name})
  {
    assert ScansAt(w, told, behind, name);
    LastUnheard(w.rec.log, w.ctl.kinds, name, w.ctl.agents[name]);
    assert w.ctl.agents == w.ctl.agents[name := w.ctl.agents[name]];
    assert w.rec.agents == w.rec.agents[name := w.rec.agents[name]];
    assert ScansAt(w, told, behind - {name}, name);
    Replaced(w, told, behind, w, told, behind - {name}, name);
  }

  // The last write, pending for an agent that is.
  lemma MadePending(w: World, told: set<Name>, behind: set<Name>, name: Name, st: AgentState)
    requires Scans(w, told, behind) && name in behind && name in w.ctl.agents
    requires Concerns(w.rec.log[|w.rec.log| - 1], w.ctl.kinds, w.ctl.agents[name].decl.subs, name)
    requires st == w.ctl.agents[name].(pending := st.pending)
    requires st.pending.Keys == w.ctl.agents[name].pending.Keys + {w.rec.log[|w.rec.log| - 1].region}
    ensures Scans(WithAgent(w, name, st), told, behind - {name})
  {
    var v := WithAgent(w, name, st);
    assert ScansAt(w, told, behind, name);
    LastUnheard(w.rec.log, w.ctl.kinds, name, w.ctl.agents[name]);
    assert Unheard(w.rec.log, w.ctl.kinds, name, st, |w.rec.log|)
           == Unheard(w.rec.log, w.ctl.kinds, name, w.ctl.agents[name], |w.rec.log|);
    assert w.rec.agents == w.rec.agents[name := w.rec.agents[name]];
    hide Changed, Concerns;
    assert ScansAt(v, told, behind - {name}, name);
    Replaced(w, told, behind, v, told, behind - {name}, name);
  }

  lemma NoteScans(w: World, told: set<Name>, behind: set<Name>, name: Name, region: Region, writer: Name)
    requires Scans(w, told, behind) && name in behind && name in w.ctl.agents
    requires var last := w.rec.log[|w.rec.log| - 1];
             last.region == region && last.writer == Some(writer) && region in w.ctl.windows
    ensures var (v, ds) := Note(w, name, region, writer);
            Scans(v, told + Told(ds), behind - {name}) && NamesChanges(w, w.rec.log, told, ds)
  {
    hide Scans, Evaluate, NamesChanges, Told;
    var st := w.ctl.agents[name];
    KindsScanned(w, told, behind);
    if name == writer || !Wants(st.decl.subs, region, w.ctl.kinds[region]) {
      PassedOver(w, told, behind, name);
      NothingTold(w, told);
    } else {
      AddsScans(w, told, behind, name, w.clock.now + w.ctl.windows[region]);
    }
  }

  lemma KindsScanned(w: World, told: set<Name>, behind: set<Name>)
    requires Scans(w, told, behind)
    ensures w.ctl.kinds.Keys == w.ctl.windows.Keys && (behind != {} ==> w.rec.log != [])
  {
  }

  lemma AddsScans(w: World, told: set<Name>, behind: set<Name>, name: Name, due: Instant)
    requires Scans(w, told, behind) && name in behind && name in w.ctl.agents && w.rec.log != []
    requires Concerns(w.rec.log[|w.rec.log| - 1], w.ctl.kinds, w.ctl.agents[name].decl.subs, name)
    ensures var st := w.ctl.agents[name];
            var region := w.rec.log[|w.rec.log| - 1].region;
            var (v, ds) := Evaluate(WithAgent(w, name, st.(pending := AddDue(st.pending, region, due))), name);
            Scans(v, told + Told(ds), behind - {name}) && NamesChanges(w, w.rec.log, told, ds)
  {
    hide Scans, Evaluate, NamesChanges, Told, Concerns;
    var st := w.ctl.agents[name];
    var waiting := st.(pending := AddDue(st.pending, w.rec.log[|w.rec.log| - 1].region, due));
    var added := WithAgent(w, name, waiting);
    assert waiting.pending.Keys == st.pending.Keys + {w.rec.log[|w.rec.log| - 1].region};
    MadePending(w, told, behind, name, waiting);
    EvaluateScans(added, told, behind - {name}, name);
    EvaluateAside(added, name);
    NamesEarlier(w, added, told, Evaluate(added, name).1, name);
  }

  lemma NothingTold(w: World, told: set<Name>)
    ensures told + Told([]) == told && NamesChanges(w, w.rec.log, told, [])
  {
  }

  // Waiting longer changes neither what an agent was told nor what it wants.
  lemma NamesEarlier(w: World, v: World, told: set<Name>, ds: seq<Delivery>, name: Name)
    requires NamesChanges(v, v.rec.log, told, ds) && forall d :: d in ds ==> d.note.agent == name
    requires v.rec.log == w.rec.log && v.ctl.kinds == w.ctl.kinds
    requires name in w.ctl.agents ==>
               && name in v.ctl.agents && v.ctl.agents[name].notified == w.ctl.agents[name].notified
               && v.ctl.agents[name].decl == w.ctl.agents[name].decl
    ensures NamesChanges(w, w.rec.log, told, ds)
  {
    forall d | d in ds && d.note.agent in told && d.note.agent in w.ctl.agents
      ensures NamesChange(w, w.rec.log, d.note)
    {
      assert NamesChange(v, v.rec.log, d.note);
    }
  }

  lemma NoteAside(w: World, name: Name, region: Region, writer: Name)
    ensures var (v, ds) := Note(w, name, region, writer);
            Aside(w, v, {name}) && forall d :: d in ds ==> d.note.agent == name
  {
    hide Evaluate;
    if name in w.ctl.agents && region in w.ctl.windows {
      var st := w.ctl.agents[name];
      EvaluateAside(WithAgent(w, name, st.(pending := AddDue(st.pending, region, w.clock.now + w.ctl.windows[region]))),
                    name);
    }
  }

  lemma {:induction false} NoteAllAside(w: World, order: seq<Name>, region: Region, writer: Name)
    ensures var (v, ds) := NoteAll(w, order, region, writer);
            Aside(w, v, set a | a in order) && forall d :: d in ds ==> d.note.agent in order
  {
    hide Note;
    if order != [] {
      var init, last := order[..|order| - 1], order[|order| - 1];
      NoteAllAside(w, init, region, writer);
      NoteAside(NoteAll(w, init, region, writer).0, last, region, writer);
      assert order == init + [last];
    }
  }

  lemma {:induction false} NoteAllLeaves(w: World, order: seq<Name>, region: Region, writer: Name, other: Name)
    requires other !in order
    ensures var v := NoteAll(w, order, region, writer).0;
            && v.ctl.agents.Keys == w.ctl.agents.Keys && v.rec.log == w.rec.log && v.ctl.kinds == w.ctl.kinds
            && v.ctl.windows == w.ctl.windows
            && (other in w.ctl.agents ==> v.ctl.agents[other] == w.ctl.agents[other])
  {
    NoteAllAside(w, order, region, writer);
  }

  lemma NoteTells(w: World, name: Name, region: Region, writer: Name)
    ensures var ds := Note(w, name, region, writer).1; forall d :: d in ds ==> d.note.agent == name
  {
    NoteAside(w, name, region, writer);
  }

  lemma ToldJoins(told: set<Name>, ds: seq<Delivery>, es: seq<Delivery>)
    ensures told + Told(ds + es) == told + Told(ds) + Told(es)
  {
  }

  lemma {:induction false} NoteAllScans(
    w: World, told: set<Name>, behind: set<Name>, order: seq<Name>, region: Region, writer: Name)
    requires Scans(w, told, behind) && |w.rec.log| > 0
    requires forall a :: a in order ==> a in behind && a in w.ctl.agents
    requires forall i, j :: 0 <= i < j < |order| ==> order[i] != order[j]
    requires var last := w.rec.log[|w.rec.log| - 1];
             last.region == region && last.writer == Some(writer) && region in w.ctl.windows
    ensures var (v, ds) := NoteAll(w, order, region, writer);
            Scans(v, told + Told(ds), behind - set a | a in order) && NamesChanges(w, w.rec.log, told, ds)
  {
    hide Scans, Note, NamesChanges, Told;
    if order == [] {
      NothingTold(w, told);
      assert behind - (set a | a in order) == behind;
    } else {
      var init, last := order[..|order| - 1], order[|order| - 1];
      NoteAllScans(w, told, behind, init, region, writer);
      var (v, ds) := NoteAll(w, init, region, writer);
      assert order == init + [last] && last !in init && last in order;
      NoteAllLeaves(w, init, region, writer, last);
      NoteScans(v, told + Told(ds), behind - (set a | a in init), last, region, writer);
      NoteTells(v, last, region, writer);
      var (u, es) := Note(v, last, region, writer);
      NamesJoin(w, v, told, ds, es, last);
      ToldJoins(told, ds, es);
      assert behind - (set a | a in init) - {last} == behind - set a | a in order;
    }
  }

  // Reaching agents by address tells only agents this process does not hold.
  lemma {:induction false} ReachAllScans(w: World, told: set<Name>, behind: set<Name>, owed: seq<Name>, hi: nat)
    requires Scans(w, told, behind) && forall a :: a in owed ==> a !in w.ctl.agents
    ensures var (v, ds) := ReachAll(w, owed, hi);
            && Scans(v, told + Told(ds), behind) && v.ctl == w.ctl && v.clock == w.clock && v.rec.log == w.rec.log
            && forall d :: d in ds ==> d.note.agent !in w.ctl.agents
  {
    if owed == [] {
      assert told + Told([]) == told;
    } else {
      var init, last := owed[..|owed| - 1], owed[|owed| - 1];
      ReachAllScans(w, told, behind, init, hi);
      var (v, ds) := ReachAll(w, init, hi);
      hide ReachAll;
      ReachOneScans(v, told + Told(ds), behind, last, hi);
      assert told + Told(ds + ReachOne(v, last, hi).1) == told + Told(ds) + Told(ReachOne(v, last, hi).1);
    }
  }

  lemma ReachOneScans(w: World, told: set<Name>, behind: set<Name>, agent: Name, hi: nat)
    requires Scans(w, told, behind) && agent !in w.ctl.agents
    ensures var (v, ds) := ReachOne(w, agent, hi);
            && Scans(v, told + Told(ds), behind) && v.ctl == w.ctl && v.clock == w.clock && v.rec.log == w.rec.log
            && forall d :: d in ds ==> d.note.agent == agent
  {
    var (v, ds) := ReachOne(w, agent, hi);
    hide Changed;
    forall a | a in v.ctl.agents ensures ScansAt(v, told + Told(ds), behind, a) {
      assert ScansAt(w, told, behind, a);
    }
  }

  lemma ReachRestScans(w: World, told: set<Name>, behind: set<Name>, hearers: seq<Name>, window: Duration)
    requires Scans(w, told, behind)
    ensures var (v, ds) := ReachRest(w, hearers, window);
            && Scans(v, told + Told(ds), behind) && v.ctl == w.ctl && v.clock == w.clock && v.rec.log == w.rec.log
            && forall d :: d in ds ==> d.note.agent !in w.ctl.agents
  {
    assert told + Told([]) == told;
    forall owed: seq<Name>, hi: nat | forall a :: a in owed ==> a !in w.ctl.agents
      ensures var (v, ds) := ReachAll(w, owed, hi);
              && Scans(v, told + Told(ds), behind) && v.ctl == w.ctl && v.clock == w.clock && v.rec.log == w.rec.log
              && forall d :: d in ds ==> d.note.agent !in w.ctl.agents
    {
      ReachAllScans(w, told, behind, owed, hi);
    }
    hide ReachAll, Scans;
  }

  // A write landed and not yet noted for anyone.
  lemma LandedScans(w: World, told: set<Name>, v: World, e: Entry)
    requires Scans(w, told, {})
    requires v == w.(ctl := w.ctl.(last := |w.rec.log| + 1), rec := v.rec)
    requires v.rec == w.rec.(log := w.rec.log + [e], outbox := v.rec.outbox)
    ensures Scans(v, told, w.ctl.agents.Keys)
  {
    forall a | a in v.ctl.agents ensures ScansAt(v, told, w.ctl.agents.Keys, a) {
      assert ScansAt(w, told, {}, a);
      UnheardPrefix(w.rec.log, e, w.ctl.kinds, a, w.ctl.agents[a]);
    }
  }

  lemma UnheardPrefix(log: seq<Entry>, e: Entry, kinds: map<Region, Kind>, a: Name, st: AgentState)
    ensures Unheard(log + [e], kinds, a, st, |log|) == Unheard(log, kinds, a, st, |log|)
  {
    var more, less := Unheard(log + [e], kinds, a, st, |log|), Unheard(log, kinds, a, st, |log|);
    forall region | region in less ensures region in more {
      var i :| Max(st.notified, st.acked) <= i < |log|
               && Concerns(log[i], kinds, st.decl.subs, a) && log[i].region == region;
      assert (log + [e])[i] == log[i];
    }
  }

  lemma SequenceScans(
    w: World, told: set<Name>, p: Proposal, key: Option<Key>, writer: Name, hearers: seq<Name>, order: seq<Name>)
    requires Scans(w, told, {}) && p.region in w.ctl.windows && Enumerates(order, w.ctl.agents.Keys)
    ensures var (v, ds, _) := Sequence(w, p, key, writer, hearers, order);
            Scans(v, told + Told(ds), {}) && NamesChanges(w, v.rec.log, told, ds)
  {
    assert told + Told([]) == told;
    var notify := WhoHears(w.rec, w.ctl.kinds, p.region, writer);
    var (rec, answer) := Put(w.rec, p, key, writer, notify);
    PutLands(w.rec, p, key, writer, notify);
    assert w.ctl.outcome.None?;
    hide Put, WhoHears, ReachRest, NoteAll;
    if answer.Done? && !answer.written.repeated {
      var landed := w.(rec := rec, ctl := w.ctl.(last := answer.written.sequence));
      LandedScans(w, told, landed, rec.log[|w.rec.log|]);
      hide Scans;
      ReachRestScans(landed, told, w.ctl.agents.Keys, hearers, w.ctl.windows[p.region]);
      var (v, ds) := ReachRest(landed, hearers, w.ctl.windows[p.region]);
      NoteAllScans(v, told + Told(ds), w.ctl.agents.Keys, order, p.region, writer);
      NoteAllAside(v, order, p.region, writer);
      var (u, es) := NoteAll(v, order, p.region, writer);
      assert w.ctl.agents.Keys - (set a | a in order) == {};
      ToldJoins(told, ds, es);
      NamesAcross(w, v, told, ds, es);
    }
  }

  lemma NamesAcross(w: World, v: World, told: set<Name>, ds: seq<Delivery>, es: seq<Delivery>)
    requires NamesChanges(v, v.rec.log, told + Told(ds), es)
    requires v.ctl.agents == w.ctl.agents && v.ctl.kinds == w.ctl.kinds
    requires forall d :: d in ds ==> d.note.agent !in w.ctl.agents
    ensures NamesChanges(w, v.rec.log, told, ds + es)
  {
    forall d | d in ds + es && d.note.agent in told && d.note.agent in w.ctl.agents
      ensures NamesChange(w, v.rec.log, d.note)
    {
      assert NamesChange(v, v.rec.log, d.note);
    }
  }

  lemma PutLands(r: Record, p: Proposal, key: Option<Key>, writer: Name, notify: set<Name>)
    ensures var (t, answer) := Put(r, p, key, writer, notify);
            answer.Done? && !answer.written.repeated ==>
              && answer.written.sequence == |r.log| + 1 == |t.log|
              && t == r.(log := r.log + [t.log[|r.log|]], outbox := t.outbox)
              && t.log[|r.log|].region == p.region && t.log[|r.log|].writer == Some(writer)
  {
  }

  // Registration

  lemma {:induction false} WrittenCounts(log: seq<Entry>, i: nat)
    requires i < |log|
    ensures Records.Writes(log, log[i].region) > 0
  {
    if i < |log| - 1 {
      WrittenCounts(log[..|log| - 1], i);
    }
  }

  lemma JoinScans(w: World, told: set<Name>, decl: Declaration)
    requires Scans(w, told, {})
    ensures Scans(Join(w, decl), told - {decl.name}, {})
  {
    var v := Join(w, decl);
    var name := decl.name;
    var st := Joining(w, decl);
    forall i | 0 <= i < |w.rec.log| ensures Records.Writes(w.rec.log, w.rec.log[i].region) > 0 {
      WrittenCounts(w.rec.log, i);
    }
    assert Unheard(w.rec.log, w.ctl.kinds, name, st, |w.rec.log|) <= st.pending.Keys;
    assert forall a :: a in w.ctl.agents ==> ScansAt(w, told, {}, a);
    hide Joining, Changed;
    assert v.ctl.agents[name] == st && v.rec.agents[name].acked == st.acked == st.notified;
    assert ScansAt(v, told - {name}, {}, name);
    Replaced(w, told, {}, v, told - {name}, {}, name);
  }

  lemma RegisterScans(w: World, told: set<Name>, decl: Declaration)
    requires Scans(w, told, {})
    ensures var (v, ds) := Register(w, decl);
            && Scans(v, told - {decl.name} + Told(ds), {})
            && v.rec.log == w.rec.log && forall d :: d in ds ==> d.note.agent == decl.name
  {
    JoinScans(w, told, decl);
    hide Scans, Evaluate;
    EvaluateScans(Join(w, decl), told - {decl.name}, {}, decl.name);
    EvaluateAside(Join(w, decl), decl.name);
  }

  lemma AckHereScans(w: World, told: set<Name>, agent: Name, through: int)
    requires Scans(w, told, {}) && agent in w.rec.agents && through <= w.rec.agents[agent].acked
    ensures Scans(AckHere(w, agent, through), told, {})
  {
    if agent in w.ctl.agents {
      var v := AckHere(w, agent, through);
      assert ScansAt(w, told, {}, agent);
      assert w.rec.agents == w.rec.agents[agent := w.rec.agents[agent]];
      LessUnheard(w.rec.log, w.ctl.kinds, agent, w.ctl.agents[agent], v.ctl.agents[agent]);
      assert ScansAt(v, told, {}, agent);
      Replaced(w, told, {}, v, told, {}, agent);
    }
  }

  // Answering further leaves less unheard, and no less than before where the
  // agent had been told further than that.
  lemma LessUnheard(log: seq<Entry>, kinds: map<Region, Kind>, a: Name, st: AgentState, after: AgentState)
    requires after == st.(acked := after.acked) && st.acked <= after.acked
    ensures Unheard(log, kinds, a, after, |log|) <= Unheard(log, kinds, a, st, |log|)
    ensures after.acked <= st.notified ==> Unheard(log, kinds, a, after, |log|) == Unheard(log, kinds, a, st, |log|)
  {
  }

  // Polling

  lemma TailScans(w: World, told: set<Name>)
    requires Scans(w, told, {})
    ensures Scans(TakeTail(w, None), told, {}) && TakeTail(w, None).rec == w.rec
    ensures forall a :: a in w.ctl.agents ==>
              a in TakeTail(w, None).ctl.agents
              && TakeTail(w, None).ctl.agents[a] == w.ctl.agents[a].(pending := TakeTail(w, None).ctl.agents[a].pending)
  {
    var v := TakeTail(w, None);
    if v != w {
      forall a | a in v.ctl.agents ensures ScansAt(v, told, {}, a) {
        TailAgentScans(w, told, a);
      }
    }
  }

  lemma TailAgentScans(w: World, told: set<Name>, a: Name)
    requires Scans(w, told, {}) && a in w.ctl.agents
    requires TakeTail(w, None) != w
    ensures a in TakeTail(w, None).ctl.agents && ScansAt(TakeTail(w, None), told, {}, a)
  {
    assert ScansAt(w, told, {}, a);
    var considered := Considered(w.ctl, None);
    var lo := FloorOf(w.ctl, considered);
    var hi := Min(|w.rec.log|, lo + TAIL);
    var st := w.ctl.agents[a];
    Relays.FloorBelow(w.ctl, considered, a);
    Relays.TailAdds(w, st, lo, hi, false);
    assert told * {a} != {} ==>
      Changed(w.rec.log, Max(lo, st.notified), hi, w.ctl.kinds, st.decl.subs, a)
      <= Unheard(w.rec.log, w.ctl.kinds, a, st, |w.rec.log|);
  }

  lemma PollScans(w: World, told: set<Name>, order: seq<Name>)
    requires Scans(w, told, {}) && Enumerates(order, w.ctl.agents.Keys)
    ensures var (v, ds) := Poll(w, order);
            Scans(v, told + Told(ds), {}) && NamesChanges(w, v.rec.log, told, ds)
  {
    TailScans(w, told);
    var tailed := TakeTail(w, None);
    assert w.ctl.outcome.None? && w.rec.Open() && w.ctl.kinds.Keys == w.ctl.windows.Keys;
    hide Scans, TakeTail, EvaluateAll;
    EvaluateAllScans(tailed, told, order);
    EvaluateAllAside(tailed, order);
    var (v, ds) := EvaluateAll(tailed, order);
    forall d | d in ds && d.note.agent in told && d.note.agent in w.ctl.agents
      ensures NamesChange(w, v.rec.log, d.note)
    {
      assert NamesChange(tailed, tailed.rec.log, d.note);
    }
  }

  // A window closing

  lemma LapseScans(w: World, told: set<Name>, name: Name)
    requires Scans(w, told, {}) && name in w.ctl.agents
    ensures var st := w.ctl.agents[name];
            var lapsed := WithAgent(w, name, st.(call := None, due := None, generation := st.generation + 1));
            && Scans(lapsed, told, {}) && ScansAt(lapsed, told, {}, name)
  {
    var st := w.ctl.agents[name];
    assert ScansAt(w, told, {}, name);
    var lapsed := WithAgent(w, name, st.(call := None, due := None, generation := st.generation + 1));
    assert w.rec.agents == w.rec.agents[name := w.rec.agents[name]];
    hide Changed;
    assert ScansAt(lapsed, told, {}, name);
    Replaced(w, told, {}, lapsed, told, {}, name);
  }

  lemma CloseWindowScans(w: World, told: set<Name>, name: Name, generation: nat)
    requires Scans(w, told, {})
    ensures var (v, ds) := CloseWindowFires(w, name, generation);
            Scans(v, told + Told(ds), {}) && NamesChanges(w, v.rec.log, told, ds)
  {
    NothingTold(w, told);
    if name in w.ctl.agents && w.ctl.outcome.None? && w.ctl.agents[name].generation == generation {
      var st := w.ctl.agents[name];
      LapseScans(w, told, name);
      hide Dispatch, Scans, NamesChanges;
      var lapsed := WithAgent(w, name, st.(call := None, due := None, generation := st.generation + 1));
      if st.pending != map[] && CarrierFor(w.ctl.reach, st.decl).Some? {
        LapsedDispatch(lapsed, told, name);
        var (v, d) := Dispatch(lapsed, name);
        NamesEarlier(w, lapsed, told, [d], name);
        assert CloseWindowFires(w, name, generation) == (v, [d]);
      } else {
        assert CloseWindowFires(w, name, generation) == (lapsed, []);
      }
    }
  }

  lemma LapsedDispatch(w: World, told: set<Name>, name: Name)
    requires Scans(w, told, {}) && name in w.ctl.agents && ScansAt(w, told, {}, name)
    requires CarrierFor(w.ctl.reach, w.ctl.agents[name].decl).Some?
    ensures var (v, d) := Dispatch(w, name);
            && Scans(v, told + Told([d]), {}) && NamesChanges(w, w.rec.log, told, [d])
            && d.note.agent == name && v.rec.log == w.rec.log
  {
    DispatchScans(w, told, {}, name);
    NamesAtDispatch(w, told, {}, name);
    DispatchAside(w, name);
    assert Told([Dispatch(w, name).1]) == {name};
  }

  // A life with the record to itself, and no relay

  // While it is open, a session's pending sets agree with a scan of its record.
  ghost predicate Agreeing(m: Moment) {
    m.s.ctl.outcome.None? ==> Scans(WorldOf(m.s, m.c), m.s.told, {})
  }

  predicate Solo(move: Move) {
    move.Doing? ==> !move.act.Others? && !move.act.RelaysHeld?
  }

  lemma AcknowledgeScans(w: World, told: set<Name>, agent: Name, through: int)
    requires Scans(w, told, {})
    ensures Scans(w.(rec := Acknowledge(w.rec, agent, through).0), told, {})
  {
    var v := w.(rec := Acknowledge(w.rec, agent, through).0);
    forall a | a in v.ctl.agents ensures ScansAt(v, told, {}, a) {
      assert ScansAt(w, told, {}, a);
    }
  }

  lemma DoesScans(m: Moment, act: Act)
    requires Agreeing(m) && !act.Others? && !act.RelaysHeld?
    ensures Agreeing(Next(m, Doing(act)))
  {
    var n := Next(m, Doing(act));
    var w := WorldOf(m.s, m.c);
    DoesBlocks(m.s, m.c, act);
    if n.s.ctl.outcome.None? {
      assert m.s.ctl.outcome.None?;
      assert m.s.told + Told([]) == m.s.told;
      hide Follows, Deadlines, Scans, Register, Sequence, Poll, Close, TouchIdle, Acknowledge, AckHere;
      match act {
        case Joins(decl) => if Accepts(m.s.ctl, decl) { RegisterScans(w, m.s.told, decl); }
        case Writes(p, key, writer, hearers, order) =>
          if p.region in m.s.ctl.windows && Enumerates(order, m.s.ctl.agents.Keys) {
            SequenceScans(w, m.s.told, p, key, writer, hearers, order);
          }
        case Touches => TouchScans(w, m.s.told, {});
        case AckStores(agent, through) => AcknowledgeScans(w, m.s.told, agent, through);
        case AckHeres(agent, through) =>
          if agent in m.s.rec.agents && through <= m.s.rec.agents[agent].acked {
            AckHereScans(w, m.s.told, agent, through);
          }
        case Polls(order) =>
          if Enumerates(order, m.s.ctl.agents.Keys) { PollScans(w, m.s.told, order); }
        case Aborts(reason) => ClosesFirst(w, Aborted(reason, {}));
        case Verdict(generation, complete) =>
          ClosesFirst(w, Settled(Unfinished(w.rec)));
          TouchScans(w, m.s.told, {});
        case StoreTicks(span) => RecordScans(w, m.s.told, w.rec.(now := w.rec.now + span));
        case RowsSent(agent, through) => RecordScans(w, m.s.told, MarkSent(w.rec, agent, through));
      }
    }
  }

  lemma ClosesFirst(w: World, outcome: Outcome)
    ensures Close(w, outcome).ctl.outcome.Some?
  {
  }

  lemma RecordScans(w: World, told: set<Name>, rec: Record)
    requires Scans(w, told, {})
    requires rec.log == w.rec.log && rec.kinds == w.rec.kinds && rec.agents == w.rec.agents && rec.run == w.rec.run
    ensures Scans(w.(rec := rec), told, {})
  {
    SameScans(w, w.(rec := rec), told, {});
  }

  lemma FiredScans(m: Moment, call: TimerCall)
    requires Agreeing(m)
    ensures var (s, c) := Fired(m.s, m.c, call); Agreeing(Moment(s, c))
  {
    var (s, c) := Fired(m.s, m.c, call);
    var w := WorldOf(m.s, m.c);
    FiredBlocks(m.s, m.c, call);
    if s.ctl.outcome.None? {
      assert m.s.ctl.outcome.None?;
      assert m.s.told + Told([]) == m.s.told;
      hide Follows, Deadlines, Scans, CloseWindowFires, Close;
      match call {
        case CloseWindow(agent, generation) => CloseWindowScans(w, m.s.told, agent, generation);
        case IdlePassed(generation) => ClosesFirst(w, Settled(Unfinished(w.rec)));
        case WallClockPassed => ClosesFirst(w, WallClockExpired(Unfinished(w.rec)));
      }
    }
  }

  lemma ClockScans(m: Moment, span: nat)
    requires Agreeing(m)
    ensures Agreeing(Next(m, Ticking(span)))
  {
    if m.s.ctl.outcome.None? {
      SameScans(WorldOf(m.s, m.c), WorldOf(m.s, m.c.(now := m.c.now + span)), m.s.told, {});
    }
  }

  lemma {:induction false} LifeAgrees(m: Moment, moves: seq<Move>)
    requires Agreeing(m) && forall i :: 0 <= i < |moves| ==> Solo(moves[i])
    ensures Agreeing(Lived(m, moves))
  {
    hide Agreeing, Does, Fired;
    if moves != [] {
      var init, last := moves[..|moves| - 1], moves[|moves| - 1];
      LifeAgrees(m, init);
      var n := Lived(m, init);
      match last {
        case Doing(act) => DoesScans(n, act);
        case Firing(timer) => if timer < |n.c.scheduled| { FiredScans(n, n.c.scheduled[timer].call); }
        case Ticking(span) => ClockScans(n, span);
      }
    }
  }

  // A Control begun over any record, with a run just opened.
  ghost predicate BegunOver(m: Moment) {
    exists kinds: map<Region, Kind>, windows: map<Region, Duration>, wall, idle, reach, judged, start, rec: Record ::
      kinds.Keys == windows.Keys && InRange(rec)
      && m == BegunAs(kinds, windows, wall, idle, reach, judged, start, rec)
  }

  // What is pending for an agent this Control can reach, at any moment of such
  // a life: the region of every change it is to hear of since it was last
  // told or answered, and once it has been told anything, nothing else.
  lemma {:induction false} PendingIsAScan(m: Moment, moves: seq<Move>, agent: Name)
    requires BegunOver(m) && forall i :: 0 <= i < |moves| ==> Solo(moves[i])
    requires var n := Lived(m, moves);
             && n.s.ctl.outcome.None? && agent in n.s.ctl.agents
             && CarrierFor(n.s.ctl.reach, n.s.ctl.agents[agent].decl).Some?
    ensures var n := Lived(m, moves);
            var st := n.s.ctl.agents[agent];
            var log := n.s.rec.log;
            && Max(st.notified, st.acked) <= |log|
            && Changed(log, Max(st.notified, st.acked), |log|, n.s.ctl.kinds, st.decl.subs, agent) <= st.pending.Keys
            && (agent in n.s.told ==>
                  st.pending.Keys == Changed(log, st.notified, |log|, n.s.ctl.kinds, st.decl.subs, agent))
  {
    assert Agreeing(m);
    LifeAgrees(m, moves);
    var n := Lived(m, moves);
    assert ScansAt(WorldOf(n.s, n.c), n.s.told, {}, agent);
  }

  // What the source says is pending is everything changed since the agent was
  // last told. It is so exactly where the agent has been told something since
  // it registered, or nothing is missing of what changed between the last
  // telling and its answer.
  lemma {:induction false} PendingSinceToldIff(m: Moment, moves: seq<Move>, agent: Name)
    requires BegunOver(m) && forall i :: 0 <= i < |moves| ==> Solo(moves[i])
    requires var n := Lived(m, moves);
             && n.s.ctl.outcome.None? && agent in n.s.ctl.agents
             && CarrierFor(n.s.ctl.reach, n.s.ctl.agents[agent].decl).Some?
    ensures var n := Lived(m, moves);
            var st := n.s.ctl.agents[agent];
            var log := n.s.rec.log;
            && Max(st.notified, st.acked) <= |log|
            && (Changed(log, st.notified, |log|, n.s.ctl.kinds, st.decl.subs, agent) <= st.pending.Keys
                <==> agent in n.s.told
                     || Changed(log, st.notified, Max(st.notified, st.acked), n.s.ctl.kinds, st.decl.subs, agent)
                        <= st.pending.Keys)
  {
    PendingIsAScan(m, moves, agent);
    var n := Lived(m, moves);
    var st := n.s.ctl.agents[agent];
    hide Lived, Changed;
    Relays.ChangedParts(n.s.rec.log, st.notified, Max(st.notified, st.acked), |n.s.rec.log|,
                        n.s.ctl.kinds, st.decl.subs, agent);
  }

  // The branch that drops some of it: an evaluation that finds everything
  // pending since the last telling leaves it so exactly when the agent has
  // more to answer than it has answered, or nothing it is to hear of changed.
  lemma EvaluateDropsIff(w: World, name: Name)
    requires name in w.ctl.agents && CarrierFor(w.ctl.reach, w.ctl.agents[name].decl).Some?
    requires w.ctl.last == |w.rec.log|
    requires var st := w.ctl.agents[name];
             Changed(w.rec.log, st.notified, |w.rec.log|, w.ctl.kinds, st.decl.subs, name) <= st.pending.Keys
    ensures var st, after := w.ctl.agents[name], Evaluate(w, name).0.ctl.agents[name];
            Changed(w.rec.log, after.notified, |w.rec.log|, w.ctl.kinds, st.decl.subs, name) <= after.pending.Keys
            <==> w.ctl.last > st.acked
                 || Changed(w.rec.log, st.notified, |w.rec.log|, w.ctl.kinds, st.decl.subs, name) == {}
  {
  }

  // A life that takes it. The record was told of the only write and the agent
  // has not answered; it registers here, where the region has a window, and
  // answers before the window closes. A poll then finds nothing unanswered.
  const TIP: map<Region, Kind> := map["tip" := PremiseKind]
  const READER := Declaration("reader", Some(false), Some({"tip"}), None, None)
  const RETURNING: seq<Move> := [
    Doing(Joins(READER)), Doing(AckStores("reader", 1)), Doing(AckHeres("reader", 1)), Doing(Polls(["reader"]))]

  function Tipped(run: Option<Run>, acked: nat): Record {
    Record(0, TIP, [Entry("tip", "", Some(1), None, Some("writer"), 0)], run,
           map["reader" := Progress(1, acked, Some({"tip"}), None, None)], {})
  }

  // The agent registered, having answered so far here and so far on the record.
  function Returned(here: nat, acked: nat, pending: map<Region, Instant>): Moment {
    Moment(
      Session(
        Control(TIP, map["tip" := 5], 10, false, false, 1,
                map["reader" := AgentState(READER, 0, here, pending, Some(1), Some(5), 1)],
                None, 0, None, Some(0)),
        Tipped(Some(Records.Run(10, 100, None, None, {})), acked), {}, None, {}, 100),
      Clock(0, [Timer(100, 0, WallClockPassed, false), Timer(5, 1, CloseWindow("reader", 1), false)], 2))
  }

  function Returning(): Moment { BegunAs(TIP, map["tip" := 5], 100, 10, false, false, 0, Tipped(None, 0)) }

  lemma DroppedByAPoll()
    ensures var n := Lived(Returning(), RETURNING);
            && BegunOver(Returning()) && n.s.ctl.outcome.None? && "reader" in n.s.ctl.agents
            && var st := n.s.ctl.agents["reader"];
               && CarrierFor(n.s.ctl.reach, st.decl).Some? && st.pending == map[] && st.notified <= |n.s.rec.log|
               && Changed(n.s.rec.log, st.notified, |n.s.rec.log|, TIP, st.decl.subs, "reader") == {"tip"}
  {
    hide Next, Returning, Lived, Changed, BegunOver;
    ReaderBegins();
    ReaderJoins();
    ReaderAnswers();
    ReaderPolled();
    TipChanged();
    var m := Returning();
    OneStep(m, RETURNING, 0); OneStep(m, RETURNING, 1); OneStep(m, RETURNING, 2); OneStep(m, RETURNING, 3);
    assert RETURNING[..4] == RETURNING;
  }

  lemma TipChanged()
    ensures Changed(Tipped(None, 0).log, 0, 1, TIP, Some({"tip"}), "reader") == {"tip"}
  {
    assert |"reader"| == 6 && "writer"[0] == 'w' && "reader"[0] == 'r';
    assert Tipped(None, 0).log[0].region in Changed(Tipped(None, 0).log, 0, 1, TIP, Some({"tip"}), "reader");
  }

  lemma ReaderBegins()
    ensures BegunOver(Returning())
  {
    assert InRange(Tipped(None, 0));
  }

  lemma ReaderJoins()
    ensures Next(Returning(), RETURNING[0]) == Returned(0, 0, map["tip" := 5])
  {
    var m := Returning();
    var w := WorldOf(m.s, m.c);
    assert Records.Writes(w.rec.log, "tip") == 1 by { assert w.rec.log[..0] == []; }
    assert Joining(w, READER) == AgentState(READER, 0, 0, map["tip" := 5], None, None, 0);
    var joined := Join(w, READER);
    assert joined.rec == w.rec;
    var n := Returned(0, 0, map["tip" := 5]);
    assert joined.ctl.agents == map["reader" := Joining(w, READER)];
    hide Joining;
    assert LeastOf(map["tip" := 5]) == 5;
    assert Evaluate(joined, "reader").0.ctl == n.s.ctl;
    assert Evaluate(joined, "reader").0.clock == n.c;
    assert Told([]) == {};
  }

  lemma ReaderAnswers()
    ensures Next(Next(Returned(0, 0, map["tip" := 5]), RETURNING[1]), RETURNING[2]) == Returned(1, 1, map["tip" := 5])
  {
    var n := Next(Returned(0, 0, map["tip" := 5]), RETURNING[1]);
    assert n == Returned(0, 1, map["tip" := 5]);
    assert Told([]) == {};
    assert Next(n, RETURNING[2]).s.ctl.agents == Returned(1, 1, map["tip" := 5]).s.ctl.agents;
  }

  lemma ReaderPolled()
    ensures Next(Returned(1, 1, map["tip" := 5]), RETURNING[3]) == Returned(1, 1, map[])
  {
    hide TakeTail, Evaluate;
    var m, n := Returned(1, 1, map["tip" := 5]), Returned(1, 1, map[]);
    var w, v := WorldOf(m.s, m.c), WorldOf(n.s, n.c);
    NothingPast(w);
    ReaderCleared(w, v);
    assert ["reader"][..0] == [];
    assert EvaluateAll(w, []) == (w, []);
    assert EvaluateAll(w, ["reader"]) == (v, [] + []);
    assert Told([]) == {};
  }

  lemma NothingPast(w: World)
    requires w.ctl.kinds.Keys == w.ctl.windows.Keys && w.ctl.agents.Keys == {"reader"}
    requires w.ctl.agents["reader"].acked == |w.rec.log|
    ensures TakeTail(w, None) == w
  {
    assert Considered(w.ctl, None) == {"reader"};
  }

  lemma ReaderCleared(w: World, v: World)
    requires w == WorldOf(Returned(1, 1, map["tip" := 5]).s, Returned(1, 1, map["tip" := 5]).c)
    requires v == WorldOf(Returned(1, 1, map[]).s, Returned(1, 1, map[]).c)
    ensures Evaluate(w, "reader") == (v, [])
  {
    assert w.ctl.agents["reader" := v.ctl.agents["reader"]] == v.ctl.agents;
  }

  lemma {:induction false} OneStep(m: Moment, moves: seq<Move>, k: nat)
    requires k < |moves|
    ensures Lived(m, moves[..k + 1]) == Next(Lived(m, moves[..k]), moves[k])
    ensures k == 0 ==> Lived(m, moves[..k]) == m
  {
    hide Next;
    assert moves[..k + 1][..k] == moves[..k];
  }

  // What a notification names to an agent told before: exactly what changed
  // since the one it was last told of. Stated for a write, and likewise for a
  // poll and for a window closing.
  lemma {:induction false} WriteNamesChanges(
    m: Moment, moves: seq<Move>, p: Proposal, key: Option<Key>, writer: Name, hearers: seq<Name>, order: seq<Name>)
    requires BegunOver(m) && forall i :: 0 <= i < |moves| ==> Solo(moves[i])
    requires var n := Lived(m, moves);
             n.s.ctl.outcome.None? && p.region in n.s.ctl.windows && Enumerates(order, n.s.ctl.agents.Keys)
    ensures var n := Lived(m, moves);
            var (v, ds, _) := Sequence(WorldOf(n.s, n.c), p, key, writer, hearers, order);
            NamesChanges(WorldOf(n.s, n.c), v.rec.log, n.s.told, ds)
  {
    assert Agreeing(m);
    LifeAgrees(m, moves);
    var n := Lived(m, moves);
    SequenceScans(WorldOf(n.s, n.c), n.s.told, p, key, writer, hearers, order);
  }

  lemma {:induction false} PollNamesChanges(m: Moment, moves: seq<Move>, order: seq<Name>)
    requires BegunOver(m) && forall i :: 0 <= i < |moves| ==> Solo(moves[i])
    requires var n := Lived(m, moves); n.s.ctl.outcome.None? && Enumerates(order, n.s.ctl.agents.Keys)
    ensures var n := Lived(m, moves);
            n.s.ctl.kinds.Keys == n.s.ctl.windows.Keys
            && var (v, ds) := Poll(WorldOf(n.s, n.c), order);
               NamesChanges(WorldOf(n.s, n.c), v.rec.log, n.s.told, ds)
  {
    assert Agreeing(m);
    LifeAgrees(m, moves);
    var n := Lived(m, moves);
    PollScans(WorldOf(n.s, n.c), n.s.told, order);
  }

  lemma {:induction false} WindowNamesChanges(m: Moment, moves: seq<Move>, agent: Name, generation: nat)
    requires BegunOver(m) && forall i :: 0 <= i < |moves| ==> Solo(moves[i])
    requires Lived(m, moves).s.ctl.outcome.None?
    ensures var n := Lived(m, moves);
            var (v, ds) := CloseWindowFires(WorldOf(n.s, n.c), agent, generation);
            NamesChanges(WorldOf(n.s, n.c), v.rec.log, n.s.told, ds)
  {
    assert Agreeing(m);
    LifeAgrees(m, moves);
    var n := Lived(m, moves);
    CloseWindowScans(WorldOf(n.s, n.c), n.s.told, agent, generation);
  }

  // A poll while other processes write

  // Regions named to an agent, or pending for it still, or answered.
  ghost predicate Hears(w: World, v: World, ds: seq<Delivery>, a: Name, regions: set<Region>)
    requires a in w.ctl.agents && a in v.ctl.agents
  {
    || (exists d :: d in ds && d.note.agent == a && d.note.to == w.ctl.last && regions <= d.note.regions)
    || regions <= v.ctl.agents[a].pending.Keys
    || w.ctl.last <= w.ctl.agents[a].acked
  }

  lemma EvaluateHears(w: World, a: Name, regions: set<Region>)
    requires a in w.ctl.agents && CarrierFor(w.ctl.reach, w.ctl.agents[a].decl).Some?
    requires regions <= w.ctl.agents[a].pending.Keys
    ensures var (v, ds) := Evaluate(w, a); a in v.ctl.agents && Hears(w, v, ds, a, regions)
  {
    var (v, ds) := Evaluate(w, a);
    if ds != [] { assert ds[0] in ds; }
  }

  lemma {:induction false} EvaluateAllReads(w: World, order: seq<Name>)
    ensures var v := EvaluateAll(w, order).0; v.ctl.reach == w.ctl.reach && v.ctl.last == w.ctl.last
  {
    hide Evaluate;
    if order != [] {
      EvaluateAllReads(w, order[..|order| - 1]);
      EvaluateReads(EvaluateAll(w, order[..|order| - 1]).0, order[|order| - 1]);
    }
  }

  lemma EvaluateReads(w: World, name: Name)
    ensures var v := Evaluate(w, name).0; v.ctl.reach == w.ctl.reach && v.ctl.last == w.ctl.last
  {
  }

  lemma {:induction false} EvaluateAllHears(w: World, order: seq<Name>, a: Name, regions: set<Region>)
    requires a in order && forall i, j :: 0 <= i < j < |order| ==> order[i] != order[j]
    requires a in w.ctl.agents && CarrierFor(w.ctl.reach, w.ctl.agents[a].decl).Some?
    requires regions <= w.ctl.agents[a].pending.Keys
    ensures var (v, ds) := EvaluateAll(w, order); a in v.ctl.agents && Hears(w, v, ds, a, regions)
  {
    var init, last := order[..|order| - 1], order[|order| - 1];
    var (v, ds) := EvaluateAll(w, init);
    var (u, es) := Evaluate(v, last);
    EvaluateAllAside(w, init);
    EvaluateAside(v, last);
    EvaluateAllReads(w, init);
    assert order == init + [last];
    hide EvaluateAll, Evaluate;
    if last == a {
      EvaluateHears(v, a, regions);
    } else {
      EvaluateAllHears(w, init, a, regions);
    }
  }

  // Whatever other processes do, a poll leaves no agent this Control can
  // reach unaware of what it read: the region of each change past what the
  // agent was told that it is to hear of.
  lemma {:induction false} PollHears(m: Moment, moves: seq<Move>, order: seq<Name>, agent: Name)
    requires BegunOver(m)
    requires var n := Lived(m, moves);
             && n.s.ctl.outcome.None? && n.s.rec.Open() && Enumerates(order, n.s.ctl.agents.Keys)
             && agent in n.s.ctl.agents && CarrierFor(n.s.ctl.reach, n.s.ctl.agents[agent].decl).Some?
             && n.s.ctl.agents[agent].decl.name == agent
    ensures var n := Lived(m, moves);
            var w := WorldOf(n.s, n.c);
            && w.ctl.kinds.Keys == w.ctl.windows.Keys
            && var (v, ds) := Poll(w, order);
               var lo := FloorOf(w.ctl, w.ctl.agents.Keys);
               var hi := Min(|w.rec.log|, lo + TAIL);
               var st := w.ctl.agents[agent];
               && agent in TakeTail(w, None).ctl.agents && agent in v.ctl.agents
               && (lo < hi ==> hi <= TakeTail(w, None).ctl.last)
               && Hears(TakeTail(w, None), v, ds, agent,
                        Changed(w.rec.log, Max(lo, st.notified), hi, w.ctl.kinds, st.decl.subs, agent))
  {
    LifeKnows(m, moves);
    var n := Lived(m, moves);
    PollHearsHere(WorldOf(n.s, n.c), order, agent);
  }

  lemma {:induction false} LifeKnows(m: Moment, moves: seq<Move>)
    ensures var n := Lived(m, moves); n.s.ctl.kinds == m.s.ctl.kinds && n.s.ctl.windows == m.s.ctl.windows
  {
    hide Does, Fired;
    if moves != [] {
      var n, last := Lived(m, moves[..|moves| - 1]), moves[|moves| - 1];
      LifeKnows(m, moves[..|moves| - 1]);
      match last {
        case Doing(act) => DoesBlocks(n.s, n.c, act);
        case Firing(timer) =>
          if timer < |n.c.scheduled| { FiredBlocks(n.s, n.c, n.c.scheduled[timer].call); }
        case Ticking(_) =>
      }
    }
  }

  lemma PollHearsHere(w: World, order: seq<Name>, agent: Name)
    requires w.ctl.kinds.Keys == w.ctl.windows.Keys && w.ctl.outcome.None? && w.rec.Open()
    requires Enumerates(order, w.ctl.agents.Keys) && agent in w.ctl.agents
    requires CarrierFor(w.ctl.reach, w.ctl.agents[agent].decl).Some? && w.ctl.agents[agent].decl.name == agent
    ensures var (v, ds) := Poll(w, order);
            var lo := FloorOf(w.ctl, w.ctl.agents.Keys);
            var hi := Min(|w.rec.log|, lo + TAIL);
            var st := w.ctl.agents[agent];
            && agent in TakeTail(w, None).ctl.agents && agent in v.ctl.agents
            && (lo < hi ==> hi <= TakeTail(w, None).ctl.last)
            && Hears(TakeTail(w, None), v, ds, agent,
                     Changed(w.rec.log, Max(lo, st.notified), hi, w.ctl.kinds, st.decl.subs, agent))
  {
    hide FloorOf, Changed, TakeTail, EvaluateAll, Hears;
    var st := w.ctl.agents[agent];
    var lo := FloorOf(w.ctl, w.ctl.agents.Keys);
    var hi := Min(|w.rec.log|, lo + TAIL);
    var regions := Changed(w.rec.log, Max(lo, st.notified), hi, w.ctl.kinds, st.decl.subs, agent);
    TailPending(w, agent);
    EvaluateAllHears(TakeTail(w, None), order, agent, regions);
  }

  // A poll's read leaves pending each region it read that is to be added.
  lemma TailPending(w: World, agent: Name)
    requires w.ctl.kinds.Keys == w.ctl.windows.Keys && agent in w.ctl.agents
    requires w.ctl.agents[agent].decl.name == agent
    ensures var lo := FloorOf(w.ctl, w.ctl.agents.Keys);
            var hi := Min(|w.rec.log|, lo + TAIL);
            var st, tailed := w.ctl.agents[agent], TakeTail(w, None);
            && (lo < hi ==> hi <= tailed.ctl.last)
            && tailed.ctl.agents.Keys == w.ctl.agents.Keys && tailed.ctl.reach == w.ctl.reach
            && tailed.ctl.agents[agent].decl == st.decl
            && Changed(w.rec.log, Max(lo, st.notified), hi, w.ctl.kinds, st.decl.subs, agent)
               <= tailed.ctl.agents[agent].pending.Keys
  {
    hide FloorOf;
    assert Considered(w.ctl, None) == w.ctl.agents.Keys;
    var lo := FloorOf(w.ctl, w.ctl.agents.Keys);
    var hi := Min(|w.rec.log|, lo + TAIL);
    if lo < hi { Relays.TailAdds(w, w.ctl.agents[agent], lo, hi, false); }
  }
}
