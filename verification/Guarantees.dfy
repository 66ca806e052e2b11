// What the protocol promises over every run of one opening: at least once,
// cursors that are behind and never ahead, and one closing everyone agrees on.

module Guarantees {
  import opened Values
  import opened Records
  import opened Clocks
  import opened Controls
  import opened Cursors
  import opened Protocol

  // What a write answered, where it is the write's own block that ran.
  ghost function Answered(s: System, step: Step): Option<Result>
    requires step.Write?
  {
    if step.id !in s.nodes || step.proposal.region !in s.nodes[step.id].ctl.windows then None
    else Some(Sequence(WorldOf(s, step.id), step.proposal, step.key, step.writer, step.hearers, step.order).2)
  }

  // A region is one an agent is to hear of: it subscribes to it, or it named
  // no subscriptions and the region is a premise.
  predicate IsFor(kinds: map<Region, Kind>, subs: Option<set<Region>>, region: Region) {
    && region in kinds
    && (subs.None? ==> kinds[region] == PremiseKind) && (subs.Some? ==> region in subs.value)
  }

  // The agents declared on the run that are to hear of a write.
  predicate IsToHear(r: Record, kinds: map<Region, Kind>, region: Region, writer: Name, a: Name) {
    a in r.agents && a != writer && IsFor(kinds, r.agents[a].subs, region)
  }

  lemma HearersAre(r: Record, kinds: map<Region, Kind>, region: Region, writer: Name)
    ensures forall a :: a in WhoHears(r, kinds, region, writer) <==> IsToHear(r, kinds, region, writer, a)
  {
  }

  // At least once. Whatever any process does after a write, crashes included:
  // while the run is open an agent that was to hear of the write still has
  // its row, or a send to it that covers the write returned, or it has
  // answered past it; unless the write is past the most a relay reads of the
  // board, or in a region some Control able to relay does not know, or the
  // agent has since registered not to hear of it.
  lemma {:induction false} WriteReachesEveryHearer(s: System, before: seq<Step>, step: Step, after: seq<Step>, agent: Name)
    requires Opening(s) && step.Write?
    requires var t := Reached(s, before);
             && Answered(t, step).Some? && Answered(t, step).value.Accepted?
             && !Answered(t, step).value.written.repeated
             && IsToHear(t.rec, t.nodes[step.id].ctl.kinds, step.proposal.region, step.writer, agent)
    ensures var n := Answered(Reached(s, before), step).value.written.sequence;
            var u := Reached(Next(Reached(s, before), step), after);
            u.rec.Open() && n <= TAIL && step.proposal.region !in u.unknown && (agent, n) !in u.renounced ==>
              || (agent, n) in u.rec.outbox
              || (exists note :: note in u.delivered && note.agent == agent && note.from <= n <= note.to)
              || (agent in u.rec.agents && n <= u.rec.agents[agent].acked)
  {
    hide Inv, Next, Reached, IsToHear, Sequence, Onward;
    OpeningHolds(s);
    var t := Reached(s, before);
    var written := Next(t, step);
    var u := Reached(written, after);
    var n := Answered(t, step).value.written.sequence;
    WriteOwes(t, step, agent);
    EveryRunKeeps(s, before);
    NextKeeps(t, step);
    EveryRunKeeps(written, after);
    if u.rec.Open() {
      WriteIsAt(t, step, u);
      OnwardOwes(written, u);
      OwedIsKept(u, (agent, n));
    }
  }

  lemma WriteOwes(s: System, step: Step, agent: Name)
    requires step.Write? && Answered(s, step).Some? && Answered(s, step).value.Accepted?
    requires !Answered(s, step).value.written.repeated
    requires IsToHear(s.rec, s.nodes[step.id].ctl.kinds, step.proposal.region, step.writer, agent)
    ensures (agent, Answered(s, step).value.written.sequence) in Next(s, step).owed
  {
    HearersAre(s.rec, s.nodes[step.id].ctl.kinds, step.proposal.region, step.writer);
    hide Sequence, WhoHears, IsToHear;
  }

  lemma OnwardOwes(s: System, t: System)
    requires Onward(s, t)
    ensures s.owed <= t.owed
  {
  }

  lemma OwedIsKept(s: System, row: (Name, nat))
    requires Inv(s) && s.rec.Open() && row in s.owed
    ensures Kept(s, row) || OutOfSight(s, row) || row in s.renounced
  {
  }

  // The write a block sequenced is where its answer says, from then on.
  lemma {:induction false} WriteIsAt(s: System, step: Step, t: System)
    requires step.Write? && Answered(s, step).Some? && Answered(s, step).value.Accepted?
    requires !Answered(s, step).value.written.repeated && Inv(s) && Onward(Next(s, step), t)
    ensures var n := Answered(s, step).value.written.sequence;
            1 <= n <= |t.rec.log| && t.rec.log[n - 1].region == step.proposal.region
  {
    hide Inv, Sequence;
    var w := WorldOf(s, step.id);
    var u := Next(s, step);
    NodeSound(s, step.id);
    assert u.rec == Sequence(w, step.proposal, step.key, step.writer, step.hearers, step.order).0.rec;
    hide Next;
    AcceptedIsPut(w, step);
    var notify := WhoHears(w.rec, w.ctl.kinds, step.proposal.region, step.writer);
    var (rec, answer) := Put(w.rec, step.proposal, step.key, step.writer, notify);
    var n := answer.written.sequence;
    assert rec.log[n - 1].region == step.proposal.region && n == |rec.log|;
    hide Put, WhoHears, Sound;
    SequenceKeepsRows(w, s.issued, step.proposal, step.key, step.writer, step.hearers, step.order);
    assert u.rec.log[n - 1] == u.rec.log[..n][n - 1];
    assert t.rec.log[n - 1] == t.rec.log[..|u.rec.log|][n - 1];
  }

  lemma AcceptedIsPut(w: World, step: Step)
    requires step.Write? && step.proposal.region in w.ctl.windows
    requires var result := Sequence(w, step.proposal, step.key, step.writer, step.hearers, step.order).2;
             result.Accepted? && !result.written.repeated
    ensures var result := Sequence(w, step.proposal, step.key, step.writer, step.hearers, step.order).2;
            Put(w.rec, step.proposal, step.key, step.writer,
                WhoHears(w.rec, w.ctl.kinds, step.proposal.region, step.writer)).1 == Done(result.written)
  {
    hide Put, WhoHears, ReachRest, NoteAll;
  }

  // Every relaying Control of a life knows at least these regions.
  predicate RelaysKnow(steps: seq<Step>, held: set<Region>) {
    forall i :: 0 <= i < |steps| && steps[i].Construct? && steps[i].reach ==> held <= steps[i].windows.Keys
  }

  // A row its agent has not registered away is given up only past the most a
  // relay reads of the board, or in a region that not every relaying Control
  // knows.
  lemma {:induction false} GivenUpIsOutOfSight(s: System, steps: seq<Step>, held: set<Region>, row: (Name, nat))
    requires Opening(s) && RelaysKnow(steps, held)
    requires var t := Reached(s, steps); t.rec.Open() && row in t.owed && row !in t.renounced && !Kept(t, row)
    ensures var t := Reached(s, steps);
            1 <= row.1 <= |t.rec.log| && (row.1 > TAIL || t.rec.log[row.1 - 1].region !in held)
  {
    OpeningHolds(s);
    EveryRunKeeps(s, steps);
    UnknownIsNotHeld(s, steps, held);
    OwedIsKept(Reached(s, steps), row);
  }

  // A row is registered away only by a declaration of its own agent that does
  // not want the change, while the row was there.
  lemma RenouncedByItsAgent(s: System, step: Step, row: (Name, nat))
    requires row in Next(s, step).renounced && row !in s.renounced
    ensures step.Join? && step.decl.name == row.0 && row in s.rec.outbox && 1 <= row.1 <= |s.rec.log|
    ensures !Concerns(s.rec.log[row.1 - 1], s.rec.kinds, step.decl.subs, row.0)
  {
  }

  lemma {:induction false} UnknownIsNotHeld(s: System, steps: seq<Step>, held: set<Region>)
    requires s.unknown * held == {} && RelaysKnow(steps, held)
    ensures Reached(s, steps).unknown * held == {}
  {
    if steps != [] {
      var init := steps[..|steps| - 1];
      assert forall i :: 0 <= i < |init| ==> init[i] == steps[i];
      UnknownIsNotHeld(s, init, held);
      UnknownGrows(Reached(s, init), steps[|steps| - 1]);
    }
  }

  lemma UnknownGrows(s: System, step: Step)
    ensures Next(s, step).unknown <=
            s.unknown + (if step.Construct? && step.reach then s.rec.kinds.Keys - step.windows.Keys else {})
  {
  }

  // What a process caches of an agent is behind what the record holds, and
  // the record's own cursors are in order behind the board.
  lemma {:induction false} CursorsStayInOrder(s: System, steps: seq<Step>, id: Id, agent: Name)
    requires Opening(s)
    requires var t := Reached(s, steps); id in t.nodes && agent in t.nodes[id].ctl.agents
    ensures var t := Reached(s, steps);
            t.rec.Open() ==>
              var held := t.nodes[id].ctl.agents[agent];
              && agent in t.rec.agents
              && held.acked <= t.rec.agents[agent].acked <= t.rec.agents[agent].notified <= |t.rec.log|
              && held.notified <= t.rec.agents[agent].notified
              && t.nodes[id].ctl.last <= |t.rec.log|
  {
    OpeningHolds(s);
    EveryRunKeeps(s, steps);
    var t := Reached(s, steps);
    assert Behind(t.rec, t.nodes[id].ctl);
    if t.rec.Open() {
      assert AgentBehind(t.rec, agent, t.nodes[id].ctl.agents[agent]);
    }
  }

  // Every identifier issued to an agent is one the store lets it acknowledge,
  // and answering it brings the agent level with that notification.
  lemma {:induction false} IssuedCanBeAnswered(s: System, steps: seq<Step>, note: Notification)
    requires Opening(s)
    requires var t := Reached(s, steps); t.rec.Open() && note in t.issued
    ensures var (r, prior) := Acknowledge(Reached(s, steps).rec, note.agent, note.id);
            prior.Some? && note.agent in r.agents && r.agents[note.agent].acked >= note.to == note.id
  {
    OpeningHolds(s);
    EveryRunKeeps(s, steps);
    assert Known(Reached(s, steps).rec, note);
  }

  // Every sequence an agent was told of and has not answered lies in the
  // range of some notification issued to it.
  lemma {:induction false} ToldIsInSomeRange(s: System, steps: seq<Step>, agent: Name, n: nat)
    requires Opening(s)
    requires var t := Reached(s, steps);
             && t.rec.Open() && agent in t.rec.agents
             && t.rec.agents[agent].acked < n <= t.rec.agents[agent].notified
    ensures exists note :: note in Reached(s, steps).issued && note.agent == agent && note.from <= n <= note.to
  {
    OpeningHolds(s);
    EveryRunKeeps(s, steps);
    assert Covers(Reached(s, steps).issued, agent, n);
  }

  // A run closes once, its outcome never changes, and a Control that has
  // closed holds the outcome the record holds.
  lemma {:induction false} ClosesOnceAndAgrees(s: System, before: seq<Step>, after: seq<Step>)
    requires Opening(s)
    ensures var t, u := Reached(s, before), Reached(Reached(s, before), after);
            && u.closings <= 1
            && (!t.rec.Open() ==> u.rec.run == t.rec.run && u.closings == t.closings == 1)
            && (forall id :: id in u.nodes && u.nodes[id].ctl.outcome.Some? ==>
                  && u.rec.run.Some? && u.rec.run.value.closed.Some?
                  && u.nodes[id].ctl.outcome.value == OutcomeOf(u.rec.run.value))
  {
    OpeningHolds(s);
    var t, u := Reached(s, before), Reached(Reached(s, before), after);
    EveryRunKeeps(s, before);
    EveryRunKeeps(t, after);
    forall id | id in u.nodes && u.nodes[id].ctl.outcome.Some? ensures Agrees(u.rec, u.nodes[id].ctl) {
      assert Behind(u.rec, u.nodes[id].ctl);
    }
  }
}
