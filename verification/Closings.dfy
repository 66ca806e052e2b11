// What the record says of a run's end, over every run of the protocol: how it
// closed, and just which agents had not finished.

module Closings {
  import opened Values
  import opened Records
  import opened Clocks
  import opened Controls
  import opened Protocol
  import opened Effects

  // Agents told further than they had answered.
  ghost predicate AreBehind(r: Record, names: set<Name>) {
    forall a :: a in names <==> a in r.agents && r.agents[a].acked < r.agents[a].notified
  }

  // What the step that closes a run records of it.
  ghost predicate ClosedBy(s: System, step: Step, run: Run) {
    match run.closed
    case None => false
    case Some(AsAborted) => step.Abort? && run.reason == Some(step.reason) && run.unfinished == {}
    case Some(closedAs) =>
      if step.SweepCloses? then
        && step.sweep in s.sweeps && s.sweeps[step.sweep] == Sweep(closedAs, Some(run.unfinished))
      else
        && AreBehind(s.rec, run.unfinished) && (closedAs.AsWallClockExpired? ==> step.Fire?)
        && (closedAs.AsSettled? ==> step.Fire? || step.Judge?)
  }

  lemma ClosingStep(s: System, step: Step)
    requires s.rec.Open() && !Next(s, step).rec.Open()
    requires forall sweep :: sweep in s.sweeps ==> !s.sweeps[sweep].closedAs.AsAborted?
    ensures Next(s, step).rec.run.Some? && ClosedBy(s, step, Next(s, step).rec.run.value)
  {
    hide Runs;
    match step {
      case Write(_, _, _, _, _, _) => WriteStays(s, step);
      case Join(id, decl) => JoinStays(s, id, decl);
      case Polls(id, order) => PollStays(s, id, order);
      case RelaysHeld(id, order) => RelayStays(s, id, order);
      case Fire(id, timer) => FireCloses(s, id, timer);
      case Judge(id, generation, complete) => JudgeCloses(s, id, generation, complete);
      case Abort(id, reason) => AbortCloses(s, id, reason);
      case _ => RestStays(s, step);
    }
  }

  lemma WriteStays(s: System, step: Step)
    requires s.rec.Open() && step.Write?
    ensures Next(s, step).rec.Open()
  {
    if step.id in s.nodes && step.proposal.region in s.nodes[step.id].ctl.windows {
      SequenceRuns(WorldOf(s, step.id), step.proposal, step.key, step.writer, step.hearers, step.order);
      hide Sequence;
    }
  }

  lemma JoinStays(s: System, id: Id, decl: Declaration)
    requires s.rec.Open()
    ensures Next(s, Step.Join(id, decl)).rec.Open()
  {
    if id in s.nodes && s.nodes[id].ctl.kinds.Keys == s.nodes[id].ctl.windows.Keys {
      RegisterRuns(WorldOf(s, id), decl);
      hide Register;
    }
  }

  lemma PollStays(s: System, id: Id, order: seq<Name>)
    requires s.rec.Open()
    ensures Next(s, Polls(id, order)).rec.Open()
  {
    if id in s.nodes && s.nodes[id].ctl.kinds.Keys == s.nodes[id].ctl.windows.Keys {
      TailRuns(WorldOf(s, id), None, order);
      hide TakeTail, EvaluateAll;
    }
  }

  lemma RelayStays(s: System, id: Id, order: seq<Name>)
    requires s.rec.Open()
    ensures Next(s, RelaysHeld(id, order)).rec.Open()
  {
    if id in s.nodes && s.nodes[id].ctl.kinds.Keys == s.nodes[id].ctl.windows.Keys {
      TailRuns(WorldOf(s, id), Some(set a | a in order), order);
      hide TakeTail, EvaluateAll;
    }
  }

  lemma FireCloses(s: System, id: Id, timer: nat)
    requires s.rec.Open() && !Fires(s, id, timer).rec.Open()
    ensures Fires(s, id, timer).rec.run.Some?
    ensures ClosedBy(s, Fire(id, timer), Fires(s, id, timer).rec.run.value)
  {
    var w := WorldOf(s, id);
    hide CloseWindowFires, Close;
    match w.clock.scheduled[timer].call {
      case CloseWindow(agent, generation) =>
        CloseWindowRuns(w, agent, generation);
        assert false;
      case IdlePassed(generation) => DeadlinesName(w, generation);
      case WallClockPassed => DeadlinesName(w, 0);
    }
  }

  lemma JudgeCloses(s: System, id: Id, generation: nat, complete: bool)
    requires s.rec.Open() && !Next(s, Judge(id, generation, complete)).rec.Open()
    ensures Next(s, Judge(id, generation, complete)).rec.run.Some?
    ensures ClosedBy(s, Judge(id, generation, complete), Next(s, Judge(id, generation, complete)).rec.run.value)
  {
    var w := WorldOf(s, id);
    hide Close;
    if w.ctl.outcome.None? && complete { DeadlinesName(w, generation); }
  }

  lemma AbortCloses(s: System, id: Id, reason: string)
    requires s.rec.Open() && !Next(s, Step.Abort(id, reason)).rec.Open()
    ensures Next(s, Step.Abort(id, reason)).rec.run.Some?
    ensures ClosedBy(s, Step.Abort(id, reason), Next(s, Step.Abort(id, reason)).rec.run.value)
  {
  }

  lemma RestStays(s: System, step: Step)
    requires s.rec.Open() && !Next(s, step).rec.Open()
    requires forall sweep :: sweep in s.sweeps ==> !s.sweeps[sweep].closedAs.AsAborted?
    requires !step.Write? && !step.Join? && !step.Polls? && !step.RelaysHeld? && !step.Fire? && !step.Judge? && !step.Abort?
    ensures Next(s, step).rec.run.Some? && ClosedBy(s, step, Next(s, step).rec.run.value)
  {
  }

  // What a sweep holds it read, at some moment of the life: a limit that had
  // passed, and just the agents then behind.
  ghost predicate SweptAt(s: System, steps: seq<Step>, sweep: Id, names: set<Name>, k: nat) {
    k < |steps| && steps[k] == SweepReadsAgents(sweep) && AreBehind(Reached(s, steps[..k]).rec, names)
  }

  ghost predicate SweptBy(s: System, steps: seq<Step>, sweep: Id, held: Sweep) {
    && !held.closedAs.AsAborted?
    && (held.unfinished.Some? ==> exists k: nat :: SweptAt(s, steps, sweep, held.unfinished.value, k))
  }

  lemma {:induction false} SweepsRead(s: System, steps: seq<Step>, sweep: Id)
    requires s.sweeps == map[] && sweep in Reached(s, steps).sweeps
    ensures SweptBy(s, steps, sweep, Reached(s, steps).sweeps[sweep])
  {
    var init, last := steps[..|steps| - 1], steps[|steps| - 1];
    var t := Reached(s, init);
    SweepMoves(t, last, sweep);
    hide Next;
    if sweep in t.sweeps {
      SweepsRead(s, init, sweep);
      SweptStill(s, steps, sweep, t.sweeps[sweep]);
    }
    UnfinishedAre(t.rec);
    if last == SweepReadsAgents(sweep) && Reached(s, steps).sweeps[sweep].unfinished == Some(Unfinished(t.rec)) {
      assert SweptAt(s, steps, sweep, Unfinished(t.rec), |steps| - 1);
    }
  }

  lemma {:induction false} SweptStill(s: System, steps: seq<Step>, sweep: Id, held: Sweep)
    requires steps != [] && SweptBy(s, steps[..|steps| - 1], sweep, held)
    ensures SweptBy(s, steps, sweep, held)
  {
    hide Next;
    if held.unfinished.Some? {
      var init := steps[..|steps| - 1];
      var k: nat :| SweptAt(s, init, sweep, held.unfinished.value, k);
      assert init[..k] == steps[..k];
      assert SweptAt(s, steps, sweep, held.unfinished.value, k);
    }
  }

  lemma SweepMoves(s: System, step: Step, sweep: Id)
    requires sweep in Next(s, step).sweeps
    ensures var held := Next(s, step).sweeps[sweep];
            || (sweep in s.sweeps && held == s.sweeps[sweep])
            || (held.unfinished.None? && Some(held.closedAs) == Expired(s.rec))
            || (step == SweepReadsAgents(sweep) && sweep in s.sweeps && held.closedAs == s.sweeps[sweep].closedAs
                && held.unfinished == Some(Unfinished(s.rec)))
  {
    hide Fires, Takes;
    if step.Fire? { FireSweepsNothing(s, step.id, step.timer); }
    if step.RelayTakes? { TakesSweepsNothing(s, step.pass, step.agent); }
  }

  lemma FireSweepsNothing(s: System, id: Id, timer: nat)
    ensures Fires(s, id, timer).sweeps == s.sweeps
  {
  }

  lemma TakesSweepsNothing(s: System, pass: Id, agent: Name)
    ensures Takes(s, pass, agent).sweeps == s.sweeps
  {
  }

  // Whatever the life, a run that closes is recorded as closed by what closed
  // it, and names as unfinished just the agents told further than they had
  // answered: as the step that closed it found them, or where a sweep did, as
  // the sweep's own read of them did. An abort names nobody.
  lemma {:induction false} ClosingNamesUnfinished(s: System, before: seq<Step>, step: Step)
    requires Opening(s)
    requires Reached(s, before).rec.Open() && !Next(Reached(s, before), step).rec.Open()
    ensures var t := Reached(s, before);
            var after := Next(t, step).rec;
            && after.run.Some? && after.run.value.closed.Some?
            && (after.run.value.closed == Some(AsAborted) <==> step.Abort?)
            && (step.Abort? ==> after.run.value.unfinished == {} && after.run.value.reason == Some(step.reason))
            && (step.SweepCloses? ==> exists k: nat :: SweptAt(s, before, step.sweep, after.run.value.unfinished, k))
            && (!step.Abort? && !step.SweepCloses? ==> AreBehind(t.rec, after.run.value.unfinished))
  {
    hide Next, Reached;
    var t := Reached(s, before);
    forall sweep | sweep in t.sweeps ensures SweptBy(s, before, sweep, t.sweeps[sweep]) {
      SweepsRead(s, before, sweep);
    }
    ClosingStep(t, step);
  }
}
