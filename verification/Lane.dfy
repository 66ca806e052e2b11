// The delivery lane: one agent's queue, and the worker that drains it under a
// retry policy until it is told to stop.
//
// Writers queue, the worker sends and a closer stops, each on a thread of its
// own. A step here is what one of them does at once; the class does the same
// on a lane's own fields, a whole send at a time.

module Lanes {
  import opened Values
  import opened Records
  import opened Controls
  import opened MemoryStores

  datatype Item = Carry(note: Notification) | StopMark

  // How the transport answers one call.
  datatype Answer = Took | Refused | Failed

  // What became of a notification a lane accepted, and how many calls it had.
  datatype End = Landed(note: Notification, calls: nat) | Reported(note: Notification, calls: nat)

  datatype Phase = Waiting | Sending(note: Notification, attempt: nat) | Leaving | Gone

  datatype LaneState = LaneState(
    queue: seq<Item>, stopped: bool, phase: Phase,
    // What the lane accepted, in order; what it turned away; what became of
    // what it accepted, in order; and the rows its notifier's store holds.
    accepted: seq<Notification>, turned: seq<Notification>, ends: seq<End>, rows: set<(Name, nat)>)

  datatype Step =
    | Enqueues(note: Notification)
    | Stops
    | Gets
    // One call of the transport: whether the row was marked after it took the
    // notification, and whether the wait after it failed was cut short.
    | Calls(answer: Answer, marked: bool, cut: bool)
    | Leaves

  function Finish(s: LaneState, end: End): LaneState { s.(ends := s.ends + [end], phase := Waiting) }

  function ClearRows(rows: set<(Name, nat)>, note: Notification): set<(Name, nat)> {
    set row | row in rows && !(row.0 == note.agent && row.1 <= note.to)
  }

  function Next(s: LaneState, attempts: nat, step: Step): LaneState {
    match step
    case Enqueues(note) =>
      if s.stopped then s.(turned := s.turned + [note])
      else s.(queue := s.queue + [Carry(note)], accepted := s.accepted + [note])
    case Stops => if s.stopped then s else s.(stopped := true, queue := s.queue + [StopMark])
    case Gets =>
      if !s.phase.Waiting? || s.queue == [] then s
      else if s.queue[0].StopMark? then s.(queue := s.queue[1..], phase := Leaving)
      else s.(queue := s.queue[1..], phase := Sending(s.queue[0].note, 1))
    case Calls(answer, marked, cut) =>
      if !s.phase.Sending? then s
      else
        var note, attempt := s.phase.note, s.phase.attempt;
        if answer.Took? then
          Finish(s.(rows := if marked then ClearRows(s.rows, note) else s.rows), Landed(note, attempt))
        else if answer.Refused? || attempt == attempts || cut then Finish(s, Reported(note, attempt))
        else s.(phase := Sending(note, attempt + 1))
    case Leaves =>
      if !s.phase.Leaving? then s
      else if s.queue == [] then s.(phase := Gone)
      else if s.queue[0].StopMark? then s.(queue := s.queue[1..])
      else s.(queue := s.queue[1..], ends := s.ends + [Reported(s.queue[0].note, 0)])
  }

  function Reached(s: LaneState, attempts: nat, steps: seq<Step>): LaneState {
    if steps == [] then s else Next(Reached(s, attempts, steps[..|steps| - 1]), attempts, steps[|steps| - 1])
  }

  function Opened(rows: set<(Name, nat)>): LaneState { LaneState([], false, Waiting, [], [], [], rows) }

  // The notifications of a queue, and of what has ended

  function Queued(queue: seq<Item>): seq<Notification> {
    if queue == [] then []
    else if queue[0].Carry? then [queue[0].note] + Queued(queue[1..])
    else Queued(queue[1..])
  }

  function Ended(ends: seq<End>): seq<Notification> { seq(|ends|, i requires 0 <= i < |ends| => ends[i].note) }

  function InHand(phase: Phase): seq<Notification> { if phase.Sending? then [phase.note] else [] }

  // Conservation: what has ended, what is in hand and what is queued are, in
  // that order, what was accepted.
  ghost predicate Conserves(s: LaneState, attempts: nat) {
    && Ended(s.ends) + InHand(s.phase) + Queued(s.queue) == s.accepted
    && (forall end :: end in s.ends ==> end.calls <= attempts)
    && (s.phase.Sending? ==> 1 <= s.phase.attempt <= attempts)
    && (s.phase.Leaving? || s.phase.Gone? || StopMark in s.queue ==> s.stopped)
    && (s.phase.Gone? ==> s.queue == [])
  }

  lemma {:induction false} QueuedJoins(a: seq<Item>, b: seq<Item>)
    ensures Queued(a + b) == Queued(a) + Queued(b)
  {
    if a == [] {
      assert [] + b == b;
    } else {
      assert (a + b)[1..] == a[1..] + b;
      QueuedJoins(a[1..], b);
    }
  }

  lemma NextConserves(s: LaneState, attempts: nat, step: Step)
    requires attempts >= 1 && Conserves(s, attempts)
    ensures Conserves(Next(s, attempts, step), attempts)
  {
    match step {
      case Enqueues(note) =>
        QueuedJoins(s.queue, [Carry(note)]);
        Reassociates(Ended(s.ends), InHand(s.phase), Queued(s.queue), [note]);
      case Stops => QueuedJoins(s.queue, [StopMark]);
      case Gets => GetConserves(s, attempts);
      case Calls(answer, marked, cut) =>
        if s.phase.Sending? {
          EndedJoins(s.ends, Landed(s.phase.note, s.phase.attempt));
          EndedJoins(s.ends, Reported(s.phase.note, s.phase.attempt));
        }
      case Leaves =>
        if s.phase.Leaving? && s.queue != [] {
          assert s.queue == [s.queue[0]] + s.queue[1..];
          if s.queue[0].Carry? { EndedJoins(s.ends, Reported(s.queue[0].note, 0)); }
        }
    }
  }

  lemma Reassociates(a: seq<Notification>, b: seq<Notification>, c: seq<Notification>, d: seq<Notification>)
    ensures a + b + (c + d) == (a + b + c) + d
  {
  }

  lemma GetConserves(s: LaneState, attempts: nat)
    requires attempts >= 1 && Conserves(s, attempts)
    ensures Conserves(Next(s, attempts, Gets), attempts)
  {
    if s.phase.Waiting? && s.queue != [] {
      assert s.queue == [s.queue[0]] + s.queue[1..];
    }
  }

  lemma EndedJoins(ends: seq<End>, end: End)
    ensures Ended(ends + [end]) == Ended(ends) + [end.note]
  {
  }

  // Every notification a lane accepts ends once, landed or reported, in queue
  // order and within the calls it is allowed; once the worker is gone none is
  // left. Whatever mix of failures, refusals, stops and cuts.
  lemma {:induction false} EveryNotificationEnds(rows: set<(Name, nat)>, attempts: nat, steps: seq<Step>)
    requires attempts >= 1
    ensures var s := Reached(Opened(rows), attempts, steps);
            && Ended(s.ends) + InHand(s.phase) + Queued(s.queue) == s.accepted
            && (forall end :: end in s.ends ==> end.calls <= attempts)
            && (s.phase.Gone? ==> Ended(s.ends) == s.accepted)
    ensures Conserves(Reached(Opened(rows), attempts, steps), attempts)
  {
    if steps == [] {
      assert Ended([]) == [];
    } else {
      EveryNotificationEnds(rows, attempts, steps[..|steps| - 1]);
      NextConserves(Reached(Opened(rows), attempts, steps[..|steps| - 1]), attempts, steps[|steps| - 1]);
    }
  }

  // A row leaves the store only because the transport took a notification to
  // its agent that reaches it.
  lemma {:induction false} RowsLeaveAfterSends(rows: set<(Name, nat)>, attempts: nat, steps: seq<Step>, row: (Name, nat))
    requires row in rows && row !in Reached(Opened(rows), attempts, steps).rows
    ensures exists end :: && end in Reached(Opened(rows), attempts, steps).ends
                          && end.Landed? && end.note.agent == row.0 && row.1 <= end.note.to
  {
    var init := Reached(Opened(rows), attempts, steps[..|steps| - 1]);
    var s := Reached(Opened(rows), attempts, steps);
    if row in init.rows {
      assert s.ends[|s.ends| - 1] in s.ends;
    } else {
      RowsLeaveAfterSends(rows, attempts, steps[..|steps| - 1], row);
      var end :| end in init.ends && end.Landed? && end.note.agent == row.0 && row.1 <= end.note.to;
      assert end in s.ends;
    }
  }

  // One send

  // How the calls of one send are answered, and which of its waits are cut.
  datatype Script = Script(answers: nat -> Answer, marks: bool, cuts: nat -> bool)

  // What the worker's own steps make of a send from one attempt on.
  function CallsFrom(s: LaneState, attempts: nat, script: Script): LaneState
    requires s.phase.Sending? && s.phase.attempt <= attempts
    decreases attempts - s.phase.attempt
  {
    var k := s.phase.attempt;
    var t := Next(s, attempts, Calls(script.answers(k), script.marks, script.cuts(k)));
    if t.phase.Sending? then CallsFrom(t, attempts, script) else t
  }

  // What they make of the queue up to the stop mark, and of what is behind it.
  function DrainsAll(s: LaneState, attempts: nat, scripts: nat -> Script): LaneState
    requires attempts >= 1 && s.phase.Waiting? && StopMark in s.queue
    decreases |s.queue|
  {
    var t := Next(s, attempts, Gets);
    if t.phase.Leaving? then LeavesAll(t, attempts)
    else
      assert s.queue[0] != StopMark && s.queue == [s.queue[0]] + t.queue;
      var u := CallsFrom(t, attempts, scripts(|s.ends|));
      CallsKeepQueue(t, attempts, scripts(|s.ends|));
      DrainsAll(u, attempts, scripts)
  }

  lemma {:induction false} CallsKeepQueue(s: LaneState, attempts: nat, script: Script)
    requires s.phase.Sending? && s.phase.attempt <= attempts
    ensures var t := CallsFrom(s, attempts, script); t.queue == s.queue && t.phase.Waiting?
    decreases attempts - s.phase.attempt
  {
    var k := s.phase.attempt;
    var t := Next(s, attempts, Calls(script.answers(k), script.marks, script.cuts(k)));
    if t.phase.Sending? { CallsKeepQueue(t, attempts, script); }
  }

  // A call takes it, and every call before that failed with a wait after it
  // that nothing cut short.
  ghost predicate TakenFrom(script: Script, from: nat, attempts: nat) {
    exists k :: from <= k <= attempts && TakenAt(script, from, k)
  }

  ghost predicate TakenAt(script: Script, from: nat, k: nat) {
    script.answers(k) == Took && forall j: nat :: from <= j < k ==> script.answers(j) == Failed && !script.cuts(j)
  }

  lemma TakenLater(script: Script, k: nat, attempts: nat)
    requires script.answers(k) == Failed && !script.cuts(k) && k < attempts
    ensures TakenFrom(script, k, attempts) <==> TakenFrom(script, k + 1, attempts)
  {
    if TakenFrom(script, k, attempts) {
      var m :| k <= m <= attempts && TakenAt(script, k, m);
      assert TakenAt(script, k + 1, m);
    }
    if TakenFrom(script, k + 1, attempts) {
      var m :| k + 1 <= m <= attempts && TakenAt(script, k + 1, m);
      assert TakenAt(script, k, m);
    }
  }

  // The last call of a send: every one before it failed with a wait nothing
  // cut, and this one was answered otherwise, or its wait was cut, or it was
  // the last allowed.
  ghost predicate EndsAt(script: Script, from: nat, attempts: nat, k: nat) {
    && from <= k <= attempts
    && (forall j: nat :: from <= j < k ==> script.answers(j) == Failed && !script.cuts(j))
    && (script.answers(k) != Failed || script.cuts(k) || k == attempts)
  }

  // A send ends once, for its own notification, landing exactly when some
  // call within the limit takes it before a refusal or a cut; and the rows it
  // reaches go exactly where it lands and the store can be told.
  lemma {:induction false} SendEndsOnce(s: LaneState, attempts: nat, script: Script)
    requires s.phase.Sending? && s.phase.attempt <= attempts
    ensures var ends := CallsFrom(s, attempts, script).ends;
            && |ends| == |s.ends| + 1 && ends[..|s.ends|] == s.ends
            && ends[|s.ends|].note == s.phase.note && s.phase.attempt <= ends[|s.ends|].calls <= attempts
            && (ends[|s.ends|].Landed? <==> TakenFrom(script, s.phase.attempt, attempts))
            && EndsAt(script, s.phase.attempt, attempts, ends[|s.ends|].calls)
    ensures var t := CallsFrom(s, attempts, script);
            && forall row :: row in s.rows ==>
                 (row !in t.rows <==> t.ends[|s.ends|].Landed? && script.marks
                                      && row.0 == s.phase.note.agent && row.1 <= s.phase.note.to)
    decreases attempts - s.phase.attempt
  {
    var k := s.phase.attempt;
    var t := Next(s, attempts, Calls(script.answers(k), script.marks, script.cuts(k)));
    if t.phase.Sending? {
      SendEndsOnce(t, attempts, script);
      TakenLater(script, k, attempts);
    } else {
      assert script.answers(k) == Took ==> TakenAt(script, k, k);
      if TakenFrom(script, k, attempts) {
        var m :| k <= m <= attempts && TakenAt(script, k, m);
        assert m > k ==> script.answers(k) == Failed && !script.cuts(k);
      }
    }
  }

  function LeavesAll(s: LaneState, attempts: nat): LaneState
    requires s.phase.Leaving?
    decreases |s.queue|
  {
    var t := Next(s, attempts, Leaves);
    if t.phase.Leaving? then LeavesAll(t, attempts) else t
  }

  // What is queued before the stop mark is sent, each as its own calls are
  // answered; what is behind it is reported without a call.
  ghost predicate Drained(s: LaneState, t: LaneState, attempts: nat, scripts: nat -> Script, mark: nat) {
    && mark < |s.queue| && s.queue[mark] == StopMark && (forall i :: 0 <= i < mark ==> s.queue[i] != StopMark)
    && |s.ends| + mark <= |t.ends| && t.ends[..|s.ends|] == s.ends
    && (forall i :: 0 <= i < mark ==> SentAs(t.ends[|s.ends| + i], s.queue[i], attempts, scripts(|s.ends| + i)))
    && (forall i :: |s.ends| + mark <= i < |t.ends| ==> t.ends[i].Reported? && t.ends[i].calls == 0)
  }

  ghost predicate SentAs(end: End, item: Item, attempts: nat, script: Script) {
    && item.Carry? && end.note == item.note
    && (end.Landed? <==> TakenFrom(script, 1, attempts)) && EndsAt(script, 1, attempts, end.calls)
  }

  lemma {:induction false} DrainSends(s: LaneState, attempts: nat, scripts: nat -> Script) returns (mark: nat)
    requires attempts >= 1 && s.phase.Waiting? && StopMark in s.queue
    ensures Drained(s, DrainsAll(s, attempts, scripts), attempts, scripts, mark)
    decreases |s.queue|
  {
    var t := Next(s, attempts, Gets);
    if t.phase.Leaving? {
      mark := 0;
      LeavesReported(t, attempts);
    } else {
      assert s.queue[0] != StopMark && s.queue == [s.queue[0]] + t.queue;
      var script := scripts(|s.ends|);
      var u := CallsFrom(t, attempts, script);
      CallsKeepQueue(t, attempts, script);
      SendEndsOnce(t, attempts, script);
      var rest := DrainSends(u, attempts, scripts);
      mark := rest + 1;
      DrainedOneMore(s, u, DrainsAll(u, attempts, scripts), attempts, scripts, rest);
    }
  }

  lemma DrainedOneMore(s: LaneState, u: LaneState, t: LaneState, attempts: nat, scripts: nat -> Script, rest: nat)
    requires s.queue != [] && u.queue == s.queue[1..] && s.queue[0] != StopMark
    requires |u.ends| == |s.ends| + 1 && u.ends[..|s.ends|] == s.ends
    requires SentAs(u.ends[|s.ends|], s.queue[0], attempts, scripts(|s.ends|))
    requires Drained(u, t, attempts, scripts, rest)
    ensures Drained(s, t, attempts, scripts, rest + 1)
  {
    hide SentAs;
    assert t.ends[..|s.ends|] == t.ends[..|u.ends|][..|s.ends|];
    assert t.ends[|s.ends|] == t.ends[..|u.ends|][|s.ends|];
    forall i | 0 <= i < rest + 1 ensures SentAs(t.ends[|s.ends| + i], s.queue[i], attempts, scripts(|s.ends| + i)) {
      if i > 0 {
        assert SentAs(t.ends[|u.ends| + (i - 1)], u.queue[i - 1], attempts, scripts(|u.ends| + (i - 1)));
      }
    }
    forall i | 0 <= i < rest + 1 ensures s.queue[i] != StopMark {
      if i > 0 { assert u.queue[i - 1] != StopMark; }
    }
  }

  lemma {:induction false} LeavesReported(s: LaneState, attempts: nat)
    requires s.phase.Leaving?
    ensures var t := LeavesAll(s, attempts);
            && |s.ends| <= |t.ends| && t.ends[..|s.ends|] == s.ends
            && forall i :: |s.ends| <= i < |t.ends| ==> t.ends[i].Reported? && t.ends[i].calls == 0
    decreases |s.queue|
  {
    var t := Next(s, attempts, Leaves);
    if t.phase.Leaving? {
      LeavesReported(t, attempts);
      var u := LeavesAll(t, attempts);
      assert u.ends[..|s.ends|] == u.ends[..|t.ends|][..|s.ends|];
      forall i | |s.ends| <= i < |t.ends| ensures u.ends[i].Reported? && u.ends[i].calls == 0 {
        assert u.ends[i] == u.ends[..|t.ends|][i];
      }
    }
  }

  class Lane {
    const attempts: nat
    const store: InMemoryStore
    var queue: seq<Item>
    var stopped: bool
    var working: bool
    // What was reported as it was turned away, and what was landed or reported
    // by the worker.
    var turned: seq<Notification>
    var ends: seq<End>
    ghost var phase: Phase
    ghost var accepted: seq<Notification>

    ghost function State(): LaneState
      reads this, store
    {
      LaneState(queue, stopped, phase, accepted, turned, ends, store.Rec().outbox)
    }

    ghost predicate Valid()
      reads this, store
    {
      attempts >= 1 && store.Valid() && Conserves(State(), attempts)
    }

    constructor (attempts: nat, store: InMemoryStore)
      requires attempts >= 1 && store.Valid()
      ensures Valid() && this.attempts == attempts && this.store == store
      ensures State() == Opened(store.Rec().outbox)
    {
      this.attempts, this.store := attempts, store;
      queue, stopped, working := [], false, false;
      phase, accepted, turned, ends := Waiting, [], [], [];
      new;
      assert Ended([]) == [];
    }

    // Queues one notification, on the writer's thread. A stopped lane reports
    // it there and then.
    method Enqueue(note: Notification)
      requires Valid()
      modifies this`queue, this`working, this`accepted, this`turned
      ensures Valid()
      ensures State() == Next(old(State()), attempts, Enqueues(note))
      ensures if old(stopped) then turned == old(turned) + [note] && accepted == old(accepted)
              else turned == old(turned) && accepted == old(accepted) + [note] && queue[|queue| - 1] == Carry(note)
    {
      NextConserves(State(), attempts, Enqueues(note));
      if stopped {
        turned := turned + [note];
        return;
      }
      working := true;
      queue := queue + [Carry(note)];
      accepted := accepted + [note];
    }

    // One stop mark, put behind whatever the queue holds.
    method Stop()
      requires Valid()
      modifies this`queue, this`stopped
      ensures Valid()
      ensures State() == Next(old(State()), attempts, Stops)
    {
      NextConserves(State(), attempts, Stops);
      if stopped {
        return;
      }
      stopped := true;
      queue := queue + [StopMark];
    }

    method Fail(note: Notification, calls: nat)
      modifies this`ends, this`phase
      ensures ends == old(ends) + [Reported(note, calls)]
      ensures phase == (if old(phase).Leaving? then Leaving else Waiting)
    {
      ends := ends + [Reported(note, calls)];
      phase := if phase.Leaving? then Leaving else Waiting;
    }

    // Sends one notification, already taken off the queue, calling the
    // transport until it takes it, refuses it, or the calls run out.
    method Send(note: Notification, script: Script)
      requires Valid() && phase == Sending(note, 1)
      modifies this`ends, this`phase, store`outbox
      ensures Valid() && phase == Waiting && queue == old(queue)
      ensures State() == CallsFrom(old(State()), attempts, script)
    {
      hide InMemoryStore.Valid, InMemoryStore.Rec;
      ghost var start := State();
      CallsKeepQueue(start, attempts, script);
      var attempt := 1;
      while attempt <= attempts
        invariant Valid() && 1 <= attempt <= attempts && phase == Sending(note, attempt)
        invariant queue == old(queue)
        invariant CallsFrom(State(), attempts, script) == CallsFrom(start, attempts, script)
        decreases attempts - attempt
      {
        NextConserves(State(), attempts, Calls(script.answers(attempt), script.marks, script.cuts(attempt)));
        match script.answers(attempt) {
          case Took =>
            Land(note, attempt, script.marks);
            return;
          case Refused =>
            Fail(note, attempt);
            return;
          case Failed =>
            if attempt == attempts || script.cuts(attempt) {
              Fail(note, attempt);
              return;
            }
            phase := Sending(note, attempt + 1);
            attempt := attempt + 1;
        }
      }
    }

    // The transport has taken it: the row is marked, unless marking fails.
    method Land(note: Notification, calls: nat, marks: bool)
      requires store.Valid()
      modifies this`ends, this`phase, store`outbox
      ensures store.Valid() && ends == old(ends) + [Landed(note, calls)] && phase == Waiting
      ensures store.Rec().outbox ==
              (if marks then ClearRows(old(store.Rec()).outbox, note) else old(store.Rec()).outbox)
    {
      ends := ends + [Landed(note, calls)];
      phase := Waiting;
      if marks {
        store.MarkSent(note.agent, note.to);
      }
    }

    // The worker, from the queue it finds to the stop mark and past it.
    method Drain(scripts: nat -> Script)
      requires Valid() && phase == Waiting && StopMark in queue
      modifies this`queue, this`ends, this`phase, store`outbox
      ensures Valid() && phase == Gone && queue == []
      ensures State() == DrainsAll(old(State()), attempts, scripts)
      ensures Ended(ends) == accepted == old(accepted)
      ensures exists mark :: Drained(old(State()), State(), attempts, scripts, mark)
    {
      hide InMemoryStore.Valid, InMemoryStore.Rec, ClearRows;
      ghost var start := State();
      ghost var mark := DrainSends(start, attempts, scripts);
      while queue[0] != StopMark
        invariant Valid() && phase == Waiting && StopMark in queue && accepted == old(accepted)
        invariant DrainsAll(State(), attempts, scripts) == DrainsAll(start, attempts, scripts)
        decreases |queue|
      {
        NextConserves(State(), attempts, Gets);
        assert queue == [queue[0]] + queue[1..];
        var item := queue[0];
        queue := queue[1..];
        phase := Sending(item.note, 1);
        CallsKeepQueue(State(), attempts, scripts(|ends|));
        Send(item.note, scripts(|ends|));
      }
      NextConserves(State(), attempts, Gets);
      queue := queue[1..];
      phase := Leaving;
      AbandonWhatIsLeft();
    }

    // Reports everything still queued behind the stop mark.
    method AbandonWhatIsLeft()
      requires Valid() && phase == Leaving
      modifies this`queue, this`ends, this`phase
      ensures Valid() && phase == Gone && queue == [] && accepted == old(accepted)
      ensures State() == LeavesAll(old(State()), attempts)
    {
      hide InMemoryStore.Valid, InMemoryStore.Rec, ClearRows;
      ghost var start := State();
      while queue != []
        invariant Valid() && phase == Leaving && accepted == old(accepted)
        invariant LeavesAll(State(), attempts) == LeavesAll(start, attempts)
        decreases |queue|
      {
        NextConserves(State(), attempts, Leaves);
        var item := queue[0];
        queue := queue[1..];
        if item.Carry? {
          Fail(item.note, 0);
        }
      }
      NextConserves(State(), attempts, Leaves);
      phase := Gone;
    }
  }
}
