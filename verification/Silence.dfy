// Settling means silence. Nothing here relies on cancelling: a call fires at
// any moment from its instant on, cancelled or not and as often as it likes,
// and it is the generation alone that keeps a late deadline from closing.

module Silence {
  import opened Values
  import opened Records
  import opened Clocks
  import opened Controls
  import opened Sessions

  datatype Move = Doing(act: Act) | Firing(timer: nat) | Ticking(span: nat)

  datatype Moment = Moment(s: Session, c: Clock<TimerCall>)

  ghost function Next(m: Moment, move: Move): Moment {
    match move
    case Doing(act) =>
      var (s, c) := Does(m.s, m.c, act);
      Moment(s, c)
    case Firing(timer) =>
      if timer >= |m.c.scheduled| || m.c.scheduled[timer].when > m.c.now then m
      else
        var (s, c) := Fired(m.s, m.c, m.c.scheduled[timer].call);
        Moment(s, c)
    case Ticking(span) => m.(c := m.c.(now := m.c.now + span))
  }

  ghost function Lived(m: Moment, moves: seq<Move>): Moment {
    if moves == [] then m else Next(Lived(m, moves[..|moves| - 1]), moves[|moves| - 1])
  }

  ghost predicate Begun(m: Moment) {
    exists kinds, windows, wall, idle, reach, judged, start, rec ::
      m == BegunAs(kinds, windows, wall, idle, reach, judged, start, rec)
  }

  function BegunAs(
    kinds: map<Region, Kind>, windows: map<Region, Duration>, wall: Duration, idle: Duration,
    reach: bool, judged: bool, start: Instant, rec: Record): Moment
  {
    var (s, c) := Begins(kinds, windows, wall, idle, reach, judged, start, rec);
    Moment(s, c)
  }

  // Every idle call of the current generation is for one idle limit after the
  // last event, and a predicate is asked under the current generation only
  // once that has passed.
  ghost predicate Stamped(m: Moment) {
    && (forall i :: 0 <= i < |m.c.scheduled| ==> CallStamped(m.s, m.c.scheduled[i]))
    && (m.s.touched.Some? ==> m.s.touched.value <= m.c.now)
    && (forall g :: g in m.s.judging ==> AskedInTime(m, g))
  }

  ghost predicate CallStamped(s: Session, t: Timer<TimerCall>) {
    t.call.IdlePassed? ==>
      && t.call.generation <= s.ctl.idleGeneration
      && (t.call.generation == s.ctl.idleGeneration ==> s.touched == Some(t.when - s.ctl.idle))
  }

  ghost predicate AskedInTime(m: Moment, g: nat) {
    g <= m.s.ctl.idleGeneration && (g == m.s.ctl.idleGeneration ==> Elapsed(m))
  }

  // One idle limit has passed since the last event.
  ghost predicate Elapsed(m: Moment) {
    m.s.touched.Some? && m.s.touched.value + m.s.ctl.idle <= m.c.now
  }

  // What one block or firing does to the stamps.
  ghost predicate OneBlock(m: Moment, n: Moment) {
    && Follows(WorldOf(m.s, m.c), WorldOf(n.s, n.c))
    && n.s.touched == (if n.s.ctl.idleGeneration != m.s.ctl.idleGeneration then Some(m.c.now) else m.s.touched)
  }

  lemma BlocksStamp(m: Moment, n: Moment)
    requires Stamped(m) && OneBlock(m, n)
    requires forall g :: g in n.s.judging ==> g in m.s.judging || (g == m.s.ctl.idleGeneration && Elapsed(m))
    ensures Stamped(n)
  {
    var w, v := WorldOf(m.s, m.c), WorldOf(n.s, n.c);
    forall i | 0 <= i < |n.c.scheduled| ensures CallStamped(n.s, n.c.scheduled[i]) {
      if i < |m.c.scheduled| {
        assert Stands(m.c.scheduled[i], n.c.scheduled[i]) && CallStamped(m.s, m.c.scheduled[i]);
      } else {
        assert NewCall(w, v, n.c.scheduled[i]);
      }
    }
  }

  lemma NextStamps(m: Moment, move: Move)
    requires Stamped(m)
    ensures Stamped(Next(m, move))
    ensures move.Ticking? || OneBlock(m, Next(m, move)) || Next(m, move) == m
  {
    var n := Next(m, move);
    hide Follows, CallStamped;
    match move {
      case Doing(act) =>
        hide Does;
        DoesBlocks(m.s, m.c, act);
        BlocksStamp(m, n);
      case Firing(timer) =>
        if timer < |m.c.scheduled| && m.c.scheduled[timer].when <= m.c.now {
          FiredBlocks(m.s, m.c, m.c.scheduled[timer].call);
          FiringJudges(m, timer);
          hide Fired;
          BlocksStamp(m, n);
        }
      case Ticking(span) =>
        assert forall i :: 0 <= i < |m.c.scheduled| ==> CallStamped(m.s, m.c.scheduled[i]);
    }
  }

  // A predicate is asked only when one idle limit has passed.
  lemma FiringJudges(m: Moment, timer: nat)
    requires Stamped(m) && timer < |m.c.scheduled| && m.c.scheduled[timer].when <= m.c.now
    ensures var t := Fired(m.s, m.c, m.c.scheduled[timer].call).0;
            forall g :: g in t.judging ==> g in m.s.judging || (g == m.s.ctl.idleGeneration && Elapsed(m))
  {
    hide CloseWindowFires, Close;
    assert CallStamped(m.s, m.c.scheduled[timer]);
  }

  lemma {:induction false} LifeStamps(m: Moment, moves: seq<Move>)
    requires Stamped(m)
    ensures Stamped(Lived(m, moves))
  {
    hide Stamped, Next;
    if moves != [] {
      LifeStamps(m, moves[..|moves| - 1]);
      NextStamps(Lived(m, moves[..|moves| - 1]), moves[|moves| - 1]);
    }
  }

  // Neither events nor generations go back.
  ghost predicate Onward(m: Moment, n: Moment) {
    && m.c.now <= n.c.now && n.s.ctl.idle == m.s.ctl.idle
    && m.s.ctl.idleGeneration <= n.s.ctl.idleGeneration
    && (m.s.touched.Some? ==> n.s.touched.Some? && m.s.touched.value <= n.s.touched.value)
  }

  lemma NextOnward(m: Moment, move: Move)
    requires Stamped(m)
    ensures Onward(m, Next(m, move))
  {
    NextStamps(m, move);
    hide Next, Stamped;
    assert m.s.touched.Some? ==> m.s.touched.value <= m.c.now by { StampedInPast(m); }
    if move.Ticking? { TicksOnward(m, move.span); }
  }

  lemma StampedInPast(m: Moment)
    requires Stamped(m)
    ensures m.s.touched.Some? ==> m.s.touched.value <= m.c.now
  {
  }

  lemma TicksOnward(m: Moment, span: nat)
    ensures Onward(m, Next(m, Ticking(span)))
  {
  }

  lemma {:induction false} LifeOnward(m: Moment, moves: seq<Move>)
    requires Stamped(m)
    ensures Onward(m, Lived(m, moves))
  {
    hide Stamped, Next;
    if moves != [] {
      var init := moves[..|moves| - 1];
      LifeOnward(m, init);
      LifeStamps(m, init);
      NextOnward(Lived(m, init), moves[|moves| - 1]);
    }
  }

  // A Control that settles on its own idle deadline does so only when no
  // event has moved that deadline for a whole idle limit: wherever in its
  // life an event was, it was at least that long ago.
  lemma {:induction false} SettlesInSilence(m: Moment, before: seq<Move>, between: seq<Move>, last: Move)
    requires Begun(m)
    requires last.Firing? || (last.Doing? && last.act.Verdict?)
    requires var n := Lived(Lived(m, before), between);
             n.s.ctl.outcome.None? && Next(n, last).s.ctl.outcome.Some?
             && (last.Firing? ==> last.timer < |n.c.scheduled| && n.c.scheduled[last.timer].call.IdlePassed?)
    ensures var early := Lived(m, before);
            var n := Lived(early, between);
            early.s.touched.Some? ==> early.s.touched.value <= n.c.now - n.s.ctl.idle
  {
    BegunIsStamped(m);
    var early := Lived(m, before);
    LifeStamps(m, before);
    LifeStamps(early, between);
    LifeOnward(early, between);
    SettlingElapsed(Lived(early, between), last);
  }

  lemma BegunIsStamped(m: Moment)
    requires Begun(m)
    ensures Stamped(m) && m.s.touched.None?
  {
  }

  // Only a deadline of the current generation settles anything.
  lemma SettlingElapsed(n: Moment, last: Move)
    requires Stamped(n) && n.s.ctl.outcome.None? && Next(n, last).s.ctl.outcome.Some?
    requires last.Firing? || (last.Doing? && last.act.Verdict?)
    requires last.Firing? ==> last.timer < |n.c.scheduled| && n.c.scheduled[last.timer].call.IdlePassed?
    ensures Elapsed(n)
  {
    hide Close;
    if last.Firing? {
      assert CallStamped(n.s, n.c.scheduled[last.timer]);
    }
  }

  // A verdict overtaken by an event while the predicate ran, whatever it is,
  // changes nothing: not the run, not the clock and not the record.
  lemma {:induction false} OvertakenVerdict(
    m: Moment, before: seq<Move>, event: Move, between: seq<Move>, generation: nat, complete: bool)
    requires Begun(m)
    requires var asked := Lived(m, before);
             && generation in asked.s.judging
             && Next(asked, event).s.ctl.idleGeneration != asked.s.ctl.idleGeneration
    ensures var n := Lived(Next(Lived(m, before), event), between);
            var after := Next(n, Doing(Verdict(generation, complete)));
            after.s.ctl == n.s.ctl && after.s.rec == n.s.rec && after.c == n.c
  {
    BegunIsStamped(m);
    var asked := Lived(m, before);
    LifeStamps(m, before);
    NextStamps(asked, event);
    NextOnward(asked, event);
    LifeOnward(Next(asked, event), between);
  }

  // What the record says of the deadline

  // What another process does to the record: moves the deadline by an event
  // of its own, opens the run for itself, or does anything else, which moves
  // no deadline.
  datatype Elsewhere = Touched(limit: Duration) | Opened(wall: Duration, limit: Duration) | Did(rec: Record)

  // A move here, something done there, or time passing for both.
  datatype Event = Here(move: Move) | There(what: Elsewhere) | Both(span: nat)

  // A life with what moved the recorded deadline last: when by the record's
  // clock, under which idle limit, and whether it was an event of this Control.
  datatype Watch = Watch(m: Moment, moved: Instant, limit: Duration, mine: bool)

  function RecAfter(r: Record, what: Elsewhere): Record {
    match what
    case Touched(limit) => TouchRun(r, limit)
    case Opened(wall, limit) => OpenRun(r, wall, limit)
    case Did(rec) => if MovesNoDeadline(r, rec) then rec else r
  }

  predicate MovesNoDeadline(r: Record, rec: Record) {
    rec.now == r.now && (rec.Open() ==> r.Open() && rec.run.value.idle == r.run.value.idle)
  }

  ghost function Turn(w: Watch, e: Event): Watch {
    match e
    case Here(move) =>
      if move.Doing? && move.act.Others? then w
      else
        var n := Next(w.m, move);
        if w.m.s.rec.Open() && n.s.ctl.idleGeneration != w.m.s.ctl.idleGeneration
        then Watch(n, w.m.s.rec.now, w.m.s.ctl.idle, true)
        else w.(m := n)
    case Both(span) => w.(m := Next(Next(w.m, Ticking(span)), Doing(StoreTicks(span))))
    case There(what) =>
      var n := Next(w.m, Doing(Others(RecAfter(w.m.s.rec, what))));
      match what
      case Touched(limit) => if w.m.s.rec.Open() then Watch(n, w.m.s.rec.now, limit, false) else w.(m := n)
      case Opened(_, limit) => Watch(n, w.m.s.rec.now, limit, false)
      case Did(_) => w.(m := n)
  }

  ghost function Watched(w: Watch, events: seq<Event>): Watch {
    if events == [] then w else Turn(Watched(w, events[..|events| - 1]), events[|events| - 1])
  }

  // The deadline the record holds is one limit after what moved it last.
  ghost predicate DeadlineIsLast(w: Watch) {
    && w.moved <= w.m.s.rec.now
    && (w.mine ==> w.m.s.touched.Some? && w.limit == w.m.s.ctl.idle)
    && (w.m.s.ctl.outcome.None? && w.m.s.rec.Open() ==> w.m.s.rec.run.value.idle == w.moved + w.limit)
  }

  ghost predicate BegunWatch(w: Watch) {
    Begun(w.m) && w == Watch(w.m, w.m.s.rec.now, w.m.s.ctl.idle, false)
  }

  lemma TurnKeepsLast(w: Watch, e: Event)
    requires Stamped(w.m) && DeadlineIsLast(w)
    ensures Stamped(Turn(w, e).m) && DeadlineIsLast(Turn(w, e))
  {
    match e {
      case Here(move) =>
        hide Stamped, DeadlineIsLast;
        NextStamps(w.m, move);
        if !(move.Doing? && move.act.Others?) { HereKeepsLast(w, move); }
      case There(what) =>
        hide Stamped;
        NextStamps(w.m, Doing(Others(RecAfter(w.m.s.rec, what))));
      case Both(span) =>
        hide Stamped;
        NextStamps(w.m, Ticking(span));
        NextStamps(Next(w.m, Ticking(span)), Doing(StoreTicks(span)));
    }
  }

  lemma HereKeepsLast(w: Watch, move: Move)
    requires DeadlineIsLast(w) && !(move.Doing? && move.act.Others?)
    ensures DeadlineIsLast(Turn(w, Here(move)))
  {
    match move {
      case Doing(act) =>
        if !act.StoreTicks? {
          hide Does;
          DoesBlocks(w.m.s, w.m.c, act);
        }
      case Firing(timer) =>
        hide Fired;
        if timer < |w.m.c.scheduled| { FiredBlocks(w.m.s, w.m.c, w.m.c.scheduled[timer].call); }
      case Ticking(_) =>
    }
  }

  lemma {:induction false} LifeKeepsLast(w: Watch, events: seq<Event>)
    requires Stamped(w.m) && DeadlineIsLast(w)
    ensures Stamped(Watched(w, events).m) && DeadlineIsLast(Watched(w, events))
  {
    hide Stamped, DeadlineIsLast, Turn;
    if events != [] {
      LifeKeepsLast(w, events[..|events| - 1]);
      TurnKeepsLast(Watched(w, events[..|events| - 1]), events[|events| - 1]);
    }
  }

  // Whatever this Control, other processes and the two clocks do, a settling
  // on its own idle deadline comes before the deadline the record holds
  // exactly when what moved that last, by any process, is less than its idle
  // limit back on the record's clock. A whole limit has passed here since this
  // Control's last event, so it was another process's, or this one's clock has
  // run ahead of the record's.
  lemma {:induction false} SettlesEarlyIff(w: Watch, events: seq<Event>, last: Move)
    requires BegunWatch(w)
    requires last.Firing? || (last.Doing? && last.act.Verdict?)
    requires var n := Watched(w, events).m;
             && n.s.rec.Open() && n.s.ctl.outcome.None? && Next(n, last).s.ctl.outcome.Some?
             && (last.Firing? ==> last.timer < |n.c.scheduled| && n.c.scheduled[last.timer].call.IdlePassed?)
    ensures var x := Watched(w, events);
            var n := x.m;
            && x.moved <= n.s.rec.now
            && (n.s.rec.now < n.s.rec.run.value.idle <==> n.s.rec.now - x.moved < x.limit)
            && n.s.touched.Some? && n.s.ctl.idle <= n.c.now - n.s.touched.value
            && (x.mine ==> x.limit == n.s.ctl.idle)
  {
    BegunIsStamped(w.m);
    LifeKeepsLast(w, events);
    SettlingElapsed(Watched(w, events).m, last);
  }

  // Alone on its record, time passing for both, a Control that settles on its
  // own idle deadline does so only once the one the record holds has passed,
  // when any process sweeping for expired runs would close it too.
  predicate Alone(e: Event) {
    e.Both? || (e.Here? && !e.move.Ticking? && (e.move.Doing? ==> !e.move.act.Others? && !e.move.act.StoreTicks?))
  }

  lemma {:induction false} AloneSettlesOnDeadline(w: Watch, events: seq<Event>, last: Move)
    requires BegunWatch(w)
    requires forall i :: 0 <= i < |events| ==> Alone(events[i])
    requires last.Firing? || (last.Doing? && last.act.Verdict?)
    requires var n := Watched(w, events).m;
             && n.s.rec.Open() && n.s.ctl.outcome.None? && Next(n, last).s.ctl.outcome.Some?
             && (last.Firing? ==> last.timer < |n.c.scheduled| && n.c.scheduled[last.timer].call.IdlePassed?)
    ensures var n := Watched(w, events).m; n.s.rec.run.value.idle <= n.s.rec.now && Expired(n.s.rec).Some?
  {
    BegunIsStamped(w.m);
    LifeKeepsStep(w, events);
    SettlesEarlyIff(w, events, last);
  }

  // As much time has passed on both clocks since this Control's last event,
  // which is what moved the deadline last.
  ghost predicate InStep(w: Watch) {
    w.m.s.ctl.outcome.None? && w.m.s.rec.Open() && w.m.s.touched.Some? ==>
      w.mine && w.m.s.rec.now - w.moved == w.m.c.now - w.m.s.touched.value
  }

  lemma TurnKeepsStep(w: Watch, e: Event)
    requires InStep(w) && Alone(e)
    ensures InStep(Turn(w, e))
  {
    if e.Here? {
      match e.move {
        case Doing(act) =>
          hide Does;
          DoesBlocks(w.m.s, w.m.c, act);
        case Firing(timer) =>
          hide Fired;
          if timer < |w.m.c.scheduled| { FiredBlocks(w.m.s, w.m.c, w.m.c.scheduled[timer].call); }
      }
    }
  }

  lemma {:induction false} LifeKeepsStep(w: Watch, events: seq<Event>)
    requires InStep(w)
    requires forall i :: 0 <= i < |events| ==> Alone(events[i])
    ensures InStep(Watched(w, events))
  {
    hide InStep, Turn;
    if events != [] {
      LifeKeepsStep(w, events[..|events| - 1]);
      TurnKeepsStep(Watched(w, events[..|events| - 1]), events[|events| - 1]);
    }
  }

  // Of what a store does to a record, only opening a run and touching it move
  // a deadline that is open.
  lemma OthersMoveNoDeadline(r: Record, rec: Record)
    requires
      || (exists p, key, writer, notify :: rec == Put(r, p, key, writer, notify).0)
      || (exists agent, through :: rec == Acknowledge(r, agent, through).0)
      || (exists agent, through :: rec == MarkNotified(r, agent, through))
      || (exists agent, through :: rec == MarkSent(r, agent, through))
      || (exists agent, subs, writes, addr :: rec == DeclareAgent(r, agent, subs, writes, addr))
      || (exists closedAs, reason, unfinished :: rec == CloseRun(r, closedAs, reason, unfinished).0)
      || (exists name, kind :: rec == Declare(r, name, kind).0)
    ensures MovesNoDeadline(r, rec)
  {
  }

  // So it does where another process is on the record. Both count time alike
  // and have an idle limit of 10: this Control's last event is at 0, the
  // other's at 5, so the record's deadline is 15, and this Control settles
  // the run at 10.
  const SOON: seq<Event> := [Here(Doing(Touches)), Both(5), There(Touched(10)), Both(5)]

  function SoonRecord(now: Instant, idle: Instant): Record {
    Blank(now).(run := Some(Records.Run(idle, 100, None, None, {})))
  }

  function SoonMoment(now: Instant, idle: Instant): Moment {
    Moment(
      Session(Control(map[], map[], 10, false, false, 0, map[], None, 1, Some(1), Some(0)), SoonRecord(now, idle),
              {}, Some(0), {}, 100),
      Clock(now, [Timer(100, 0, WallClockPassed, false), Timer(10, 1, IdlePassed(1), false)], 2))
  }

  function SoonWatch(): Watch {
    Watch(BegunAs(map[], map[], 100, 10, false, false, 0, Blank(0)), 0, 10, false)
  }

  lemma SettlesBeforeDeadline()
    ensures var n := Watched(SoonWatch(), SOON).m;
            && BegunWatch(SoonWatch()) && n.s.ctl.outcome.None? && n.s.rec.Open()
            && n.s.rec.now == n.c.now == 10 && n.s.rec.run.value.idle == 15 && Expired(n.s.rec).None?
            && Next(n, Firing(1)).s.ctl.outcome == Some(Settled({}))
            && !Next(n, Firing(1)).s.rec.Open()
  {
    hide Watched, Turn, SoonMoment, SoonRecord, SoonWatch, BegunWatch, Next;
    SoonStarts(SoonWatch());
    SoonPasses(Watch(SoonMoment(0, 10), 0, 10, true), 0, 10);
    SoonOther();
    SoonPasses(Watch(SoonMoment(5, 15), 5, 10, false), 5, 15);
    SoonSettles();
    var w := SoonWatch();
    OneTurn(w, SOON, 0); OneTurn(w, SOON, 1); OneTurn(w, SOON, 2); OneTurn(w, SOON, 3);
    assert SOON[..4] == SOON;
  }

  lemma SoonPasses(w: Watch, now: Instant, idle: Instant)
    requires w.m == SoonMoment(now, idle)
    ensures Turn(w, Both(5)) == w.(m := SoonMoment(now + 5, idle))
  {
  }

  lemma SoonOther()
    ensures Turn(Watch(SoonMoment(5, 10), 0, 10, true), There(Touched(10))) == Watch(SoonMoment(5, 15), 5, 10, false)
  {
  }

  lemma SoonSettles()
    ensures var n := SoonMoment(10, 15);
            && n.s.ctl.outcome.None? && n.s.rec.Open()
            && n.s.rec.now == n.c.now == 10 && n.s.rec.run.value.idle == 15 && Expired(n.s.rec).None?
            && Next(n, Firing(1)).s.ctl.outcome == Some(Settled({}))
            && !Next(n, Firing(1)).s.rec.Open()
  {
    assert Unfinished(SoonRecord(10, 15)) == {};
  }

  lemma SoonStarts(w: Watch)
    requires w == SoonWatch()
    ensures BegunWatch(w) && Turn(w, Here(Doing(Touches))) == Watch(SoonMoment(0, 10), 0, 10, true)
  {
    assert Told([]) == {};
    assert [] + [Timer(100, 0, WallClockPassed, false)] == [Timer(100, 0, WallClockPassed, false)];
  }

  lemma {:induction false} OneTurn(w: Watch, events: seq<Event>, k: nat)
    requires k < |events|
    ensures Watched(w, events[..k + 1]) == Turn(Watched(w, events[..k]), events[k])
    ensures k == 0 ==> Watched(w, events[..k]) == w
  {
    hide Turn;
    assert events[..k + 1][..k] == events[..k];
  }
}
