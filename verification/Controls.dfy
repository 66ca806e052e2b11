// The control component's locked blocks, as functions of the state each finds.
//
// A `World` is one `Control` with the clock it arms calls on and the record
// it shares with every other process. Each function here is one block the
// source runs under its lock, or a piece of one; `ControlObjects` holds the
// class whose methods do the same step by step. Where the source goes through
// a dict or a sorted list, the function takes the order gone through.

module Controls {
  import opened Values
  import opened Records
  import opened Clocks

  // The bound on every read of a tail, of rows, and of a relay's board.
  const TAIL: nat := 1000

  // What an agent declares. The callable is known by whether it marks its
  // own sends, which is all the control component asks of it.
  datatype Declaration = Declaration(
    name: Name, notify: Option<bool>,
    subs: Option<set<Region>>, writes: Option<set<Region>>, addr: Option<Address>)

  datatype Carrier = Callable(marksSent: bool) | Transport(addr: Address) {
    predicate MarksSent() { Callable? && marksSent }
  }

  datatype Notification = Notification(id: nat, agent: Name, from: nat, to: nat, regions: set<Region>)
  datatype Delivery = Delivery(carrier: Carrier, note: Notification)

  datatype Outcome =
    | Settled(unfinished: set<Name>)
    | WallClockExpired(unfinished: set<Name>)
    | Aborted(abortReason: string, unfinished: set<Name>)

  datatype TimerCall =
    | CloseWindow(agent: Name, generation: nat)
    | IdlePassed(generation: nat)
    | WallClockPassed

  datatype AgentState = AgentState(
    decl: Declaration, notified: nat, acked: nat,
    pending: map<Region, Instant>, call: Option<nat>, due: Option<Instant>, generation: nat)

  datatype Control = Control(
    kinds: map<Region, Kind>, windows: map<Region, Duration>,
    idle: Duration, reach: bool, judged: bool,
    last: nat, agents: map<Name, AgentState>, outcome: Option<Outcome>,
    idleGeneration: nat, idleCall: Option<nat>, wallCall: Option<nat>)

  datatype World = World(ctl: Control, clock: Clock<TimerCall>, rec: Record)

  datatype Cause = Admission | NotPermitted | RunClosed
  datatype Result =
    | Accepted(written: Written)
    | Conflicted(current: nat)
    | Rejected(cause: Cause)
    | Raised(error: Error)

  // Small rules

  function Wants(subs: Option<set<Region>>, region: Region, kind: Kind): bool {
    if subs.Some? then region in subs.value else kind == PremiseKind
  }

  // A Control knows the regions it was given, which may be some of a board's.
  predicate PartOf(kinds: map<Region, Kind>, board: map<Region, Kind>) {
    forall region :: region in kinds ==> region in board && kinds[region] == board[region]
  }

  function CarrierFor(reach: bool, decl: Declaration): Option<Carrier> {
    if decl.notify.Some? then Some(Callable(decl.notify.value))
    else if decl.addr.Some? && reach then Some(Transport(decl.addr.value))
    else None
  }

  function AddDue(pending: map<Region, Instant>, region: Region, due: Instant): map<Region, Instant> {
    pending[region := if region in pending then Min(pending[region], due) else due]
  }

  function CancelIf(c: Clock<TimerCall>, handle: Option<nat>): Clock<TimerCall> {
    if handle.Some? then Cancel(c, handle.value) else c
  }

  function CancelAll(c: Clock<TimerCall>, handles: set<nat>): Clock<TimerCall> {
    c.(scheduled := seq(|c.scheduled|, i requires 0 <= i < |c.scheduled| =>
         if c.scheduled[i].order in handles then c.scheduled[i].(cancelled := true) else c.scheduled[i]))
  }

  ghost function LeastOf(m: map<string, int>): (least: int)
    requires m != map[]
    ensures exists k :: k in m && m[k] == least
    ensures forall k :: k in m ==> least <= m[k]
    decreases |m|
  {
    var k :| k in m;
    var rest := m - {k};
    assert forall j :: j in m ==> j == k || (j in rest && rest[j] == m[j]);
    if rest == map[] then m[k] else Min(m[k], LeastOf(rest))
  }

  function ClosedAsOf(o: Outcome): ClosedAs {
    match o
    case Settled(_) => AsSettled
    case WallClockExpired(_) => AsWallClockExpired
    case Aborted(_, _) => AsAborted
  }

  function ReasonOf(o: Outcome): Option<string> {
    if o.Aborted? then Some(o.abortReason) else None
  }

  function OutcomeOf(run: Run): Outcome
    requires run.closed.Some?
  {
    match run.closed.value
    case AsAborted => Aborted(if run.reason.Some? then run.reason.value else "", run.unfinished)
    case AsWallClockExpired => WallClockExpired(run.unfinished)
    case AsSettled => Settled(run.unfinished)
  }

  // Dispatch

  function WithAgent(w: World, name: Name, st: AgentState): World {
    w.(ctl := w.ctl.(agents := w.ctl.agents[name := st]))
  }

  function TouchIdle(w: World): World {
    if w.ctl.outcome.Some? then w
    else
      var clock := CancelIf(w.clock, w.ctl.idleCall);
      var generation := w.ctl.idleGeneration + 1;
      World(w.ctl.(idleGeneration := generation, idleCall := Some(clock.armed)),
            Arm(clock, clock.now + w.ctl.idle, IdlePassed(generation)),
            TouchRun(w.rec, w.ctl.idle))
  }

  // An agent's state with whatever window it had armed let go.
  function Unarmed(st: AgentState): AgentState {
    if st.call.None? then st else st.(call := None, due := None, generation := st.generation + 1)
  }

  function NoteFor(ctl: Control, name: Name): Notification
    requires name in ctl.agents
  {
    var st := ctl.agents[name];
    Notification(ctl.last, name, st.acked + 1, ctl.last, st.pending.Keys)
  }

  function Dispatch(w: World, name: Name): (World, Delivery)
    requires name in w.ctl.agents && CarrierFor(w.ctl.reach, w.ctl.agents[name].decl).Some?
  {
    var st := w.ctl.agents[name];
    var let := WithAgent(w, name, Unarmed(st).(pending := map[])).(clock := CancelIf(w.clock, st.call));
    var touched := TouchIdle(let);
    var told := Unarmed(st).(pending := map[], notified := Max(st.notified, w.ctl.last));
    (WithAgent(touched, name, told).(rec := MarkNotified(touched.rec, name, w.ctl.last)),
     Delivery(CarrierFor(w.ctl.reach, st.decl).value, NoteFor(w.ctl, name)))
  }

  // Nothing is pending for an agent nothing here can carry to, which is what
  // the source asserts as a window closes.
  ghost predicate Carried(ctl: Control) {
    forall a :: a in ctl.agents && ctl.agents[a].pending != map[] ==> CarrierFor(ctl.reach, ctl.agents[a].decl).Some?
  }

  ghost function Evaluate(w: World, name: Name): (World, seq<Delivery>) {
    if name !in w.ctl.agents || w.ctl.agents[name].pending == map[] then (w, []) else
    var st := w.ctl.agents[name];
    if CarrierFor(w.ctl.reach, st.decl).None? || w.ctl.last <= st.acked then
      (WithAgent(w, name, st.(pending := map[])), [])
    else
      var earliest := LeastOf(st.pending);
      if earliest <= w.clock.now then
        var (after, delivery) := Dispatch(w, name);
        (after, [delivery])
      else if st.due.None? || earliest < st.due.value then
        var clock := CancelIf(w.clock, st.call);
        var generation := st.generation + 1;
        (WithAgent(w, name, st.(call := Some(clock.armed), due := Some(earliest), generation := generation))
           .(clock := Arm(clock, earliest, CloseWindow(name, generation))),
         [])
      else (w, [])
  }

  ghost function EvaluateAll(w: World, order: seq<Name>): (World, seq<Delivery>)
  {
    if order == [] then (w, [])
    else
      var (v, ds) := EvaluateAll(w, order[..|order| - 1]);
      var (u, es) := Evaluate(v, order[|order| - 1]);
      (u, ds + es)
  }

  // A write's notifications

  function Hears(r: Record, kinds: map<Region, Kind>, region: Region, writer: Name, agent: Name): bool {
    && agent in r.agents && agent != writer
    && region in kinds && Wants(r.agents[agent].subs, region, kinds[region])
  }

  ghost function WhoHears(r: Record, kinds: map<Region, Kind>, region: Region, writer: Name): set<Name> {
    set a | a in r.agents && Hears(r, kinds, region, writer, a)
  }

  // A change an agent is to hear of: one it wants and did not make.
  predicate Concerns(e: Entry, kinds: map<Region, Kind>, subs: Option<set<Region>>, agent: Name) {
    e.writer != Some(agent) && e.region in kinds && Wants(subs, e.region, kinds[e.region])
  }

  // The regions of the changes in (lo, hi] an agent is to hear of.
  ghost function Changed(
    log: seq<Entry>, lo: nat, hi: nat, kinds: map<Region, Kind>, subs: Option<set<Region>>, agent: Name): set<Region>
    requires hi <= |log|
  {
    set i | lo <= i < hi && Concerns(log[i], kinds, subs, agent) :: log[i].region
  }

  ghost predicate ReachableElsewhere(w: World, agent: Name) {
    && agent in w.rec.agents && agent !in w.ctl.agents
    && w.rec.agents[agent].addr.Some? && w.ctl.last > w.rec.agents[agent].acked
  }

  ghost function Elsewhere(w: World): Name -> bool { (a: Name) => ReachableElsewhere(w, a) }

  ghost function ReachOne(w: World, agent: Name, hi: nat): (World, seq<Delivery>)
  {
    if agent !in w.rec.agents || w.rec.agents[agent].addr.None? || hi > |w.rec.log| then (w, []) else
    var declared := w.rec.agents[agent];
    var regions := Changed(w.rec.log, declared.acked, hi, w.ctl.kinds, declared.subs, agent);
    if regions == {} then (w, [])
    else
      (w.(rec := MarkNotified(w.rec, agent, w.ctl.last)),
       [Delivery(Transport(declared.addr.value),
                 Notification(w.ctl.last, agent, declared.acked + 1, w.ctl.last, regions))])
  }

  ghost function ReachAll(w: World, owed: seq<Name>, hi: nat): (World, seq<Delivery>)
  {
    if owed == [] then (w, [])
    else
      var (v, ds) := ReachAll(w, owed[..|owed| - 1], hi);
      var (u, es) := ReachOne(v, owed[|owed| - 1], hi);
      (u, ds + es)
  }

  ghost function AnsweredBy(r: Record, owed: seq<Name>): map<Name, nat> {
    map a | a in owed && a in r.agents :: r.agents[a].acked
  }

  // Agents this process holds no callable for, reached by address. A region
  // with a window is left to the relay.
  ghost function ReachRest(w: World, hearers: seq<Name>, window: Duration): (World, seq<Delivery>) {
    var owed := Filter(hearers, Elsewhere(w));
    if !w.ctl.reach || window > 0 || owed == [] then (w, [])
    else
      assert owed[0] in owed && Elsewhere(w)(owed[0]) && owed[0] in AnsweredBy(w.rec, owed);
      ReachAll(w, owed, Min(|w.rec.log|, LeastOf(AnsweredBy(w.rec, owed)) + TAIL))
  }

  ghost function Filter<T(!new)>(s: seq<T>, keep: T -> bool): (kept: seq<T>)
    ensures forall x :: x in kept <==> x in s && keep(x)
  {
    if s == [] then []
    else if keep(s[|s| - 1]) then Filter(s[..|s| - 1], keep) + [s[|s| - 1]]
    else Filter(s[..|s| - 1], keep)
  }

  // One held agent hearing of a change this process just sequenced.
  ghost function Note(w: World, name: Name, region: Region, writer: Name): (World, seq<Delivery>) {
    if name !in w.ctl.agents || region !in w.ctl.kinds || region !in w.ctl.windows then (w, [])
    else if name == writer || !Wants(w.ctl.agents[name].decl.subs, region, w.ctl.kinds[region]) then (w, [])
    else
      var st := w.ctl.agents[name];
      var due := w.clock.now + w.ctl.windows[region];
      Evaluate(WithAgent(w, name, st.(pending := AddDue(st.pending, region, due))), name)
  }

  ghost function NoteAll(w: World, order: seq<Name>, region: Region, writer: Name): (World, seq<Delivery>)
  {
    if order == [] then (w, [])
    else
      var (v, ds) := NoteAll(w, order[..|order| - 1], region, writer);
      var (u, es) := Note(v, order[|order| - 1], region, writer);
      (u, ds + es)
  }

  datatype Proposal =
    | LevelWrite(region: Region, content: Content)
    | PremiseWrite(region: Region, content: Content, expected: int)

  function Put(r: Record, p: Proposal, key: Option<Key>, writer: Name, notify: set<Name>): (Record, Answer) {
    match p
    case LevelWrite(level, content) => Append(r, level, content, key, Some(writer), notify)
    case PremiseWrite(premise, value, expected) => Set(r, premise, value, expected, key, Some(writer), notify)
  }

  // The sequencing block of a write: the gate, the store, and what the write
  // set off. `hearers` and `order` are the orders two dicts were gone through.
  ghost function Sequence(
    w: World, p: Proposal, key: Option<Key>, writer: Name, hearers: seq<Name>, order: seq<Name>):
    (World, seq<Delivery>, Result)
    requires p.region in w.ctl.windows
  {
    if w.ctl.outcome.Some? then (w, [], Rejected(RunClosed))
    else
      var notify := WhoHears(w.rec, w.ctl.kinds, p.region, writer);
      var (rec, answer) := Put(w.rec, p, key, writer, notify);
      match answer
      case Refused(error) => (w, [], Raised(error))
      case Conflict(current) => (w, [], Conflicted(current))
      case Done(written) =>
        if written.repeated then (w, [], Accepted(written))
        else
          var (v, ds) := ReachRest(w.(rec := rec, ctl := w.ctl.(last := written.sequence)),
                                   hearers, w.ctl.windows[p.region]);
          var (u, es) := NoteAll(v, order, p.region, writer);
          (u, ds + es, Accepted(written))
  }

  // What a write is refused for before its proposal is put to admission.
  function Refuses(ctl: Control, p: Proposal): Option<Result> {
    if ctl.outcome.Some? then Some(Rejected(RunClosed))
    else if p.region !in ctl.kinds then Some(Raised(Undeclared))
    else if ctl.kinds[p.region] != (if p.LevelWrite? then LevelKind else PremiseKind) then Some(Raised(WrongKind))
    else None
  }

  // The levels a writer may write to, or nothing where it may write to any.
  function MayWriteTo(w: World, writer: Name): Option<set<Region>> {
    if writer in w.ctl.agents then w.ctl.agents[writer].decl.writes else ProgressOf(w.rec, writer).writes
  }

  // A whole write with nothing else in between: the refusals, the permission,
  // the admission rule's verdict, the sequencing block, and whether what came
  // of it is an event.
  ghost function WholeWrite(
    w: World, p: Proposal, key: Option<Key>, writer: Name, admitted: bool, hearers: seq<Name>, order: seq<Name>):
    (World, seq<Delivery>, Result, bool)
    requires w.ctl.kinds.Keys == w.ctl.windows.Keys
  {
    if Refuses(w.ctl, p).Some? then (w, [], Refuses(w.ctl, p).value, false)
    else if p.LevelWrite? && MayWriteTo(w, writer).Some? && p.region !in MayWriteTo(w, writer).value then
      (w, [], Rejected(NotPermitted), false)
    else if !admitted then (w, [], Rejected(Admission), true)
    else
      var (v, ds, result) := Sequence(w, p, key, writer, hearers, order);
      (v, ds, result, !result.Raised? && (result.Accepted? ==> !result.written.repeated))
  }

  // Registration

  // What a declaration is refused for.
  datatype RegistrationError = Closed | SubscribesUndeclared | WritesUndeclared | WritesPremise

  function RefusesAgent(ctl: Control, decl: Declaration): Option<RegistrationError> {
    if ctl.outcome.Some? then Some(Closed)
    else if decl.subs.Some? && !(decl.subs.value <= ctl.kinds.Keys) then Some(SubscribesUndeclared)
    else if decl.writes.Some? && !(decl.writes.value <= ctl.kinds.Keys) then Some(WritesUndeclared)
    else if decl.writes.Some? && !forall region :: region in decl.writes.value ==> ctl.kinds[region] == LevelKind
    then Some(WritesPremise)
    else None
  }

  ghost function Joining(w: World, decl: Declaration): AgentState
    requires w.ctl.kinds.Keys == w.ctl.windows.Keys
  {
    var answered := ProgressOf(w.rec, decl.name).acked;
    AgentState(decl, answered, answered,
      map r | r in w.ctl.kinds && Wants(decl.subs, r, w.ctl.kinds[r]) && Writes(w.rec.log, r) > 0 ::
        (if w.ctl.kinds[r] == PremiseKind then w.clock.now + w.ctl.windows[r] else w.clock.now),
      None, None, 0)
  }

  ghost function Join(w: World, decl: Declaration): World
    requires w.ctl.kinds.Keys == w.ctl.windows.Keys
  {
    var returning := if decl.name in w.ctl.agents then w.ctl.agents[decl.name].call else None;
    World(w.ctl.(agents := w.ctl.agents[decl.name := Joining(w, decl)]),
          CancelIf(w.clock, returning),
          DeclareAgent(w.rec, decl.name, decl.subs, decl.writes, decl.addr))
  }

  ghost function Register(w: World, decl: Declaration): (World, seq<Delivery>)
    requires w.ctl.kinds.Keys == w.ctl.windows.Keys
  {
    Evaluate(Join(w, decl), decl.name)
  }

  // Acknowledgment, after the store's own step

  function AckHere(w: World, agent: Name, through: int): World {
    if agent !in w.ctl.agents then w
    else WithAgent(w, agent, w.ctl.agents[agent].(acked := Max(w.ctl.agents[agent].acked, through)))
  }

  // Polling

  // Whether a poll or a relay adds this change to an agent's pending set. A
  // relay is not bounded by what this process believes it told the agent.
  predicate Adds(ctl: Control, log: seq<Entry>, n: nat, st: AgentState, relaying: bool)
    requires 1 <= n <= |log|
  {
    (relaying || n > st.notified) && Concerns(log[n - 1], ctl.kinds, st.decl.subs, st.decl.name)
  }

  // When a polled change falls due: what is left of its window on the
  // store's clock, counted from this process's.
  function DueOf(w: World, e: Entry): Instant
    requires e.region in w.ctl.windows
  {
    w.clock.now + Max(e.at + w.ctl.windows[e.region] - w.rec.now, 0)
  }

  function AddTail(w: World, st: AgentState, lo: nat, hi: nat, relaying: bool): (after: AgentState)
    requires hi <= |w.rec.log| && w.ctl.kinds.Keys == w.ctl.windows.Keys
    ensures after == st.(pending := after.pending)
  {
    if hi <= lo then st
    else
      var before := AddTail(w, st, lo, hi - 1, relaying);
      if Adds(w.ctl, w.rec.log, hi, st, relaying)
      then before.(pending := AddDue(before.pending, w.rec.log[hi - 1].region, DueOf(w, w.rec.log[hi - 1])))
      else before
  }

  ghost function Considered(ctl: Control, only: Option<set<Name>>): set<Name> {
    set a | a in ctl.agents && (only.Some? ==> a in only.value)
  }

  ghost function FloorOf(ctl: Control, considered: set<Name>): nat
    requires considered != {} && considered <= ctl.agents.Keys
  {
    var answered := map a | a in considered :: ctl.agents[a].acked;
    assert answered.Keys == considered;
    LeastOf(answered)
  }

  // Every considered agent's pending set with one tail added to it.
  function Tailed(w: World, considered: set<Name>, lo: nat, hi: nat, relaying: bool): map<Name, AgentState>
    requires hi <= |w.rec.log| && w.ctl.kinds.Keys == w.ctl.windows.Keys
  {
    map a | a in w.ctl.agents ::
      if a in considered then AddTail(w, w.ctl.agents[a], lo, hi, relaying) else w.ctl.agents[a]
  }

  ghost function TakeTail(w: World, only: Option<set<Name>>): World
    requires w.ctl.kinds.Keys == w.ctl.windows.Keys
  {
    var considered := Considered(w.ctl, only);
    if considered == {} then w
    else
      var lo := FloorOf(w.ctl, considered);
      var hi := Min(|w.rec.log|, lo + TAIL);
      if hi <= lo then w
      else
        w.(ctl := w.ctl.(last := Max(w.ctl.last, hi), agents := Tailed(w, considered, lo, hi, only.Some?)))
  }

  ghost function Poll(w: World, order: seq<Name>): (World, seq<Delivery>)
    requires w.ctl.kinds.Keys == w.ctl.windows.Keys
  {
    if w.ctl.outcome.Some? || w.rec.run.None? then (w, [])
    else if w.rec.run.value.closed.Some? then (Close(w, OutcomeOf(w.rec.run.value)), [])
    else EvaluateAll(TakeTail(w, None), order)
  }

  // The relay's second half: the agents this process holds that a row is owed to.
  ghost function RelayHeld(w: World, owed: seq<Name>): (World, seq<Delivery>)
    requires w.ctl.kinds.Keys == w.ctl.windows.Keys
  {
    if w.ctl.outcome.Some? || owed == [] || w.rec.run.None? then (w, [])
    else EvaluateAll(TakeTail(w, Some(set a | a in owed)), owed)
  }

  // Timers

  ghost function CloseWindowFires(w: World, name: Name, generation: nat): (World, seq<Delivery>) {
    if name !in w.ctl.agents || w.ctl.outcome.Some? || w.ctl.agents[name].generation != generation then (w, [])
    else
      var st := w.ctl.agents[name];
      var lapsed := WithAgent(w, name, st.(call := None, due := None, generation := st.generation + 1));
      if st.pending == map[] || CarrierFor(w.ctl.reach, st.decl).None? then (lapsed, [])
      else
        var (after, delivery) := Dispatch(lapsed, name);
        (after, [delivery])
  }

  // Where a predicate is to be asked, the lock is let go before it is.
  ghost function IdleFires(w: World, generation: nat): World {
    if w.ctl.outcome.Some? || generation != w.ctl.idleGeneration || w.ctl.judged then w
    else Close(w, Settled(Unfinished(w.rec)))
  }

  ghost function IdleJudged(w: World, generation: nat, complete: bool): World {
    if w.ctl.outcome.Some? || generation != w.ctl.idleGeneration then w
    else if complete then Close(w, Settled(Unfinished(w.rec)))
    else TouchIdle(w)
  }

  ghost function WallFires(w: World): World {
    if w.ctl.outcome.Some? then w else Close(w, WallClockExpired(Unfinished(w.rec)))
  }

  function Quiet(st: AgentState): AgentState { Unarmed(st).(pending := map[]) }

  ghost function Handles(ctl: Control): set<nat> {
    (set a | a in ctl.agents && ctl.agents[a].call.Some? :: ctl.agents[a].call.value)
    + (if ctl.wallCall.Some? then {ctl.wallCall.value} else {})
    + (if ctl.idleCall.Some? then {ctl.idleCall.value} else {})
  }

  // The store decides who closes; a caller that loses adopts what it wrote.
  ghost function Close(w: World, outcome: Outcome): World {
    if w.ctl.outcome.Some? then w
    else
      var (rec, won) := CloseRun(w.rec, ClosedAsOf(outcome), ReasonOf(outcome), outcome.unfinished);
      var held := if !won && rec.run.Some? && rec.run.value.closed.Some? then OutcomeOf(rec.run.value) else outcome;
      World(w.ctl.(outcome := Some(held), idleCall := None, idleGeneration := w.ctl.idleGeneration + 1,
                   agents := map a | a in w.ctl.agents :: Quiet(w.ctl.agents[a])),
            CancelAll(w.clock, Handles(w.ctl)),
            rec)
  }

  // What a closing leaves, won or lost: a Control that held no outcome holds
  // the one the record holds, nothing is pending or armed for any agent, and a
  // record already closed is as it was.
  ghost predicate Concluded(w: World, v: World) {
    && (w.ctl.outcome.Some? ==> v == w)
    && (w.ctl.outcome.None? ==>
          && v.ctl.outcome.Some?
          && (v.rec.run.Some? ==>
                v.rec.run.value.closed.Some? && v.ctl.outcome.value == OutcomeOf(v.rec.run.value))
          && (forall a :: a in v.ctl.agents ==>
                v.ctl.agents[a].pending == map[] && v.ctl.agents[a].call.None?)
          && (!w.rec.Open() ==> v.rec == w.rec))
  }

  lemma CloseConcludes(w: World, outcome: Outcome)
    ensures Concluded(w, Close(w, outcome))
    ensures w.ctl.outcome.None? && w.rec.Open() ==> Close(w, outcome).ctl.outcome == Some(outcome)
  {
  }

  // One agent's part of a relay's pass over the addresses, from what the pass
  // read of the rows, the declarations and the board.
  ghost function RelayOne(
    r: Record, kinds: map<Region, Kind>, rows: map<Name, nat>, declared: map<Name, Progress>, board: seq<Entry>,
    name: Name, returned: bool): Record
  {
    if name !in rows || name !in declared || declared[name].addr.None? then r
    else if Changed(board, declared[name].acked, |board|, kinds, declared[name].subs, name) == {} then
      MarkSent(r, name, rows[name])
    else if returned then MarkSent(MarkNotified(r, name, |board|), name, |board|)
    else MarkNotified(r, name, |board|)
  }

  // Whether a pass sends to an agent: it has an address, and something in the
  // part of the board read is for it and since its answer.
  ghost predicate RelaySends(
    kinds: map<Region, Kind>, declared: map<Name, Progress>, board: seq<Entry>, name: Name)
  {
    && name in declared && declared[name].addr.Some?
    && Changed(board, declared[name].acked, |board|, kinds, declared[name].subs, name) != {}
  }

  ghost function RelayAll(
    r: Record, kinds: map<Region, Kind>, rows: map<Name, nat>, declared: map<Name, Progress>, board: seq<Entry>,
    order: seq<Name>, returned: Name -> bool): Record
  {
    if order == [] then r
    else
      var name := order[|order| - 1];
      RelayOne(RelayAll(r, kinds, rows, declared, board, order[..|order| - 1], returned),
               kinds, rows, declared, board, name, returned(name))
  }

  // Delivery: each call made in turn, and the row marked where the call sent.

  function MarkDelivered(r: Record, d: Delivery, sent: bool): Record {
    if sent && !d.carrier.MarksSent() then MarkSent(r, d.note.agent, d.note.to) else r
  }

  function DeliverAll(r: Record, ds: seq<Delivery>, sends: Delivery -> bool): Record {
    if ds == [] then r
    else MarkDelivered(DeliverAll(r, ds[..|ds| - 1], sends), ds[|ds| - 1], sends(ds[|ds| - 1]))
  }

  // A new Control over a record that holds the regions it was given.
  function Begin(
    kinds: map<Region, Kind>, windows: map<Region, Duration>, wall: Duration, idle: Duration,
    reach: bool, judged: bool, clock: Clock<TimerCall>, rec: Record): World
  {
    World(Control(kinds, windows, idle, reach, judged, |rec.log|, map[], None, 0, None, Some(clock.armed)),
          Arm(clock, clock.now + wall, WallClockPassed),
          OpenRun(rec, wall, idle))
  }
}
