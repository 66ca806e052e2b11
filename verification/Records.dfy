// What a board's record is, independently of how any store lays it out.
//
// A record is one log. Levels, premise values, versions, idempotency keys and
// the counter are all functions of that log, defined here by scanning it; the
// stores keep indexes, counters and tables instead, and are proved to answer
// as this module does.

module Values {
  datatype Option<+T> = None | Some(value: T)

  type Region = string
  type Name = string
  type Key = string
  type Address = string
  // Content is carried as the JSON text a store holds.
  type Content = string
  // Instants and durations are counted in the clock's smallest unit.
  type Instant = int
  type Duration = nat

  function Max(a: int, b: int): int { if a >= b then a else b }
  function Min(a: int, b: int): int { if a <= b then a else b }

  function Prefix<T>(s: seq<T>, limit: Option<nat>): seq<T> {
    if limit.Some? && limit.value < |s| then s[..limit.value] else s
  }

  // Some order in which a set is gone through. Python goes through a dict in
  // insertion order or through a sorted list; nothing here depends on which.
  ghost predicate Enumerates<T(!new)>(order: seq<T>, s: set<T>) {
    && (forall x :: x in order <==> x in s)
    && (forall i, j :: 0 <= i < j < |order| ==> order[i] != order[j])
  }
}

module Records {
  import opened Values

  datatype Kind = LevelKind | PremiseKind

  // One write, at the position in the log that is its sequence number less one.
  datatype Entry = Entry(
    region: Region, content: Content, version: Option<nat>,
    key: Option<Key>, writer: Option<Name>, at: Instant)

  datatype Contribution = Contribution(
    sequence: nat, content: Content, writer: Option<Name>, at: Instant)
  datatype BoardChange = BoardChange(
    sequence: nat, region: Region, content: Content, writer: Option<Name>, at: Instant)
  datatype PremiseState = PremiseState(
    value: Content, version: nat, writer: Option<Name>, at: Instant)

  datatype Written = Written(sequence: nat, version: Option<nat>, repeated: bool)
  datatype Error = Undeclared | WrongKind | KeyReused | UnsetPremise | Duplicate
  datatype Answer = Done(written: Written) | Conflict(current: nat) | Refused(error: Error)
  datatype Read<+T> = Found(value: T) | Absent(error: Error)

  // What the run records about one agent.
  datatype Progress = Progress(
    notified: nat, acked: nat,
    subs: Option<set<Region>>, writes: Option<set<Region>>, addr: Option<Address>)
  {
    predicate Outstanding() { notified > acked }
  }

  datatype ClosedAs = AsSettled | AsWallClockExpired | AsAborted
  datatype Run = Run(
    idle: Instant, wall: Instant,
    closed: Option<ClosedAs>, reason: Option<string>, unfinished: set<Name>)

  datatype Record = Record(
    now: Instant,
    kinds: map<Region, Kind>,
    log: seq<Entry>,
    run: Option<Run>,
    agents: map<Name, Progress>,
    outbox: set<(Name, nat)>)
  {
    predicate Open() { run.Some? && run.value.closed.None? }
  }

  function Blank(now: Instant): Record { Record(now, map[], [], None, map[], {}) }

  // Derived from the log

  function Writes(log: seq<Entry>, region: Region): nat {
    if log == [] then 0
    else Writes(log[..|log| - 1], region) + (if log[|log| - 1].region == region then 1 else 0)
  }

  function LevelOf(log: seq<Entry>, level: Region): seq<Contribution> {
    if log == [] then []
    else
      var last := log[|log| - 1];
      LevelOf(log[..|log| - 1], level)
      + (if last.region == level then [Contribution(|log|, last.content, last.writer, last.at)] else [])
  }

  function PremiseOf(log: seq<Entry>, premise: Region): Option<PremiseState> {
    if log == [] then None
    else
      var last := log[|log| - 1];
      if last.region == premise
      then Some(PremiseState(last.content, Writes(log, premise), last.writer, last.at))
      else PremiseOf(log[..|log| - 1], premise)
  }

  function ChangesOf(log: seq<Entry>): (changes: seq<BoardChange>)
    ensures |changes| == |log|
    ensures forall i :: 0 <= i < |log| ==> changes[i].sequence == i + 1
  {
    seq(|log|, i requires 0 <= i < |log| =>
      BoardChange(i + 1, log[i].region, log[i].content, log[i].writer, log[i].at))
  }

  // The sequence of the last write under a key, or zero where there is none.
  function KeyedAt(log: seq<Entry>, key: Key): (n: nat)
    ensures n <= |log|
    ensures n > 0 ==> log[n - 1].key == Some(key)
    ensures n == 0 ==> forall i :: 0 <= i < |log| ==> log[i].key != Some(key)
  {
    if log == [] then 0
    else if log[|log| - 1].key == Some(key) then |log|
    else KeyedAt(log[..|log| - 1], key)
  }

  function AtOrAfter(found: seq<Contribution>, from: int): seq<Contribution> {
    if found == [] then []
    else AtOrAfter(found[..|found| - 1], from)
         + (if found[|found| - 1].sequence >= from then [found[|found| - 1]] else [])
  }

  // The board from a bound needs no scan, because its sequences have no gap.
  function ChangesFrom(log: seq<Entry>, from: int): seq<BoardChange> {
    var skipped := Max(from, 1) - 1;
    if skipped >= |log| then [] else ChangesOf(log)[skipped..]
  }

  // Operations

  function Requires(r: Record, name: Region, kind: Kind): Option<Error> {
    if name !in r.kinds then Some(Undeclared)
    else if r.kinds[name] != kind then Some(WrongKind)
    else None
  }

  // What a key already produced, where it is not new.
  function Recall(log: seq<Entry>, key: Option<Key>, region: Region): Option<Answer> {
    if key.None? || KeyedAt(log, key.value) == 0 then None
    else
      var n := KeyedAt(log, key.value);
      if log[n - 1].region != region then Some(Refused(KeyReused))
      else Some(Done(Written(n, log[n - 1].version, true)))
  }

  function Owing(notify: set<Name>, through: nat): set<(Name, nat)> {
    set a | a in notify :: (a, through)
  }

  function Declare(r: Record, name: Region, kind: Kind): (Record, Option<Error>) {
    if name in r.kinds then (r, Some(Duplicate))
    else (r.(kinds := r.kinds[name := kind]), None)
  }

  function Append(
    r: Record, level: Region, content: Content,
    key: Option<Key>, writer: Option<Name>, notify: set<Name>): (Record, Answer)
  {
    var wrong := Requires(r, level, LevelKind);
    if wrong.Some? then (r, Refused(wrong.value))
    else if Recall(r.log, key, level).Some? then (r, Recall(r.log, key, level).value)
    else
      var n := |r.log| + 1;
      (r.(log := r.log + [Entry(level, content, None, key, writer, r.now)],
          outbox := r.outbox + Owing(notify, n)),
       Done(Written(n, None, false)))
  }

  function Set(
    r: Record, premise: Region, value: Content, expected: int,
    key: Option<Key>, writer: Option<Name>, notify: set<Name>): (Record, Answer)
  {
    var wrong := Requires(r, premise, PremiseKind);
    if wrong.Some? then (r, Refused(wrong.value))
    else if Recall(r.log, key, premise).Some? then (r, Recall(r.log, key, premise).value)
    else
      var current := Writes(r.log, premise);
      if expected != current then (r, Conflict(current))
      else
        var n := |r.log| + 1;
        (r.(log := r.log + [Entry(premise, value, Some(current + 1), key, writer, r.now)],
            outbox := r.outbox + Owing(notify, n)),
         Done(Written(n, Some(current + 1), false)))
  }

  function ReadLevel(r: Record, level: Region, from: int, limit: Option<nat>): Read<seq<Contribution>> {
    var wrong := Requires(r, level, LevelKind);
    if wrong.Some? then Absent(wrong.value)
    else Found(Prefix(AtOrAfter(LevelOf(r.log, level), from), limit))
  }

  function ReadPremise(r: Record, premise: Region): Read<PremiseState> {
    var wrong := Requires(r, premise, PremiseKind);
    if wrong.Some? then Absent(wrong.value)
    else if PremiseOf(r.log, premise).None? then Absent(UnsetPremise)
    else Found(PremiseOf(r.log, premise).value)
  }

  function ReadBoard(r: Record, from: int, limit: Option<nat>): seq<BoardChange> {
    Prefix(ChangesFrom(r.log, from), limit)
  }

  // The run, its agents and its outbox

  function OpenRun(r: Record, wall: Duration, idle: Duration): Record {
    r.(run := Some(Run(r.now + idle, r.now + wall, None, None, {})))
  }

  function TouchRun(r: Record, idle: Duration): Record {
    if !r.Open() then r else r.(run := Some(r.run.value.(idle := r.now + idle)))
  }

  function CloseRun(
    r: Record, closedAs: ClosedAs, reason: Option<string>, unfinished: set<Name>): (Record, bool)
  {
    if !r.Open() then (r, false)
    else
      (r.(run := Some(r.run.value.(closed := Some(closedAs), reason := reason, unfinished := unfinished)),
          agents := map[], outbox := {}),
       true)
  }

  const Unknown := Progress(0, 0, None, None, None)

  function ProgressOf(r: Record, agent: Name): Progress {
    if agent in r.agents then r.agents[agent] else Unknown
  }

  function DeclareAgent(
    r: Record, agent: Name,
    subs: Option<set<Region>>, writes: Option<set<Region>>, addr: Option<Address>): Record
  {
    r.(agents := r.agents[agent := ProgressOf(r, agent).(subs := subs, writes := writes, addr := addr)])
  }

  function MarkNotified(r: Record, agent: Name, through: nat): Record {
    var held := ProgressOf(r, agent);
    r.(agents := r.agents[agent := held.(notified := Max(held.notified, through))])
  }

  function Acknowledge(r: Record, agent: Name, through: int): (Record, Option<Progress>) {
    if agent !in r.agents || through > r.agents[agent].notified then (r, None)
    else
      var held := r.agents[agent];
      (r.(agents := r.agents[agent := held.(acked := Max(held.acked, through))]), Some(held))
  }

  function MarkSent(r: Record, agent: Name, through: int): Record {
    r.(outbox := set row | row in r.outbox && !(row.0 == agent && row.1 <= through))
  }

  function Unfinished(r: Record): set<Name> {
    set a | a in r.agents && r.agents[a].Outstanding()
  }

  // The same record with some time gone by on the store's clock.
  function Aged(r: Record, span: nat): Record { r.(now := r.now + span) }

  // A cursor that moved rose, and only the agent's own may have moved.
  ghost predicate OnlyRises(r: Record, s: Record, agent: Name) {
    && s == r.(agents := s.agents) && s.agents.Keys == r.agents.Keys + {agent}
    && (forall a :: a in r.agents && a != agent ==> s.agents[a] == r.agents[a])
    && s.agents[agent] == ProgressOf(r, agent).(notified := s.agents[agent].notified, acked := s.agents[agent].acked)
    && s.agents[agent].notified >= ProgressOf(r, agent).notified
    && s.agents[agent].acked >= ProgressOf(r, agent).acked
  }

  // The limit that has passed on an open run, judged on the store's clock.
  function Expired(r: Record): Option<ClosedAs> {
    if !r.Open() then None
    else if r.now >= r.run.value.wall then Some(AsWallClockExpired)
    else if r.now >= r.run.value.idle then Some(AsSettled)
    else None
  }

  // The first `limit` rows nothing has sent, earliest first.
  ghost predicate Unsent(r: Record, limit: nat, rows: seq<(Name, nat)>) {
    && |rows| == Min(limit, |r.outbox|)
    && (forall i :: 0 <= i < |rows| ==> rows[i] in r.outbox)
    && (forall i, j :: 0 <= i < j < |rows| ==> rows[i] != rows[j] && rows[i].1 <= rows[j].1)
    && (forall i, row :: 0 <= i < |rows| && row in r.outbox && row !in rows ==> rows[i].1 <= row.1)
  }

  ghost predicate Versioned(kinds: map<Region, Kind>, log: seq<Entry>, i: nat)
    requires i < |log|
  {
    && log[i].region in kinds
    && log[i].version ==
       if kinds[log[i].region] == PremiseKind then Some(Writes(log[..i + 1], log[i].region)) else None
  }

  // What holds of every record a store can reach: each entry names a declared
  // region, a premise entry carries the number of writes up to it as its
  // version and a level entry carries none, one key names one entry, and a
  // row names a write.
  ghost predicate OneLog(r: Record) {
    && LogSound(r.kinds, r.log)
    && RowsSound(r.outbox, |r.log|)
  }

  ghost predicate LogSound(kinds: map<Region, Kind>, log: seq<Entry>) {
    && (forall i :: 0 <= i < |log| ==> Versioned(kinds, log, i))
    && (forall i, j :: 0 <= i < j < |log| && log[i].key.Some? ==> log[i].key != log[j].key)
  }

  ghost predicate RowsSound(outbox: set<(Name, nat)>, n: nat) {
    forall row :: row in outbox ==> 1 <= row.1 <= n
  }

  // Every operation keeps it

  lemma {:induction false} WritesAppend(log: seq<Entry>, e: Entry, region: Region)
    ensures Writes(log + [e], region) == Writes(log, region) + (if e.region == region then 1 else 0)
    ensures LevelOf(log + [e], region) ==
            LevelOf(log, region)
            + (if e.region == region then [Contribution(|log| + 1, e.content, e.writer, e.at)] else [])
    ensures PremiseOf(log + [e], region) ==
            if e.region == region
            then Some(PremiseState(e.content, Writes(log, region) + 1, e.writer, e.at))
            else PremiseOf(log, region)
  {
    assert (log + [e])[..|log + [e]| - 1] == log;
  }

  lemma {:induction false} KeyedAppend(log: seq<Entry>, e: Entry, key: Key)
    ensures KeyedAt(log + [e], key) == if e.key == Some(key) then |log| + 1 else KeyedAt(log, key)
  {
    assert (log + [e])[..|log + [e]| - 1] == log;
  }

  lemma OneLogExtends(r: Record, e: Entry, notify: set<Name>)
    requires OneLog(r)
    requires e.region in r.kinds
    requires e.version ==
             if r.kinds[e.region] == PremiseKind then Some(Writes(r.log, e.region) + 1) else None
    requires e.key.Some? ==> KeyedAt(r.log, e.key.value) == 0
    ensures OneLog(r.(log := r.log + [e], outbox := r.outbox + Owing(notify, |r.log| + 1)))
  {
    var log := r.log + [e];
    forall i | 0 <= i < |log| ensures Versioned(r.kinds, log, i) {
      if i < |r.log| {
        assert Versioned(r.kinds, r.log, i);
        assert log[..i + 1] == r.log[..i + 1];
      } else {
        WritesAppend(r.log, e, e.region);
        assert log[..i + 1] == log;
      }
    }
  }

  lemma AppendKeepsOneLog(
    r: Record, level: Region, content: Content, key: Option<Key>, writer: Option<Name>, notify: set<Name>)
    requires OneLog(r)
    ensures OneLog(Append(r, level, content, key, writer, notify).0)
  {
    if Append(r, level, content, key, writer, notify).0 != r {
      OneLogExtends(r, Entry(level, content, None, key, writer, r.now), notify);
    }
  }

  lemma SetKeepsOneLog(
    r: Record, premise: Region, value: Content, expected: int,
    key: Option<Key>, writer: Option<Name>, notify: set<Name>)
    requires OneLog(r)
    ensures OneLog(Set(r, premise, value, expected, key, writer, notify).0)
  {
    if Set(r, premise, value, expected, key, writer, notify).0 != r {
      OneLogExtends(r, Entry(premise, value, Some(Writes(r.log, premise) + 1), key, writer, r.now), notify);
    }
  }

  lemma DeclareKeepsOneLog(r: Record, name: Region, kind: Kind)
    requires OneLog(r)
    ensures OneLog(Declare(r, name, kind).0)
  {
    forall i | 0 <= i < |r.log| ensures Versioned(Declare(r, name, kind).0.kinds, r.log, i) {
      assert Versioned(r.kinds, r.log, i);
    }
  }

  // A premise has a value exactly when it has been written, and the version a
  // read answers with is the number of its writes.
  lemma {:induction false} PremiseVersion(log: seq<Entry>, premise: Region)
    ensures PremiseOf(log, premise).None? <==> Writes(log, premise) == 0
    ensures PremiseOf(log, premise).Some? ==>
              PremiseOf(log, premise).value.version == Writes(log, premise)
  {
    if log != [] {
      PremiseVersion(log[..|log| - 1], premise);
    }
  }
}
