// The in-memory store: one board as `_BoardState` holds it, with one list of
// changes and the indexes kept beside it, each brought up to date in place.
//
// `log` is the record the fields stand for. `Valid` says how each index is
// read off it, and every operation is proved to do to the record what
// `Records` says and to answer what `Records` answers.

module MemoryStores {
  import opened Values
  import opened Records

  datatype RegionDeclaration = Level(name: Region) | Premise(name: Region)

  function KindOf(region: RegionDeclaration): Kind {
    if region.Level? then LevelKind else PremiseKind
  }

  // How each index is read off the log.
  ghost predicate LevelsIndexed(log: seq<Entry>, levels: map<Region, seq<Contribution>>) {
    forall level :: level in levels ==> levels[level] == LevelOf(log, level)
  }

  ghost predicate PremisesIndexed(log: seq<Entry>, premises: map<Region, Option<PremiseState>>) {
    forall premise :: premise in premises ==> premises[premise] == PremiseOf(log, premise)
  }

  ghost predicate KeysIndexed(log: seq<Entry>, keys: map<Key, (Region, Written)>) {
    && (forall key :: key in keys <==> KeyedAt(log, key) > 0)
    && (forall key :: key in keys ==> keys[key] == Remembered(log, KeyedAt(log, key)))
  }

  function Remembered(log: seq<Entry>, n: nat): (Region, Written)
    requires 0 < n <= |log|
  {
    (log[n - 1].region, Written(n, log[n - 1].version, false))
  }

  function KindsOf(
    levels: map<Region, seq<Contribution>>, premises: map<Region, Option<PremiseState>>): (kinds: map<Region, Kind>)
    ensures kinds.Keys == levels.Keys + premises.Keys
  {
    map name | name in levels.Keys + premises.Keys :: if name in levels then LevelKind else PremiseKind
  }

  function RowsOf(outbox: map<Name, set<nat>>): set<(Name, nat)> {
    set agent, through | agent in outbox && through in outbox[agent] :: (agent, through)
  }

  ghost predicate NoEmptyRow(outbox: map<Name, set<nat>>) {
    forall agent :: agent in outbox ==> outbox[agent] != {}
  }

  class InMemoryStore {
    // The store's clock. The environment moves it and no operation does.
    var now: Instant
    var sequence: nat
    var levels: map<Region, seq<Contribution>>
    var premises: map<Region, Option<PremiseState>>
    var changes: seq<BoardChange>
    var keys: map<Key, (Region, Written)>
    var run: Option<Run>
    var agents: map<Name, Progress>
    var outbox: map<Name, set<nat>>
    ghost var log: seq<Entry>

    ghost function Kinds(): map<Region, Kind>
      reads this`levels, this`premises
    {
      KindsOf(levels, premises)
    }

    ghost function Rows(): set<(Name, nat)>
      reads this`outbox
    {
      RowsOf(outbox)
    }

    ghost function Rec(): Record
      reads this
    {
      Record(now, Kinds(), log, run, agents, Rows())
    }

    ghost predicate Valid()
      reads this
    {
      && sequence == |log|
      && changes == ChangesOf(log)
      && levels.Keys !! premises.Keys
      && LevelsIndexed(log, levels)
      && PremisesIndexed(log, premises)
      && KeysIndexed(log, keys)
      && NoEmptyRow(outbox)
      && OneLog(Rec())
    }

    constructor (now: Instant)
      ensures Valid() && Rec() == Blank(now)
    {
      this.now := now;
      sequence, levels, premises, changes, keys := 0, map[], map[], [], map[];
      run, agents, outbox, log := None, map[], map[], [];
      new;
      BlankIsIndexed();
    }

    // The environment moving the clock.
    method SetClock(instant: Instant)
      requires Valid()
      modifies this`now
      ensures Valid()
      ensures Rec() == old(Rec()).(now := instant)
    {
      now := instant;
    }

    method Declare(region: RegionDeclaration) returns (refused: Option<Error>)
      requires Valid()
      modifies this
      ensures Valid()
      ensures (Rec(), refused) == Records.Declare(old(Rec()), region.name, KindOf(region))
    {
      hide LevelsIndexed, KeysIndexed, PremisesIndexed, LogSound, RowsSound, NoEmptyRow, RowsOf, ChangesOf;
      if region.name in levels || region.name in premises {
        return Some(Duplicate);
      }
      DeclareKeepsOneLog(Rec(), region.name, KindOf(region));
      RegionDeclared(Rec(), region.name, levels, premises);
      match region {
        case Level(name) => levels := levels[name := []];
        case Premise(name) => premises := premises[name := None];
      }
      assert Kinds() == old(Kinds())[region.name := KindOf(region)];
      return None;
    }

    method ReadRegions() returns (declared: map<Region, Kind>)
      ensures declared == Rec().kinds
    {
      return KindsOf(levels, premises);
    }

    method LevelContributions(name: Region) returns (found: Read<seq<Contribution>>)
      requires Valid()
      ensures found == match Requires(Rec(), name, LevelKind)
                       case Some(error) => Absent(error)
                       case None => Found(LevelOf(log, name))
    {
      if name in levels {
        return Found(levels[name]);
      }
      if name in premises {
        return Absent(WrongKind);
      }
      return Absent(Undeclared);
    }

    method StandingPremise(name: Region) returns (found: Read<Option<PremiseState>>)
      requires Valid()
      ensures found == match Requires(Rec(), name, PremiseKind)
                       case Some(error) => Absent(error)
                       case None => Found(PremiseOf(log, name))
    {
      if name in premises {
        return Found(premises[name]);
      }
      if name in levels {
        return Absent(WrongKind);
      }
      return Absent(Undeclared);
    }

    method AlreadyWritten(key: Option<Key>, region: Region) returns (done: Option<Answer>)
      requires Valid()
      ensures done == Recall(log, key, region)
      ensures done.None? ==> key.None? || key.value !in keys
    {
      if key.None? || key.value !in keys {
        return None;
      }
      var (named, written) := keys[key.value];
      if named != region {
        return Some(Refused(KeyReused));
      }
      return Some(Done(written.(repeated := true)));
    }

    method Enqueue(notify: set<Name>, through: nat)
      requires NoEmptyRow(outbox)
      modifies this`outbox
      ensures NoEmptyRow(outbox)
      ensures Rows() == old(Rows()) + Owing(notify, through)
    {
      var rest := notify;
      assert Owing({}, through) == {};
      while rest != {}
        invariant rest <= notify && NoEmptyRow(outbox)
        invariant Rows() == old(Rows()) + Owing(notify - rest, through)
      {
        var agent :| agent in rest;
        ghost var added := notify - rest;
        RowAdded(outbox, agent, through);
        outbox := outbox[agent := (if agent in outbox then outbox[agent] else {}) + {through}];
        rest := rest - {agent};
        assert notify - rest == added + {agent};
        assert Owing(added + {agent}, through) == Owing(added, through) + {(agent, through)};
      }
      assert notify - rest == notify;
    }

    method Append(
      level: Region, content: Content, key: Option<Key>, writer: Option<Name>, notify: set<Name>)
      returns (answer: Answer)
      requires Valid()
      modifies this`sequence, this`levels, this`changes, this`keys, this`outbox, this`log
      ensures Valid()
      ensures (Rec(), answer) == Records.Append(old(Rec()), level, content, key, writer, notify)
    {
      hide LevelsIndexed, PremisesIndexed, KeysIndexed, LogSound, RowsSound, NoEmptyRow, RowsOf, ChangesOf, Owing;
      hide LevelOf, PremiseOf, Writes, KeyedAt;
      var contributions := LevelContributions(level);
      if contributions.Absent? {
        return Refused(contributions.error);
      }
      var done := AlreadyWritten(key, level);
      if done.Some? {
        return done.value;
      }
      var n := sequence + 1;
      answer := Done(Written(n, None, false));
      AppendKeepsOneLog(Rec(), level, content, key, writer, notify);
      ghost var e := Entry(level, content, None, key, writer, now);
      LevelsExtend(log, e, levels);
      PremisesExtend(log, e, premises);
      levels := levels[level := contributions.value + [Contribution(n, content, writer, now)]];
      assert Kinds() == old(Kinds());
      Sequence(e, n, level, content, None, key, writer, notify);
    }

    method Set(
      premise: Region, value: Content, expected: int,
      key: Option<Key>, writer: Option<Name>, notify: set<Name>)
      returns (answer: Answer)
      requires Valid()
      modifies this`sequence, this`premises, this`changes, this`keys, this`outbox, this`log
      ensures Valid()
      ensures (Rec(), answer) == Records.Set(old(Rec()), premise, value, expected, key, writer, notify)
    {
      hide LevelsIndexed, PremisesIndexed, KeysIndexed, LogSound, RowsSound, NoEmptyRow, RowsOf, ChangesOf, Owing;
      hide LevelOf, PremiseOf, Writes, KeyedAt;
      var state := StandingPremise(premise);
      if state.Absent? {
        return Refused(state.error);
      }
      var done := AlreadyWritten(key, premise);
      if done.Some? {
        return done.value;
      }
      PremiseVersion(log, premise);
      var current := if state.value.None? then 0 else state.value.value.version;
      if expected != current {
        return Conflict(current);
      }
      var n := sequence + 1;
      answer := Done(Written(n, Some(current + 1), false));
      SetKeepsOneLog(Rec(), premise, value, expected, key, writer, notify);
      ghost var e := Entry(premise, value, Some(current + 1), key, writer, now);
      LevelsExtend(log, e, levels);
      PremisesExtend(log, e, premises);
      premises := premises[premise := Some(PremiseState(value, current + 1, writer, now))];
      assert Kinds() == old(Kinds());
      Sequence(e, n, premise, value, Some(current + 1), key, writer, notify);
    }

    // What both writes do once the region holds the entry: the change, the
    // key and the rows owed land with it.
    method Sequence(
      ghost e: Entry, n: nat, region: Region, content: Content, version: Option<nat>,
      key: Option<Key>, writer: Option<Name>, notify: set<Name>)
      requires e == Entry(region, content, version, key, writer, now)
      requires n == sequence + 1 == |log| + 1 && changes == ChangesOf(log)
      requires KeysIndexed(log, keys) && (key.None? || key.value !in keys)
      requires NoEmptyRow(outbox)
      modifies this`sequence, this`changes, this`keys, this`outbox, this`log
      ensures sequence == n && log == old(log) + [e] && changes == ChangesOf(log)
      ensures KeysIndexed(log, keys) && NoEmptyRow(outbox)
      ensures Rows() == old(Rows()) + Owing(notify, n)
    {
      hide LevelsIndexed, PremisesIndexed, KeysIndexed, LogSound, RowsSound, NoEmptyRow, RowsOf, ChangesOf, Owing;
      hide LevelOf, PremiseOf, Writes, KeyedAt;
      KeysExtend(log, e, keys);
      ChangesExtend(log, e);
      sequence := n;
      changes := changes + [BoardChange(n, region, content, writer, now)];
      if key.Some? {
        keys := keys[key.value := (region, Written(n, version, false))];
      }
      log := log + [e];
      Enqueue(notify, n);
    }

    method ReadLevel(level: Region, from: int, limit: Option<nat>) returns (found: Read<seq<Contribution>>)
      requires Valid()
      ensures found == Records.ReadLevel(Rec(), level, from, limit)
    {
      var contributions := LevelContributions(level);
      if contributions.Absent? {
        return Absent(contributions.error);
      }
      var all, kept, i := contributions.value, [], 0;
      while i < |all|
        invariant 0 <= i <= |all|
        invariant kept == AtOrAfter(all[..i], from)
      {
        if all[i].sequence >= from {
          kept := kept + [all[i]];
        }
        i := i + 1;
        assert all[..i][..i - 1] == all[..i - 1];
      }
      assert all[..i] == all;
      return Found(Prefix(kept, limit));
    }

    method ReadPremise(premise: Region) returns (found: Read<PremiseState>)
      requires Valid()
      ensures found == Records.ReadPremise(Rec(), premise)
    {
      var state := StandingPremise(premise);
      if state.Absent? {
        return Absent(state.error);
      }
      if state.value.None? {
        return Absent(UnsetPremise);
      }
      return Found(state.value.value);
    }

    method ReadBoard(from: int, limit: Option<nat>) returns (found: seq<BoardChange>)
      requires Valid()
      ensures found == Records.ReadBoard(Rec(), from, limit)
    {
      hide LevelsIndexed, PremisesIndexed, KeysIndexed, LogSound, RowsSound, NoEmptyRow, RowsOf, ChangesOf;
      var kept, i := [], 0;
      ghost var skipped := Max(from, 1) - 1;
      while i < |changes|
        invariant 0 <= i <= |changes|
        invariant kept == if i <= skipped then [] else changes[skipped..i]
      {
        if changes[i].sequence >= from {
          kept := kept + [changes[i]];
        }
        i := i + 1;
      }
      assert changes[..i] == changes && kept == Records.ChangesFrom(log, from);
      return Prefix(kept, limit);
    }

    method Delete() returns (regionsRemoved: nat, writesRemoved: nat)
      requires Valid()
      modifies this
      ensures Valid()
      ensures Rec() == Blank(now) && now == old(now)
      ensures regionsRemoved == |old(Rec()).kinds| && writesRemoved == |old(Rec()).log|
    {
      hide InMemoryStore.Valid, InMemoryStore.Rec;
      regionsRemoved, writesRemoved := Counts();
      Clear();
    }

    method Clear()
      modifies this
      ensures Valid()
      ensures Rec() == Blank(now) && now == old(now)
    {
      hide LevelsIndexed, PremisesIndexed, KeysIndexed, LogSound, RowsSound, NoEmptyRow, RowsOf, ChangesOf, KindsOf;
      sequence, levels, premises, changes, keys := 0, map[], map[], [], map[];
      run, agents, outbox, log := None, map[], map[], [];
      BlankIsIndexed();
    }

    // How many regions there are, and how many writes.
    method Counts() returns (regions: nat, writes: nat)
      requires Valid()
      ensures regions == |Rec().kinds| && writes == |Rec().log|
    {
      KindsCounted(levels, premises);
      return |levels| + |premises|, |changes|;
    }

    // The run

    method OpenRun(wall: Duration, idle: Duration)
      requires Valid()
      modifies this`run
      ensures Valid()
      ensures Rec() == Records.OpenRun(old(Rec()), wall, idle)
      ensures forall span: nat ::
                Expired(Aged(Rec(), span)) ==
                if span >= wall then Some(AsWallClockExpired) else if span >= idle then Some(AsSettled) else None
    {
      run := Some(Run(now + idle, now + wall, None, None, {}));
    }

    method TouchRun(idle: Duration)
      requires Valid()
      modifies this`run
      ensures Valid()
      ensures Rec() == Records.TouchRun(old(Rec()), idle)
      ensures !old(Rec()).Open() ==> Rec() == old(Rec())
      ensures old(Rec()).Open() ==>
                forall span: nat ::
                  Expired(Aged(Rec(), span)) ==
                  if Rec().now + span >= old(Rec()).run.value.wall then Some(AsWallClockExpired)
                  else if span >= idle then Some(AsSettled)
                  else None
    {
      if run.None? || run.value.closed.Some? {
        return;
      }
      run := Some(run.value.(idle := now + idle));
    }

    method CloseRun(closedAs: ClosedAs, reason: Option<string>, unfinished: set<Name>) returns (won: bool)
      requires Valid()
      modifies this`run, this`agents, this`outbox
      ensures Valid()
      ensures (Rec(), won) == Records.CloseRun(old(Rec()), closedAs, reason, unfinished)
      ensures won <==> old(Rec()).Open()
      ensures !won ==> Rec() == old(Rec())
      ensures won ==> && Rec().agents == map[] && Rec().outbox == {} && Rec().log == old(Rec()).log
                      && Rec().run == Some(old(Rec()).run.value.(closed := Some(closedAs), reason := reason,
                                                                 unfinished := unfinished))
    {
      if run.None? || run.value.closed.Some? {
        return false;
      }
      run := Some(run.value.(closed := Some(closedAs), reason := reason, unfinished := unfinished));
      agents, outbox := map[], map[];
      assert Rows() == {};
      return true;
    }

    method MarkSent(agent: Name, through: int)
      requires Valid()
      modifies this`outbox
      ensures Valid()
      ensures Rec() == Records.MarkSent(old(Rec()), agent, through)
    {
      if agent !in outbox {
        assert Rows() == Records.MarkSent(Rec(), agent, through).outbox;
        return;
      }
      var pending := set n | n in outbox[agent] && n > through;
      RowsTrimmed(outbox, agent, through);
      outbox := if pending == {} then outbox - {agent} else outbox[agent := pending];
    }

    // The rows nothing has sent, least sequence first.
    method Unsent(limit: nat) returns (rows: seq<(Name, nat)>)
      requires Valid()
      ensures Records.Unsent(Rec(), limit, rows)
    {
      hide LevelsIndexed, PremisesIndexed, KeysIndexed, LogSound, RowsSound, NoEmptyRow, ChangesOf, RowsOf;
      rows := [];
      var rest := RowsOf(outbox);
      ghost var all := rest;
      while rest != {} && |rows| < limit
        invariant rest <= all == Rows()
        invariant |rows| + |rest| == |all| && |rows| <= limit
        invariant forall row :: row in all <==> row in rest || row in rows
        invariant forall i :: 0 <= i < |rows| ==> rows[i] !in rest
        invariant forall i, j :: 0 <= i < j < |rows| ==> rows[i] != rows[j] && rows[i].1 <= rows[j].1
        invariant forall i, row :: 0 <= i < |rows| && row in rest ==> rows[i].1 <= row.1
        decreases rest
      {
        var least := Least(rest);
        rows := rows + [least];
        rest := rest - {least};
      }
    }

    static method Least(rows: set<(Name, nat)>) returns (least: (Name, nat))
      requires rows != {}
      ensures least in rows
      ensures forall row :: row in rows ==> least.1 <= row.1
    {
      least :| least in rows;
      var rest := rows - {least};
      while rest != {}
        invariant rest <= rows && least in rows
        invariant forall row :: row in rows - rest ==> least.1 <= row.1
      {
        var row :| row in rest;
        if row.1 < least.1 {
          least := row;
        }
        rest := rest - {row};
      }
    }

    // Its agents

    method ReadAgents() returns (declared: map<Name, Progress>)
      ensures declared == Rec().agents
    {
      return agents;
    }

    // The run, with the store's own clock beside it.
    method ReadRun() returns (found: Option<(Run, Instant)>)
      ensures found == if Rec().run.None? then None else Some((Rec().run.value, Rec().now))
    {
      if run.None? {
        return None;
      }
      return Some((run.value, now));
    }

    method DeclareAgent(
      agent: Name, subs: Option<set<Region>>, writes: Option<set<Region>>, addr: Option<Address>)
      requires Valid()
      modifies this`agents
      ensures Valid()
      ensures Rec() == Records.DeclareAgent(old(Rec()), agent, subs, writes, addr)
      ensures Unfinished(Rec()) == Unfinished(old(Rec()))
      ensures forall a :: a in old(Rec()).agents && a != agent ==> Rec().agents[a] == old(Rec()).agents[a]
    {
      var held := if agent in agents then agents[agent] else Progress(0, 0, None, None, None);
      agents := agents[agent := Progress(held.notified, held.acked, subs, writes, addr)];
    }

    method MarkNotified(agent: Name, through: nat)
      requires Valid()
      modifies this`agents
      ensures Valid()
      ensures Rec() == Records.MarkNotified(old(Rec()), agent, through)
      ensures OnlyRises(old(Rec()), Rec(), agent)
      ensures forall n: int :: n <= through ==> Records.Acknowledge(Rec(), agent, n).1.Some?
    {
      var held := if agent in agents then agents[agent] else Progress(0, 0, None, None, None);
      agents := agents[agent := held.(notified := Max(held.notified, through))];
    }

    method Acknowledge(agent: Name, through: int) returns (prior: Option<Progress>)
      requires Valid()
      modifies this`agents
      ensures Valid()
      ensures (Rec(), prior) == Records.Acknowledge(old(Rec()), agent, through)
      ensures prior.None? ==> Rec() == old(Rec())
      ensures prior.Some? ==> OnlyRises(old(Rec()), Rec(), agent)
      ensures prior.Some? ==> Records.Acknowledge(Rec(), agent, through) == (Rec(), Some(Rec().agents[agent]))
    {
      if agent !in agents || through > agents[agent].notified {
        return None;
      }
      var held := agents[agent];
      agents := agents[agent := held.(acked := Max(held.acked, through))];
      assert agents[agent := agents[agent]] == agents;
      return Some(held);
    }
  }

  // What one entry joining the log does to the indexes.
  lemma {:induction false} LevelsExtend(log: seq<Entry>, e: Entry, levels: map<Region, seq<Contribution>>)
    requires LevelsIndexed(log, levels)
    ensures LevelsIndexed(log + [e],
              if e.region !in levels then levels
              else levels[e.region := LevelOf(log, e.region) + [Contribution(|log| + 1, e.content, e.writer, e.at)]])
  {
    forall level | level in levels { WritesAppend(log, e, level); }
  }

  lemma {:induction false} PremisesExtend(log: seq<Entry>, e: Entry, premises: map<Region, Option<PremiseState>>)
    requires PremisesIndexed(log, premises)
    ensures PremisesIndexed(log + [e],
              if e.region !in premises then premises
              else premises[e.region := Some(PremiseState(e.content, Writes(log, e.region) + 1, e.writer, e.at))])
  {
    forall premise | premise in premises { WritesAppend(log, e, premise); }
  }

  lemma ChangesExtend(log: seq<Entry>, e: Entry)
    ensures ChangesOf(log + [e]) ==
            ChangesOf(log) + [BoardChange(|log| + 1, e.region, e.content, e.writer, e.at)]
  {
  }

  lemma KeysExtend(log: seq<Entry>, e: Entry, keys: map<Key, (Region, Written)>)
    requires KeysIndexed(log, keys)
    requires e.key.Some? ==> e.key.value !in keys
    ensures e.key.None? ==> KeysIndexed(log + [e], keys)
    ensures e.key.Some? ==>
              KeysIndexed(log + [e], keys[e.key.value := (e.region, Written(|log| + 1, e.version, false))])
  {
    var after := if e.key.None? then keys
                 else keys[e.key.value := (e.region, Written(|log| + 1, e.version, false))];
    forall key
      ensures key in after <==> KeyedAt(log + [e], key) > 0
      ensures key in after ==> after[key] == Remembered(log + [e], KeyedAt(log + [e], key))
    {
      KeyedAppend(log, e, key);
    }
  }

  lemma KindsCounted(levels: map<Region, seq<Contribution>>, premises: map<Region, Option<PremiseState>>)
    requires levels.Keys !! premises.Keys
    ensures |KindsOf(levels, premises)| == |levels| + |premises|
  {
    assert |KindsOf(levels, premises)| == |levels.Keys + premises.Keys|;
  }

  lemma BlankIsIndexed()
    ensures LevelsIndexed([], map[]) && PremisesIndexed([], map[]) && KeysIndexed([], map[])
    ensures KindsOf(map[], map[]) == map[] && RowsOf(map[]) == {}
    ensures ChangesOf([]) == [] && NoEmptyRow(map[])
    ensures LogSound(map[], []) && RowsSound({}, 0)
  {
  }

  lemma RowAdded(outbox: map<Name, set<nat>>, agent: Name, n: nat)
    ensures RowsOf(outbox[agent := (if agent in outbox then outbox[agent] else {}) + {n}])
            == RowsOf(outbox) + {(agent, n)}
  {
    var after := outbox[agent := (if agent in outbox then outbox[agent] else {}) + {n}];
    forall row: (Name, nat) ensures row in RowsOf(after) <==> row in RowsOf(outbox) + {(agent, n)} {
      assert row in RowsOf(after) <==> row.0 in after && row.1 in after[row.0];
      assert row in RowsOf(outbox) <==> row.0 in outbox && row.1 in outbox[row.0];
    }
  }

  lemma RowsTrimmed(outbox: map<Name, set<nat>>, agent: Name, through: int)
    requires agent in outbox
    ensures var pending := set n | n in outbox[agent] && n > through;
            RowsOf(if pending == {} then outbox - {agent} else outbox[agent := pending])
            == set row | row in RowsOf(outbox) && !(row.0 == agent && row.1 <= through)
  {
    var pending := set n | n in outbox[agent] && n > through;
    var after := if pending == {} then outbox - {agent} else outbox[agent := pending];
    forall row: (Name, nat)
      ensures row in RowsOf(after) <==> row in RowsOf(outbox) && !(row.0 == agent && row.1 <= through)
    {
      assert row in RowsOf(after) <==> row.0 in after && row.1 in after[row.0];
      assert row in RowsOf(outbox) <==> row.0 in outbox && row.1 in outbox[row.0];
      if row.0 == agent { assert row.1 in pending <==> row.1 in outbox[agent] && row.1 > through; }
    }
  }

  // A region nobody declared holds nothing, so declaring it indexes nothing.
  lemma RegionDeclared(
    r: Record, name: Region, levels: map<Region, seq<Contribution>>, premises: map<Region, Option<PremiseState>>)
    requires OneLog(r) && name !in r.kinds
    requires LevelsIndexed(r.log, levels) && PremisesIndexed(r.log, premises)
    ensures LevelsIndexed(r.log, levels[name := []]) && PremisesIndexed(r.log, premises[name := None])
  {
    UnwrittenIn(r.log, name, r.kinds);
  }

  lemma {:induction false} UnwrittenIn(log: seq<Entry>, region: Region, kinds: map<Region, Kind>)
    requires forall i :: 0 <= i < |log| ==> Versioned(kinds, log, i)
    requires region !in kinds
    ensures LevelOf(log, region) == [] && PremiseOf(log, region) == None
  {
    if log != [] {
      var init := log[..|log| - 1];
      forall i | 0 <= i < |init| ensures Versioned(kinds, init, i) {
        assert Versioned(kinds, log, i);
        assert init[..i + 1] == log[..i + 1];
      }
      assert Versioned(kinds, log, |log| - 1);
      UnwrittenIn(init, region, kinds);
    }
  }
}
