// The three database adapters, one board of each: the rows that carry its
// identifier. A transaction is one step. SQLite numbers a write from the
// table itself; Postgres takes the counter first and rolls it back on a
// conflict; MongoDB guards the version first and takes the counter after.
// None keeps the in-memory indexes: a key is looked up by scanning the table.
//
// Each operation is proved against the same `Records` function as the
// in-memory store's, so no caller can tell the four apart.

module Tables {
  import opened Values
  import opened Records

  datatype PremiseRow = PremiseRow(value: Option<Content>, version: nat, writer: Option<Name>, at: Instant)

  const NoValue := PremiseRow(None, 0, None, 0)

  // The contributions table, by sequence, holds exactly the log.
  ghost predicate Holds(contributions: map<nat, Entry>, log: seq<Entry>) {
    && (forall n :: n in contributions <==> 1 <= n <= |log|)
    && (forall n :: n in contributions ==> contributions[n] == log[n - 1])
  }

  // The premises table holds, for each declared premise, its last write.
  ghost predicate Current(premises: map<Region, PremiseRow>, kinds: map<Region, Kind>, log: seq<Entry>) {
    && (forall p :: p in premises <==> p in kinds && kinds[p] == PremiseKind)
    && (forall p :: p in premises ==> Shows(premises[p], log, p))
  }

  ghost predicate Shows(row: PremiseRow, log: seq<Entry>, premise: Region) {
    && row.version == Writes(log, premise)
    && (row.version > 0 ==>
          && row.value.Some?
          && PremiseOf(log, premise) == Some(PremiseState(row.value.value, row.version, row.writer, row.at)))
  }

  method Require(kinds: map<Region, Kind>, name: Region, kind: Kind) returns (wrong: Option<Error>)
    ensures forall r: Record :: r.kinds == kinds ==> wrong == Requires(r, name, kind)
  {
    if name !in kinds {
      return Some(Undeclared);
    }
    return if kinds[name] != kind then Some(WrongKind) else None;
  }

  method AlreadyWritten(
    contributions: map<nat, Entry>, key: Option<Key>, region: Region, ghost log: seq<Entry>, ghost kinds: map<Region, Kind>)
    returns (done: Option<Answer>)
    requires Holds(contributions, log) && LogSound(kinds, log)
    ensures done == Recall(log, key, region)
  {
    if key.None? {
      return None;
    }
    if !exists n :: n in contributions && contributions[n].key == key {
      assert KeyedAt(log, key.value) !in contributions;
      return None;
    }
    var n :| n in contributions && contributions[n].key == key;
    var row := contributions[n];
    assert log[n - 1].key == key;
    if row.region != region {
      return Some(Refused(KeyReused));
    }
    return Some(Done(Written(n, row.version, true)));
  }

  // COALESCE(MAX(sequence), 0)
  method MaxSequence(contributions: map<nat, Entry>, ghost log: seq<Entry>) returns (top: nat)
    requires Holds(contributions, log)
    ensures top == |log|
  {
    var rest := contributions.Keys;
    top := 0;
    while rest != {}
      invariant rest <= contributions.Keys
      invariant top <= |log| && forall n :: n in contributions && n !in rest ==> n <= top
    {
      var n :| n in rest;
      top := if n > top then n else top;
      rest := rest - {n};
    }
    assert |log| > 0 ==> |log| in contributions;
  }

  method SelectLevel(
    contributions: map<nat, Entry>, level: Region, from: int, limit: Option<nat>, ghost log: seq<Entry>)
    returns (found: seq<Contribution>)
    requires Holds(contributions, log)
    ensures found == Prefix(AtOrAfter(LevelOf(log, level), from), limit)
  {
    hide LevelOf, AtOrAfter;
    var top := MaxSequence(contributions, log);
    LevelFromNothing(level, from);
    found := [];
    var n := 0;
    assert log[..n] == [];
    while n < top
      invariant 0 <= n <= top
      invariant found == AtOrAfter(LevelOf(log[..n], level), from)
    {
      n := n + 1;
      var row := contributions[n];
      if row.region == level && n >= from {
        found := found + [Contribution(n, row.content, row.writer, row.at)];
      }
      LevelFromAppend(log[..n - 1], row, level, from);
      assert log[..n] == log[..n - 1] + [row];
    }
    assert log[..top] == log;
    found := Prefix(found, limit);
  }

  lemma {:induction false} LevelFromNothing(level: Region, from: int)
    ensures AtOrAfter(LevelOf([], level), from) == []
  {
  }

  lemma {:induction false} LevelFromAppend(log: seq<Entry>, e: Entry, level: Region, from: int)
    ensures AtOrAfter(LevelOf(log + [e], level), from) ==
            if e.region == level && |log| + 1 >= from
            then AtOrAfter(LevelOf(log, level), from) + [Contribution(|log| + 1, e.content, e.writer, e.at)]
            else AtOrAfter(LevelOf(log, level), from)
  {
    WritesAppend(log, e, level);
    var before := LevelOf(log, level);
    if e.region == level {
      var after := before + [Contribution(|log| + 1, e.content, e.writer, e.at)];
      assert after[..|after| - 1] == before && after[|after| - 1].sequence == |log| + 1;
      assert LevelOf(log + [e], level) == after;
      assert AtOrAfter(after, from) ==
             AtOrAfter(before, from) + (if |log| + 1 >= from then [after[|after| - 1]] else []);
    } else {
      assert LevelOf(log + [e], level) == before;
    }
  }

  method SelectBoard(contributions: map<nat, Entry>, from: int, limit: Option<nat>, ghost r: Record)
    returns (found: seq<BoardChange>)
    requires Holds(contributions, r.log)
    ensures found == ReadBoard(r, from, limit)
  {
    var top := MaxSequence(contributions, r.log);
    ghost var skipped := Max(from, 1) - 1;
    found := [];
    var n := 0;
    while n < top
      invariant 0 <= n <= top
      invariant found == if n <= skipped then [] else ChangesOf(r.log)[skipped..n]
    {
      n := n + 1;
      if n >= from {
        var row := contributions[n];
        found := found + [BoardChange(n, row.region, row.content, row.writer, row.at)];
      }
    }
    found := Prefix(found, limit);
  }

  method SelectPremise(premises: map<Region, PremiseRow>, premise: Region, ghost r: Record)
    returns (found: Read<PremiseState>)
    requires Current(premises, r.kinds, r.log) && Requires(r, premise, PremiseKind).None?
    ensures found == ReadPremise(r, premise)
  {
    PremiseVersion(r.log, premise);
    var row := premises[premise];
    assert Shows(row, r.log, premise);
    if row.version == 0 {
      return Absent(UnsetPremise);
    }
    return Found(PremiseState(row.value.value, row.version, row.writer, row.at));
  }

  // A declared region joins the tables, and a board holding nothing shows it.
  lemma CurrentDeclares(premises: map<Region, PremiseRow>, r: Record, name: Region)
    requires OneLog(r) && Current(premises, r.kinds, r.log) && name !in r.kinds
    ensures Current(premises, r.kinds[name := LevelKind], r.log)
    ensures Current(premises[name := NoValue], r.kinds[name := PremiseKind], r.log)
  {
    UndeclaredUnwritten(r.log, name, r.kinds);
    forall p | p in premises ensures Shows(premises[name := NoValue][p], r.log, p) {
      assert Shows(premises[p], r.log, p);
    }
  }

  lemma {:induction false} UndeclaredUnwritten(log: seq<Entry>, name: Region, kinds: map<Region, Kind>)
    requires forall i :: 0 <= i < |log| ==> Versioned(kinds, log, i)
    requires name !in kinds
    ensures Writes(log, name) == 0
  {
    if log != [] {
      var init := log[..|log| - 1];
      forall i | 0 <= i < |init| ensures Versioned(kinds, init, i) {
        assert Versioned(kinds, log, i);
        assert init[..i + 1] == log[..i + 1];
      }
      assert Versioned(kinds, log, |log| - 1);
      UndeclaredUnwritten(init, name, kinds);
    }
  }

  lemma NothingDeclared(r: Record)
    requires OneLog(r) && r.kinds == map[]
    ensures r.log == []
  {
    assert r.log != [] ==> Versioned(r.kinds, r.log, 0);
  }

  // One contribution inserted under the next sequence, with a premise's row
  // brought up to date where it is a premise's.
  lemma HoldsInserts(contributions: map<nat, Entry>, log: seq<Entry>, e: Entry)
    requires Holds(contributions, log)
    ensures Holds(contributions[|log| + 1 := e], log + [e])
  {
  }

  lemma {:induction false} HoldsCounts(contributions: map<nat, Entry>, log: seq<Entry>)
    requires Holds(contributions, log)
    ensures |contributions| == |log|
  {
    if log == [] {
      assert contributions == map[];
    } else {
      var fewer := contributions - {|log|};
      HoldsCounts(fewer, log[..|log| - 1]);
      assert contributions == fewer[|log| := contributions[|log|]];
    }
  }

  lemma {:induction false} CurrentUpdates(
    premises: map<Region, PremiseRow>, kinds: map<Region, Kind>, log: seq<Entry>, e: Entry)
    requires Current(premises, kinds, log)
    ensures e.region !in premises ==> Current(premises, kinds, log + [e])
    ensures e.region in premises ==>
              Current(premises[e.region := PremiseRow(Some(e.content), Writes(log, e.region) + 1, e.writer, e.at)],
                      kinds, log + [e])
  {
    hide Writes, PremiseOf;
    var after := if e.region !in premises then premises
                 else premises[e.region := PremiseRow(Some(e.content), Writes(log, e.region) + 1, e.writer, e.at)];
    forall p | p in after ensures Shows(after[p], log + [e], p) {
      WritesAppend(log, e, p);
      assert Shows(premises[p], log, p);
    }
  }
}

module SqliteStores {
  import opened Values
  import opened Records
  import opened Tables

  class SqliteStore {
    var now: Instant
    var regions: map<Region, Kind>
    var premises: map<Region, PremiseRow>
    var contributions: map<nat, Entry>
    var outbox: set<(Name, nat)>
    ghost var log: seq<Entry>

    ghost function Rec(): Record
      reads this
    {
      Record(now, regions, log, None, map[], outbox)
    }

    ghost predicate Valid()
      reads this
    {
      Holds(contributions, log) && Current(premises, regions, log) && OneLog(Rec())
    }

    constructor (now: Instant)
      ensures Valid() && Rec() == Blank(now)
    {
      this.now := now;
      regions, premises, contributions, outbox, log := map[], map[], map[], {}, [];
    }

    method SetClock(instant: Instant)
      requires Valid()
      modifies this`now
      ensures Valid()
      ensures Rec() == old(Rec()).(now := instant)
    {
      now := instant;
    }

    method Declare(name: Region, kind: Kind) returns (refused: Option<Error>)
      requires Valid()
      modifies this
      ensures Valid()
      ensures (Rec(), refused) == Records.Declare(old(Rec()), name, kind)
    {
      hide Holds, Current, LogSound, RowsSound;
      if name in regions {
        return Some(Duplicate);
      }
      DeclareKeepsOneLog(Rec(), name, kind);
      CurrentDeclares(premises, Rec(), name);
      regions := regions[name := kind];
      if kind == PremiseKind {
        premises := premises[name := NoValue];
      }
      return None;
    }

    method Append(
      level: Region, content: Content, key: Option<Key>, writer: Option<Name>, notify: set<Name>)
      returns (answer: Answer)
      requires Valid()
      modifies this
      ensures Valid()
      ensures (Rec(), answer) == Records.Append(old(Rec()), level, content, key, writer, notify)
    {
      hide Holds, LogSound, RowsSound, KeyedAt, Writes, PremiseOf, Owing;
      var wrong := Require(regions, level, LevelKind);
      assert wrong == Requires(Rec(), level, LevelKind);
      if wrong.Some? {
        return Refused(wrong.value);
      }
      var done := AlreadyWritten(contributions, key, level, log, regions);
      if done.Some? {
        return done.value;
      }
      var top := MaxSequence(contributions, log);
      var row := Entry(level, content, None, key, writer, now);
      AppendKeepsOneLog(Rec(), level, content, key, writer, notify);
      HoldsInserts(contributions, log, row);
      CurrentUpdates(premises, regions, log, row);
      contributions, log := contributions[top + 1 := row], log + [row];
      outbox := outbox + Owing(notify, top + 1);
      return Done(Written(top + 1, None, false));
    }

    method Set(
      premise: Region, value: Content, expected: int,
      key: Option<Key>, writer: Option<Name>, notify: set<Name>)
      returns (answer: Answer)
      requires Valid()
      modifies this
      ensures Valid()
      ensures (Rec(), answer) == Records.Set(old(Rec()), premise, value, expected, key, writer, notify)
    {
      hide Holds, LogSound, RowsSound, KeyedAt, Writes, PremiseOf, Owing;
      var wrong := Require(regions, premise, PremiseKind);
      assert wrong == Requires(Rec(), premise, PremiseKind);
      if wrong.Some? {
        return Refused(wrong.value);
      }
      var done := AlreadyWritten(contributions, key, premise, log, regions);
      if done.Some? {
        return done.value;
      }
      var current := premises[premise].version;
      assert Shows(premises[premise], log, premise);
      if expected != current {
        return Conflict(current);
      }
      var top := MaxSequence(contributions, log);
      var row := Entry(premise, value, Some(current + 1), key, writer, now);
      SetKeepsOneLog(Rec(), premise, value, expected, key, writer, notify);
      HoldsInserts(contributions, log, row);
      CurrentUpdates(premises, regions, log, row);
      premises := premises[premise := PremiseRow(Some(value), current + 1, writer, now)];
      contributions, log := contributions[top + 1 := row], log + [row];
      outbox := outbox + Owing(notify, top + 1);
      return Done(Written(top + 1, Some(current + 1), false));
    }

    method ReadLevel(level: Region, from: int, limit: Option<nat>) returns (found: Read<seq<Contribution>>)
      requires Valid()
      ensures found == Records.ReadLevel(Rec(), level, from, limit)
    {
      var wrong := Require(regions, level, LevelKind);
      assert wrong == Requires(Rec(), level, LevelKind);
      if wrong.Some? {
        return Absent(wrong.value);
      }
      var rows := SelectLevel(contributions, level, from, limit, log);
      return Found(rows);
    }

    method ReadPremise(premise: Region) returns (found: Read<PremiseState>)
      requires Valid()
      ensures found == Records.ReadPremise(Rec(), premise)
    {
      var wrong := Require(regions, premise, PremiseKind);
      assert wrong == Requires(Rec(), premise, PremiseKind);
      if wrong.Some? {
        return Absent(wrong.value);
      }
      found := SelectPremise(premises, premise, Rec());
    }

    method ReadBoard(from: int, limit: Option<nat>) returns (found: seq<BoardChange>)
      requires Valid()
      ensures found == Records.ReadBoard(Rec(), from, limit)
    {
      found := SelectBoard(contributions, from, limit, Rec());
    }

    method Delete() returns (regionsRemoved: nat, writesRemoved: nat)
      requires Valid()
      modifies this
      ensures Valid() && now == old(now)
      ensures Rec() == Blank(now)
      ensures regionsRemoved == |old(Rec()).kinds| && writesRemoved == |old(Rec()).log|
    {
      HoldsCounts(contributions, log);
      regionsRemoved, writesRemoved := |regions|, |contributions|;
      regions, premises, contributions, outbox, log := map[], map[], map[], {}, [];
    }
  }
}

module PostgresStores {
  import opened Values
  import opened Records
  import opened Tables

  class PostgresStore {
    var now: Instant
    var regions: map<Region, Kind>
    var premises: map<Region, PremiseRow>
    var contributions: map<nat, Entry>
    var outbox: set<(Name, nat)>
    // The board's counter row, created with its first region.
    var nextSequence: Option<nat>
    ghost var log: seq<Entry>

    ghost function Rec(): Record
      reads this
    {
      Record(now, regions, log, None, map[], outbox)
    }

    ghost predicate Valid()
      reads this
    {
      && Holds(contributions, log) && Current(premises, regions, log) && OneLog(Rec())
      && Counted()
    }

    // The counter holds the next number, once anything has been declared.
    ghost predicate Counted()
      reads this
    {
      && (regions != map[] ==> nextSequence.Some?)
      && (nextSequence.Some? ==> nextSequence.value == |log| + 1)
    }

    // The number of the write about to join the log. None is left over: the
    // counter is one past what it gave, until the write joins.
    method TakeSequence() returns (taken: Option<nat>)
      requires Counted()
      modifies this`nextSequence
      ensures taken.None? ==> regions == map[] && nextSequence.None?
      ensures taken.Some? ==> taken.value == |log| + 1
      ensures taken.Some? ==> nextSequence == Some(|log| + 2)
    {
      taken := nextSequence;
      if taken.Some? {
        nextSequence := Some(taken.value + 1);
      }
    }

    constructor (now: Instant)
      ensures Valid() && Rec() == Blank(now)
    {
      this.now := now;
      regions, premises, contributions, outbox, log := map[], map[], map[], {}, [];
      nextSequence := None;
    }

    method SetClock(instant: Instant)
      requires Valid()
      modifies this`now
      ensures Valid()
      ensures Rec() == old(Rec()).(now := instant)
    {
      now := instant;
    }

    method Declare(name: Region, kind: Kind) returns (refused: Option<Error>)
      requires Valid()
      modifies this
      ensures Valid()
      ensures (Rec(), refused) == Records.Declare(old(Rec()), name, kind)
    {
      hide Holds, Current, LogSound, RowsSound;
      if nextSequence.None? {
        NothingDeclared(Rec());
        nextSequence := Some(1);
      }
      if name in regions {
        return Some(Duplicate);
      }
      DeclareKeepsOneLog(Rec(), name, kind);
      CurrentDeclares(premises, Rec(), name);
      regions := regions[name := kind];
      if kind == PremiseKind {
        premises := premises[name := NoValue];
      }
      return None;
    }

    method Append(
      level: Region, content: Content, key: Option<Key>, writer: Option<Name>, notify: set<Name>)
      returns (answer: Answer)
      requires Valid()
      modifies this
      ensures Valid()
      ensures (Rec(), answer) == Records.Append(old(Rec()), level, content, key, writer, notify)
    {
      hide Holds, LogSound, RowsSound, KeyedAt, Writes, PremiseOf, Owing;
      var wrong := Require(regions, level, LevelKind);
      assert wrong == Requires(Rec(), level, LevelKind);
      if wrong.Some? {
        return Refused(wrong.value);
      }
      var done := AlreadyWritten(contributions, key, level, log, regions);
      if done.Some? {
        return done.value;
      }
      var taken := TakeSequence();
      if taken.None? {
        return Refused(Undeclared);
      }
      var sequence := taken.value;
      var row := Entry(level, content, None, key, writer, now);
      AppendKeepsOneLog(Rec(), level, content, key, writer, notify);
      HoldsInserts(contributions, log, row);
      CurrentUpdates(premises, regions, log, row);
      contributions, log := contributions[sequence := row], log + [row];
      outbox := outbox + Owing(notify, sequence);
      return Done(Written(sequence, None, false));
    }

    method Set(
      premise: Region, value: Content, expected: int,
      key: Option<Key>, writer: Option<Name>, notify: set<Name>)
      returns (answer: Answer)
      requires Valid()
      modifies this
      ensures Valid()
      ensures (Rec(), answer) == Records.Set(old(Rec()), premise, value, expected, key, writer, notify)
    {
      hide Holds, LogSound, RowsSound, KeyedAt, Writes, PremiseOf, Owing;
      var wrong := Require(regions, premise, PremiseKind);
      assert wrong == Requires(Rec(), premise, PremiseKind);
      if wrong.Some? {
        return Refused(wrong.value);
      }
      var done := AlreadyWritten(contributions, key, premise, log, regions);
      if done.Some? {
        return done.value;
      }
      // The counter is taken first, so a conflict has a number to give back.
      var before := nextSequence;
      var taken := TakeSequence();
      if taken.None? {
        return Refused(Undeclared);
      }
      var sequence := taken.value;
      var current := premises[premise].version;
      assert Shows(premises[premise], log, premise);
      if expected != current {
        nextSequence := before;
        return Conflict(current);
      }
      var row := Entry(premise, value, Some(current + 1), key, writer, now);
      SetKeepsOneLog(Rec(), premise, value, expected, key, writer, notify);
      HoldsInserts(contributions, log, row);
      CurrentUpdates(premises, regions, log, row);
      premises := premises[premise := PremiseRow(Some(value), current + 1, writer, now)];
      contributions, log := contributions[sequence := row], log + [row];
      outbox := outbox + Owing(notify, sequence);
      return Done(Written(sequence, Some(current + 1), false));
    }

    method ReadLevel(level: Region, from: int, limit: Option<nat>) returns (found: Read<seq<Contribution>>)
      requires Valid()
      ensures found == Records.ReadLevel(Rec(), level, from, limit)
    {
      var wrong := Require(regions, level, LevelKind);
      assert wrong == Requires(Rec(), level, LevelKind);
      if wrong.Some? {
        return Absent(wrong.value);
      }
      var rows := SelectLevel(contributions, level, from, limit, log);
      return Found(rows);
    }

    method ReadPremise(premise: Region) returns (found: Read<PremiseState>)
      requires Valid()
      ensures found == Records.ReadPremise(Rec(), premise)
    {
      var wrong := Require(regions, premise, PremiseKind);
      assert wrong == Requires(Rec(), premise, PremiseKind);
      if wrong.Some? {
        return Absent(wrong.value);
      }
      found := SelectPremise(premises, premise, Rec());
    }

    method ReadBoard(from: int, limit: Option<nat>) returns (found: seq<BoardChange>)
      requires Valid()
      ensures found == Records.ReadBoard(Rec(), from, limit)
    {
      found := SelectBoard(contributions, from, limit, Rec());
    }

    method Delete() returns (regionsRemoved: nat, writesRemoved: nat)
      requires Valid()
      modifies this
      ensures Valid() && now == old(now)
      ensures Rec() == Blank(now)
      ensures regionsRemoved == |old(Rec()).kinds| && writesRemoved == |old(Rec()).log|
    {
      HoldsCounts(contributions, log);
      regionsRemoved, writesRemoved := |regions|, |contributions|;
      regions, premises, contributions, outbox, log := map[], map[], map[], {}, [];
      nextSequence := None;
    }
  }
}

module MongoStores {
  import opened Values
  import opened Records
  import opened Tables

  class MongoStore {
    var now: Instant
    var regions: map<Region, Kind>
    var premises: map<Region, PremiseRow>
    var contributions: map<nat, Entry>
    var outbox: set<(Name, nat)>
    // The board's counter row, created with its first region.
    var nextSequence: Option<nat>
    ghost var log: seq<Entry>

    ghost function Rec(): Record
      reads this
    {
      Record(now, regions, log, None, map[], outbox)
    }

    ghost predicate Valid()
      reads this
    {
      && Holds(contributions, log) && Current(premises, regions, log) && OneLog(Rec())
      && Counted()
    }

    // The counter holds the next number, once anything has been declared.
    ghost predicate Counted()
      reads this
    {
      && (regions != map[] ==> nextSequence.Some?)
      && (nextSequence.Some? ==> nextSequence.value == |log| + 1)
    }

    // The number of the write about to join the log. None is left over: the
    // counter is one past what it gave, until the write joins.
    method TakeSequence() returns (taken: Option<nat>)
      requires Counted()
      modifies this`nextSequence
      ensures taken.None? ==> regions == map[] && nextSequence.None?
      ensures taken.Some? ==> taken.value == |log| + 1
      ensures taken.Some? ==> nextSequence == Some(|log| + 2)
    {
      taken := nextSequence;
      if taken.Some? {
        nextSequence := Some(taken.value + 1);
      }
    }

    constructor (now: Instant)
      ensures Valid() && Rec() == Blank(now)
    {
      this.now := now;
      regions, premises, contributions, outbox, log := map[], map[], map[], {}, [];
      nextSequence := None;
    }

    method SetClock(instant: Instant)
      requires Valid()
      modifies this`now
      ensures Valid()
      ensures Rec() == old(Rec()).(now := instant)
    {
      now := instant;
    }

    method Declare(name: Region, kind: Kind) returns (refused: Option<Error>)
      requires Valid()
      modifies this
      ensures Valid()
      ensures (Rec(), refused) == Records.Declare(old(Rec()), name, kind)
    {
      hide Holds, Current, LogSound, RowsSound;
      if nextSequence.None? {
        NothingDeclared(Rec());
        nextSequence := Some(1);
      }
      if name in regions {
        return Some(Duplicate);
      }
      DeclareKeepsOneLog(Rec(), name, kind);
      CurrentDeclares(premises, Rec(), name);
      regions := regions[name := kind];
      if kind == PremiseKind {
        premises := premises[name := NoValue];
      }
      return None;
    }

    method Append(
      level: Region, content: Content, key: Option<Key>, writer: Option<Name>, notify: set<Name>)
      returns (answer: Answer)
      requires Valid()
      modifies this
      ensures Valid()
      ensures (Rec(), answer) == Records.Append(old(Rec()), level, content, key, writer, notify)
    {
      hide Holds, LogSound, RowsSound, KeyedAt, Writes, PremiseOf, Owing;
      var wrong := Require(regions, level, LevelKind);
      assert wrong == Requires(Rec(), level, LevelKind);
      if wrong.Some? {
        return Refused(wrong.value);
      }
      var done := AlreadyWritten(contributions, key, level, log, regions);
      if done.Some? {
        return done.value;
      }
      var taken := TakeSequence();
      if taken.None? {
        return Refused(Undeclared);
      }
      var sequence := taken.value;
      var row := Entry(level, content, None, key, writer, now);
      AppendKeepsOneLog(Rec(), level, content, key, writer, notify);
      HoldsInserts(contributions, log, row);
      CurrentUpdates(premises, regions, log, row);
      contributions, log := contributions[sequence := row], log + [row];
      outbox := outbox + Owing(notify, sequence);
      return Done(Written(sequence, None, false));
    }

    method Set(
      premise: Region, value: Content, expected: int,
      key: Option<Key>, writer: Option<Name>, notify: set<Name>)
      returns (answer: Answer)
      requires Valid()
      modifies this
      ensures Valid()
      ensures (Rec(), answer) == Records.Set(old(Rec()), premise, value, expected, key, writer, notify)
    {
      hide Holds, LogSound, RowsSound, KeyedAt, Writes, PremiseOf, Owing;
      var wrong := Require(regions, premise, PremiseKind);
      assert wrong == Requires(Rec(), premise, PremiseKind);
      if wrong.Some? {
        return Refused(wrong.value);
      }
      var done := AlreadyWritten(contributions, key, premise, log, regions);
      if done.Some? {
        return done.value;
      }
      // The version guard is the update itself, so a write that loses it
      // never reaches the counter.
      var current := premises[premise].version;
      assert Shows(premises[premise], log, premise);
      if expected != current {
        return Conflict(current);
      }
      var row := Entry(premise, value, Some(current + 1), key, writer, now);
      SetKeepsOneLog(Rec(), premise, value, expected, key, writer, notify);
      HoldsInserts(contributions, log, row);
      CurrentUpdates(premises, regions, log, row);
      premises := premises[premise := PremiseRow(Some(value), current + 1, writer, now)];
      var taken := TakeSequence();
      if taken.None? {
        return Refused(Undeclared);
      }
      var sequence := taken.value;
      contributions, log := contributions[sequence := row], log + [row];
      outbox := outbox + Owing(notify, sequence);
      return Done(Written(sequence, Some(current + 1), false));
    }

    method ReadLevel(level: Region, from: int, limit: Option<nat>) returns (found: Read<seq<Contribution>>)
      requires Valid()
      ensures found == Records.ReadLevel(Rec(), level, from, limit)
    {
      var wrong := Require(regions, level, LevelKind);
      assert wrong == Requires(Rec(), level, LevelKind);
      if wrong.Some? {
        return Absent(wrong.value);
      }
      var rows := SelectLevel(contributions, level, from, limit, log);
      return Found(rows);
    }

    method ReadPremise(premise: Region) returns (found: Read<PremiseState>)
      requires Valid()
      ensures found == Records.ReadPremise(Rec(), premise)
    {
      var wrong := Require(regions, premise, PremiseKind);
      assert wrong == Requires(Rec(), premise, PremiseKind);
      if wrong.Some? {
        return Absent(wrong.value);
      }
      found := SelectPremise(premises, premise, Rec());
    }

    method ReadBoard(from: int, limit: Option<nat>) returns (found: seq<BoardChange>)
      requires Valid()
      ensures found == Records.ReadBoard(Rec(), from, limit)
    {
      found := SelectBoard(contributions, from, limit, Rec());
    }

    method Delete() returns (regionsRemoved: nat, writesRemoved: nat)
      requires Valid()
      modifies this
      ensures Valid() && now == old(now)
      ensures Rec() == Blank(now)
      ensures regionsRemoved == |old(Rec()).kinds| && writesRemoved == |old(Rec()).log|
    {
      HoldsCounts(contributions, log);
      regionsRemoved, writesRemoved := |regions|, |contributions|;
      regions, premises, contributions, outbox, log := map[], map[], map[], {}, [];
      nextSequence := None;
    }
  }
}
