// Histories of a board: any sequence of operations, from any number of
// callers, in the order the store takes them.

module Histories {
  import opened Values
  import opened Records
  import MemoryStores
  import SqliteStores
  import PostgresStores
  import MongoStores

  datatype Op =
    | DeclareOp(name: Region, kind: Kind)
    | AppendOp(level: Region, content: Content, key: Option<Key>, writer: Option<Name>, notify: set<Name>)
    | SetOp(premise: Region, value: Content, expected: int,
            key: Option<Key>, writer: Option<Name>, notify: set<Name>)
    | ReadLevelOp(level: Region, from: int, limit: Option<nat>)
    | ReadPremiseOp(premise: Region)
    | ReadBoardOp(from: int, limit: Option<nat>)
    | DeleteOp
    | ClockOp(instant: Instant)

  datatype Reply =
    | Declared(refused: Option<Error>)
    | Answered(answer: Answer)
    | LevelRead(contributions: Read<seq<Contribution>>)
    | PremiseRead(state: Read<PremiseState>)
    | BoardRead(changes: seq<BoardChange>)
    | Deleted(regions: nat, writes: nat)
    | Ticked

  function Perform(r: Record, op: Op): (Record, Reply) {
    match op
    case DeclareOp(name, kind) =>
      var (after, refused) := Declare(r, name, kind);
      (after, Declared(refused))
    case AppendOp(level, content, key, writer, notify) =>
      var (after, answer) := Append(r, level, content, key, writer, notify);
      (after, Answered(answer))
    case SetOp(premise, value, expected, key, writer, notify) =>
      var (after, answer) := Set(r, premise, value, expected, key, writer, notify);
      (after, Answered(answer))
    case ReadLevelOp(level, from, limit) => (r, LevelRead(ReadLevel(r, level, from, limit)))
    case ReadPremiseOp(premise) => (r, PremiseRead(ReadPremise(r, premise)))
    case ReadBoardOp(from, limit) => (r, BoardRead(ReadBoard(r, from, limit)))
    case DeleteOp => (Blank(r.now), Deleted(|r.kinds|, |r.log|))
    case ClockOp(instant) => (r.(now := instant), Ticked)
  }

  function After(r: Record, ops: seq<Op>): Record {
    if ops == [] then r else Perform(After(r, ops[..|ops| - 1]), ops[|ops| - 1]).0
  }

  function Replies(r: Record, ops: seq<Op>): seq<Reply> {
    if ops == [] then []
    else
      var init := ops[..|ops| - 1];
      Replies(r, init) + [Perform(After(r, init), ops[|ops| - 1]).1]
  }

  // In every state a store can reach the log and what is read off it agree.
  lemma {:induction false} EveryHistoryKeepsOneLog(r: Record, ops: seq<Op>)
    requires OneLog(r)
    ensures OneLog(After(r, ops))
  {
    if ops != [] {
      var before := After(r, ops[..|ops| - 1]);
      EveryHistoryKeepsOneLog(r, ops[..|ops| - 1]);
      match ops[|ops| - 1] {
        case DeclareOp(name, kind) => DeclareKeepsOneLog(before, name, kind);
        case AppendOp(level, content, key, writer, notify) =>
          AppendKeepsOneLog(before, level, content, key, writer, notify);
        case SetOp(premise, value, expected, key, writer, notify) =>
          SetKeepsOneLog(before, premise, value, expected, key, writer, notify);
        case _ =>
      }
    }
  }

  // One store, asked one operation

  method AskMemory(store: MemoryStores.InMemoryStore, op: Op) returns (reply: Reply)
    requires store.Valid()
    modifies store
    ensures store.Valid()
    ensures (store.Rec(), reply) == Perform(old(store.Rec()), op)
  {
    hide MemoryStores.InMemoryStore.Valid;
    match op {
      case DeclareOp(name, kind) =>
        var refused := store.Declare(
          if kind == LevelKind then MemoryStores.Level(name) else MemoryStores.Premise(name));
        reply := Declared(refused);
      case AppendOp(level, content, key, writer, notify) =>
        var answer := store.Append(level, content, key, writer, notify);
        reply := Answered(answer);
      case SetOp(premise, value, expected, key, writer, notify) =>
        var answer := store.Set(premise, value, expected, key, writer, notify);
        reply := Answered(answer);
      case ReadLevelOp(level, from, limit) =>
        var found := store.ReadLevel(level, from, limit);
        reply := LevelRead(found);
      case ReadPremiseOp(premise) =>
        var state := store.ReadPremise(premise);
        reply := PremiseRead(state);
      case ReadBoardOp(from, limit) =>
        var found := store.ReadBoard(from, limit);
        reply := BoardRead(found);
      case DeleteOp =>
        var regions, writes := store.Delete();
        reply := Deleted(regions, writes);
      case ClockOp(instant) =>
        store.SetClock(instant);
        reply := Ticked;
    }
  }

  method AskSqlite(store: SqliteStores.SqliteStore, op: Op) returns (reply: Reply)
    requires store.Valid()
    modifies store
    ensures store.Valid()
    ensures (store.Rec(), reply) == Perform(old(store.Rec()), op)
  {
    hide SqliteStores.SqliteStore.Valid;
    match op {
      case DeclareOp(name, kind) =>
        var refused := store.Declare(name, kind);
        reply := Declared(refused);
      case AppendOp(level, content, key, writer, notify) =>
        var answer := store.Append(level, content, key, writer, notify);
        reply := Answered(answer);
      case SetOp(premise, value, expected, key, writer, notify) =>
        var answer := store.Set(premise, value, expected, key, writer, notify);
        reply := Answered(answer);
      case ReadLevelOp(level, from, limit) =>
        var found := store.ReadLevel(level, from, limit);
        reply := LevelRead(found);
      case ReadPremiseOp(premise) =>
        var state := store.ReadPremise(premise);
        reply := PremiseRead(state);
      case ReadBoardOp(from, limit) =>
        var found := store.ReadBoard(from, limit);
        reply := BoardRead(found);
      case DeleteOp =>
        var regions, writes := store.Delete();
        reply := Deleted(regions, writes);
      case ClockOp(instant) =>
        store.SetClock(instant);
        reply := Ticked;
    }
  }

  method AskPostgres(store: PostgresStores.PostgresStore, op: Op) returns (reply: Reply)
    requires store.Valid()
    modifies store
    ensures store.Valid()
    ensures (store.Rec(), reply) == Perform(old(store.Rec()), op)
  {
    hide PostgresStores.PostgresStore.Valid;
    match op {
      case DeclareOp(name, kind) =>
        var refused := store.Declare(name, kind);
        reply := Declared(refused);
      case AppendOp(level, content, key, writer, notify) =>
        var answer := store.Append(level, content, key, writer, notify);
        reply := Answered(answer);
      case SetOp(premise, value, expected, key, writer, notify) =>
        var answer := store.Set(premise, value, expected, key, writer, notify);
        reply := Answered(answer);
      case ReadLevelOp(level, from, limit) =>
        var found := store.ReadLevel(level, from, limit);
        reply := LevelRead(found);
      case ReadPremiseOp(premise) =>
        var state := store.ReadPremise(premise);
        reply := PremiseRead(state);
      case ReadBoardOp(from, limit) =>
        var found := store.ReadBoard(from, limit);
        reply := BoardRead(found);
      case DeleteOp =>
        var regions, writes := store.Delete();
        reply := Deleted(regions, writes);
      case ClockOp(instant) =>
        store.SetClock(instant);
        reply := Ticked;
    }
  }

  method AskMongo(store: MongoStores.MongoStore, op: Op) returns (reply: Reply)
    requires store.Valid()
    modifies store
    ensures store.Valid()
    ensures (store.Rec(), reply) == Perform(old(store.Rec()), op)
  {
    hide MongoStores.MongoStore.Valid;
    match op {
      case DeclareOp(name, kind) =>
        var refused := store.Declare(name, kind);
        reply := Declared(refused);
      case AppendOp(level, content, key, writer, notify) =>
        var answer := store.Append(level, content, key, writer, notify);
        reply := Answered(answer);
      case SetOp(premise, value, expected, key, writer, notify) =>
        var answer := store.Set(premise, value, expected, key, writer, notify);
        reply := Answered(answer);
      case ReadLevelOp(level, from, limit) =>
        var found := store.ReadLevel(level, from, limit);
        reply := LevelRead(found);
      case ReadPremiseOp(premise) =>
        var state := store.ReadPremise(premise);
        reply := PremiseRead(state);
      case ReadBoardOp(from, limit) =>
        var found := store.ReadBoard(from, limit);
        reply := BoardRead(found);
      case DeleteOp =>
        var regions, writes := store.Delete();
        reply := Deleted(regions, writes);
      case ClockOp(instant) =>
        store.SetClock(instant);
        reply := Ticked;
    }
  }

  // Four stores given one history answer it alike, reply for reply, and end
  // with one record.
  method Agree(now: Instant, ops: seq<Op>)
    returns (m: MemoryStores.InMemoryStore, s: SqliteStores.SqliteStore,
             p: PostgresStores.PostgresStore, g: MongoStores.MongoStore,
             memory: seq<Reply>, sqlite: seq<Reply>, postgres: seq<Reply>, mongo: seq<Reply>)
    ensures m.Valid() && s.Valid() && p.Valid() && g.Valid()
    ensures m.Rec() == s.Rec() == p.Rec() == g.Rec() == After(Blank(now), ops)
    ensures memory == Replies(Blank(now), ops)
    ensures sqlite == memory && postgres == memory && mongo == memory
  {
    m := new MemoryStores.InMemoryStore(now);
    s := new SqliteStores.SqliteStore(now);
    p := new PostgresStores.PostgresStore(now);
    g := new MongoStores.MongoStore(now);
    memory, sqlite, postgres, mongo := [], [], [], [];
    Begins(Blank(now));
    hide *;
    assert ops[..0] == [];
    for i := 0 to |ops|
      invariant m.Valid() && s.Valid() && p.Valid() && g.Valid()
      invariant m.Rec() == s.Rec() == p.Rec() == g.Rec() == After(Blank(now), ops[..i])
      invariant memory == sqlite == postgres == mongo == Replies(Blank(now), ops[..i])
      invariant fresh(m) && fresh(s) && fresh(p) && fresh(g)
    {
      Unfolds(Blank(now), ops, i);
      var reply := AskMemory(m, ops[i]);
      memory := memory + [reply];
      reply := AskSqlite(s, ops[i]);
      sqlite := sqlite + [reply];
      reply := AskPostgres(p, ops[i]);
      postgres := postgres + [reply];
      reply := AskMongo(g, ops[i]);
      mongo := mongo + [reply];
    }
    assert ops[..|ops|] == ops;
  }

  lemma {:induction false} Begins(r: Record)
    ensures After(r, []) == r && Replies(r, []) == []
  {
  }

  lemma {:induction false} Unfolds(r: Record, ops: seq<Op>, i: nat)
    requires i < |ops|
    ensures After(r, ops[..i + 1]) == Perform(After(r, ops[..i]), ops[i]).0
    ensures Replies(r, ops[..i + 1]) == Replies(r, ops[..i]) + [Perform(After(r, ops[..i]), ops[i]).1]
  {
    assert ops[..i + 1][..i] == ops[..i];
  }

  // What a read answers with

  // A contribution is a write to its level, whole.
  predicate IsWhole(log: seq<Entry>, level: Region, c: Contribution) {
    && 1 <= c.sequence <= |log| && log[c.sequence - 1].region == level
    && log[c.sequence - 1].content == c.content && log[c.sequence - 1].writer == c.writer
    && log[c.sequence - 1].at == c.at
  }

  // Writes to a level from a bound, each once, in the order of the log.
  ghost predicate AreWrites(log: seq<Entry>, level: Region, from: int, found: seq<Contribution>) {
    && (forall k :: 0 <= k < |found| ==> IsWhole(log, level, found[k]) && found[k].sequence >= from)
    && (forall k, l :: 0 <= k < l < |found| ==> found[k].sequence < found[l].sequence)
  }

  ghost predicate HasWrite(found: seq<Contribution>, n: nat) {
    exists k :: 0 <= k < |found| && found[k].sequence == n
  }

  lemma {:induction false} LevelIsWrites(log: seq<Entry>, level: Region)
    ensures AreWrites(log, level, 1, LevelOf(log, level))
  {
    if log != [] { LevelIsWrites(log[..|log| - 1], level); }
  }

  lemma {:induction false} LevelHasWrite(log: seq<Entry>, level: Region, i: nat)
    requires i < |log| && log[i].region == level
    ensures HasWrite(LevelOf(log, level), i + 1)
  {
    var init := log[..|log| - 1];
    var before, found := LevelOf(init, level), LevelOf(log, level);
    if i < |init| {
      LevelHasWrite(init, level, i);
      var k :| 0 <= k < |before| && before[k].sequence == i + 1;
      assert found[k].sequence == i + 1;
    } else {
      assert found[|found| - 1].sequence == |log|;
    }
  }

  lemma {:induction false} AtOrAfterIs(log: seq<Entry>, level: Region, found: seq<Contribution>, from: int)
    requires AreWrites(log, level, 1, found)
    ensures AreWrites(log, level, from, AtOrAfter(found, from))
    ensures forall c :: c in AtOrAfter(found, from) ==> c in found
  {
    if found != [] {
      var init, last := found[..|found| - 1], found[|found| - 1];
      AtOrAfterIs(log, level, init, from);
      var before := AtOrAfter(init, from);
      forall k | 0 <= k < |before| ensures before[k].sequence < last.sequence {
        assert before[k] in init;
        var j :| 0 <= j < |init| && init[j] == before[k];
        assert found[j].sequence < found[|found| - 1].sequence;
      }
      assert found == init + [last];
    }
  }

  lemma {:induction false} AtOrAfterHas(found: seq<Contribution>, from: int, n: nat)
    requires HasWrite(found, n) && n >= from
    ensures HasWrite(AtOrAfter(found, from), n)
  {
    var init, last := found[..|found| - 1], found[|found| - 1];
    var kept := AtOrAfter(found, from);
    var k :| 0 <= k < |found| && found[k].sequence == n;
    if k < |init| {
      assert init[k].sequence == n;
      AtOrAfterHas(init, from, n);
      var j :| 0 <= j < |AtOrAfter(init, from)| && AtOrAfter(init, from)[j].sequence == n;
      assert kept[j].sequence == n;
    } else {
      assert kept[|kept| - 1].sequence == n;
    }
  }

  // Every write to a level from a bound, and what a cut of them leaves: as
  // many as asked, and nothing left out before anything kept.
  ghost predicate AllWrites(log: seq<Entry>, level: Region, from: int, found: seq<Contribution>) {
    && AreWrites(log, level, from, found)
    && forall i :: 0 <= i < |log| && i + 1 >= from && log[i].region == level ==> HasWrite(found, i + 1)
  }

  ghost predicate FirstWrites(
    log: seq<Entry>, level: Region, from: int, limit: Option<nat>, found: seq<Contribution>)
  {
    && AreWrites(log, level, from, found)
    && (limit.Some? ==> |found| <= limit.value)
    && (limit.None? || |found| < limit.value ==> AllWrites(log, level, from, found))
    && (forall i :: 0 <= i < |log| && log[i].region == level && i + 1 >= from && !HasWrite(found, i + 1) ==>
          forall k :: 0 <= k < |found| ==> found[k].sequence < i + 1)
  }

  lemma CutLeavesFirst(log: seq<Entry>, level: Region, from: int, limit: Option<nat>, all: seq<Contribution>)
    requires AllWrites(log, level, from, all)
    ensures FirstWrites(log, level, from, limit, Prefix(all, limit))
  {
    hide IsWhole;
    var found := Prefix(all, limit);
    forall i | 0 <= i < |log| && log[i].region == level && i + 1 >= from && !HasWrite(found, i + 1)
      ensures forall k :: 0 <= k < |found| ==> found[k].sequence < i + 1
    {
      assert HasWrite(all, i + 1);
      var j :| 0 <= j < |all| && all[j].sequence == i + 1;
      assert forall k :: 0 <= k < |found| ==> found[k] == all[k];
    }
  }

  // A level read is the writes to it from the bound, whole and in order.
  lemma LevelReads(r: Record, level: Region, from: int, limit: Option<nat>)
    requires ReadLevel(r, level, from, limit).Found?
    ensures FirstWrites(r.log, level, from, limit, ReadLevel(r, level, from, limit).value)
  {
    hide LevelOf, AtOrAfter, AreWrites, HasWrite, FirstWrites;
    LevelIsWrites(r.log, level);
    AtOrAfterIs(r.log, level, LevelOf(r.log, level), from);
    var all := AtOrAfter(LevelOf(r.log, level), from);
    forall i | 0 <= i < |r.log| && i + 1 >= from && r.log[i].region == level ensures HasWrite(all, i + 1) {
      LevelHasWrite(r.log, level, i);
      AtOrAfterHas(LevelOf(r.log, level), from, i + 1);
    }
    CutLeavesFirst(r.log, level, from, limit, all);
  }

  // A premise reads as its last write, whole, at the number of its writes.
  lemma {:induction false} PremiseReads(r: Record, premise: Region)
    requires ReadPremise(r, premise).Found?
    ensures var state := ReadPremise(r, premise).value;
            && state.version == Writes(r.log, premise)
            && exists i :: && 0 <= i < |r.log| && IsLast(r.log, premise, i)
                           && state == PremiseState(r.log[i].content, state.version, r.log[i].writer, r.log[i].at)
  {
    PremiseVersion(r.log, premise);
    PremiseIsLast(r.log, premise);
  }

  ghost predicate IsLast(log: seq<Entry>, premise: Region, i: nat)
    requires i < |log|
  {
    log[i].region == premise && forall j :: i < j < |log| ==> log[j].region != premise
  }

  lemma {:induction false} PremiseIsLast(log: seq<Entry>, premise: Region)
    requires PremiseOf(log, premise).Some?
    ensures var state := PremiseOf(log, premise).value;
            exists i :: && 0 <= i < |log| && IsLast(log, premise, i)
                        && state == PremiseState(log[i].content, state.version, log[i].writer, log[i].at)
  {
    if log[|log| - 1].region == premise {
      assert IsLast(log, premise, |log| - 1);
    } else {
      var init := log[..|log| - 1];
      PremiseIsLast(init, premise);
      var state := PremiseOf(log, premise).value;
      var i :| && 0 <= i < |init| && IsLast(init, premise, i)
               && state == PremiseState(init[i].content, state.version, init[i].writer, init[i].at);
      assert IsLast(log, premise, i);
    }
  }

  // A board read is the writes from the bound, whole and without a gap, and as
  // many as there are or as asked.
  ghost predicate AreChanges(log: seq<Entry>, first: nat, found: seq<BoardChange>) {
    forall k :: 0 <= k < |found| ==> IsChange(log, first + k, found[k])
  }

  predicate IsChange(log: seq<Entry>, n: nat, change: BoardChange) {
    && 1 <= n <= |log|
    && change == BoardChange(n, log[n - 1].region, log[n - 1].content, log[n - 1].writer, log[n - 1].at)
  }

  lemma BoardReads(r: Record, from: int, limit: Option<nat>)
    ensures var found := ReadBoard(r, from, limit);
            var first := Max(from, 1);
            var left := Max(|r.log| + 1 - first, 0);
            && |found| == (if limit.Some? then Min(left, limit.value) else left)
            && AreChanges(r.log, first, found)
  {
    ChangesFromIs(r.log, from);
    hide ChangesFrom, IsChange;
  }

  lemma ChangesFromIs(log: seq<Entry>, from: int)
    ensures |ChangesFrom(log, from)| == Max(|log| + 1 - Max(from, 1), 0)
    ensures AreChanges(log, Max(from, 1), ChangesFrom(log, from))
  {
    hide ChangesOf, IsChange;
    var skipped := Max(from, 1) - 1;
    if skipped < |log| {
      var found := ChangesOf(log)[skipped..];
      forall k | 0 <= k < |found| ensures IsChange(log, skipped + 1 + k, found[k]) {
        ChangeAt(log, skipped + k);
        assert found[k] == ChangesOf(log)[skipped + k];
      }
    }
  }

  lemma ChangeAt(log: seq<Entry>, i: nat)
    requires i < |log|
    ensures IsChange(log, i + 1, ChangesOf(log)[i])
  {
  }

  // A repeated write

  // Whatever else happens, but the board being deleted, the record only grows.
  ghost predicate Extends(r: Record, s: Record) {
    && |r.log| <= |s.log| && s.log[..|r.log|] == r.log
    && forall region :: region in r.kinds ==> region in s.kinds && s.kinds[region] == r.kinds[region]
  }

  lemma {:induction false} HistoryExtends(r: Record, ops: seq<Op>)
    requires forall i :: 0 <= i < |ops| ==> !ops[i].DeleteOp?
    ensures Extends(r, After(r, ops))
  {
    assert r.log[..|r.log|] == r.log;
    if ops != [] {
      var s := After(r, ops[..|ops| - 1]);
      HistoryExtends(r, ops[..|ops| - 1]);
      assert Perform(s, ops[|ops| - 1]).0.log[..|s.log|] == s.log;
      assert After(r, ops).log[..|r.log|] == s.log[..|r.log|];
    }
  }

  lemma {:induction false} KeyedStays(r: Record, s: Record, key: Key)
    requires Extends(r, s) && LogSound(s.kinds, s.log) && KeyedAt(r.log, key) > 0
    ensures KeyedAt(s.log, key) == KeyedAt(r.log, key)
  {
    var n, m := KeyedAt(r.log, key), KeyedAt(s.log, key);
    assert s.log[n - 1] == s.log[..|r.log|][n - 1];
    assert m > 0;
  }

  predicate IsKeyed(op: Op) { (op.AppendOp? || op.SetOp?) && op.key.Some? }

  // Sent again under its key, a write that was accepted is answered with the
  // number and the version it was first given, and stores nothing, whatever
  // was done to the board in between.
  lemma {:induction false} RepeatAnswersAlike(r: Record, op: Op, later: seq<Op>)
    requires OneLog(r) && IsKeyed(op)
    requires Perform(r, op).1.Answered? && Perform(r, op).1.answer.Done?
    requires forall i :: 0 <= i < |later| ==> !later[i].DeleteOp?
    ensures var (s, reply) := Perform(r, op);
            Perform(After(s, later), op) == (After(s, later), Answered(Done(reply.answer.written.(repeated := true))))
  {
    hide Perform, After, Extends, LogSound, RowsSound, KeyedAt;
    var (s, reply) := Perform(r, op);
    var u := After(s, later);
    EveryHistoryKeepsOneLog(r, [op]);
    OneOp(r, op);
    EveryHistoryKeepsOneLog(s, later);
    HistoryExtends(s, later);
    AcceptedIsKeyed(r, op);
    KeyedStays(s, u, op.key.value);
    RecalledLater(s, u, op, reply.answer.written);
  }

  lemma RecalledLater(s: Record, u: Record, op: Op, written: Written)
    requires IsKeyed(op) && Extends(s, u) && KeyedAt(u.log, op.key.value) == KeyedAt(s.log, op.key.value)
    requires Names(s, op, written)
    ensures Perform(u, op) == (u, Answered(Done(written.(repeated := true))))
  {
    var n := KeyedAt(s.log, op.key.value);
    assert u.log[n - 1] == u.log[..|s.log|][n - 1];
  }

  // The entry under a write's key is the one an answer speaks of.
  ghost predicate Names(s: Record, op: Op, written: Written)
    requires IsKeyed(op)
  {
    var region := if op.AppendOp? then op.level else op.premise;
    var kind := if op.AppendOp? then LevelKind else PremiseKind;
    var n := KeyedAt(s.log, op.key.value);
    && 1 <= n == written.sequence && s.log[n - 1].region == region && s.log[n - 1].version == written.version
    && region in s.kinds && s.kinds[region] == kind
  }

  lemma {:induction false} OneOp(r: Record, op: Op)
    ensures After(r, [op]) == Perform(r, op).0
  {
    assert [op][..0] == [];
  }

  // An accepted write is the entry its key names.
  lemma {:induction false} AcceptedIsKeyed(r: Record, op: Op)
    requires IsKeyed(op) && Perform(r, op).1.Answered? && Perform(r, op).1.answer.Done?
    ensures var (s, reply) := Perform(r, op);
            Names(s, op, reply.answer.written) && KeyedAt(s.log, op.key.value) > 0
  {
    var s := Perform(r, op).0;
    if s != r { KeyedAppend(r.log, s.log[|s.log| - 1], op.key.value); }
  }

  // A conflict says the version a read answers with, stores nothing, and is
  // not the version expected; expecting that one instead is accepted.
  lemma ConflictSaysCurrent(
    r: Record, premise: Region, value: Content, expected: int,
    key: Option<Key>, writer: Option<Name>, notify: set<Name>)
    requires Set(r, premise, value, expected, key, writer, notify).1.Conflict?
    ensures var (s, answer) := Set(r, premise, value, expected, key, writer, notify);
            var current := answer.current;
            var read := ReadPremise(r, premise);
            && s == r && current != expected
            && (if read.Found? then read.value.version == current else current == 0)
            && var (u, again) := Set(r, premise, value, current, key, writer, notify);
               && again == Done(Written(|r.log| + 1, Some(current + 1), false))
               && ReadPremise(u, premise) ==
                  Found(PremiseState(value, current + 1, writer, r.now))
  {
    PremiseVersion(r.log, premise);
    WritesAppend(r.log, Entry(premise, value, Some(Writes(r.log, premise) + 1), key, writer, r.now), premise);
  }

  // No update is lost

  // Clients of one premise. Each reads it and later sets a function of what
  // it read under the version it read; anything else may happen in between.
  datatype ClientStep =
    | ReadIt(client: Name)
    | SetIt(client: Name, update: Option<Content> -> Content, key: Option<Key>, notify: set<Name>)
    | Otherwise(op: Op)

  datatype Clients = Clients(
    record: Record, read: map<Name, (nat, Option<Content>)>, applied: seq<Option<Content> -> Content>)

  function ValueOf(log: seq<Entry>, premise: Region): Option<Content> {
    match PremiseOf(log, premise)
    case None => None
    case Some(state) => Some(state.value)
  }

  predicate Leaves(op: Op, premise: Region) {
    !op.DeleteOp? && (op.SetOp? ==> op.premise != premise)
  }

  function Take(c: Clients, premise: Region, step: ClientStep): Clients {
    match step
    case ReadIt(client) =>
      var found := ReadPremise(c.record, premise);
      if found.Found? then c.(read := c.read[client := (found.value.version, Some(found.value.value))])
      else c.(read := c.read[client := (0, None)])
    case SetIt(client, update, key, notify) =>
      if client !in c.read then c
      else
        var (version, value) := c.read[client];
        var (after, answer) := Set(c.record, premise, update(value), version, key, Some(client), notify);
        c.(record := after,
           applied := if answer.Done? && !answer.written.repeated then c.applied + [update] else c.applied)
    case Otherwise(op) =>
      if Leaves(op, premise) then c.(record := Perform(c.record, op).0) else c
  }

  function TakeAll(c: Clients, premise: Region, steps: seq<ClientStep>): Clients {
    if steps == [] then c
    else Take(TakeAll(c, premise, steps[..|steps| - 1]), premise, steps[|steps| - 1])
  }

  function Composed(start: Option<Content>, updates: seq<Option<Content> -> Content>): Option<Content> {
    if updates == [] then start
    else Some(updates[|updates| - 1](Composed(start, updates[..|updates| - 1])))
  }

  ghost predicate Current(c: Clients, premise: Region, start: Record) {
    && OneLog(c.record) && premise in c.record.kinds && c.record.kinds[premise] == PremiseKind
    && ValueOf(c.record.log, premise) == Composed(ValueOf(start.log, premise), c.applied)
    && Writes(c.record.log, premise) == Writes(start.log, premise) + |c.applied|
    && (forall client :: client in c.read ==>
          && c.read[client].0 <= Writes(c.record.log, premise)
          && (c.read[client].0 == Writes(c.record.log, premise) ==>
                c.read[client].1 == ValueOf(c.record.log, premise)))
  }

  lemma {:induction false} OthersLeavePremise(r: Record, op: Op, premise: Region)
    requires Leaves(op, premise) && OneLog(r)
    requires premise in r.kinds && r.kinds[premise] == PremiseKind
    ensures var after := Perform(r, op).0;
            && OneLog(after) && premise in after.kinds && after.kinds[premise] == PremiseKind
            && PremiseOf(after.log, premise) == PremiseOf(r.log, premise)
            && Writes(after.log, premise) == Writes(r.log, premise)
  {
    EveryHistoryKeepsOneLog(r, [op]);
    assert After(r, [op]) == Perform(After(r, []), op).0;
    var after := Perform(r, op).0;
    if after.log != r.log {
      WritesAppend(r.log, after.log[|r.log|], premise);
      assert after.log == r.log + [after.log[|r.log|]];
    }
  }

  lemma TakeKeepsCurrent(c: Clients, premise: Region, step: ClientStep, start: Record)
    requires Current(c, premise, start)
    ensures Current(Take(c, premise, step), premise, start)
  {
    hide OneLog, Set, PremiseOf, Writes;
    PremiseVersion(c.record.log, premise);
    match step {
      case ReadIt(_) =>
      case Otherwise(op) =>
        if Leaves(op, premise) { OthersLeavePremise(c.record, op, premise); }
      case SetIt(client, update, key, notify) =>
        if client in c.read {
          SetMoves(c.record, premise, update(c.read[client].1), c.read[client].0, key, client, notify);
          assert (c.applied + [update])[..|c.applied|] == c.applied;
        }
    }
  }

  // What one set does to the premise it names, by what it answers.
  lemma {:induction false} SetMoves(
    r: Record, premise: Region, value: Content, expected: int, key: Option<Key>, client: Name, notify: set<Name>)
    requires OneLog(r) && premise in r.kinds && r.kinds[premise] == PremiseKind
    ensures var (after, answer) := Set(r, premise, value, expected, key, Some(client), notify);
            && OneLog(after) && after.kinds == r.kinds
            && (if answer.Done? && !answer.written.repeated
                then expected == Writes(r.log, premise)
                     && Writes(after.log, premise) == expected + 1
                     && ValueOf(after.log, premise) == Some(value)
                else after == r)
  {
    SetKeepsOneLog(r, premise, value, expected, key, Some(client), notify);
    var after := Set(r, premise, value, expected, key, Some(client), notify).0;
    if after != r {
      WritesAppend(r.log, after.log[|r.log|], premise);
    }
  }

  // However the clients interleave, the value is the composition of the
  // updates that succeeded, in the order they were sequenced, and each of
  // them raised the version by one.
  lemma {:induction false} NoLostUpdate(start: Record, premise: Region, steps: seq<ClientStep>)
    requires OneLog(start) && premise in start.kinds && start.kinds[premise] == PremiseKind
    ensures var end := TakeAll(Clients(start, map[], []), premise, steps);
            && ValueOf(end.record.log, premise) == Composed(ValueOf(start.log, premise), end.applied)
            && Writes(end.record.log, premise) == Writes(start.log, premise) + |end.applied|
  {
    ClientsStayCurrent(start, premise, steps);
  }

  lemma {:induction false} ClientsStayCurrent(start: Record, premise: Region, steps: seq<ClientStep>)
    requires OneLog(start) && premise in start.kinds && start.kinds[premise] == PremiseKind
    ensures Current(TakeAll(Clients(start, map[], []), premise, steps), premise, start)
  {
    if steps != [] {
      ClientsStayCurrent(start, premise, steps[..|steps| - 1]);
      TakeKeepsCurrent(TakeAll(Clients(start, map[], []), premise, steps[..|steps| - 1]),
                       premise, steps[|steps| - 1], start);
    }
  }
}
