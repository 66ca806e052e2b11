// The client's side of the wire: one call sent as often as it may be, and a
// level read a page at a time to its end, while other writers go on.

module Clients {
  import opened Values
  import opened Records
  import opened Histories
  import opened MemoryStores

  // Sending

  // What the network makes of one attempt. A request that reaches the service
  // may be refused there before anything is stored; its answer may be lost, or
  // replaced on the way by one that asks for another attempt.
  datatype Hop =
    | RequestLost
    | AnswerLost(refused: bool)
    | Busy(reached: bool, refused: bool)
    | Delivered(refused: bool)
  {
    predicate Acts() {
      match this
      case RequestLost => false
      case AnswerLost(refused) => !refused
      case Busy(reached, refused) => reached && !refused
      case Delivered(refused) => !refused
    }
  }

  datatype Outcome = Got(answer: Answer) | Turned | Unreachable

  predicate IsWrite(op: Op) { op.AppendOp? || op.SetOp? }

  function KeyOf(op: Op): Option<Key>
    requires IsWrite(op)
  {
    op.key
  }

  // A write without a key is transmitted once, whatever limit is set.
  function Tries(attempts: nat, op: Op): nat
    requires IsWrite(op)
  {
    if KeyOf(op).Some? then attempts else 1
  }

  // A network as a client meets it: what becomes of each attempt, and what
  // other callers do before it.
  datatype Network = Network(hops: nat -> Hop, others: nat -> seq<Op>)

  datatype Sent = Sent(rec: Record, outcome: Outcome, transmitted: nat)

  // One attempt and those after it.
  function SendFrom(r: Record, op: Op, net: Network, attempt: nat, tries: nat): Sent
    requires IsWrite(op) && 1 <= attempt <= tries
    decreases tries - attempt
  {
    var before := After(r, net.others(attempt));
    var hop := net.hops(attempt);
    var (acted, reply) := Perform(before, op);
    var after := if hop.Acts() then acted else before;
    if hop.Delivered? then Sent(after, if hop.refused then Turned else Got(reply.answer), 1)
    else if attempt == tries then Sent(after, Unreachable, 1)
    else
      var rest := SendFrom(after, op, net, attempt + 1, tries);
      rest.(transmitted := rest.transmitted + 1)
  }

  // An attempt is answered when its answer is delivered: sending stops at the
  // first that is, and otherwise at the limit.
  lemma {:induction false} SendStops(r: Record, op: Op, net: Network, attempt: nat, tries: nat)
    requires IsWrite(op) && 1 <= attempt <= tries
    ensures var sent := SendFrom(r, op, net, attempt, tries);
            && 1 <= sent.transmitted <= tries - attempt + 1
            && (forall k: nat :: attempt <= k < attempt + sent.transmitted - 1 ==> !net.hops(k).Delivered?)
            && (sent.outcome.Unreachable? <==> !net.hops((attempt + sent.transmitted - 1) as nat).Delivered?)
            && (sent.outcome.Unreachable? ==> sent.transmitted == tries - attempt + 1)
    decreases tries - attempt
  {
    var before := After(r, net.others(attempt));
    var hop := net.hops(attempt);
    var after := if hop.Acts() then Perform(before, op).0 else before;
    hide Perform;
    if !hop.Delivered? && attempt < tries {
      SendStops(after, op, net, attempt + 1, tries);
    }
  }

  // A keyed write sent through any network among any other callers: what is
  // on the record stays one log, in which one key names at most one entry;
  // and an answer that it was written names that entry.
  lemma {:induction false} KeyedWriteOnce(r: Record, op: Op, net: Network, attempt: nat, tries: nat)
    requires IsWrite(op) && KeyOf(op).Some? && 1 <= attempt <= tries && OneLog(r)
    ensures var sent := SendFrom(r, op, net, attempt, tries);
            var log := sent.rec.log;
            && OneLog(sent.rec)
            && (forall i, j :: 0 <= i < j < |log| && log[i].key == KeyOf(op) ==> log[j].key != KeyOf(op))
            && (sent.outcome.Got? && sent.outcome.answer.Done? ==>
                  var n := sent.outcome.answer.written.sequence;
                  && 1 <= n <= |log| && log[n - 1].key == KeyOf(op)
                  && log[n - 1].region == (if op.AppendOp? then op.level else op.premise))
    decreases tries - attempt
  {
    var before := After(r, net.others(attempt));
    EveryHistoryKeepsOneLog(r, net.others(attempt));
    var (acted, reply) := Perform(before, op);
    WriteKeepsOneLog(before, op);
    var hop := net.hops(attempt);
    var after := if hop.Acts() then acted else before;
    if hop.Delivered? || attempt == tries {
      WrittenNames(before, op);
    } else {
      KeyedWriteOnce(after, op, net, attempt + 1, tries);
    }
  }

  lemma WriteKeepsOneLog(r: Record, op: Op)
    requires IsWrite(op) && OneLog(r)
    ensures OneLog(Perform(r, op).0)
  {
    match op {
      case AppendOp(level, content, key, writer, notify) => AppendKeepsOneLog(r, level, content, key, writer, notify);
      case SetOp(premise, value, expected, key, writer, notify) =>
        SetKeepsOneLog(r, premise, value, expected, key, writer, notify);
    }
  }

  lemma IsAnswered(r: Record, op: Op)
    requires IsWrite(op)
    ensures Perform(r, op).1.Answered?
  {
  }

  lemma WrittenNames(r: Record, op: Op)
    requires IsWrite(op) && KeyOf(op).Some?
    ensures var (t, reply) := Perform(r, op);
            reply.Answered?
            && (reply.answer.Done? ==>
                  var n := reply.answer.written.sequence;
                  && 1 <= n <= |t.log| && t.log[n - 1].key == KeyOf(op)
                  && t.log[n - 1].region == (if op.AppendOp? then op.level else op.premise))
  {
  }

  // What the one entry under the key holds, where no one else uses the key.
  ghost predicate Ours(e: Entry, op: Op)
    requires IsWrite(op)
  {
    e.key == KeyOf(op) ==>
      && e.region == (if op.AppendOp? then op.level else op.premise)
      && e.content == (if op.AppendOp? then op.content else op.value)
      && e.writer == op.writer
  }

  ghost predicate LeavesKey(ops: seq<Op>, key: Option<Key>) {
    forall o :: o in ops && IsWrite(o) ==> KeyOf(o) != key
  }

  ghost predicate AllOurs(log: seq<Entry>, op: Op)
    requires IsWrite(op)
  {
    forall i :: 0 <= i < |log| ==> Ours(log[i], op)
  }

  // Another's operation under another key, or this write itself.
  lemma OneOpOurs(r: Record, other: Op, op: Op)
    requires IsWrite(op) && KeyOf(op).Some? && AllOurs(r.log, op)
    requires other == op || !IsWrite(other) || KeyOf(other) != KeyOf(op)
    ensures AllOurs(Perform(r, other).0.log, op)
  {
    var log := Perform(r, other).0.log;
    if IsWrite(other) && log != r.log {
      assert log == r.log + [log[|r.log|]];
      assert log[|r.log|].key == KeyOf(other);
      assert Ours(log[|r.log|], op);
      forall i | 0 <= i < |log| ensures Ours(log[i], op) {
        if i < |r.log| { assert log[i] == r.log[i]; }
      }
    }
  }

  lemma {:induction false} OthersLeaveOurs(r: Record, ops: seq<Op>, op: Op)
    requires IsWrite(op) && KeyOf(op).Some? && LeavesKey(ops, KeyOf(op)) && AllOurs(r.log, op)
    ensures AllOurs(After(r, ops).log, op)
  {
    hide AllOurs, Perform;
    if ops != [] {
      var init, last := ops[..|ops| - 1], ops[|ops| - 1];
      assert last in ops && forall o :: o in init ==> o in ops;
      OthersLeaveOurs(r, init, op);
      OneOpOurs(After(r, init), last, op);
    }
  }

  // However often it was sent, what a keyed write leaves under its key is one
  // entry at most, and that entry is the write.
  lemma {:induction false} KeyedWriteIsOurs(r: Record, op: Op, net: Network, attempt: nat, tries: nat)
    requires IsWrite(op) && KeyOf(op).Some? && 1 <= attempt <= tries
    requires forall k :: LeavesKey(net.others(k), KeyOf(op))
    requires AllOurs(r.log, op)
    ensures AllOurs(SendFrom(r, op, net, attempt, tries).rec.log, op)
    decreases tries - attempt
  {
    var before := After(r, net.others(attempt));
    assert LeavesKey(net.others(attempt), KeyOf(op));
    OthersLeaveOurs(r, net.others(attempt), op);
    var hop := net.hops(attempt);
    var after := if hop.Acts() then Perform(before, op).0 else before;
    OneOpOurs(before, op, op);
    hide Perform, AllOurs;
    if !hop.Delivered? && attempt != tries {
      KeyedWriteIsOurs(after, op, net, attempt + 1, tries);
    }
  }

  // Reading a level to its end

  const DEFAULT_LIMIT: nat := 100
  const MAX_LIMIT: nat := 1000

  datatype Page = Page(contributions: seq<Contribution>, more: bool)
  datatype PageAnswer = Paged(page: Page) | Missing(error: Error) | BadQuery

  ghost predicate Ascending(found: seq<Contribution>) {
    forall i, j :: 0 <= i < j < |found| ==> found[i].sequence < found[j].sequence
  }

  lemma {:induction false} LevelAscends(log: seq<Entry>, level: Region)
    ensures Ascending(LevelOf(log, level))
    ensures forall c :: c in LevelOf(log, level) ==> 1 <= c.sequence <= |log|
  {
    if log != [] {
      LevelAscends(log[..|log| - 1], level);
    }
  }

  lemma {:induction false} AtOrAfterKeeps(found: seq<Contribution>, from: int)
    requires Ascending(found)
    ensures Ascending(AtOrAfter(found, from))
    ensures forall c :: c in AtOrAfter(found, from) <==> c in found && c.sequence >= from
  {
    if found != [] {
      var init, last := found[..|found| - 1], found[|found| - 1];
      assert found == init + [last];
      AtOrAfterKeeps(init, from);
    }
  }

  // Reading on from one past the last of a page reads the rest.
  lemma {:induction false} PagesJoin(found: seq<Contribution>, from: int, n: nat)
    requires Ascending(found) && 0 < n <= |AtOrAfter(found, from)|
    ensures var rest := AtOrAfter(found, from);
            AtOrAfter(found, rest[n - 1].sequence + 1) == rest[n..]
  {
    var init, last := found[..|found| - 1], found[|found| - 1];
    var rest, before := AtOrAfter(found, from), AtOrAfter(init, from);
    assert found == init + [last] && Ascending(init);
    if n <= |before| {
      LastInit(init, last, from, n);
      PagesJoin(init, from, n);
      hide Ascending;
      PageEnds(before, last, from, n);
      assert rest[n - 1] == before[n - 1];
    } else {
      assert forall i :: 0 <= i < |found| ==> found[i].sequence < last.sequence + 1;
      assert rest[n - 1] == last && rest[n..] == [];
      hide AtOrAfter;
      NothingAfter(found, last.sequence + 1);
    }
  }

  lemma {:induction false} LastInit(init: seq<Contribution>, last: Contribution, from: int, n: nat)
    requires Ascending(init + [last]) && 0 < n <= |AtOrAfter(init, from)|
    ensures last.sequence > AtOrAfter(init, from)[n - 1].sequence >= from
  {
    var c := AtOrAfter(init, from)[n - 1];
    assert Ascending(init) by {
      assert forall i :: 0 <= i < |init| ==> init[i] == (init + [last])[i];
    }
    AtOrAfterKeeps(init, from);
    assert c in init;
    var i :| 0 <= i < |init| && init[i] == c;
    assert (init + [last])[i] == c && (init + [last])[|init|] == last;
  }

  lemma PageEnds(before: seq<Contribution>, last: Contribution, from: int, n: nat)
    requires n <= |before|
    ensures (before + if last.sequence >= from then [last] else [])[n..]
            == before[n..] + if last.sequence >= from then [last] else []
  {
  }

  lemma {:induction false} NothingAfter(found: seq<Contribution>, from: int)
    requires forall i :: 0 <= i < |found| ==> found[i].sequence < from
    ensures AtOrAfter(found, from) == []
  {
    if found != [] {
      NothingAfter(found[..|found| - 1], from);
    }
  }

  // What has been read so far, and where the next page starts, while others
  // write: the level from the bound is what was read and what is still to read.
  ghost predicate ReadUpTo(log: seq<Entry>, level: Region, from: int, read: seq<Contribution>, start: int) {
    && AtOrAfter(LevelOf(log, level), from) == read + AtOrAfter(LevelOf(log, level), start)
    && ((read == [] && start == from) || from <= start <= |log| + 1)
  }

  lemma EntryKeepsRead(log: seq<Entry>, e: Entry, level: Region, from: int, read: seq<Contribution>, start: int)
    requires ReadUpTo(log, level, from, read, start)
    ensures ReadUpTo(log + [e], level, from, read, start)
  {
    WritesAppend(log, e, level);
    var c := Contribution(|log| + 1, e.content, e.writer, e.at);
    var found := LevelOf(log, level);
    if e.region == level {
      assert (found + [c])[..|found|] == found;
      if start != from || read != [] {
        assert (read + AtOrAfter(found, start)) + [c] == read + (AtOrAfter(found, start) + [c]);
      }
    } else {
      assert LevelOf(log + [e], level) == found;
    }
  }

  // One page read, of what is left.
  lemma PageReadsOn(log: seq<Entry>, level: Region, from: int, read: seq<Contribution>, start: int)
    requires ReadUpTo(log, level, from, read, start) && start >= from
    ensures var rest := AtOrAfter(LevelOf(log, level), start);
            var page := Prefix(rest, Some(DEFAULT_LIMIT));
            && (|rest| <= DEFAULT_LIMIT ==> read + page == AtOrAfter(LevelOf(log, level), from))
            && (|rest| > DEFAULT_LIMIT ==>
                  && page != [] && Ascending(page)
                  && page[|page| - 1].sequence >= start
                  && ReadUpTo(log, level, from, read + page, page[|page| - 1].sequence + 1)
                  && |AtOrAfter(LevelOf(log, level), page[|page| - 1].sequence + 1)| < |rest|)
  {
    var found := LevelOf(log, level);
    var rest := AtOrAfter(found, start);
    LevelAscends(log, level);
    AtOrAfterKeeps(found, start);
    if |rest| > DEFAULT_LIMIT {
      PagesJoin(found, start, DEFAULT_LIMIT);
      hide AtOrAfter, LevelOf;
      assert rest[DEFAULT_LIMIT - 1] in rest;
      RestSplits(read, rest);
    }
  }

  lemma RestSplits(read: seq<Contribution>, rest: seq<Contribution>)
    requires Ascending(rest) && |rest| > DEFAULT_LIMIT
    ensures var page := rest[..DEFAULT_LIMIT];
            read + rest == (read + page) + rest[DEFAULT_LIMIT..] && Ascending(page)
  {
  }

  predicate Adds(op: Op) { !op.DeleteOp? }

  lemma {:induction false} OthersKeepRead(
    r: Record, ops: seq<Op>, level: Region, from: int, read: seq<Contribution>, start: int)
    requires ReadUpTo(r.log, level, from, read, start) && forall op :: op in ops ==> Adds(op)
    ensures ReadUpTo(After(r, ops).log, level, from, read, start)
    ensures Requires(r, level, LevelKind).None? ==> Requires(After(r, ops), level, LevelKind).None?
  {
    if ops != [] {
      var init, last := ops[..|ops| - 1], ops[|ops| - 1];
      assert last in ops && forall op :: op in init ==> op in ops;
      OthersKeepRead(r, init, level, from, read, start);
      var before := After(r, init);
      var after := Perform(before, last).0;
      if after.log != before.log {
        assert after.log == before.log + [after.log[|before.log|]];
        EntryKeepsRead(before.log, after.log[|before.log|], level, from, read, start);
      }
    }
  }

  // The service's answer to one page of a level.
  method AnswerPage(store: InMemoryStore, level: Region, from: int, asked: Option<nat>) returns (answer: PageAnswer)
    requires store.Valid()
    ensures answer == PageFor(store.Rec(), level, from, asked)
  {
    if from < 0 {
      return BadQuery;
    }
    var limit := if asked.Some? then Min(asked.value, MAX_LIMIT) else DEFAULT_LIMIT;
    var found := store.ReadLevel(level, from, Some(limit + 1));
    if found.Absent? {
      return Missing(found.error);
    }
    return Paged(Trim(found.value, limit));
  }

  function Trim(found: seq<Contribution>, limit: nat): Page {
    if |found| <= limit then Page(found, false) else Page(found[..limit], true)
  }

  function PageFor(r: Record, level: Region, from: int, asked: Option<nat>): PageAnswer {
    if from < 0 then BadQuery
    else
      var limit := if asked.Some? then Min(asked.value, MAX_LIMIT) else DEFAULT_LIMIT;
      match ReadLevel(r, level, from, Some(limit + 1))
      case Absent(error) => Missing(error)
      case Found(found) => Paged(Trim(found, limit))
  }

  // A page is the first of what is left, and says whether there is more.
  lemma {:induction false} PageIsPrefix(r: Record, level: Region, from: int, asked: Option<nat>)
    requires from >= 0 && Requires(r, level, LevelKind).None?
    ensures var limit := if asked.Some? then Min(asked.value, MAX_LIMIT) else DEFAULT_LIMIT;
            var rest := AtOrAfter(LevelOf(r.log, level), from);
            PageFor(r, level, from, asked) == Paged(Page(Prefix(rest, Some(limit)), |rest| > limit))
  {
  }

  lemma NothingRead(log: seq<Entry>, level: Region, from: int)
    ensures ReadUpTo(log, level, from, [], from)
  {
    assert [] + AtOrAfter(LevelOf(log, level), from) == AtOrAfter(LevelOf(log, level), from);
  }

  lemma {:induction false} WholeRead(r: Record, level: Region, from: int)
    requires Requires(r, level, LevelKind).None?
    ensures Records.ReadLevel(r, level, from, None) == Found(AtOrAfter(LevelOf(r.log, level), from))
  {
  }

  // The greatest sequence of a page.
  method Latest(page: seq<Contribution>) returns (latest: nat)
    requires page != [] && Ascending(page)
    ensures latest == page[|page| - 1].sequence
  {
    latest := page[0].sequence;
    var i := 1;
    while i < |page|
      invariant 1 <= i <= |page| && latest == page[i - 1].sequence
    {
      if page[i].sequence > latest {
        latest := page[i].sequence;
      }
      i := i + 1;
    }
  }

  class BoardClient {
    const attempts: nat
    // The record at the other end of the wire.
    const store: InMemoryStore

    constructor (attempts: nat, store: InMemoryStore)
      requires attempts >= 1
      ensures this.attempts == attempts && this.store == store
    {
      this.attempts, this.store := attempts, store;
    }

    // One write, sent until it is answered or the attempts run out.
    method Send(op: Op, net: Network) returns (outcome: Outcome, transmitted: nat)
      requires attempts >= 1 && store.Valid() && IsWrite(op)
      modifies store
      ensures store.Valid()
      ensures Sent(store.Rec(), outcome, transmitted) == SendFrom(old(store.Rec()), op, net, 1, Tries(attempts, op))
      ensures KeyOf(op).None? ==> transmitted == 1
      ensures 1 <= transmitted <= attempts
      ensures forall k: nat :: 1 <= k < transmitted ==> !net.hops(k).Delivered?
      ensures outcome.Unreachable? <==> !net.hops(transmitted).Delivered?
      ensures KeyOf(op).Some? && outcome.Unreachable? ==> transmitted == attempts
    {
      hide InMemoryStore.Valid, InMemoryStore.Rec, Perform;
      var tries := Tries(attempts, op);
      ghost var r := store.Rec();
      SendStops(r, op, net, 1, tries);
      var attempt := 1;
      transmitted := 0;
      while attempt <= tries
        invariant store.Valid() && 1 <= attempt <= tries && transmitted == attempt - 1
        invariant SendFrom(r, op, net, 1, tries) ==
                  var rest := SendFrom(store.Rec(), op, net, attempt, tries);
                  rest.(transmitted := rest.transmitted + transmitted)
        decreases tries - attempt
      {
        OthersAct(net.others(attempt));
        transmitted := transmitted + 1;
        var hop := net.hops(attempt);
        ghost var before := store.Rec();
        IsAnswered(before, op);
        if hop.Acts() {
          var reply := AskMemory(store, op);
          if hop.Delivered? {
            return Got(reply.answer), transmitted;
          }
        } else if hop.Delivered? {
          return Turned, transmitted;
        }
        if attempt == tries {
          return Unreachable, transmitted;
        }
        attempt := attempt + 1;
      }
    }

    method OthersAct(ops: seq<Op>)
      requires store.Valid()
      modifies store
      ensures store.Valid() && store.Rec() == After(old(store.Rec()), ops)
    {
      hide InMemoryStore.Valid, InMemoryStore.Rec, Perform;
      var i := 0;
      while i < |ops|
        invariant store.Valid() && 0 <= i <= |ops|
        invariant store.Rec() == After(old(store.Rec()), ops[..i])
      {
        assert ops[..i + 1][..i] == ops[..i];
        var reply := AskMemory(store, ops[i]);
        i := i + 1;
      }
      assert ops[..i] == ops;
    }

    // A level read to its end, others writing before each page. What comes
    // back is what one read in process would give at the moment of the last
    // page.
    method ReadLevel(level: Region, from: int, growths: seq<seq<Op>>) returns (answer: PageAnswer)
      requires store.Valid() && forall k, op :: 0 <= k < |growths| && op in growths[k] ==> Adds(op)
      modifies store
      ensures store.Valid()
      ensures answer == match Records.ReadLevel(store.Rec(), level, from, None)
                        case Absent(error) => if from < 0 then BadQuery else Missing(error)
                        case Found(all) => if from < 0 then BadQuery else Paged(Page(all, false))
    {
      hide InMemoryStore.Valid, InMemoryStore.Rec, After, Perform, AtOrAfter, LevelOf, ReadUpTo, Prefix;
      var read: seq<Contribution> := [];
      var start, k := from, 0;
      var going := true;
      NothingRead(store.Rec().log, level, from);
      while going
        invariant store.Valid() && 0 <= k <= |growths|
        invariant going ==> ReadUpTo(store.Rec().log, level, from, read, start) && start >= from
        invariant start == from || from >= 0
        invariant !going ==>
          && from >= 0 && Requires(store.Rec(), level, LevelKind).None?
          && read == AtOrAfter(LevelOf(store.Rec().log, level), from)
        decreases going, |growths| - k, |AtOrAfter(LevelOf(store.Rec().log, level), start)|
      {
        if k < |growths| {
          OthersKeepRead(store.Rec(), growths[k], level, from, read, start);
          OthersAct(growths[k]);
          k := k + 1;
        }
        var page := AnswerPage(store, level, start, None);
        if !page.Paged? {
          return page;
        }
        PageIsPrefix(store.Rec(), level, start, None);
        PageReadsOn(store.Rec().log, level, from, read, start);
        read := read + page.page.contributions;
        if page.page.more && page.page.contributions != [] {
          var last := Latest(page.page.contributions);
          start := last + 1;
        } else {
          going := false;
        }
      }
      WholeRead(store.Rec(), level, from);
      return Paged(Page(read, false));
    }
  }
}
