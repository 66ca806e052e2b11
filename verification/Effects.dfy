// What the blocks of a Control do, told by the fields they read and write and
// by what a caller meets: who is sent what and when, what a write answers, and
// whom a closing names.

module Effects {
  import opened Values
  import opened Records
  import opened Clocks
  import opened Controls
  import opened Guarantees
  import opened Sessions
  import opened PendingSets

  // An agent this Control holds is carried to by its callable, and where it
  // has none by its address, if this Control reaches addresses.
  predicate CarriedBy(reach: bool, decl: Declaration, carrier: Carrier) {
    if decl.notify.Some? then carrier == Callable(decl.notify.value)
    else reach && decl.addr.Some? && carrier == Transport(decl.addr.value)
  }

  lemma CarrierIs(reach: bool, decl: Declaration)
    ensures CarrierFor(reach, decl).Some? <==> exists carrier :: CarriedBy(reach, decl, carrier)
    ensures CarrierFor(reach, decl).Some? ==> CarriedBy(reach, decl, CarrierFor(reach, decl).value)
  {
    if decl.notify.Some? {
      assert CarriedBy(reach, decl, Callable(decl.notify.value));
    } else if decl.addr.Some? && reach {
      assert CarriedBy(reach, decl, Transport(decl.addr.value));
    }
  }

  // Delivering

  // Some delivery to the row's agent reaches the row, its call returned, and
  // the callable does not mark its own sends.
  predicate Reaches(d: Delivery, sends: Delivery -> bool, row: (Name, nat)) {
    && sends(d) && !(d.carrier.Callable? && d.carrier.marksSent)
    && d.note.agent == row.0 && row.1 <= d.note.to
  }

  lemma {:induction false} DeliveredRowsGo(r: Record, ds: seq<Delivery>, sends: Delivery -> bool)
    ensures var t := DeliverAll(r, ds, sends);
            && t == r.(outbox := t.outbox) && t.outbox <= r.outbox
            && forall row :: row in r.outbox ==>
                 (row !in t.outbox <==> exists d :: d in ds && Reaches(d, sends, row))
  {
    if ds != [] {
      var init, last := ds[..|ds| - 1], ds[|ds| - 1];
      DeliveredRowsGo(r, init, sends);
      assert ds == init + [last];
      var s, t := DeliverAll(r, init, sends), DeliverAll(r, ds, sends);
      forall row | row in r.outbox
        ensures row !in t.outbox <==> exists d :: d in ds && Reaches(d, sends, row)
      {
        if d :| d in init && Reaches(d, sends, row) { assert d in ds; }
        if Reaches(last, sends, row) { assert last in ds; }
      }
    }
  }

  // Tails

  // A change of a tail counts for an agent: past what it was told where the
  // tail is a poll's, not its own, and in a region it is to hear of.
  predicate Counts(
    kinds: map<Region, Kind>, st: AgentState, relaying: bool,
    sequence: nat, region: Region, writer: Option<Name>)
  {
    && (relaying || sequence > st.notified) && writer != Some(st.decl.name)
    && IsFor(kinds, st.decl.subs, region)
  }

  // When a change falls due here: what is left of its window on the record's
  // clock, from this process's instant, and at once where nothing is left.
  predicate DueAt(due: Instant, here: Instant, at: Instant, window: Duration, recordNow: Instant) {
    if at + window >= recordNow then due - here == at + window - recordNow else due == here
  }

  predicate CountsAt(w: World, st: AgentState, relaying: bool, n: nat)
    requires 1 <= n <= |w.rec.log|
  {
    Counts(w.ctl.kinds, st, relaying, n, w.rec.log[n - 1].region, w.rec.log[n - 1].writer)
  }

  predicate DueFrom(w: World, n: nat, due: Instant)
    requires 1 <= n <= |w.rec.log| && w.rec.log[n - 1].region in w.ctl.windows
  {
    DueAt(due, w.clock.now, w.rec.log[n - 1].at, w.ctl.windows[w.rec.log[n - 1].region], w.rec.now)
  }

  // What a tail leaves pending, region by region: due no later than it was nor
  // than any change that counts makes it, and at just one of those instants.
  ghost predicate TailLeaves(
    w: World, st: AgentState, after: AgentState, lo: nat, hi: nat, relaying: bool)
    requires hi <= |w.rec.log| && w.ctl.kinds.Keys == w.ctl.windows.Keys
  {
    && after == st.(pending := after.pending)
    && (forall region :: region in st.pending ==>
          region in after.pending && after.pending[region] <= st.pending[region])
    && (forall n :: lo < n <= hi && CountsAt(w, st, relaying, n) ==> NoLater(w, after, n))
    && (forall region :: region in after.pending ==>
          || (region in st.pending && after.pending[region] == st.pending[region])
          || (exists n :: lo < n <= hi && CountsAt(w, st, relaying, n) && w.rec.log[n - 1].region == region
                          && DueFrom(w, n, after.pending[region])))
  }

  ghost predicate NoLater(w: World, after: AgentState, n: nat)
    requires 1 <= n <= |w.rec.log|
  {
    var e := w.rec.log[n - 1];
    && e.region in after.pending && e.region in w.ctl.windows
    && exists due :: DueFrom(w, n, due) && after.pending[e.region] <= due
  }

  lemma {:induction false} TailDues(w: World, st: AgentState, lo: nat, hi: nat, relaying: bool)
    requires hi <= |w.rec.log| && w.ctl.kinds.Keys == w.ctl.windows.Keys
    ensures TailLeaves(w, st, AddTail(w, st, lo, hi, relaying), lo, hi, relaying)
  {
    if lo < hi {
      TailDues(w, st, lo, hi - 1, relaying);
      var before, after := AddTail(w, st, lo, hi - 1, relaying), AddTail(w, st, lo, hi, relaying);
      var e := w.rec.log[hi - 1];
      assert CountsAt(w, st, relaying, hi) <==> Adds(w.ctl, w.rec.log, hi, st, relaying);
      if CountsAt(w, st, relaying, hi) {
        assert DueFrom(w, hi, DueOf(w, e));
        assert NoLater(w, after, hi);
      }
      forall n | lo < n <= hi && CountsAt(w, st, relaying, n) ensures NoLater(w, after, n) {
        if n < hi {
          assert NoLater(w, before, n);
          var due :| DueFrom(w, n, due) && before.pending[w.rec.log[n - 1].region] <= due;
          assert after.pending[w.rec.log[n - 1].region] <= due;
        }
      }
    }
  }

  // Who is sent what

  // One delivery is made to its agent, and no other to that agent.
  ghost predicate SentOnce(ds: seq<Delivery>, d: Delivery) {
    exists i :: 0 <= i < |ds| && ds[i] == d && forall j :: 0 <= j < |ds| && j != i ==> ds[j].note.agent != d.note.agent
  }

  predicate NotSent(ds: seq<Delivery>, a: Name) {
    forall d :: d in ds ==> d.note.agent != a
  }

  lemma SentAmong(ds: seq<Delivery>, es: seq<Delivery>, d: Delivery)
    requires (SentOnce(ds, d) && NotSent(es, d.note.agent)) || (NotSent(ds, d.note.agent) && SentOnce(es, d))
    ensures SentOnce(ds + es, d)
  {
    if SentOnce(ds, d) && NotSent(es, d.note.agent) {
      var i :| 0 <= i < |ds| && ds[i] == d && forall j :: 0 <= j < |ds| && j != i ==> ds[j].note.agent != d.note.agent;
      forall j | 0 <= j < |ds + es| && j != i ensures (ds + es)[j].note.agent != d.note.agent {
        if j >= |ds| { assert es[j - |ds|] in es; }
      }
      assert (ds + es)[i] == d;
    } else {
      var i :| 0 <= i < |es| && es[i] == d && forall j :: 0 <= j < |es| && j != i ==> es[j].note.agent != d.note.agent;
      forall j | 0 <= j < |ds + es| && j != |ds| + i ensures (ds + es)[j].note.agent != d.note.agent {
        if j < |ds| { assert ds[j] in ds; }
      }
      assert (ds + es)[|ds| + i] == d;
    }
  }

  // What a held agent is told when its pending set is dispatched.
  predicate IsToldAll(w: World, a: Name, regions: set<Region>, d: Delivery)
    requires a in w.ctl.agents
  {
    && d.note == Notification(w.ctl.last, a, w.ctl.agents[a].acked + 1, w.ctl.last, regions)
    && CarriedBy(w.ctl.reach, w.ctl.agents[a].decl, d.carrier)
  }

  predicate DueNow(w: World, a: Name)
    requires a in w.ctl.agents
  {
    exists region :: region in w.ctl.agents[a].pending && w.ctl.agents[a].pending[region] <= w.clock.now
  }

  // An evaluation sends just where something pending is due, something is
  // unanswered and something can carry it.
  lemma EvaluateSends(w: World, a: Name)
    requires a in w.ctl.agents && CarrierFor(w.ctl.reach, w.ctl.agents[a].decl).Some?
    requires w.ctl.last > w.ctl.agents[a].acked
    ensures var (v, ds) := Evaluate(w, a);
            var st := w.ctl.agents[a];
            if DueNow(w, a) then |ds| == 1 && IsToldAll(w, a, st.pending.Keys, ds[0])
            else ds == [] && a in v.ctl.agents && v.ctl.agents[a].pending == st.pending
  {
    CarrierIs(w.ctl.reach, w.ctl.agents[a].decl);
    hide CarrierFor, TouchIdle;
  }

  lemma {:induction false} EvaluateAllSends(w: World, order: seq<Name>, a: Name)
    requires a in order && forall i, j :: 0 <= i < j < |order| ==> order[i] != order[j]
    requires a in w.ctl.agents && CarrierFor(w.ctl.reach, w.ctl.agents[a].decl).Some?
    requires w.ctl.last > w.ctl.agents[a].acked && DueNow(w, a)
    ensures exists d :: SentOnce(EvaluateAll(w, order).1, d) && IsToldAll(w, a, w.ctl.agents[a].pending.Keys, d)
  {
    hide Evaluate, SentOnce, NotSent, DueNow, IsToldAll, CarrierFor;
    var init, last := order[..|order| - 1], order[|order| - 1];
    var (v, ds) := EvaluateAll(w, init);
    var (u, es) := Evaluate(v, last);
    EvaluateAllAside(w, init);
    EvaluateAside(v, last);
    assert order == init + [last];
    if last == a {
      SameBefore(w, init, a);
      EvaluateSends(v, a);
      OneSent(es);
      NoneTo(ds, init, a);
      SentAmong(ds, es, es[0]);
    } else {
      EvaluateAllSends(w, init, a);
      var d :| SentOnce(ds, d) && IsToldAll(w, a, w.ctl.agents[a].pending.Keys, d);
      NoneTo(es, [last], a);
      ToldIsTo(w, a, d);
      SentAmong(ds, es, d);
    }
  }

  lemma ToldIsTo(w: World, a: Name, d: Delivery)
    requires a in w.ctl.agents && IsToldAll(w, a, w.ctl.agents[a].pending.Keys, d)
    ensures d.note.agent == a
  {
  }

  lemma OneSent(ds: seq<Delivery>)
    requires |ds| == 1
    ensures SentOnce(ds, ds[0])
  {
  }

  lemma NoneTo(ds: seq<Delivery>, names: seq<Name>, a: Name)
    requires a !in names && forall d :: d in ds ==> d.note.agent in names
    ensures NotSent(ds, a)
  {
  }

  // Evaluating others leaves an agent, the instant and the sequence as they were.
  lemma {:induction false} SameBefore(w: World, order: seq<Name>, a: Name)
    requires a !in order && a in w.ctl.agents
    ensures var v := EvaluateAll(w, order).0;
            && a in v.ctl.agents && v.ctl.agents[a] == w.ctl.agents[a] && v.clock.now == w.clock.now
            && v.ctl.last == w.ctl.last && v.ctl.reach == w.ctl.reach
            && DueNow(v, a) == DueNow(w, a)
            && forall d, regions :: IsToldAll(v, a, regions, d) == IsToldAll(w, a, regions, d)
  {
    EvaluateAllAside(w, order);
    EvaluateAllReads(w, order);
    EvaluateAllBlocks(w, order);
    hide EvaluateAll;
  }

  // A poll over a change whose window has passed on the record's clock tells
  // the agent in that same poll, where one read from the least answer of the
  // agents held reaches the change.
  lemma PollTellsElapsed(w: World, order: seq<Name>, a: Name, n: nat)
    requires w.ctl.kinds.Keys == w.ctl.windows.Keys && w.ctl.outcome.None? && w.rec.Open()
    requires Enumerates(order, w.ctl.agents.Keys) && a in w.ctl.agents
    requires CarrierFor(w.ctl.reach, w.ctl.agents[a].decl).Some?
    requires w.ctl.agents[a].acked < n <= |w.rec.log| && CountsAt(w, w.ctl.agents[a], false, n)
    requires forall b :: b in w.ctl.agents ==> n <= w.ctl.agents[b].acked + TAIL
    requires w.rec.log[n - 1].at + w.ctl.windows[w.rec.log[n - 1].region] <= w.rec.now
    ensures var st := w.ctl.agents[a];
            exists d :: && SentOnce(Poll(w, order).1, d) && CarriedBy(w.ctl.reach, st.decl, d.carrier)
                        && d.note.agent == a && d.note.from == st.acked + 1 && d.note.to == d.note.id >= n
                        && w.rec.log[n - 1].region in d.note.regions
  {
    hide TakeTail, EvaluateAll, SentOnce, CarriedBy;
    var tailed := TakeTail(w, None);
    TailTakes(w, a, n);
    EvaluateAllSends(tailed, order, a);
  }

  // A change a poll's one read reaches, that an agent held here and carried to
  // has neither answered nor been told of, and whose window has passed.
  predicate Elapsed(w: World, a: Name, n: nat) {
    && w.ctl.kinds.Keys == w.ctl.windows.Keys && a in w.ctl.agents
    && CarrierFor(w.ctl.reach, w.ctl.agents[a].decl).Some?
    && w.ctl.agents[a].acked < n <= |w.rec.log| && CountsAt(w, w.ctl.agents[a], false, n)
    && (forall b :: b in w.ctl.agents ==> n <= w.ctl.agents[b].acked + TAIL)
    && w.rec.log[n - 1].at + w.ctl.windows[w.rec.log[n - 1].region] <= w.rec.now
  }

  ghost predicate TellsElapsed(w: World, ds: seq<Delivery>) {
    forall a, n: nat :: Elapsed(w, a, n) ==>
      exists d :: && SentOnce(ds, d) && CarriedBy(w.ctl.reach, w.ctl.agents[a].decl, d.carrier)
                  && d.note.agent == a && d.note.from == w.ctl.agents[a].acked + 1 && d.note.to == d.note.id >= n
                  && w.rec.log[n - 1].region in d.note.regions
  }

  lemma PollTells(w: World, order: seq<Name>)
    requires w.ctl.kinds.Keys == w.ctl.windows.Keys && w.ctl.outcome.None? && w.rec.Open()
    requires Enumerates(order, w.ctl.agents.Keys)
    ensures TellsElapsed(w, Poll(w, order).1)
  {
    forall a, n: nat | Elapsed(w, a, n)
      ensures exists d :: && SentOnce(Poll(w, order).1, d) && CarriedBy(w.ctl.reach, w.ctl.agents[a].decl, d.carrier)
                          && d.note.agent == a && d.note.from == w.ctl.agents[a].acked + 1 && d.note.to == d.note.id >= n
                          && w.rec.log[n - 1].region in d.note.regions
    {
      PollTellsElapsed(w, order, a, n);
    }
    hide Poll, Elapsed, SentOnce, CarriedBy;
  }

  lemma TailTakes(w: World, a: Name, n: nat)
    requires w.ctl.kinds.Keys == w.ctl.windows.Keys && a in w.ctl.agents
    requires w.ctl.agents[a].acked < n <= |w.rec.log| && CountsAt(w, w.ctl.agents[a], false, n)
    requires forall b :: b in w.ctl.agents ==> n <= w.ctl.agents[b].acked + TAIL
    requires w.rec.log[n - 1].at + w.ctl.windows[w.rec.log[n - 1].region] <= w.rec.now
    ensures var tailed := TakeTail(w, None);
            && a in tailed.ctl.agents && tailed.clock == w.clock && tailed.ctl.reach == w.ctl.reach
            && tailed.ctl.agents[a] == w.ctl.agents[a].(pending := tailed.ctl.agents[a].pending)
            && tailed.ctl.agents.Keys == w.ctl.agents.Keys
            && n <= tailed.ctl.last && DueNow(tailed, a)
            && w.rec.log[n - 1].region in tailed.ctl.agents[a].pending
  {
    hide TakeTail, FloorOf, AddTail;
    var lo := FloorOf(w.ctl, w.ctl.agents.Keys);
    var hi := Min(|w.rec.log|, lo + TAIL);
    FloorIs(w.ctl, w.ctl.agents.Keys);
    PollTakes(w, lo, hi);
    TailDues(w, w.ctl.agents[a], lo, hi, false);
    assert NoLater(w, AddTail(w, w.ctl.agents[a], lo, hi, false), n);
  }

  lemma PollTakes(w: World, lo: nat, hi: nat)
    requires w.ctl.kinds.Keys == w.ctl.windows.Keys && w.ctl.agents != map[]
    requires lo == FloorOf(w.ctl, w.ctl.agents.Keys) && hi == Min(|w.rec.log|, lo + TAIL)
    requires lo < hi
    ensures var tailed := TakeTail(w, None);
            && tailed.clock == w.clock && tailed.ctl.reach == w.ctl.reach && tailed.ctl.last >= hi
            && tailed.ctl.agents.Keys == w.ctl.agents.Keys
            && forall a :: a in w.ctl.agents ==>
                 && tailed.ctl.agents[a] == AddTail(w, w.ctl.agents[a], lo, hi, false)
                 && tailed.ctl.agents[a] == w.ctl.agents[a].(pending := tailed.ctl.agents[a].pending)
  {
    hide FloorOf, AddTail;
    assert Considered(w.ctl, None) == w.ctl.agents.Keys;
  }

  lemma FloorIs(ctl: Control, considered: set<Name>)
    requires considered != {} && considered <= ctl.agents.Keys
    ensures exists a :: a in considered && ctl.agents[a].acked == FloorOf(ctl, considered)
    ensures forall a :: a in considered ==> FloorOf(ctl, considered) <= ctl.agents[a].acked
  {
    var answered := map a | a in considered :: ctl.agents[a].acked;
    assert answered.Keys == considered;
    assert forall a :: a in considered ==> answered[a] == ctl.agents[a].acked;
  }

  // Who a write is for

  // A block that sequenced a write, and the number it gave it.
  ghost predicate Sequenced(
    w: World, p: Proposal, key: Option<Key>, writer: Name, hearers: seq<Name>, order: seq<Name>, n: nat)
  {
    && w.ctl.kinds.Keys == w.ctl.windows.Keys && p.region in w.ctl.windows
    && Enumerates(order, w.ctl.agents.Keys)
    && Enumerates(hearers, WhoHears(w.rec, w.ctl.kinds, p.region, writer))
    && var result := Sequence(w, p, key, writer, hearers, order).2;
       result.Accepted? && !result.written.repeated && result.written.sequence == n
  }

  // The world as the store's step leaves it, before anyone is told.
  ghost function Landed(w: World, p: Proposal, key: Option<Key>, writer: Name): World {
    var rec := Put(w.rec, p, key, writer, WhoHears(w.rec, w.ctl.kinds, p.region, writer)).0;
    w.(rec := rec, ctl := w.ctl.(last := |rec.log|))
  }

  lemma {:induction false} SequenceLands(
    w: World, p: Proposal, key: Option<Key>, writer: Name, hearers: seq<Name>, order: seq<Name>, n: nat)
    requires Sequenced(w, p, key, writer, hearers, order, n)
    ensures var landed := Landed(w, p, key, writer);
            && n == |w.rec.log| + 1 == |landed.rec.log| && landed.ctl == w.ctl.(last := n)
            && landed.rec.agents == w.rec.agents && landed.clock == w.clock
            && landed.rec.log[n - 1].region == p.region && landed.rec.log[n - 1].writer == Some(writer)
            && var (v, reached) := ReachRest(landed, hearers, w.ctl.windows[p.region]);
               var (u, noted) := NoteAll(v, order, p.region, writer);
               && Sequence(w, p, key, writer, hearers, order).0 == u
               && Sequence(w, p, key, writer, hearers, order).1 == reached + noted
               && v.ctl == landed.ctl && v.clock == landed.clock && v.rec.log == landed.rec.log
  {
    hide ReachRest, NoteAll, WhoHears;
    PutLands(w.rec, p, key, writer, WhoHears(w.rec, w.ctl.kinds, p.region, writer));
    ReachRestHere(Landed(w, p, key, writer), hearers, w.ctl.windows[p.region]);
  }

  // By address

  // Not held here, and with an address on the run.
  predicate IsAway(w: World, a: Name) {
    a in w.rec.agents && a !in w.ctl.agents && w.rec.agents[a].addr.Some?
  }

  // What an agent reached by address is told: everything since its recorded
  // answer, the write just sequenced with it.
  predicate IsToldAway(r: Record, a: Name, n: nat, region: Region, d: Delivery)
    requires a in r.agents
  {
    && r.agents[a].addr.Some? && d.carrier == Transport(r.agents[a].addr.value)
    && d.note.agent == a && d.note.from == r.agents[a].acked + 1 && d.note.to == d.note.id == n
    && region in d.note.regions
  }

  lemma {:induction false} ReachAllSends(w: World, owed: seq<Name>, a: Name, region: Region)
    requires forall i, j :: 0 <= i < j < |owed| ==> owed[i] != owed[j]
    requires a in w.rec.agents && w.rec.agents[a].addr.Some?
    requires region in Changed(w.rec.log, w.rec.agents[a].acked, |w.rec.log|, w.ctl.kinds, w.rec.agents[a].subs, a)
    ensures var (v, ds) := ReachAll(w, owed, |w.rec.log|);
            && (forall d :: d in ds ==> d.note.agent in owed)
            && (a !in owed ==> a in v.rec.agents && v.rec.agents[a] == w.rec.agents[a])
            && (a in owed ==> exists d :: SentOnce(ds, d) && IsToldAway(w.rec, a, w.ctl.last, region, d))
            && (a in owed ==> a in v.rec.agents && v.rec.agents[a].notified >= w.ctl.last)
  {
    if owed != [] {
      var init, last := owed[..|owed| - 1], owed[|owed| - 1];
      ReachAllSends(w, init, a, region);
      ReachAllHere(w, init, |w.rec.log|);
      assert owed == init + [last];
      var (v, ds) := ReachAll(w, init, |w.rec.log|);
      var (u, es) := ReachOne(v, last, |w.rec.log|);
      hide ReachAll, SentOnce;
      ReachOneSends(v, last, a, region);
      if last == a {
        NoneTo(ds, init, a);
        SentAmong(ds, es, es[0]);
      } else if a in owed {
        var d :| SentOnce(ds, d) && IsToldAway(w.rec, a, w.ctl.last, region, d);
        NoneTo(es, [last], a);
        SentAmong(ds, es, d);
      }
    }
  }

  lemma ReachOneSends(w: World, agent: Name, a: Name, region: Region)
    requires a in w.rec.agents
    requires agent == a ==> w.rec.agents[a].addr.Some?
    requires agent == a ==>
               region in Changed(w.rec.log, w.rec.agents[a].acked, |w.rec.log|, w.ctl.kinds, w.rec.agents[a].subs, a)
    ensures var (v, es) := ReachOne(w, agent, |w.rec.log|);
            && (forall d :: d in es ==> d.note.agent == agent)
            && a in v.rec.agents && v.rec.agents[a].notified >= w.rec.agents[a].notified
            && (agent != a ==> v.rec.agents[a] == w.rec.agents[a])
            && (agent == a ==>
                  && |es| == 1 && SentOnce(es, es[0]) && IsToldAway(w.rec, a, w.ctl.last, region, es[0])
                  && v.rec.agents[a].notified >= w.ctl.last)
  {
    hide Changed;
    var es := ReachOne(w, agent, |w.rec.log|).1;
    if agent == a { OneSent(es); }
  }

  lemma {:induction false} FilterDistinct(s: seq<Name>, keep: Name -> bool)
    requires forall i, j :: 0 <= i < j < |s| ==> s[i] != s[j]
    ensures var kept := Filter(s, keep); forall i, j :: 0 <= i < j < |kept| ==> kept[i] != kept[j]
  {
    if s != [] {
      var init := s[..|s| - 1];
      FilterDistinct(init, keep);
      var last := s[|s| - 1];
      assert forall i :: 0 <= i < |init| ==> init[i] != last;
      assert last !in init && last !in Filter(init, keep);
      assert keep(last) ==> Filter(s, keep) == Filter(init, keep) + [last];
    }
  }

  // A write to a region without a window reaches at once each agent that is
  // to hear of it, is not held here and has an address, where one read from
  // the least answer of those agents reaches the write. A region with a window
  // is left to the relay: no agent not held here is sent anything.
  lemma WriteReachesAway(
    w: World, p: Proposal, key: Option<Key>, writer: Name, hearers: seq<Name>, order: seq<Name>, n: nat, a: Name)
    requires Sequenced(w, p, key, writer, hearers, order, n)
    requires IsToHear(w.rec, w.ctl.kinds, p.region, writer, a) && a !in w.ctl.agents
    requires w.rec.agents[a].addr.Some? && w.rec.agents[a].acked < n && w.ctl.reach && w.ctl.windows[p.region] == 0
    requires forall b :: IsToHear(w.rec, w.ctl.kinds, p.region, writer, b) && IsAway(w, b) ==>
               n <= w.rec.agents[b].acked + TAIL
    ensures var (v, ds, _) := Sequence(w, p, key, writer, hearers, order);
            && (exists d :: SentOnce(ds, d) && IsToldAway(w.rec, a, n, p.region, d))
  {
    hide Sequence, SentOnce, NotSent, NoteAll, ReachRest, Landed, WhoHears;
    SequenceLands(w, p, key, writer, hearers, order, n);
    HearersAre(w.rec, w.ctl.kinds, p.region, writer);
    var landed := Landed(w, p, key, writer);
    AwayReached(landed, hearers, p.region, writer, a);
    var (v, reached) := ReachRest(landed, hearers, 0);
    var noted := NoteAll(v, order, p.region, writer).1;
    NoteAllAside(v, order, p.region, writer);
    var d :| SentOnce(reached, d) && IsToldAway(w.rec, a, n, p.region, d);
    assert IsToldAway(w.rec, a, n, p.region, d);
    assert d.note.agent == a;
    NoneTo(noted, order, a);
    SentAmong(reached, noted, d);
  }

  lemma AwayReached(w: World, hearers: seq<Name>, region: Region, writer: Name, a: Name)
    requires w.rec.log != [] && w.ctl.last == |w.rec.log|
    requires w.rec.log[|w.rec.log| - 1].region == region && w.rec.log[|w.rec.log| - 1].writer == Some(writer)
    requires IsToHear(w.rec, w.ctl.kinds, region, writer, a) && a !in w.ctl.agents && a in hearers
    requires forall i, j :: 0 <= i < j < |hearers| ==> hearers[i] != hearers[j]
    requires w.rec.agents[a].addr.Some? && w.rec.agents[a].acked < |w.rec.log| && w.ctl.reach
    requires forall b :: b in hearers && IsAway(w, b) ==> |w.rec.log| <= w.rec.agents[b].acked + TAIL
    ensures exists d :: SentOnce(ReachRest(w, hearers, 0).1, d) && IsToldAway(w.rec, a, |w.rec.log|, region, d)
  {
    hide SentOnce, Changed, ReachRest, ReachAll;
    RestReached(w, hearers, a, |w.rec.log|);
    FilterDistinct(hearers, Elsewhere(w));
    LastConcerns(w, region, writer, a);
    ReachAllSends(w, Filter(hearers, Elsewhere(w)), a, region);
  }

  lemma LastConcerns(w: World, region: Region, writer: Name, a: Name)
    requires w.rec.log != [] && w.rec.log[|w.rec.log| - 1].region == region
    requires w.rec.log[|w.rec.log| - 1].writer == Some(writer)
    requires IsToHear(w.rec, w.ctl.kinds, region, writer, a) && w.rec.agents[a].acked < |w.rec.log|
    ensures region in Changed(w.rec.log, w.rec.agents[a].acked, |w.rec.log|, w.ctl.kinds, w.rec.agents[a].subs, a)
  {
    assert Concerns(w.rec.log[|w.rec.log| - 1], w.ctl.kinds, w.rec.agents[a].subs, a);
  }

  lemma {:induction false} RestReached(w: World, hearers: seq<Name>, a: Name, n: nat)
    requires w.ctl.reach && a in hearers && a in w.rec.agents && a !in w.ctl.agents && w.rec.agents[a].addr.Some?
    requires w.ctl.last == n == |w.rec.log| && w.rec.agents[a].acked < n
    requires forall b :: b in hearers && IsAway(w, b) ==> n <= w.rec.agents[b].acked + TAIL
    ensures var owed := Filter(hearers, Elsewhere(w));
            a in owed && ReachRest(w, hearers, 0) == ReachAll(w, owed, n)
  {
    hide ReachAll;
    var owed := Filter(hearers, Elsewhere(w));
    assert ReachableElsewhere(w, a) && Elsewhere(w)(a);
    assert a in AnsweredBy(w.rec, owed);
  }

  lemma WindowedReachesNone(
    w: World, p: Proposal, key: Option<Key>, writer: Name, hearers: seq<Name>, order: seq<Name>, n: nat)
    requires Sequenced(w, p, key, writer, hearers, order, n)
    requires w.ctl.windows[p.region] > 0 || !w.ctl.reach
    ensures forall d :: d in Sequence(w, p, key, writer, hearers, order).1 ==> d.note.agent in w.ctl.agents
  {
    hide Sequence, NoteAll;
    SequenceLands(w, p, key, writer, hearers, order, n);
    var landed := Landed(w, p, key, writer);
    hide Landed;
    assert ReachRest(landed, hearers, w.ctl.windows[p.region]) == (landed, []);
    NoteAllAside(landed, order, p.region, writer);
  }

  // Here

  // What a write leaves with an agent held here that is to hear of it: told at
  // once where the region has no window or something is due already, and
  // otherwise pending, due one window from now or as soon as it was.
  ghost predicate HeardHere(w: World, a: Name, region: Region, ds: seq<Delivery>, after: AgentState)
    requires a in w.ctl.agents && region in w.ctl.windows
  {
    var st := w.ctl.agents[a];
    if w.ctl.windows[region] == 0 || DueNow(w, a)
    then exists d :: SentOnce(ds, d) && IsToldAll(w, a, st.pending.Keys + {region}, d)
    else
      && NotSent(ds, a) && after.pending.Keys == st.pending.Keys + {region}
      && (forall other :: other in st.pending && other != region ==> after.pending[other] == st.pending[other])
      && after.pending[region] <= w.clock.now + w.ctl.windows[region]
      && (region in st.pending ==> after.pending[region] <= st.pending[region])
      && (after.pending[region] == w.clock.now + w.ctl.windows[region]
          || (region in st.pending && after.pending[region] == st.pending[region]))
  }

  // An agent held that is to hear of a write to a region.
  predicate HearsHere(w: World, a: Name, region: Region, writer: Name) {
    && a in w.ctl.agents && a != writer && IsFor(w.ctl.kinds, w.ctl.agents[a].decl.subs, region)
    && region in w.ctl.windows
    && CarrierFor(w.ctl.reach, w.ctl.agents[a].decl).Some? && w.ctl.last > w.ctl.agents[a].acked
  }

  lemma NoteHeard(w: World, a: Name, region: Region, writer: Name)
    requires HearsHere(w, a, region, writer)
    ensures var (v, ds) := Note(w, a, region, writer);
            a in v.ctl.agents && HeardHere(w, a, region, ds, v.ctl.agents[a])
  {
    var st := w.ctl.agents[a];
    var waiting := st.(pending := AddDue(st.pending, region, w.clock.now + w.ctl.windows[region]));
    var added := WithAgent(w, a, waiting);
    assert waiting.pending.Keys == st.pending.Keys + {region};
    if w.ctl.windows[region] == 0 { assert waiting.pending[region] <= w.clock.now; }
    SoonAdded(w, a, region);
    hide Evaluate, DueNow, CarrierFor;
    EvaluateSends(added, a);
    var (v, ds) := Evaluate(added, a);
    if |ds| == 1 { OneSent(ds); }
    assert Note(w, a, region, writer) == (v, ds);
  }

  lemma SoonAdded(w: World, a: Name, region: Region)
    requires a in w.ctl.agents && region in w.ctl.windows
    ensures var st := w.ctl.agents[a];
            var waiting := st.(pending := AddDue(st.pending, region, w.clock.now + w.ctl.windows[region]));
            DueNow(WithAgent(w, a, waiting), a) <==> w.ctl.windows[region] == 0 || DueNow(w, a)
  {
    var st := w.ctl.agents[a];
    var waiting := st.(pending := AddDue(st.pending, region, w.clock.now + w.ctl.windows[region]));
    var added := WithAgent(w, a, waiting);
    assert added.ctl.agents[a].pending == waiting.pending && added.clock == w.clock;
    if w.ctl.windows[region] == 0 {
      assert waiting.pending[region] <= w.clock.now;
      assert DueNow(added, a);
    } else if DueNow(w, a) {
      var r :| r in st.pending && st.pending[r] <= w.clock.now;
      assert waiting.pending[r] <= w.clock.now;
      assert DueNow(added, a);
    }
  }

  lemma {:induction false} NoteAllHeard(w: World, order: seq<Name>, a: Name, region: Region, writer: Name)
    requires a in order && forall i, j :: 0 <= i < j < |order| ==> order[i] != order[j]
    requires HearsHere(w, a, region, writer)
    ensures var (v, ds) := NoteAll(w, order, region, writer);
            a in v.ctl.agents && HeardHere(w, a, region, ds, v.ctl.agents[a])
  {
    hide Note, HeardHere, HearsHere;
    var init, last := order[..|order| - 1], order[|order| - 1];
    var (v, ds) := NoteAll(w, init, region, writer);
    var (u, es) := Note(v, last, region, writer);
    NoteAllAside(w, init, region, writer);
    NoteAside(v, last, region, writer);
    HeldIs(w, a, region, writer);
    assert order == init + [last];
    if last == a {
      NotedBefore(w, init, a, region, writer);
      NoteHeard(v, a, region, writer);
      NoneTo(ds, init, a);
      HeardAmong(w, v, a, region, ds, es, u.ctl.agents[a]);
    } else {
      NoteAllHeard(w, init, a, region, writer);
      NoneTo(es, [last], a);
      HeardStill(w, a, region, ds, es, v.ctl.agents[a]);
    }
  }

  lemma HeldIs(w: World, a: Name, region: Region, writer: Name)
    requires HearsHere(w, a, region, writer)
    ensures a in w.ctl.agents && region in w.ctl.windows
  {
  }

  // Noting others leaves an agent, the instant and the sequence as they were.
  lemma {:induction false} NotedBefore(w: World, order: seq<Name>, a: Name, region: Region, writer: Name)
    requires a !in order && HearsHere(w, a, region, writer)
    ensures var v := NoteAll(w, order, region, writer).0;
            && HearsHere(v, a, region, writer) && v.ctl.agents[a] == w.ctl.agents[a]
            && v.clock.now == w.clock.now && v.ctl.last == w.ctl.last && v.ctl.reach == w.ctl.reach
            && v.ctl.windows == w.ctl.windows
  {
    NoteAllAside(w, order, region, writer);
    NoteAllBlocks(w, order, region, writer);
    NoteAllReads(w, order, region, writer);
    hide NoteAll;
  }

  lemma {:induction false} NoteAllReads(w: World, order: seq<Name>, region: Region, writer: Name)
    ensures NoteAll(w, order, region, writer).0.ctl.last == w.ctl.last
  {
    hide Evaluate;
    if order != [] {
      var v, name := NoteAll(w, order[..|order| - 1], region, writer).0, order[|order| - 1];
      NoteAllReads(w, order[..|order| - 1], region, writer);
      if name in v.ctl.agents && region in v.ctl.windows {
        var st := v.ctl.agents[name];
        EvaluateReads(
          WithAgent(v, name, st.(pending := AddDue(st.pending, region, v.clock.now + v.ctl.windows[region]))), name);
      }
    }
  }

  lemma HeardAmong(w: World, v: World, a: Name, region: Region, ds: seq<Delivery>, es: seq<Delivery>, after: AgentState)
    requires a in w.ctl.agents && region in w.ctl.windows && a in v.ctl.agents && v.ctl.agents[a] == w.ctl.agents[a]
    requires v.clock.now == w.clock.now && v.ctl.last == w.ctl.last && v.ctl.reach == w.ctl.reach
    requires v.ctl.windows == w.ctl.windows
    requires NotSent(ds, a) && HeardHere(v, a, region, es, after)
    ensures HeardHere(w, a, region, ds + es, after)
  {
    assert DueNow(v, a) == DueNow(w, a);
    if w.ctl.windows[region] == 0 || DueNow(w, a) {
      hide SentOnce, NotSent;
      var d :| SentOnce(es, d) && IsToldAll(v, a, v.ctl.agents[a].pending.Keys + {region}, d);
      SentAmong(ds, es, d);
      assert IsToldAll(w, a, w.ctl.agents[a].pending.Keys + {region}, d);
    }
  }

  lemma HeardStill(w: World, a: Name, region: Region, ds: seq<Delivery>, es: seq<Delivery>, after: AgentState)
    requires a in w.ctl.agents && region in w.ctl.windows && NotSent(es, a) && HeardHere(w, a, region, ds, after)
    ensures HeardHere(w, a, region, ds + es, after)
  {
    if w.ctl.windows[region] == 0 || DueNow(w, a) {
      hide SentOnce, NotSent;
      var d :| SentOnce(ds, d) && IsToldAll(w, a, w.ctl.agents[a].pending.Keys + {region}, d);
      assert d.note.agent == a by { assert IsToldAll(w, a, w.ctl.agents[a].pending.Keys + {region}, d); }
      SentAmong(ds, es, d);
    }
  }

  // A write leaves each agent held here that is to hear of it, and that
  // something can carry to, told at once or pending within its window.
  lemma WriteReachesHere(
    w: World, p: Proposal, key: Option<Key>, writer: Name, hearers: seq<Name>, order: seq<Name>, n: nat, a: Name)
    requires Sequenced(w, p, key, writer, hearers, order, n)
    requires a in w.ctl.agents && a != writer && IsFor(w.ctl.kinds, w.ctl.agents[a].decl.subs, p.region)
    requires CarrierFor(w.ctl.reach, w.ctl.agents[a].decl).Some? && w.ctl.agents[a].acked < n
    ensures var (u, ds, _) := Sequence(w, p, key, writer, hearers, order);
            && a in u.ctl.agents && HeardHere(w.(ctl := w.ctl.(last := n)), a, p.region, ds, u.ctl.agents[a])
  {
    hide Sequence, NoteAll, ReachRest, HeardHere, Landed;
    SequenceLands(w, p, key, writer, hearers, order, n);
    var landed := Landed(w, p, key, writer);
    var (v, reached) := ReachRest(landed, hearers, w.ctl.windows[p.region]);
    ReachRestTells(landed, hearers, w.ctl.windows[p.region]);
    NoteAllHeard(v, order, a, p.region, writer);
    assert NotSent(reached, a);
    var (u, noted) := NoteAll(v, order, p.region, writer);
    HeardAmong(w.(ctl := w.ctl.(last := n)), v, a, p.region, reached, noted, u.ctl.agents[a]);
  }

  // Nothing is sent by address to an agent held here.
  lemma ReachRestTells(w: World, hearers: seq<Name>, window: Duration)
    ensures forall d :: d in ReachRest(w, hearers, window).1 ==> d.note.agent !in w.ctl.agents
  {
    forall owed: seq<Name>, hi: nat | forall a :: a in owed ==> a !in w.ctl.agents
      ensures forall d :: d in ReachAll(w, owed, hi).1 ==> d.note.agent !in w.ctl.agents
    {
      ReachAllTells(w, owed, hi);
    }
    hide ReachAll;
  }

  lemma {:induction false} ReachAllTells(w: World, owed: seq<Name>, hi: nat)
    requires forall a :: a in owed ==> a !in w.ctl.agents
    ensures forall d :: d in ReachAll(w, owed, hi).1 ==> d.note.agent !in w.ctl.agents
  {
    hide Changed;
    if owed != [] { ReachAllTells(w, owed[..|owed| - 1], hi); }
  }

  // Everything a write that was sequenced tells: here, by address, and nobody
  // by address where the region has a window.
  ghost predicate WriteTells(
    w: World, region: Region, writer: Name, n: nat, ds: seq<Delivery>, after: map<Name, AgentState>)
    requires region in w.ctl.windows
  {
    && (forall a :: HearsHere(w.(ctl := w.ctl.(last := n)), a, region, writer) ==>
          a in after && HeardHere(w.(ctl := w.ctl.(last := n)), a, region, ds, after[a]))
    && (forall a :: ReachedAway(w, region, writer, n, a) ==>
          exists d :: SentOnce(ds, d) && IsToldAway(w.rec, a, n, region, d))
    && (w.ctl.windows[region] > 0 || !w.ctl.reach ==> forall d :: d in ds ==> d.note.agent in w.ctl.agents)
  }

  // An agent by address that a write without a window is to reach, one read
  // from the least answer of those agents reaching the write.
  ghost predicate ReachedAway(w: World, region: Region, writer: Name, n: nat, a: Name)
    requires region in w.ctl.windows
  {
    && IsToHear(w.rec, w.ctl.kinds, region, writer, a) && IsAway(w, a) && w.rec.agents[a].acked < n
    && w.ctl.reach && w.ctl.windows[region] == 0
    && (forall b :: IsToHear(w.rec, w.ctl.kinds, region, writer, b) && IsAway(w, b) ==>
          n <= w.rec.agents[b].acked + TAIL)
  }

  lemma SequenceTells(
    w: World, p: Proposal, key: Option<Key>, writer: Name, hearers: seq<Name>, order: seq<Name>, n: nat)
    requires Sequenced(w, p, key, writer, hearers, order, n)
    ensures var (u, ds, _) := Sequence(w, p, key, writer, hearers, order);
            WriteTells(w, p.region, writer, n, ds, u.ctl.agents)
  {
    hide Sequence, SentOnce, IsToldAway, HeardHere;
    var (u, ds, _) := Sequence(w, p, key, writer, hearers, order);
    forall a | HearsHere(w.(ctl := w.ctl.(last := n)), a, p.region, writer)
      ensures a in u.ctl.agents && HeardHere(w.(ctl := w.ctl.(last := n)), a, p.region, ds, u.ctl.agents[a])
    {
      WriteReachesHere(w, p, key, writer, hearers, order, n, a);
    }
    forall a | ReachedAway(w, p.region, writer, n, a)
      ensures exists d :: SentOnce(ds, d) && IsToldAway(w.rec, a, n, p.region, d)
    {
      WriteReachesAway(w, p, key, writer, hearers, order, n, a);
    }
    if w.ctl.windows[p.region] > 0 || !w.ctl.reach {
      WindowedReachesNone(w, p, key, writer, hearers, order, n);
    }
  }

  // What a write answers

  // The levels a writer declared it may write to: those it declared here, or
  // where it is not held here those the run records, or none named.
  function Declared(w: World, writer: Name): Option<set<Region>> {
    if writer in w.ctl.agents then w.ctl.agents[writer].decl.writes
    else if writer in w.rec.agents then w.rec.agents[writer].writes
    else None
  }

  predicate Barred(w: World, p: Proposal, writer: Name) {
    p.LevelWrite? && Declared(w, writer).Some? && p.region !in Declared(w, writer).value
  }

  predicate LetThrough(w: World, p: Proposal) {
    && w.ctl.outcome.None? && p.region in w.ctl.kinds
    && (p.LevelWrite? ==> w.ctl.kinds[p.region] == LevelKind)
    && (p.PremiseWrite? ==> w.ctl.kinds[p.region] == PremiseKind)
  }

  // What happened, and so moves the idle deadline: a rejection by the
  // admission rule, a conflict, or an entry stored.
  predicate IsEvent(result: Result) {
    match result
    case Rejected(cause) => cause.Admission?
    case Conflicted(_) => true
    case Accepted(written) => !written.repeated
    case Raised(_) => false
  }

  lemma WriteAnswers(
    w: World, p: Proposal, key: Option<Key>, writer: Name, admitted: bool, hearers: seq<Name>, order: seq<Name>)
    requires w.ctl.kinds.Keys == w.ctl.windows.Keys && PartOf(w.ctl.kinds, w.rec.kinds)
    ensures var (v, ds, result, event) := WholeWrite(w, p, key, writer, admitted, hearers, order);
            && (result == Rejected(RunClosed) <==> w.ctl.outcome.Some?)
            && (result == Raised(Undeclared) <==> w.ctl.outcome.None? && p.region !in w.ctl.kinds)
            && (result == Raised(WrongKind) <==>
                  w.ctl.outcome.None? && p.region in w.ctl.kinds && !LetThrough(w, p))
            && (result == Rejected(NotPermitted) <==> LetThrough(w, p) && Barred(w, p, writer))
            && (result == Rejected(Admission) <==> LetThrough(w, p) && !Barred(w, p, writer) && !admitted)
            && (event <==> IsEvent(result))
            && (result.Accepted? && !result.written.repeated <==> v.rec.log != w.rec.log)
            && (v.rec.log == w.rec.log ==> v == w && ds == [])
  {
    hide ReachRest, NoteAll;
    if LetThrough(w, p) && !Barred(w, p, writer) && admitted {
      AdmittedStores(w, p, key, writer, hearers, order);
    }
  }

  // Past the refusals a write is stored once, under the next number, or not
  // at all.
  lemma AdmittedStores(
    w: World, p: Proposal, key: Option<Key>, writer: Name, hearers: seq<Name>, order: seq<Name>)
    requires LetThrough(w, p) && p.region in w.ctl.windows && PartOf(w.ctl.kinds, w.rec.kinds)
    ensures var (v, ds, result) := Sequence(w, p, key, writer, hearers, order);
            && !result.Rejected? && (result.Raised? ==> result.error == KeyReused)
            && (if result.Accepted? && !result.written.repeated
                then v.rec.log == w.rec.log + [Stored(w, p, key, writer)]
                else v == w && ds == [])
  {
    hide ReachRest, NoteAll, WhoHears;
    var notify := WhoHears(w.rec, w.ctl.kinds, p.region, writer);
    var (rec, answer) := Put(w.rec, p, key, writer, notify);
    if answer.Done? && !answer.written.repeated {
      var landed := w.(rec := rec, ctl := w.ctl.(last := answer.written.sequence));
      ReachRestLog(landed, hearers, w.ctl.windows[p.region]);
      var v := ReachRest(landed, hearers, w.ctl.windows[p.region]).0;
      NoteAllAside(v, order, p.region, writer);
      assert rec.log == w.rec.log + [Stored(w, p, key, writer)];
    }
  }

  lemma ReachRestLog(w: World, hearers: seq<Name>, window: Duration)
    ensures ReachRest(w, hearers, window).0.rec.log == w.rec.log
  {
    ReachRestHere(w, hearers, window);
  }

  // The entry a write stores.
  function Stored(w: World, p: Proposal, key: Option<Key>, writer: Name): Entry {
    match p
    case LevelWrite(level, content) => Entry(level, content, None, key, Some(writer), w.rec.now)
    case PremiseWrite(premise, value, expected) =>
      Entry(premise, value, Some(Records.Writes(w.rec.log, premise) + 1), key, Some(writer), w.rec.now)
  }

  lemma WriteStores(
    w: World, p: Proposal, key: Option<Key>, writer: Name, admitted: bool, hearers: seq<Name>, order: seq<Name>)
    requires w.ctl.kinds.Keys == w.ctl.windows.Keys && PartOf(w.ctl.kinds, w.rec.kinds)
    ensures var (v, _, result, _) := WholeWrite(w, p, key, writer, admitted, hearers, order);
            result.Accepted? && !result.written.repeated ==>
              v.rec.log == w.rec.log + [Stored(w, p, key, writer)] && result.written.sequence == |v.rec.log|
  {
    hide ReachRest, NoteAll;
    if LetThrough(w, p) && !Barred(w, p, writer) && admitted {
      AdmittedStores(w, p, key, writer, hearers, order);
    }
  }

  // What stays running

  // A block that does not close: the Control holds the outcome it held, and a
  // run that is open stays open.
  ghost predicate Runs(w: World, v: World) {
    v.ctl.outcome == w.ctl.outcome && (w.rec.Open() ==> v.rec.Open())
  }

  lemma EvaluateRuns(w: World, name: Name)
    ensures Runs(w, Evaluate(w, name).0)
  {
  }

  lemma {:induction false} EvaluateAllRuns(w: World, order: seq<Name>)
    ensures Runs(w, EvaluateAll(w, order).0)
  {
    hide Evaluate;
    if order != [] {
      EvaluateAllRuns(w, order[..|order| - 1]);
      EvaluateRuns(EvaluateAll(w, order[..|order| - 1]).0, order[|order| - 1]);
    }
  }

  lemma {:induction false} NoteAllRuns(w: World, order: seq<Name>, region: Region, writer: Name)
    ensures Runs(w, NoteAll(w, order, region, writer).0)
  {
    hide Evaluate;
    if order != [] {
      var v, name := NoteAll(w, order[..|order| - 1], region, writer).0, order[|order| - 1];
      NoteAllRuns(w, order[..|order| - 1], region, writer);
      if name in v.ctl.agents && region in v.ctl.windows {
        var st := v.ctl.agents[name];
        EvaluateRuns(
          WithAgent(v, name, st.(pending := AddDue(st.pending, region, v.clock.now + v.ctl.windows[region]))), name);
      }
    }
  }

  lemma SequenceRuns(
    w: World, p: Proposal, key: Option<Key>, writer: Name, hearers: seq<Name>, order: seq<Name>)
    requires p.region in w.ctl.windows
    ensures Runs(w, Sequence(w, p, key, writer, hearers, order).0)
  {
    hide Put, WhoHears, ReachRest, NoteAll;
    var notify := WhoHears(w.rec, w.ctl.kinds, p.region, writer);
    var (rec, answer) := Put(w.rec, p, key, writer, notify);
    if w.ctl.outcome.None? && answer.Done? && !answer.written.repeated {
      var landed := w.(rec := rec, ctl := w.ctl.(last := answer.written.sequence));
      PutKeepsRun(w.rec, p, key, writer, notify);
      ReachRestHere(landed, hearers, w.ctl.windows[p.region]);
      NoteAllRuns(ReachRest(landed, hearers, w.ctl.windows[p.region]).0, order, p.region, writer);
    }
  }

  lemma RegisterRuns(w: World, decl: Declaration)
    requires w.ctl.kinds.Keys == w.ctl.windows.Keys
    ensures Runs(w, Register(w, decl).0)
  {
    hide Evaluate, Joining;
    EvaluateRuns(Join(w, decl), decl.name);
  }

  lemma {:induction false} TailRuns(w: World, only: Option<set<Name>>, order: seq<Name>)
    requires w.ctl.kinds.Keys == w.ctl.windows.Keys
    ensures Runs(w, EvaluateAll(TakeTail(w, only), order).0)
  {
    var tailed := TakeTail(w, only);
    assert Runs(w, tailed);
    hide TakeTail, EvaluateAll;
    EvaluateAllRuns(tailed, order);
  }

  lemma CloseWindowRuns(w: World, name: Name, generation: nat)
    ensures Runs(w, CloseWindowFires(w, name, generation).0)
  {
  }

  // The idle deadline pushed out: a new generation, the one call standing for
  // it one limit from now, and the record's own one limit from its now.
  ghost predicate Pushed(w: World, v: World) {
    && v.ctl.outcome.None? && w.ctl.idleGeneration < v.ctl.idleGeneration
    && v.clock.now == w.clock.now
    && v.ctl.idleCall.Some?
    && Timer(v.clock.now + v.ctl.idle, v.ctl.idleCall.value, IdlePassed(v.ctl.idleGeneration), false) in v.clock.scheduled
    && (v.rec.Open() ==> v.rec.run.value.idle == v.rec.now + v.ctl.idle)
  }

  lemma TouchPushes(w: World, v: World)
    requires v.ctl.outcome.None? && v.clock.now == w.clock.now && w.ctl.idleGeneration <= v.ctl.idleGeneration
    ensures Pushed(w, TouchIdle(v))
  {
    var u := TouchIdle(v);
    assert u.clock.scheduled[|u.clock.scheduled| - 1].order == u.ctl.idleCall.value;
  }

  // A whole write, its deliveries made and its event recorded.
  ghost function Finished(v: World, ds: seq<Delivery>, event: bool, sends: Delivery -> bool): World {
    if event then TouchIdle(v.(rec := DeliverAll(v.rec, ds, sends))) else v
  }

  // What is an event pushes the deadline, and nothing else moves anything.
  lemma EventsPush(
    w: World, p: Proposal, key: Option<Key>, writer: Name, admitted: bool, hearers: seq<Name>, order: seq<Name>,
    sends: Delivery -> bool)
    requires w.ctl.kinds.Keys == w.ctl.windows.Keys && PartOf(w.ctl.kinds, w.rec.kinds)
    ensures var (v, ds, result, event) := WholeWrite(w, p, key, writer, admitted, hearers, order);
            var u := Finished(v, ds, event, sends);
            && (IsEvent(result) ==> Pushed(w, u))
            && (!IsEvent(result) ==> u == w)
            && u.rec.log == v.rec.log
            && (v.rec.log == w.rec.log ==> u.ctl.agents == w.ctl.agents && u.rec == w.rec.(run := u.rec.run))
  {
    WriteAnswers(w, p, key, writer, admitted, hearers, order);
    var (v, ds, result, event) := WholeWrite(w, p, key, writer, admitted, hearers, order);
    DeliveredRowsGo(v.rec, ds, sends);
    if event {
      WriteFollows(w, p, key, writer, admitted, hearers, order);
      hide WholeWrite, TouchIdle, Pushed;
      TouchPushes(w, v.(rec := DeliverAll(v.rec, ds, sends)));
      TouchLeaves(v.(rec := DeliverAll(v.rec, ds, sends)));
    }
  }

  lemma TouchLeaves(w: World)
    ensures TouchIdle(w).ctl.agents == w.ctl.agents && TouchIdle(w).rec == w.rec.(run := TouchIdle(w).rec.run)
  {
  }

  lemma WriteFollows(
    w: World, p: Proposal, key: Option<Key>, writer: Name, admitted: bool, hearers: seq<Name>, order: seq<Name>)
    requires w.ctl.kinds.Keys == w.ctl.windows.Keys
    ensures var (v, _, result, event) := WholeWrite(w, p, key, writer, admitted, hearers, order);
            event ==>
              && v.ctl.outcome.None? && v.clock.now == w.clock.now && w.ctl.idleGeneration <= v.ctl.idleGeneration
  {
    if p.region in w.ctl.windows {
      SequenceRuns(w, p, key, writer, hearers, order);
      SequenceBlocks(w, p, key, writer, hearers, order);
      SequenceOpen(w, p, key, writer, hearers, order);
    }
    hide Sequence;
  }

  lemma SequenceOpen(
    w: World, p: Proposal, key: Option<Key>, writer: Name, hearers: seq<Name>, order: seq<Name>)
    requires p.region in w.ctl.windows
    ensures Sequence(w, p, key, writer, hearers, order).2 == Rejected(RunClosed) <==> w.ctl.outcome.Some?
    ensures w.ctl.outcome.None? ==> !Sequence(w, p, key, writer, hearers, order).2.Rejected?
  {
    hide ReachRest, NoteAll, Put;
  }

  // An answer the store accepts raises both answered cursors to it, and is an
  // event.
  lemma AckPushes(w: World, agent: Name, through: int)
    requires agent in w.rec.agents && w.rec.agents[agent].acked < through <= w.rec.agents[agent].notified
    ensures var v := TouchIdle(AckHere(w.(rec := Acknowledge(w.rec, agent, through).0), agent, through));
            && agent in v.rec.agents && v.rec.agents[agent].acked == through
            && (agent in v.ctl.agents ==> v.ctl.agents[agent].acked >= through)
            && (w.ctl.outcome.None? ==> Pushed(w, v))
  {
    var u := AckHere(w.(rec := Acknowledge(w.rec, agent, through).0), agent, through);
    if w.ctl.outcome.None? { TouchPushes(w, u); }
    TouchLeaves(u);
    hide Pushed;
  }

  // Joining

  // A registration begins from the answer the record holds, or from nothing,
  // behind on just those regions the agent is to hear of that hold something:
  // a level at once, and a premise when its window has passed.
  ghost predicate BeginsBehind(w: World, decl: Declaration, st: AgentState)
    requires w.ctl.kinds.Keys == w.ctl.windows.Keys
  {
    && st.decl == decl && st.notified == st.acked && st.call.None? && st.due.None?
    && (decl.name in w.rec.agents ==> st.acked == w.rec.agents[decl.name].acked)
    && (decl.name !in w.rec.agents ==> st.acked == 0)
    && (forall region :: region in st.pending <==>
          IsFor(w.ctl.kinds, decl.subs, region) && exists i :: 0 <= i < |w.rec.log| && w.rec.log[i].region == region)
    && (forall region :: region in st.pending ==>
          st.pending[region] ==
          if w.ctl.kinds[region] == LevelKind then w.clock.now else w.clock.now + w.ctl.windows[region])
  }

  lemma JoinsBehind(w: World, decl: Declaration)
    requires w.ctl.kinds.Keys == w.ctl.windows.Keys
    ensures BeginsBehind(w, decl, Joining(w, decl))
  {
    forall region ensures Records.Writes(w.rec.log, region) > 0
                          <==> exists i :: 0 <= i < |w.rec.log| && w.rec.log[i].region == region
    {
      WrittenIff(w.rec.log, region);
    }
  }

  lemma {:induction false} WrittenIff(log: seq<Entry>, region: Region)
    ensures Records.Writes(log, region) > 0 <==> exists i :: 0 <= i < |log| && log[i].region == region
  {
    if log != [] { WrittenIff(log[..|log| - 1], region); }
  }

  // A registration wakes an agent that something can carry to and that has
  // not answered everything, where what it is behind on is due.
  ghost predicate Wakes(w: World, decl: Declaration, st: AgentState, ds: seq<Delivery>) {
    CarrierFor(w.ctl.reach, decl).Some? && w.ctl.last > st.acked ==>
      if exists region :: region in st.pending && st.pending[region] <= w.clock.now
      then && |ds| == 1 && CarriedBy(w.ctl.reach, decl, ds[0].carrier)
           && ds[0].note == Notification(w.ctl.last, decl.name, st.acked + 1, w.ctl.last, st.pending.Keys)
      else ds == []
  }

  lemma BeginsAs(w: World, decl: Declaration, st: AgentState)
    requires w.ctl.kinds.Keys == w.ctl.windows.Keys && BeginsBehind(w, decl, st)
    ensures st.decl == decl
  {
  }

  lemma RegisterWakes(w: World, decl: Declaration)
    requires w.ctl.kinds.Keys == w.ctl.windows.Keys
    ensures var st := Joining(w, decl);
            BeginsBehind(w, decl, st) && Wakes(w, decl, st, Register(w, decl).1)
  {
    hide Joining, Evaluate, CarrierFor, BeginsBehind;
    JoinsBehind(w, decl);
    BeginsAs(w, decl, Joining(w, decl));
    if CarrierFor(w.ctl.reach, decl).Some? && w.ctl.last > Joining(w, decl).acked {
      EvaluateSends(Join(w, decl), decl.name);
    }
  }

  // Closing

  lemma UnfinishedAre(r: Record)
    ensures forall a :: a in Unfinished(r) <==> a in r.agents && r.agents[a].acked < r.agents[a].notified
  {
  }

  // A run's record says the same of its end as an outcome does.
  predicate SaysOf(run: Run, outcome: Outcome) {
    && run.unfinished == outcome.unfinished
    && match outcome
       case Settled(_) => run.closed == Some(AsSettled)
       case WallClockExpired(_) => run.closed == Some(AsWallClockExpired)
       case Aborted(reason, _) =>
         run.closed == Some(AsAborted) && reason == (if run.reason.Some? then run.reason.value else "")
  }

  // The first to close writes its own outcome, and leaves no agent declared
  // and nothing unsent; a later one takes what stands.
  lemma CloseSays(w: World, outcome: Outcome)
    requires w.ctl.outcome.None? && w.rec.run.Some?
    ensures var v := Close(w, outcome);
            && v.ctl.outcome.Some? && v.rec.run.Some? && SaysOf(v.rec.run.value, v.ctl.outcome.value)
            && (w.rec.Open() ==>
                  && v.ctl.outcome == Some(outcome) && SaysOf(v.rec.run.value, outcome)
                  && v.rec.agents == map[] && v.rec.outbox == {} && v.rec.log == w.rec.log)
            && (!w.rec.Open() ==> v.rec == w.rec)
  {
  }

  // A poll that finds the run closed takes its outcome and sends nothing.
  lemma PollAdopts(w: World, order: seq<Name>)
    requires w.ctl.kinds.Keys == w.ctl.windows.Keys && w.ctl.outcome.None? && w.rec.run.Some? && !w.rec.Open()
    ensures var (v, ds) := Poll(w, order);
            ds == [] && v.rec == w.rec && v.ctl.outcome.Some? && SaysOf(w.rec.run.value, v.ctl.outcome.value)
  {
    CloseSays(w, OutcomeOf(w.rec.run.value));
    hide Close;
  }

  // A deadline settles, and the wall clock limit expires, an open run naming
  // just the agents told further than they have answered.
  lemma DeadlinesName(w: World, generation: nat)
    requires w.ctl.outcome.None? && w.rec.Open()
    ensures var v := WallFires(w);
            !v.rec.Open() && v.rec.run.value.closed == Some(AsWallClockExpired) && NamesBehind(w.rec, v.rec)
    ensures var v := IdleFires(w, generation);
            if generation == w.ctl.idleGeneration && !w.ctl.judged
            then !v.rec.Open() && v.rec.run.value.closed == Some(AsSettled) && NamesBehind(w.rec, v.rec)
            else v == w
    ensures var v := IdleJudged(w, generation, true);
            if generation == w.ctl.idleGeneration
            then !v.rec.Open() && v.rec.run.value.closed == Some(AsSettled) && NamesBehind(w.rec, v.rec)
            else v == w
  {
    UnfinishedAre(w.rec);
    CloseSays(w, WallClockExpired(Unfinished(w.rec)));
    CloseSays(w, Settled(Unfinished(w.rec)));
    hide Close, Unfinished;
  }

  // So does the Control that closed it.
  lemma DeadlinesSay(w: World, generation: nat)
    requires w.ctl.outcome.None? && w.rec.Open()
    ensures var v := WallFires(w);
            && v.ctl.outcome.Some? && v.ctl.outcome.value.WallClockExpired?
            && v.rec.run.Some? && v.rec.run.value.closed == Some(AsWallClockExpired) && NamesBehind(w.rec, v.rec)
            && SaysOf(v.rec.run.value, v.ctl.outcome.value)
    ensures generation == w.ctl.idleGeneration && !w.ctl.judged ==>
              var v := IdleFires(w, generation);
              && v.ctl.outcome.Some? && v.ctl.outcome.value.Settled?
              && v.rec.run.Some? && v.rec.run.value.closed == Some(AsSettled) && NamesBehind(w.rec, v.rec)
              && SaysOf(v.rec.run.value, v.ctl.outcome.value)
    ensures generation == w.ctl.idleGeneration ==>
              var v := IdleJudged(w, generation, true);
              && v.ctl.outcome.Some? && v.ctl.outcome.value.Settled?
              && v.rec.run.Some? && v.rec.run.value.closed == Some(AsSettled) && NamesBehind(w.rec, v.rec)
              && SaysOf(v.rec.run.value, v.ctl.outcome.value)
  {
    UnfinishedAre(w.rec);
    CloseSays(w, WallClockExpired(Unfinished(w.rec)));
    CloseSays(w, Settled(Unfinished(w.rec)));
    hide Close, Unfinished;
  }

  // The run as recorded names just the agents that were told further than
  // they had answered.
  ghost predicate NamesBehind(before: Record, after: Record) {
    && after.run.Some?
    && forall a :: a in after.run.value.unfinished <==>
         a in before.agents && before.agents[a].acked < before.agents[a].notified
  }
}
