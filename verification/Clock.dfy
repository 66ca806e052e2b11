// The manual clock: calls armed at instants, and the loop that fires them.
//
// A callback is code the clock does not know. Here it is any function of the
// application's state, the clock it finds and the call being fired, that does
// not move time itself; what it may do to the clock is arm calls and cancel
// them (`Later`).

module Clocks {
  import opened Values

  datatype Timer<Call> = Timer(when: Instant, order: nat, call: Call, cancelled: bool) {
    predicate Due(target: Instant) { !cancelled && when <= target }
  }

  datatype Clock<Call> = Clock(now: Instant, scheduled: seq<Timer<Call>>, armed: nat)

  // Calls stand in arming order, whatever was cancelled or fired.
  ghost predicate Ordered<Call>(c: Clock<Call>) {
    && (forall i, j :: 0 <= i < j < |c.scheduled| ==> c.scheduled[i].order < c.scheduled[j].order)
    && (forall i :: 0 <= i < |c.scheduled| ==> c.scheduled[i].order < c.armed)
  }

  function Arm<Call>(c: Clock<Call>, when: Instant, call: Call): Clock<Call> {
    c.(scheduled := c.scheduled + [Timer(when, c.armed, call, false)], armed := c.armed + 1)
  }

  function Cancel<Call>(c: Clock<Call>, order: nat): Clock<Call> {
    c.(scheduled := seq(|c.scheduled|, i requires 0 <= i < |c.scheduled| =>
         if c.scheduled[i].order == order then c.scheduled[i].(cancelled := true) else c.scheduled[i]))
  }

  // The due call with the least instant, the earliest armed of them on a tie.
  function Head<Call>(s: seq<Timer<Call>>, target: Instant): Option<Timer<Call>> {
    if s == [] then None
    else
      var before := Head(s[..|s| - 1], target);
      var last := s[|s| - 1];
      if !last.Due(target) || (before.Some? && before.value.when <= last.when) then before else Some(last)
  }

  function Uncancelled<Call>(s: seq<Timer<Call>>): seq<Timer<Call>> {
    if s == [] then []
    else if s[|s| - 1].cancelled then Uncancelled(s[..|s| - 1])
    else Uncancelled(s[..|s| - 1]) + [s[|s| - 1]]
  }

  function Without<Call>(s: seq<Timer<Call>>, order: nat): seq<Timer<Call>> {
    if s == [] then []
    else if s[|s| - 1].order == order then Without(s[..|s| - 1], order)
    else Without(s[..|s| - 1], order) + [s[|s| - 1]]
  }

  // One turn of the loop, under the lock.
  function TakeDue<Call>(c: Clock<Call>, target: Instant): (Clock<Call>, Option<Timer<Call>>) {
    var kept := Uncancelled(c.scheduled);
    match Head(kept, target)
    case None => (c.(scheduled := kept, now := Max(c.now, target)), None)
    case Some(head) =>
      (c.(scheduled := Without(kept, head.order), now := Max(c.now, head.when)), Some(head))
  }

  // What a callback may leave behind it.
  ghost predicate Later<Call>(c: Clock<Call>, d: Clock<Call>) {
    && d.now == c.now
    && |d.scheduled| - |c.scheduled| == d.armed - c.armed >= 0
    && (forall i :: 0 <= i < |c.scheduled| ==> Stands(c.scheduled[i], d.scheduled[i]))
    && (forall i :: |c.scheduled| <= i < |d.scheduled| ==>
          d.scheduled[i].order == c.armed + (i - |c.scheduled|))
  }

  ghost predicate Stands<Call>(s: Timer<Call>, t: Timer<Call>) {
    t.when == s.when && t.order == s.order && t.call == s.call && (s.cancelled ==> t.cancelled)
  }

  lemma LaterKeepsOrder<Call>(c: Clock<Call>, d: Clock<Call>)
    requires Ordered(c) && Later(c, d)
    ensures Ordered(d)
  {
    forall i | 0 <= i < |d.scheduled|
      ensures d.scheduled[i].order < d.armed
      ensures i < |c.scheduled| ==> d.scheduled[i].order < c.armed
    {
      if i < |c.scheduled| { assert Stands(c.scheduled[i], d.scheduled[i]); }
    }
    forall i, j | 0 <= i < j < |d.scheduled| ensures d.scheduled[i].order < d.scheduled[j].order {
      if j < |c.scheduled| {
        assert Stands(c.scheduled[i], d.scheduled[i]) && Stands(c.scheduled[j], d.scheduled[j]);
      }
    }
  }

  lemma LaterTransitive<Call>(c: Clock<Call>, d: Clock<Call>, e: Clock<Call>)
    requires Later(c, d) && Later(d, e)
    ensures Later(c, e)
  {
    forall i | 0 <= i < |c.scheduled| ensures Stands(c.scheduled[i], e.scheduled[i]) {
      assert Stands(c.scheduled[i], d.scheduled[i]) && Stands(d.scheduled[i], e.scheduled[i]);
    }
    forall i | |c.scheduled| <= i < |e.scheduled|
      ensures e.scheduled[i].order == c.armed + (i - |c.scheduled|)
    {
      if i < |d.scheduled| { assert Stands(d.scheduled[i], e.scheduled[i]); }
    }
  }

  lemma ArmIsLater<Call>(c: Clock<Call>, when: Instant, call: Call)
    ensures Later(c, c) && Later(c, Arm(c, when, call))
  {
  }

  lemma CancelIsLater<Call>(c: Clock<Call>, order: nat)
    ensures Later(c, Cancel(c, order))
  {
  }

  // What each of the loop's pieces does

  lemma {:induction false} UncancelledKeeps<Call>(s: seq<Timer<Call>>, bound: nat)
    requires Ordered(Clock(0, s, bound))
    ensures Ordered(Clock(0, Uncancelled(s), bound))
    ensures forall t :: t in Uncancelled(s) <==> t in s && !t.cancelled
  {
    if s != [] {
      var init, last := s[..|s| - 1], s[|s| - 1];
      UncancelledKeeps(init, last.order);
      assert s == init + [last];
    }
  }

  lemma {:induction false} WithoutKeeps<Call>(s: seq<Timer<Call>>, order: nat, bound: nat)
    requires Ordered(Clock(0, s, bound))
    ensures Ordered(Clock(0, Without(s, order), bound))
    ensures forall t :: t in Without(s, order) <==> t in s && t.order != order
  {
    if s != [] {
      var init, last := s[..|s| - 1], s[|s| - 1];
      WithoutKeeps(init, order, last.order);
      assert s == init + [last];
    }
  }

  ghost predicate NotAfter<Call>(t: Timer<Call>, u: Timer<Call>) {
    t.when < u.when || (t.when == u.when && t.order <= u.order)
  }

  lemma {:induction false} HeadIsLeast<Call>(s: seq<Timer<Call>>, target: Instant, bound: nat)
    requires Ordered(Clock(0, s, bound))
    ensures Head(s, target).None? ==> forall t :: t in s ==> !t.Due(target)
    ensures Head(s, target).Some? ==>
              var head := Head(s, target).value;
              head in s && head.Due(target) && forall t :: t in s && t.Due(target) ==> NotAfter(head, t)
  {
    if s != [] {
      var init, last := s[..|s| - 1], s[|s| - 1];
      HeadIsLeast(init, target, last.order);
      assert s == init + [last];
    }
  }

  ghost function Between(lo: nat, hi: nat): (between: set<nat>)
    ensures forall o :: o in between <==> lo <= o < hi
  {
    if lo >= hi then {} else Between(lo, hi - 1) + {hi - 1}
  }

  ghost function Orders<Call>(s: seq<Timer<Call>>): set<nat> { set t | t in s :: t.order }

  // One turn, in full.
  lemma TakeDueTakes<Call>(c: Clock<Call>, target: Instant)
    requires Ordered(c)
    ensures var (d, head) := TakeDue(c, target);
            && Ordered(d) && d.armed == c.armed && d.now >= c.now
            && (head.None? ==>
                  && d.now == Max(c.now, target)
                  && (forall t :: t in d.scheduled <==> t in c.scheduled && !t.cancelled)
                  && (forall t :: t in d.scheduled ==> t.when > target))
            && (head.Some? ==>
                  && d.now == Max(c.now, head.value.when)
                  && head.value in c.scheduled && head.value.Due(target)
                  && (forall t :: t in c.scheduled && t.Due(target) ==> NotAfter(head.value, t))
                  && (forall t :: t in d.scheduled <==>
                        t in c.scheduled && !t.cancelled && t.order != head.value.order))
  {
    UncancelledKeeps(c.scheduled, c.armed);
    var kept := Uncancelled(c.scheduled);
    HeadIsLeast(kept, target, c.armed);
    if Head(kept, target).Some? {
      WithoutKeeps(kept, Head(kept, target).value.order, c.armed);
    }
  }

  // The whole advance: the state it leaves and the calls it fired, in order,
  // or nothing where it is not done within so many turns.
  type Callback<!W, !Call> = (W, Clock<Call>, Timer<Call>) -> (W, Clock<Call>)

  datatype Driven<W, Call> = Driven(world: W, clock: Clock<Call>, fired: seq<Timer<Call>>, dropped: set<nat>)

  ghost function Dropped<Call>(s: seq<Timer<Call>>): set<nat> { set t | t in s && t.cancelled :: t.order }

  ghost function Drive<W, Call>(
    w: W, c: Clock<Call>, target: Instant, fire: Callback<W, Call>, turns: nat): Option<Driven<W, Call>>
    decreases turns
  {
    if turns == 0 then None
    else
      var (taken, head) := TakeDue(c, target);
      if head.None? then Some(Driven(w, taken, [], Dropped(c.scheduled)))
      else
        var (w', c') := fire(w, taken, head.value);
        match Drive(w', c', target, fire, turns - 1)
        case None => None
        case Some(rest) =>
          Some(rest.(fired := [head.value] + rest.fired, dropped := Dropped(c.scheduled) + rest.dropped))
  }

  ghost predicate WellBehaved<W(!new), Call(!new)>(fire: Callback<W, Call>) {
    forall w: W, c: Clock<Call>, t: Timer<Call> :: Later(c, fire(w, c, t).1)
  }

  // Time does not move back and ends at the target, and what is left is later.
  lemma {:induction false} AdvanceReachesTarget<W(!new), Call(!new)>(
    w: W, c: Clock<Call>, target: Instant, fire: Callback<W, Call>, turns: nat)
    requires Ordered(c) && WellBehaved(fire) && c.now <= target
    requires Drive(w, c, target, fire, turns).Some?
    ensures var d := Drive(w, c, target, fire, turns).value;
            && d.clock.now == target && Ordered(d.clock)
            && (forall t :: t in d.clock.scheduled ==> !t.cancelled && t.when > target)
    decreases turns
  {
    TakeDueTakes(c, target);
    var (taken, head) := TakeDue(c, target);
    if head.Some? {
      var (w', c') := fire(w, taken, head.value);
      assert Later(taken, c');
      LaterKeepsOrder(taken, c');
      AdvanceReachesTarget(w', c', target, fire, turns - 1);
    }
  }

  // Every call standing at the start or armed on the way is, at the end,
  // exactly one of fired, dropped because it was cancelled, and standing; and
  // no call is fired twice.
  ghost predicate Accounted<W, Call>(c: Clock<Call>, d: Driven<W, Call>, target: Instant) {
    && c.armed <= d.clock.armed
    && Orders(d.fired) !! d.dropped !! Orders(d.clock.scheduled)
    && Orders(d.fired) + d.dropped + Orders(d.clock.scheduled)
       == Orders(c.scheduled) + Between(c.armed, d.clock.armed)
    && (forall i, j :: 0 <= i < j < |d.fired| ==> d.fired[i].order != d.fired[j].order)
    && (forall t :: t in d.fired ==> t.Due(target))
  }

  lemma {:induction false} EveryCallAccountedFor<W(!new), Call(!new)>(
    w: W, c: Clock<Call>, target: Instant, fire: Callback<W, Call>, turns: nat)
    requires Ordered(c) && WellBehaved(fire)
    requires Drive(w, c, target, fire, turns).Some?
    ensures Accounted(c, Drive(w, c, target, fire, turns).value, target)
    decreases turns
  {
    TakeDueTakes(c, target);
    var (taken, head) := TakeDue(c, target);
    if head.None? {
      LastTurnAccounts(w, c, taken, target);
    } else {
      var (w', c') := fire(w, taken, head.value);
      assert Later(taken, c');
      LaterKeepsOrder(taken, c');
      EveryCallAccountedFor(w', c', target, fire, turns - 1);
      LaterOrders(taken, c');
      OneTurnAccounts(c, taken, head.value);
      hide Accounted, Ordered, Later, TakeDue;
      TurnAccounts(c, taken, c', head.value, Drive(w', c', target, fire, turns - 1).value, target);
    }
  }

  lemma LastTurnAccounts<W, Call>(w: W, c: Clock<Call>, taken: Clock<Call>, target: Instant)
    requires Ordered(c) && taken.armed == c.armed
    requires forall t :: t in taken.scheduled <==> t in c.scheduled && !t.cancelled
    ensures Accounted(c, Driven(w, taken, [], Dropped(c.scheduled)), target)
  {
    OrdersDistinct(c);
    assert Orders<Call>([]) == {};
    forall o ensures o in Orders(c.scheduled) <==> o in Dropped(c.scheduled) || o in Orders(taken.scheduled) {
      if o in Orders(c.scheduled) {
        var t :| t in c.scheduled && t.order == o;
        assert t.cancelled || t in taken.scheduled;
      }
    }
  }

  lemma TurnAccounts<W, Call>(
    c: Clock<Call>, taken: Clock<Call>, next: Clock<Call>, head: Timer<Call>, rest: Driven<W, Call>, target: Instant)
    requires Accounted(next, rest, target) && head.Due(target)
    requires taken.armed == c.armed <= next.armed
    requires forall o :: o in Orders(c.scheduled) ==> o < c.armed
    requires Orders(next.scheduled) == Orders(taken.scheduled) + Between(c.armed, next.armed)
    requires Dropped(c.scheduled) + {head.order} + Orders(taken.scheduled) == Orders(c.scheduled)
    requires {head.order} !! Dropped(c.scheduled) !! Orders(taken.scheduled)
    ensures Accounted(c, rest.(fired := [head] + rest.fired, dropped := Dropped(c.scheduled) + rest.dropped), target)
  {
    hide Dropped, Between;
    assert Orders([head] + rest.fired) == {head.order} + Orders(rest.fired);
    StillParted(Orders(c.scheduled), Dropped(c.scheduled), head.order, Orders(taken.scheduled),
                Orders(rest.fired), rest.dropped, Orders(rest.clock.scheduled), c.armed, next.armed, rest.clock.armed);
    assert forall i :: 0 <= i < |rest.fired| ==> rest.fired[i].order in Orders(rest.fired);
  }

  // The sets of one turn and of the turns after it put together.
  lemma {:induction false} StillParted(
    all: set<nat>, dropped: set<nat>, head: nat, taken: set<nat>,
    fired: set<nat>, droppedLater: set<nat>, standing: set<nat>, a: nat, b: nat, c: nat)
    requires dropped + {head} + taken == all && {head} !! dropped !! taken
    requires forall o :: o in all ==> o < a
    requires a <= b <= c
    requires fired !! droppedLater !! standing
    requires fired + droppedLater + standing == taken + Between(a, b) + Between(b, c)
    ensures ({head} + fired) !! (dropped + droppedLater) !! standing
    ensures ({head} + fired) + (dropped + droppedLater) + standing == all + Between(a, c)
    ensures head !in fired
  {
    assert Between(a, b) + Between(b, c) == Between(a, c);
    forall o | o in fired + droppedLater + standing ensures o in taken || o >= a {
      assert o in taken + Between(a, b) + Between(b, c);
    }
    forall o ensures o in ({head} + fired) + (dropped + droppedLater) + standing <==> o in all + Between(a, c) {
      assert o in fired + droppedLater + standing <==> o in taken + Between(a, b) + Between(b, c);
      assert o in dropped + {head} + taken <==> o in all;
    }
  }

  lemma OrdersDistinct<Call>(c: Clock<Call>)
    requires Ordered(c)
    ensures forall t, u :: t in c.scheduled && u in c.scheduled && t.order == u.order ==> t == u
    ensures forall o :: o in Orders(c.scheduled) ==> o < c.armed
  {
  }

  lemma OneTurnAccounts<Call>(c: Clock<Call>, taken: Clock<Call>, head: Timer<Call>)
    requires Ordered(c) && head in c.scheduled && !head.cancelled
    requires forall t :: t in taken.scheduled <==> t in c.scheduled && !t.cancelled && t.order != head.order
    ensures Dropped(c.scheduled) + {head.order} + Orders(taken.scheduled) == Orders(c.scheduled)
    ensures {head.order} !! Dropped(c.scheduled) !! Orders(taken.scheduled)
    ensures forall o :: o in Orders(c.scheduled) ==> o < c.armed
  {
    OrdersDistinct(c);
    forall o ensures o in Orders(c.scheduled) <==>
                     o in Dropped(c.scheduled) || o == head.order || o in Orders(taken.scheduled)
    {
      if o in Orders(c.scheduled) && o != head.order {
        var t :| t in c.scheduled && t.order == o;
        assert t.cancelled || t in taken.scheduled;
      }
    }
  }

  lemma LaterOrders<Call>(c: Clock<Call>, d: Clock<Call>)
    requires Later(c, d)
    ensures Orders(d.scheduled) == Orders(c.scheduled) + Between(c.armed, d.armed)
  {
    forall t | t in d.scheduled ensures t.order in Orders(c.scheduled) + Between(c.armed, d.armed) {
      var i :| 0 <= i < |d.scheduled| && d.scheduled[i] == t;
      if i < |c.scheduled| {
        assert Stands(c.scheduled[i], d.scheduled[i]) && c.scheduled[i] in c.scheduled;
      }
    }
    forall t | t in c.scheduled ensures t.order in Orders(d.scheduled) {
      var i :| 0 <= i < |c.scheduled| && c.scheduled[i] == t;
      assert Stands(c.scheduled[i], d.scheduled[i]) && d.scheduled[i] in d.scheduled;
    }
    forall o | o in Between(c.armed, d.armed) ensures o in Orders(d.scheduled) {
      var i := |c.scheduled| + (o - c.armed);
      assert d.scheduled[i] in d.scheduled;
    }
  }

  // Due order

  ghost predicate InOrder<Call>(fired: seq<Timer<Call>>) {
    forall i :: 0 < i < |fired| ==> NotAfter(fired[i - 1], fired[i])
  }

  // No callback of this advance leaves a call it armed standing due before
  // the instant it was itself fired for.
  ghost predicate Punctual<W, Call>(
    w: W, c: Clock<Call>, target: Instant, fire: Callback<W, Call>, turns: nat)
    decreases turns
  {
    turns > 0 ==>
      var (taken, head) := TakeDue(c, target);
      head.Some? ==>
        var (w', c') := fire(w, taken, head.value);
        && (forall t :: t in c'.scheduled && t.order >= taken.armed && t.Due(target) ==> t.when >= head.value.when)
        && Punctual(w', c', target, fire, turns - 1)
  }

  // Calls fire in due order, ties in arming order, exactly when every
  // callback is punctual.
  lemma {:induction false} FiresInOrderIffPunctual<W(!new), Call(!new)>(
    w: W, c: Clock<Call>, target: Instant, fire: Callback<W, Call>, turns: nat)
    requires Ordered(c) && WellBehaved(fire)
    requires Drive(w, c, target, fire, turns).Some?
    ensures InOrder(Drive(w, c, target, fire, turns).value.fired) <==> Punctual(w, c, target, fire, turns)
    decreases turns
  {
    TakeDueTakes(c, target);
    var (taken, head) := TakeDue(c, target);
    if head.Some? {
      var (w', c') := fire(w, taken, head.value);
      assert Later(taken, c');
      LaterKeepsOrder(taken, c');
      FiresInOrderIffPunctual(w', c', target, fire, turns - 1);
      var rest := Drive(w', c', target, fire, turns - 1).value.fired;
      InOrderFrom(head.value, rest);
      NextInOrder(taken, c', head.value, target);
      TakeDueTakes(c', target);
      assert rest != [] ==> TakeDue(c', target).1 == Some(rest[0]);
      assert rest == [] ==> TakeDue(c', target).1 == None;
    }
  }

  lemma InOrderFrom<Call>(first: Timer<Call>, rest: seq<Timer<Call>>)
    ensures InOrder([first] + rest) <==> InOrder(rest) && (rest != [] ==> NotAfter(first, rest[0]))
  {
    var fired := [first] + rest;
    if InOrder(fired) {
      forall i | 0 < i < |rest| ensures NotAfter(rest[i - 1], rest[i]) {
        assert NotAfter(fired[i + 1 - 1], fired[i + 1]);
      }
      assert rest != [] ==> NotAfter(fired[1 - 1], fired[1]);
    }
  }

  // The next call due follows this one unless the callback armed one due earlier.
  lemma NextInOrder<Call>(taken: Clock<Call>, c: Clock<Call>, head: Timer<Call>, target: Instant)
    requires Ordered(taken) && Later(taken, c) && Ordered(c)
    requires head.order < taken.armed
    requires forall t :: t in taken.scheduled && t.Due(target) ==> NotAfter(head, t)
    ensures var next := TakeDue(c, target).1;
            (next.Some? ==> NotAfter(head, next.value)) <==>
            (forall t :: t in c.scheduled && t.order >= taken.armed && t.Due(target) ==> t.when >= head.when)
  {
    TakeDueTakes(c, target);
    forall t | t in c.scheduled && t.order < taken.armed && t.Due(target) ensures NotAfter(head, t) {
      var i :| 0 <= i < |c.scheduled| && c.scheduled[i] == t;
      assert i < |taken.scheduled|;
      assert Stands(taken.scheduled[i], t) && taken.scheduled[i] in taken.scheduled;
    }
  }

  // A callback that arms a call in the past: the documented order fails.
  lemma OutOfOrderExample()
    ensures exists c: Clock<bool>, fire: Callback<(), bool> ::
              && Ordered(c) && WellBehaved(fire)
              && Drive((), c, 5, fire, 3).Some?
              && !InOrder(Drive((), c, 5, fire, 3).value.fired)
  {
    var c := Clock(0, [Timer(5, 0, true, false)], 1);
    var fire: Callback<(), bool> := (w, d: Clock<bool>, t: Timer<bool>) => ((), if t.call then Arm(d, 4, false) else d);
    forall w: (), d: Clock<bool>, t: Timer<bool> ensures Later(d, fire(w, d, t).1) {
      ArmIsLater(d, 4, false);
    }
    var first, second := Timer(5, 0, true, false), Timer(4, 1, false, false);
    var c1, done: Clock<bool> := Clock(5, [second], 2), Clock(5, [], 2);
    TakeOnly(c, first, 5);
    TakeOnly(c1, second, 5);
    TakeNone(done, 5);
    assert [] + [second] == [second];
    hide TakeDue;
    assert Drive((), done, 5, fire, 1).value.fired == [];
    assert Drive((), c1, 5, fire, 2).value.fired == [second] + [];
    var fired := Drive((), c, 5, fire, 3).value.fired;
    assert fired == [first] + ([second] + []) && fired[0] == first && fired[1] == second;
    assert !NotAfter(fired[1 - 1], fired[1]);
  }

  lemma TakeOnly<Call>(c: Clock<Call>, t: Timer<Call>, target: Instant)
    requires c.scheduled == [t] && t.Due(target)
    ensures TakeDue(c, target) == (Clock(Max(c.now, t.when), [], c.armed), Some(t))
  {
    hide Uncancelled, Head, Without;
    OnlyCall(t, target);
  }

  lemma {:induction false} OnlyCall<Call>(t: Timer<Call>, target: Instant)
    requires t.Due(target)
    ensures Uncancelled([t]) == [t] && Head([t], target) == Some(t) && Without([t], t.order) == []
  {
    assert [t][..0] == [];
    assert [] + [t] == [t];
  }

  lemma TakeNone<Call>(c: Clock<Call>, target: Instant)
    requires c.scheduled == []
    ensures TakeDue(c, target) == (c.(now := Max(c.now, target)), None)
  {
  }

  // Termination

  function DueCount<Call>(s: seq<Timer<Call>>, target: Instant): nat {
    if s == [] then 0 else DueCount(s[..|s| - 1], target) + (if s[|s| - 1].Due(target) then 1 else 0)
  }

  ghost predicate ArmsPast<W(!new), Call(!new)>(fire: Callback<W, Call>, target: Instant) {
    forall w: W, c: Clock<Call>, t: Timer<Call>, u: Timer<Call> ::
      u in fire(w, c, t).1.scheduled && u.order >= c.armed ==> u.when > target
  }

  // Callbacks that arm only past the target let the advance end: one turn
  // for each call due, and one to find none.
  lemma {:induction false} AdvanceEnds<W(!new), Call(!new)>(
    w: W, c: Clock<Call>, target: Instant, fire: Callback<W, Call>)
    requires Ordered(c) && WellBehaved(fire) && ArmsPast(fire, target)
    ensures Drive(w, c, target, fire, DueCount(c.scheduled, target) + 1).Some?
    decreases DueCount(c.scheduled, target)
  {
    var (taken, head) := TakeDue(c, target);
    if head.Some? {
      var (w', c') := fire(w, taken, head.value);
      TurnShrinks(w, c, target, fire);
      hide Ordered, Later, TakeDue, DueCount;
      AdvanceEnds(w', c', target, fire);
      MoreTurns(w', c', target, fire, DueCount(c'.scheduled, target) + 1, DueCount(c.scheduled, target));
    }
  }

  lemma {:induction false} TurnShrinks<W(!new), Call(!new)>(w: W, c: Clock<Call>, target: Instant, fire: Callback<W, Call>)
    requires Ordered(c) && WellBehaved(fire) && ArmsPast(fire, target)
    requires TakeDue(c, target).1.Some?
    ensures var (taken, head) := TakeDue(c, target);
            var c' := fire(w, taken, head.value).1;
            Ordered(c') && DueCount(c'.scheduled, target) < DueCount(c.scheduled, target)
  {
    TakeDueTakes(c, target);
    var (taken, head) := TakeDue(c, target);
    var c' := fire(w, taken, head.value).1;
    assert Later(taken, c');
    LaterKeepsOrder(taken, c');
    CountUncancelled(c.scheduled, target);
    UncancelledKeeps(c.scheduled, c.armed);
    CountWithout(Uncancelled(c.scheduled), target, head.value, c.armed);
    CountLater(taken, c', target);
  }

  lemma {:induction false} MoreTurns<W, Call>(
    w: W, c: Clock<Call>, target: Instant, fire: Callback<W, Call>, turns: nat, more: nat)
    requires turns <= more && Drive(w, c, target, fire, turns).Some?
    ensures Drive(w, c, target, fire, more) == Drive(w, c, target, fire, turns)
    decreases turns
  {
    var (taken, head) := TakeDue(c, target);
    if head.Some? {
      var (w', c') := fire(w, taken, head.value);
      MoreTurns(w', c', target, fire, turns - 1, more - 1);
    }
  }

  lemma {:induction false} CountUncancelled<Call>(s: seq<Timer<Call>>, target: Instant)
    ensures DueCount(Uncancelled(s), target) == DueCount(s, target)
  {
    if s != [] {
      var init, last := s[..|s| - 1], s[|s| - 1];
      CountUncancelled(init, target);
      if !last.cancelled {
        assert (Uncancelled(init) + [last])[..|Uncancelled(init)|] == Uncancelled(init);
      }
    }
  }

  lemma {:induction false} CountWithout<Call>(s: seq<Timer<Call>>, target: Instant, head: Timer<Call>, bound: nat)
    requires Ordered(Clock(0, s, bound)) && head in s && head.Due(target)
    ensures DueCount(Without(s, head.order), target) == DueCount(s, target) - 1
  {
    var init, last := s[..|s| - 1], s[|s| - 1];
    assert s == init + [last];
    if last.order == head.order {
      assert last == head;
      WithoutAbsent(init, head.order);
    } else {
      CountWithout(init, target, head, last.order);
      assert (Without(init, head.order) + [last])[..|Without(init, head.order)|] == Without(init, head.order);
    }
  }

  lemma {:induction false} WithoutAbsent<Call>(s: seq<Timer<Call>>, order: nat)
    requires forall t :: t in s ==> t.order != order
    ensures Without(s, order) == s
  {
    if s != [] {
      assert s[|s| - 1] in s;
      WithoutAbsent(s[..|s| - 1], order);
    }
  }

  lemma LaterWithoutLast<Call>(c: Clock<Call>, d: Clock<Call>)
    requires Later(c, d) && d.scheduled != []
    ensures var n := |d.scheduled| - 1;
            if n + 1 == |c.scheduled|
            then Stands(c.scheduled[n], d.scheduled[n])
                 && Later(c.(scheduled := c.scheduled[..n]), d.(scheduled := d.scheduled[..n]))
            else d.scheduled[n].order >= c.armed && Later(c, d.(scheduled := d.scheduled[..n], armed := d.armed - 1))
  {
  }

  lemma {:induction false} CountLater<Call>(c: Clock<Call>, d: Clock<Call>, target: Instant)
    requires Later(c, d)
    requires forall u :: u in d.scheduled && u.order >= c.armed ==> u.when > target
    ensures DueCount(d.scheduled, target) <= DueCount(c.scheduled, target)
    decreases |d.scheduled|
  {
    if d.scheduled != [] {
      LaterWithoutLast(c, d);
      var n := |d.scheduled| - 1;
      assert d.scheduled[n] in d.scheduled;
      assert |d.scheduled| >= |c.scheduled|;
      hide Later;
      if n + 1 == |c.scheduled| {
        CountLater(c.(scheduled := c.scheduled[..n]), d.(scheduled := d.scheduled[..n]), target);
      } else {
        CountLater(c, d.(scheduled := d.scheduled[..n], armed := d.armed - 1), target);
      }
    }
  }

  class ManualClock<Call(!new)> {
    var now: Instant
    var scheduled: seq<Timer<Call>>
    var armed: nat

    function State(): Clock<Call>
      reads this
    {
      Clock(now, scheduled, armed)
    }

    ghost predicate Valid()
      reads this
    {
      Ordered(State())
    }

    constructor (start: Instant)
      ensures Valid() && State() == Clock(start, [], 0)
    {
      now, scheduled, armed := start, [], 0;
    }

    method CallAt(when: Instant, call: Call) returns (handle: nat)
      requires Valid()
      modifies this
      ensures Valid()
      ensures handle == old(armed) && State() == Arm(old(State()), when, call)
    {
      handle := armed;
      scheduled := scheduled + [Timer(when, armed, call, false)];
      armed := armed + 1;
    }

    // A handle's own cancel. One already fired is in no list and nothing changes.
    method CancelCall(handle: nat)
      requires Valid()
      modifies this
      ensures Valid()
      ensures State() == Cancel(old(State()), handle)
    {
      var i := 0;
      while i < |scheduled|
        invariant 0 <= i <= |scheduled| == |old(scheduled)|
        invariant now == old(now) && armed == old(armed)
        invariant forall j :: 0 <= j < i ==> scheduled[j] == Cancel(old(State()), handle).scheduled[j]
        invariant forall j :: i <= j < |scheduled| ==> scheduled[j] == old(scheduled[j])
      {
        if scheduled[i].order == handle {
          scheduled := scheduled[i := scheduled[i].(cancelled := true)];
        }
        i := i + 1;
      }
      assert scheduled == Cancel(old(State()), handle).scheduled;
      CancelIsLater(old(State()), handle);
      LaterKeepsOrder(old(State()), State());
    }

    // The locked block: drop what was cancelled, and take the least due call.
    method TakeNext(target: Instant) returns (head: Option<Timer<Call>>)
      requires Valid()
      modifies this
      ensures Valid()
      ensures (State(), head) == TakeDue(old(State()), target)
    {
      hide Ordered;
      TakeDueTakes(State(), target);
      var kept, i := [], 0;
      head := None;
      while i < |scheduled|
        invariant 0 <= i <= |scheduled|
        invariant kept == Uncancelled(scheduled[..i])
        invariant head == Head(kept, target)
      {
        assert scheduled[..i + 1][..i] == scheduled[..i];
        var s := scheduled[i];
        if !s.cancelled {
          assert (kept + [s])[..|kept|] == kept;
          kept := kept + [s];
          if s.when <= target && (head.None? || s.when < head.value.when) {
            head := Some(s);
          }
        }
        i := i + 1;
      }
      assert scheduled[..i] == scheduled;
      scheduled := kept;
      if head.None? {
        now := Max(now, target);
        return;
      }
      var rest := [];
      i := 0;
      while i < |kept|
        invariant 0 <= i <= |kept|
        invariant rest == Without(kept[..i], head.value.order)
      {
        assert kept[..i + 1][..i] == kept[..i];
        if kept[i].order != head.value.order {
          rest := rest + [kept[i]];
        }
        i := i + 1;
      }
      assert kept[..i] == kept;
      scheduled := rest;
      now := Max(now, head.value.when);
    }

    // One turn after another until none is due by the target, which takes no
    // more than `turns` where `Drive` says so.
    method Advance<W(!new)>(delta: int, world: W, fire: Callback<W, Call>, ghost turns: nat)
      returns (after: W, refused: bool)
      requires Valid() && WellBehaved(fire)
      requires delta >= 0 ==> Drive(world, State(), now + delta, fire, turns).Some?
      modifies this
      ensures Valid()
      ensures refused <==> delta < 0
      ensures refused ==> State() == old(State()) && after == world
      ensures !refused ==>
                var d := Drive(world, old(State()), old(now) + delta, fire, turns).value;
                after == d.world && State() == d.clock
    {
      hide Later, Ordered, TakeDue;
      after := world;
      if delta < 0 {
        return world, true;
      }
      refused := false;
      var target := now + delta;
      ghost var left := turns;
      ghost var end := Drive(world, State(), target, fire, turns).value;
      var going := true;
      while going
        invariant Valid()
        invariant going ==>
          && Drive(after, State(), target, fire, left).Some?
          && Drive(after, State(), target, fire, left).value.world == end.world
          && Drive(after, State(), target, fire, left).value.clock == end.clock
        invariant !going ==> after == end.world && State() == end.clock
        decreases going, left
      {
        var head := TakeNext(target);
        if head.None? {
          going := false;
        } else {
          ghost var taken := State();
          var (w, c) := fire(after, State(), head.value);
          after, now, scheduled, armed := w, c.now, c.scheduled, c.armed;
          assert Later(taken, State());
          LaterKeepsOrder(taken, State());
          left := left - 1;
        }
      }
    }
  }
}
