// A process draining its queue, as steps of the protocol.

module Deliveries {
  import opened Values
  import opened Records
  import opened Clocks
  import opened Controls
  import opened Protocol

  // A call begun, its end, and the mark made where it is to be: a mark nobody
  // has earned is no step at all.
  function Draining(id: Id, ds: seq<Delivery>, sends: Delivery -> bool): seq<Step> {
    if ds == [] then []
    else
      var last := ds[|ds| - 1];
      Draining(id, ds[..|ds| - 1], sends)
      + [DeliveryStarts(id), DeliveryEnds(id, last, sends(last)), DeliveryMarks(id, last.note)]
  }

  // Nothing of the process's is in flight.
  ghost predicate Idle(s: System, id: Id) {
    && (forall c :: c in s.calling ==> c.0 != id)
    && (forall c :: c in s.sent ==> c.0 != id)
  }

  // The notifications whose calls returned, by whether the call marks its own.
  function Ended(ds: seq<Delivery>, sends: Delivery -> bool, marks: bool): set<Notification> {
    set d | d in ds && sends(d) && d.carrier.MarksSent() == marks :: d.note
  }

  // The loop a Control drains its queue in does to the record what those
  // steps do, and leaves nothing of it in flight.
  lemma {:induction false} DrainingIsSteps(
    s: System, id: Id, ds: seq<Delivery>, rest: seq<Delivery>, sends: Delivery -> bool)
    requires id in s.nodes && s.nodes[id].queue == ds + rest && Idle(s, id)
    ensures var t := Reached(s, Draining(id, ds, sends));
            && t.rec == DeliverAll(s.rec, ds, sends)
            && t.nodes == s.nodes[id := s.nodes[id].(queue := rest)]
            && Idle(t, id) && t.calling == s.calling && t.sent == s.sent
            && t.delivered == s.delivered + Ended(ds, sends, false)
            && t.lanes == s.lanes + Ended(ds, sends, true)
  {
    hide Next;
    if ds == [] {
      assert ds + rest == rest;
      assert s.nodes[id := s.nodes[id].(queue := rest)] == s.nodes;
    } else {
      var init, last := ds[..|ds| - 1], ds[|ds| - 1];
      assert ds + rest == init + ([last] + rest);
      DrainingIsSteps(s, id, init, [last] + rest, sends);
      var t := Reached(s, Draining(id, init, sends));
      OneDrained(t, id, last, rest, sends(last));
      var steps := Draining(id, ds, sends);
      var ends, marks := DeliveryEnds(id, last, sends(last)), DeliveryMarks(id, last.note);
      assert steps == Draining(id, init, sends) + [DeliveryStarts(id), ends, marks];
      ThreeMore(s, Draining(id, init, sends), DeliveryStarts(id), ends, marks);
      assert ds == init + [last];
    }
  }

  lemma {:induction false} ThreeMore(s: System, steps: seq<Step>, a: Step, b: Step, c: Step)
    ensures Reached(s, steps + [a, b, c]) == Next(Next(Next(Reached(s, steps), a), b), c)
  {
    hide Next, Reached;
    OneStep(s, steps, a);
    OneStep(s, steps + [a], b);
    OneStep(s, steps + [a] + [b], c);
    assert steps + [a] + [b] + [c] == steps + [a, b, c];
  }

  lemma {:induction false} OneStep(s: System, steps: seq<Step>, a: Step)
    ensures Reached(s, steps + [a]) == Next(Reached(s, steps), a)
  {
    hide Next;
    assert (steps + [a])[..|steps|] == steps;
  }

  lemma OneDrained(s: System, id: Id, d: Delivery, rest: seq<Delivery>, returned: bool)
    requires id in s.nodes && s.nodes[id].queue == [d] + rest && Idle(s, id)
    ensures var t := Next(Next(Next(s, DeliveryStarts(id)), DeliveryEnds(id, d, returned)), DeliveryMarks(id, d.note));
            && t.rec == MarkDelivered(s.rec, d, returned)
            && t.nodes == s.nodes[id := s.nodes[id].(queue := rest)]
            && Idle(t, id) && t.calling == s.calling && t.sent == s.sent
            && t.delivered == (if returned && !d.carrier.MarksSent() then s.delivered + {d.note} else s.delivered)
            && t.lanes == (if returned && d.carrier.MarksSent() then s.lanes + {d.note} else s.lanes)
  {
    var u := Next(s, DeliveryStarts(id));
    assert ([d] + rest)[1..] == rest && ([d] + rest)[0] == d;
    assert u.calling == s.calling + {(id, d)} && u.calling - {(id, d)} == s.calling;
    var v := Next(u, DeliveryEnds(id, d, returned));
    assert v.sent == (if returned && !d.carrier.MarksSent() then s.sent + {(id, d.note)} else s.sent);
    assert (s.sent + {(id, d.note)}) - {(id, d.note)} == s.sent;
  }
}
