// What a model reads of a board: as much of a read as fits one answer, and
// where to go on from.

module Tools {
  import opened Values
  import opened Records
  import Clients

  // Whether the first so many entries fit, whatever rendering them takes.
  type Fits = nat -> bool

  // What is tried after a prefix that does not fit.
  function Fewer(kept: nat): nat
    requires kept > 0
  {
    if kept <= 4 then kept - 1 else kept * 3 / 4
  }

  // The first prefix tried that fits, or the floor.
  function Fitted(fits: Fits, floor: nat, kept: nat): (fitted: nat)
    ensures fitted <= kept && (kept >= floor && floor <= 1 ==> fitted >= floor)
    ensures fits(fitted) || fitted <= floor
  {
    if fits(kept) || kept <= floor then kept else Fitted(fits, floor, Fewer(kept))
  }

  function Floor(total: nat): nat { if total > 0 then 1 else 0 }

  // As much of a read as fits, and never none of something.
  method Fit(fits: Fits, total: nat) returns (kept: nat)
    ensures kept == Fitted(fits, Floor(total), total)
    ensures Floor(total) <= kept <= total && (fits(kept) || kept <= 1)
    ensures kept == total <==> (total <= 1 || fits(total))
  {
    var floor := Floor(total);
    kept := total;
    while !fits(kept) && kept > floor
      invariant floor <= kept <= total
      invariant Fitted(fits, floor, kept) == Fitted(fits, floor, total)
      invariant kept < total ==> !fits(total)
      decreases kept
    {
      kept := if kept <= 4 then kept - 1 else kept * 3 / 4;
    }
  }

  // No larger prefix fits.
  ghost predicate Largest(fits: Fits, total: nat, kept: nat) {
    forall m :: kept < m <= total ==> !fits(m)
  }

  // The source calls it the largest prefix that fits. It is that, whatever
  // the entries take, for a read of at most four, and for no longer one:
  // there the first step down passes over prefixes that may fit.
  lemma {:induction false} LargestIff(total: nat)
    ensures (forall fits: Fits :: Largest(fits, total, Fitted(fits, Floor(total), total))) <==> total <= 4
  {
    if total <= 4 {
      forall fits: Fits ensures Largest(fits, total, Fitted(fits, Floor(total), total)) {
        StepsByOne(fits, Floor(total), total);
      }
    } else {
      var fits: Fits := (n: nat) => n <= total - 1;
      assert Fitted(fits, Floor(total), total) == Fitted(fits, Floor(total), total * 3 / 4) == total * 3 / 4;
      assert fits(total - 1);
      assert !Largest(fits, total, Fitted(fits, Floor(total), total));
    }
  }

  lemma {:induction false} StepsByOne(fits: Fits, floor: nat, kept: nat)
    requires kept <= 4
    ensures Largest(fits, kept, Fitted(fits, floor, kept))
  {
    if !fits(kept) && kept > floor {
      StepsByOne(fits, floor, kept - 1);
    }
  }

  // Where what fits is every prefix up to some length, what is kept is within
  // a quarter of that length.
  lemma {:induction false} NearLargest(fits: Fits, most: nat, floor: nat, kept: nat)
    requires floor <= most <= kept && forall m: nat :: fits(m) <==> m <= most
    ensures most * 3 / 4 <= Fitted(fits, floor, kept) <= most
  {
    if kept > most {
      if Fewer(kept) >= most {
        NearLargest(fits, most, floor, Fewer(kept));
      } else {
        assert Fitted(fits, floor, kept) == Fitted(fits, floor, Fewer(kept)) == Fewer(kept);
      }
    }
  }

  datatype Rendered = Rendered(held: seq<Contribution>, next: int, omitted: nat)

  // One answer to a read from a bound.
  method Render(items: seq<Contribution>, from: int, fits: Fits) returns (body: Rendered)
    ensures body.held <= items && |body.held| + body.omitted == |items|
    ensures items != [] ==> body.held != []
    ensures body.next == if body.held == [] then from else body.held[|body.held| - 1].sequence + 1
  {
    var kept := Fit(fits, |items|);
    var held := items[..kept];
    return Rendered(held, if held == [] then from else held[|held| - 1].sequence + 1, |items| - kept);
  }

  // Calling again from where each answer says, until one omits nothing:
  // every entry from the bound on is seen once, in order, in at most one call
  // an entry and one more.
  method Visit(found: seq<Contribution>, from: int, fits: (int, nat) -> bool) returns (seen: seq<Contribution>, calls: nat)
    requires Clients.Ascending(found)
    ensures seen == AtOrAfter(found, from)
    ensures calls <= |seen| + 1
  {
    hide AtOrAfter, Clients.Ascending;
    seen, calls := [], 0;
    var bound := from;
    var going := true;
    assert AtOrAfter(found, from) == [] + AtOrAfter(found, from);
    while going
      invariant going ==> AtOrAfter(found, from) == seen + AtOrAfter(found, bound) && calls <= |seen|
      invariant !going ==> seen == AtOrAfter(found, from) && calls <= |seen| + 1
      decreases going, |AtOrAfter(found, bound)|
    {
      var items := From(found, bound);
      var at := bound;
      var body := Render(items, bound, (kept: nat) => fits(at, kept));
      calls := calls + 1;
      if body.omitted == 0 {
        assert body.held == items;
        going := false;
      } else {
        Clients.PagesJoin(found, bound, |body.held|);
        assert items == body.held + items[|body.held|..];
        assert seen + items == (seen + body.held) + items[|body.held|..];
        bound := body.next;
      }
      seen := seen + body.held;
    }
  }

  method From(found: seq<Contribution>, from: int) returns (items: seq<Contribution>)
    ensures items == AtOrAfter(found, from)
  {
    items := [];
    var i := 0;
    while i < |found|
      invariant 0 <= i <= |found| && items == AtOrAfter(found[..i], from)
    {
      assert found[..i + 1][..i] == found[..i];
      if found[i].sequence >= from {
        items := items + [found[i]];
      }
      i := i + 1;
    }
    assert found[..i] == found;
  }
}
