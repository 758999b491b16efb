// Which request the anticipatory scheduler wants next.  Requests of one direction are kept
// in sector order; the choice is a one-way elevator that also goes back a little.
module AsOrder {
  import opened Common

  /** `ioc` is the I/O context of the process that made the request. */
  datatype Rq = Rq(id: nat, sector: nat, size: nat, ioc: nat)

  const MAXBACK: nat := 1024 * 1024
  const BACK_PENALTY: nat := 2

  function End(r: Rq): nat { r.sector + r.size }

  /** The preferred one of two requests, the head having stopped at `last`. */
  function Choose(last: nat, o1: Option<Rq>, o2: Option<Rq>): Option<Rq> {
    if o1.None? || o1 == o2 then o2
    else if o2.None? then o1
    else
      var s1, s2 := o1.value.sector, o2.value.sector;
      var wrap1, wrap2 := Wraps(last, s1), Wraps(last, s2);
      var d1, d2 := Distance(last, s1), Distance(last, s2);
      if !wrap1 && wrap2 then o1
      else if !wrap2 && wrap1 then o2
      else if wrap1 && wrap2 then if s1 <= s2 then o1 else o2
      else if d1 < d2 then o1
      else if d2 < d1 then o2
      else if s1 >= s2 then o1 else o2
  }

  predicate Wraps(last: nat, s: nat) { s < last && s + MAXBACK < last }

  function Distance(last: nat, s: nat): nat {
    if s >= last then s - last else if s + MAXBACK >= last then (last - s) * BACK_PENALTY else 0
  }

  /** `a` is strictly preferred: a total order on distinct sectors. */
  predicate Better(last: nat, a: Rq, b: Rq) {
    if Wraps(last, a.sector) != Wraps(last, b.sector) then !Wraps(last, a.sector)
    else if Wraps(last, a.sector) then a.sector < b.sector
    else Distance(last, a.sector) < Distance(last, b.sector)
         || (Distance(last, a.sector) == Distance(last, b.sector) && a.sector > b.sector)
  }

  lemma BetterIsTotal(last: nat, a: Rq, b: Rq, c: Rq)
    ensures a.sector != b.sector ==> Better(last, a, b) != Better(last, b, a)
    ensures Better(last, a, b) && Better(last, b, c) ==> Better(last, a, c)
    ensures a.sector != b.sector ==> Choose(last, Some(a), Some(b)) == Some(if Better(last, a, b) then a else b)
  {
  }

  /** Is `o` the request of `t` that is preferred to all others? */
  predicate IsBest(last: nat, t: seq<Rq>, o: Option<Rq>) {
    if o.None? then t == []
    else o.value in t && forall i :: 0 <= i < |t| ==> t[i] == o.value || Better(last, o.value, t[i])
  }

  // ------------------------------------------------------ requests in sector order

  /** Where a request belongs. */
  function Place(t: seq<Rq>, sector: nat): (i: nat)
    ensures i <= |t|
    ensures forall j :: 0 <= j < i ==> t[j].sector < sector
    ensures i < |t| ==> t[i].sector >= sector
  {
    if t == [] || t[0].sector >= sector then 0 else 1 + Place(t[1..], sector)
  }

  function Inserted(t: seq<Rq>, r: Rq): seq<Rq> {
    var i := Place(t, r.sector); t[..i] + [r] + t[i..]
  }

  /** The neighbours of the request at place `i`; past the last comes the first. */
  function NextOf(t: seq<Rq>, i: nat): Option<Rq>
    requires i < |t|
  {
    if i + 1 < |t| then Some(t[i + 1]) else if i > 0 then Some(t[0]) else None
  }

  function PrevOf(t: seq<Rq>, i: nat): Option<Rq>
    requires i < |t|
  {
    if i > 0 then Some(t[i - 1]) else None
  }

  function FindNext(last: nat, t: seq<Rq>, i: nat): Option<Rq>
    requires i < |t|
  {
    Choose(last, NextOf(t, i), PrevOf(t, i))
  }

  function Without(t: seq<Rq>, i: nat): seq<Rq>
    requires i < |t|
  {
    t[..i] + t[i + 1..]
  }

  // ------------------------------------------------------------- sector order

  /** Each request begins before the next. */
  predicate Ascending(t: seq<Rq>) { |t| < 2 || (t[0].sector < t[1].sector && Ascending(t[1..])) }

  /** No request begins at the sector. */
  predicate Vacant(t: seq<Rq>, sector: nat) { forall i :: 0 <= i < |t| ==> t[i].sector != sector }

  lemma {:induction false} AscendingMeans(t: seq<Rq>, i: nat, j: nat)
    requires Ascending(t) && i < j < |t|
    ensures t[i].sector < t[j].sector
    decreases |t|
  {
    if i > 0 {
      AscendingMeans(t[1..], i - 1, j - 1);
    } else if j > 1 {
      AscendingMeans(t[1..], 0, j - 1);
    }
  }

  lemma {:induction false} AscendingWithout(t: seq<Rq>, i: nat)
    requires Ascending(t) && i < |t|
    ensures Ascending(Without(t, i))
  {
    if i == 0 {
      assert Without(t, 0) == t[1..];
    } else {
      AscendingWithout(t[1..], i - 1);
      assert Without(t, i) == [t[0]] + Without(t[1..], i - 1);
      assert Without(t, i)[1..] == Without(t[1..], i - 1);
      if i == 1 && |t| > 2 { AscendingMeans(t, 0, 2); }
    }
  }

  lemma {:induction false} AscendingInserted(t: seq<Rq>, r: Rq)
    requires Ascending(t) && Vacant(t, r.sector)
    ensures Ascending(Inserted(t, r))
  {
    InsertedIs(t, r);
    if t != [] && t[0].sector < r.sector {
      AscendingInserted(t[1..], r);
      var u := FirstInserted(t, r);
      AscendingCons(t[0], u);
    } else {
      AscendingCons(r, t);
    }
  }

  lemma FirstInserted(t: seq<Rq>, r: Rq) returns (u: seq<Rq>)
    requires Ascending(t) && t != [] && t[0].sector < r.sector
    ensures u == Inserted(t[1..], r) && u != [] && t[0].sector < u[0].sector
  {
    u := Inserted(t[1..], r);
    InsertedIs(t[1..], r);
  }

  lemma AscendingCons(r: Rq, t: seq<Rq>)
    requires Ascending(t) && (t == [] || r.sector < t[0].sector)
    ensures Ascending([r] + t)
  {
    assert ([r] + t)[1..] == t;
  }

  lemma InsertedIs(t: seq<Rq>, r: Rq)
    ensures Inserted(t, r) == if t == [] || t[0].sector >= r.sector then [r] + t else [t[0]] + Inserted(t[1..], r)
  {
  }

  /** Sectors are distinct, so the search finds the one request at a sector, and without it none is there. */
  lemma VacatedWithout(t: seq<Rq>, i: nat)
    requires Ascending(t) && i < |t|
    ensures Vacant(Without(t, i), t[i].sector)
  {
    var u := Without(t, i);
    forall k | 0 <= k < |u| ensures u[k].sector != t[i].sector {
      if k < i { AscendingMeans(t, k, i); } else { AscendingMeans(t, i, k + 1); }
    }
  }

  lemma PlaceTells(t: seq<Rq>, sector: nat)
    requires Ascending(t)
    ensures var i := Place(t, sector); Vacant(t, sector) <==> i == |t| || t[i].sector != sector
  {
    var i := Place(t, sector);
    if i < |t| && t[i].sector != sector {
      forall k | 0 <= k < |t| ensures t[k].sector != sector {
        if k > i { AscendingMeans(t, i, k); }
      }
    }
  }

  // ------------------------------------------------------------- the cache is right

  /** A request more: it is enough to compare it with the best so far. */
  lemma BestGrows(last: nat, t: seq<Rq>, o: Option<Rq>, r: Rq)
    requires IsBest(last, t, o) && forall i :: 0 <= i < |t| ==> t[i].sector != r.sector
    ensures IsBest(last, Inserted(t, r), Choose(last, Some(r), o))
  {
    var i, t' := Place(t, r.sector), Inserted(t, r);
    assert t'[i] == r;
    if o.Some? {
      var k :| 0 <= k < |t| && t[k] == o.value;
      assert t'[if k < i then k else k + 1] == o.value;
      var best := Choose(last, Some(r), o).value;
      BetterIsTotal(last, r, o.value, r);
      forall j | 0 <= j < |t'| ensures t'[j] == best || Better(last, best, t'[j]) {
        if j != i {
          var x := t[if j < i then j else j - 1];
          assert t'[j] == x;
          BetterIsTotal(last, r, o.value, x);
        }
      }
    }
  }

  /** Some request begins within `r`, behind where the head will be. */
  predicate Overruns(t: seq<Rq>, r: Rq) { exists j :: 0 <= j < |t| && r.sector < t[j].sector < End(r) }

  /** Nothing beats both neighbours of a request once the head has passed over it, and over no other. */
  lemma NeighboursSuffice(t: seq<Rq>, i: nat, j: nat, last: nat)
    requires Ascending(t) && i < |t| && j < |t| && j != i && last == End(t[i]) && !Overruns(t, t[i])
    ensures var o := FindNext(last, t, i); o.Some? && (t[j] == o.value || Better(last, o.value, t[j]))
  {
    if j < i { BeforeSuffices(t, i, j, last); } else { AfterSuffices(t, i, j, last); }
  }

  lemma BeforeSuffices(t: seq<Rq>, i: nat, j: nat, last: nat)
    requires Ascending(t) && j < i < |t| && last == End(t[i]) && !Overruns(t, t[i])
    ensures var o := FindNext(last, t, i); o.Some? && (t[j] == o.value || Better(last, o.value, t[j]))
  {
    if i + 1 < |t| { AscendingMeans(t, i, i + 1); }
    AscendingMeans(t, i - 1, i);
    if j < i - 1 { AscendingMeans(t, j, i - 1); }
    if 0 < j { AscendingMeans(t, 0, j); }
  }

  lemma AfterSuffices(t: seq<Rq>, i: nat, j: nat, last: nat)
    requires Ascending(t) && i < j < |t| && last == End(t[i]) && !Overruns(t, t[i])
    ensures var o := FindNext(last, t, i); o.Some? && (t[j] == o.value || Better(last, o.value, t[j]))
  {
    AscendingMeans(t, i, i + 1);
    if i > 0 { AscendingMeans(t, i - 1, i); }
    if i + 1 < j { AscendingMeans(t, i + 1, j); }
  }

  lemma BestAfter(t: seq<Rq>, i: nat, last: nat)
    requires Ascending(t) && i < |t| && last == End(t[i]) && !Overruns(t, t[i])
    ensures IsBest(last, Without(t, i), FindNext(last, t, i))
  {
    var o, rest := FindNext(last, t, i), Without(t, i);
    forall k | 0 <= k < |rest| ensures o.Some? && (rest[k] == o.value || Better(last, o.value, rest[k])) {
      NeighboursSuffice(t, i, if k < i then k else k + 1, last);
    }
    FoundRemains(t, i, last);
  }

  /** What is found is one of those left, if any are. */
  lemma FoundRemains(t: seq<Rq>, i: nat, last: nat)
    requires i < |t|
    ensures var o := FindNext(last, t, i); if o.None? then Without(t, i) == [] else o.value in Without(t, i)
  {
    var o := FindNext(last, t, i);
    if o.Some? { NeighbourRemains(t, i, o.value); }
  }

  lemma NeighbourRemains(t: seq<Rq>, i: nat, x: Rq)
    requires i < |t| && (NextOf(t, i) == Some(x) || PrevOf(t, i) == Some(x))
    ensures x in Without(t, i)
  {
    var rest := Without(t, i);
    if i > 0 && x == t[i - 1] {
      assert rest[i - 1] == x;
    } else if i + 1 < |t| && x == t[i + 1] {
      assert rest[i] == x;
    } else {
      assert rest[0] == x;
    }
  }

  // ----------------------------------------------- the best of any requests

  predicate NoWorse(last: nat, a: Rq, b: Rq) { a == b || Better(last, a, b) }

  /** Not beaten by the first request, nor by those on either side of the head. */
  predicate Unbeaten(last: nat, t: seq<Rq>, o: Rq) {
    var p := Place(t, last);
    && (t != [] ==> NoWorse(last, o, t[0]))
    && (p > 0 ==> NoWorse(last, o, t[p - 1]))
    && (p < |t| ==> NoWorse(last, o, t[p]))
  }

  lemma BeatsAll(last: nat, t: seq<Rq>, o: Rq, k: nat)
    requires Ascending(t) && k < |t| && Unbeaten(last, t, o)
    ensures NoWorse(last, o, t[k])
  {
    var p := Place(t, last);
    if k > p {
      AscendingMeans(t, p, k);
      BetterIsTotal(last, o, t[p], t[k]);
    } else if k < p && Wraps(last, t[k].sector) && k > 0 {
      AscendingMeans(t, 0, k);
      BetterIsTotal(last, o, t[0], t[k]);
    } else if k + 1 < p && !Wraps(last, t[k].sector) {
      AscendingMeans(t, k, p - 1);
      BetterIsTotal(last, o, t[p - 1], t[k]);
    }
  }

  /** One of three requests is the best, whatever overlaps: a request is if and only if none of them beats it. */
  lemma BestIffUnbeaten(last: nat, t: seq<Rq>, o: Rq)
    requires Ascending(t) && o in t
    ensures IsBest(last, t, Some(o)) <==> Unbeaten(last, t, o)
  {
    if Unbeaten(last, t, o) {
      forall k | 0 <= k < |t| ensures t[k] == o || Better(last, o, t[k]) { BeatsAll(last, t, o, k); }
    }
  }
}
