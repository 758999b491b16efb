/** Lists of requests as sets: membership, no repetition, insertion and removal. */
module RequestLists {
  import opened Common
  import opened AsOrder

  function IndexOf(t: seq<Rq>, r: Rq): (i: nat)
    ensures i <= |t| && (i < |t| ==> t[i] == r) && (i == |t| ==> r !in t)
  {
    if t == [] || t[0] == r then 0 else 1 + IndexOf(t[1..], r)
  }

  function Elems(s: seq<Rq>): set<Rq> { if s == [] then {} else {s[0]} + Elems(s[1..]) }

  lemma {:induction false} ElemsAre(s: seq<Rq>)
    ensures forall r :: r in Elems(s) <==> r in s
  {
    if s != [] { ElemsAre(s[1..]); }
  }

  lemma {:induction false} NoTwiceWithout(t: seq<Rq>, i: nat)
    requires NoTwice(t) && i < |t|
    ensures NoTwice(Without(t, i)) && t[i] !in Without(t, i)
    ensures forall r :: r in t ==> r == t[i] || r in Without(t, i)
  {
    if i == 0 {
      assert Without(t, 0) == t[1..];
    } else {
      NoTwiceWithout(t[1..], i - 1);
      assert Without(t, i) == [t[0]] + Without(t[1..], i - 1);
      assert forall r :: r in Without(t[1..], i - 1) ==> r in t[1..];
    }
  }

  lemma ElemsWithout(t: seq<Rq>, i: nat)
    requires NoTwice(t) && i < |t|
    ensures NoTwice(Without(t, i)) && Elems(Without(t, i)) == Elems(t) - {t[i]}
  {
    NoTwiceWithout(t, i);
    ElemsAre(t);
    ElemsAre(Without(t, i));
    assert forall y :: y in Without(t, i) ==> y in t;
  }

  lemma InsertedElems(t: seq<Rq>, r: Rq)
    requires NoTwice(t) && r !in Elems(t)
    ensures NoTwice(Inserted(t, r)) && Elems(Inserted(t, r)) == Elems(t) + {r} && Inserted(t, r) != []
  {
    var i := Place(t, r.sector);
    ElemsAre(t);
    ElemsAre(Inserted(t, r));
    assert t == t[..i] + t[i..];
    NoTwiceMiddle(t[..i], r, t[i..]);
  }

  lemma FifoGrows(f: seq<Rq>, r: Rq)
    requires NoTwice(f) && r !in Elems(f)
    ensures NoTwice(f + [r]) && Elems(f + [r]) == Elems(f) + {r}
  {
    ElemsAre(f);
    ElemsAre(f + [r]);
    assert f + [] == f && f + [r] + [] == f + [r];
    NoTwiceMiddle(f, r, []);
  }
}
