/** The merge index as an object, its fields updated in place. */
module MergeQueue {
  import opened Common
  import opened MergeIndex

  class Elevator {
    var hash: Table
    var held: map<nat, Rq>
    var last: Option<nat>
    var epoch: nat
    const fn: nat -> nat

    function View(): Index
      reads this
    {
      Index(hash, held, last, epoch)
    }

    /** Chains and held requests agree, as in every run. */
    ghost predicate Valid()
      reads this
    {
      Inv(fn, View())
    }

    constructor (fn: nat -> nat)
      ensures Valid() && View() == Init() && this.fn == fn
    {
      this.fn := fn;
      hash, held, last, epoch := seq(SLOTS, _ => []), map[], None, 0;
    }

    method RqhashDel(id: nat)
      modifies this`hash
      ensures hash == Unhashed(old(hash), id)
    {
      hash := Unhashed(hash, id);
    }

    method RqhashAdd(id: nat)
      requires id in held
      modifies this`hash
      ensures hash == Hashed(fn, old(hash), id, End(held[id]))
    {
      var b := Slot(fn, End(held[id]));
      hash := hash[b := [id] + hash[b]];
    }

    method RqhashReposition(id: nat)
      requires id in held
      modifies this`hash
      ensures View() == Repositioned(fn, old(View()), id)
    {
      RqhashDel(id);
      RqhashAdd(id);
    }

    method Grow(id: nat, n: nat)
      requires id in held
      modifies this`held
      ensures View() == GrownBack(old(View()), id, n)
    {
      held := held[id := held[id].(size := held[id].size + n)];
    }

    /**
      Along the chain of a sector, dropping what may not be merged any more: finds a mergeable
      request that ends there if and only if one is held.
     */
    method RqhashFind(end: nat) returns (o: Option<nat>)
      requires Valid()
      modifies this`hash
      ensures Valid() && (View(), o) == Found(fn, old(View()), end)
      ensures o.Some? ==> o.value in held && held[o.value].mergeable && End(held[o.value]) == end
      ensures o.None? ==> forall id :: id in held && held[id].mergeable ==> End(held[id]) != end
    {
      FoundTells(fn, View(), end);
      var b := Slot(fn, end);
      var chain, kept, i := hash[b], [], 0;
      assert chain[0..] == chain && kept + Scanned(held, chain, end).0 == Scanned(held, chain, end).0;
      while i < |chain|
        invariant 0 <= i <= |chain|
        invariant var (rest, found) := Scanned(held, chain[i..], end); Scanned(held, chain, end) == (kept + rest, found)
      {
        var id := chain[i];
        assert chain[i..][1..] == chain[i + 1..];
        if id in held && held[id].mergeable {
          if End(held[id]) == end {
            hash := hash[b := kept + chain[i..]];
            return Some(id);
          }
          ghost var rest := Scanned(held, chain[i + 1..], end).0;
          assert kept + ([id] + rest) == kept + [id] + rest;
          kept := kept + [id];
        }
        i := i + 1;
      }
      assert kept + [] == kept;
      hash := hash[b := kept];
      o := None;
    }

    method InsertSort(id: nat, r: Rq)
      requires Valid() && id !in held && r.epoch == epoch
      modifies this
      ensures Valid() && View() == Inserted(fn, old(View()), id, r)
    {
      InsertedKeeps(fn, View(), id, r);
      held := held[id := r];
      if r.mergeable {
        RqhashAdd(id);
        if last.None? { last := Some(id); }
      }
    }

    /** Out of the index: neither the hash nor the cache leads to the request any more. */
    method Dispatch(id: nat)
      requires Valid()
      modifies this`hash, this`held, this`last
      ensures Valid() && held == old(held) - {id}
      ensures last == (if old(last) == Some(id) then None else old(last))
      ensures forall b :: 0 <= b < |hash| ==> hash[b] == Without(old(hash)[b], id) && id !in hash[b]
    {
      DispatchedKeeps(fn, View(), id);
      UnhashedIs(hash, id);
      if last == Some(id) { last := None; }
      RqhashDel(id);
      held := held - {id};
    }

    /** A bio was put behind a request; the index finds it at its new end. */
    method MergedBack(id: nat, n: nat)
      requires Valid() && id in held
      modifies this`hash, this`held, this`last
      ensures Valid() && View() == BackMerged(fn, old(View()), id, n)
      ensures held.Keys == old(held).Keys && End(held[id]) == End(old(held)[id]) + n && last == Some(id)
      ensures id in hash[Slot(fn, End(held[id]))]
    {
      BackMergedKeeps(fn, View(), id, n);
      Grow(id, n);
      RqhashReposition(id);
      last := Some(id);
    }

    /** A bio was put in front of a request; its end, and its place in the index, stay. */
    method MergedFront(id: nat, n: nat)
      requires Valid() && id in held && n <= held[id].sector
      modifies this`held, this`last
      ensures Valid() && View() == FrontMerged(old(View()), id, n)
      ensures held.Keys == old(held).Keys && End(held[id]) == End(old(held)[id]) && last == Some(id)
    {
      FrontMergedKeeps(fn, View(), id, n);
      held := held[id := held[id].(sector := held[id].sector - n, size := held[id].size + n)];
      last := Some(id);
    }

    /**
      `next` becomes part of `id`.  A bio of `n` sectors has closed the gap between them, behind
      `id` or in front of `next`, and that one has not been rehashed: `s` is the index before.
     */
    method MergeRequests(id: nat, next: nat, ghost s: Index, ghost n: nat)
      requires id in held && next in held && id != next && Inv(fn, s) && s.held.Keys == held.Keys
      requires View() == GrownBack(s, id, n) || (n <= s.held[next].sector && View() == GrownFront(s, next, n))
      modifies this`hash, this`held, this`last
      ensures Valid() && View() == Joined(fn, old(View()), id, next)
      ensures held.Keys == old(held).Keys - {next} && held[id].sector == old(held)[id].sector && last == Some(id)
      ensures held[id].size == old(held)[id].size + old(held)[next].size
    {
      JoinedEither(fn, s, View(), id, next, n);
      Absorb(id, next);
    }

    method Absorb(id: nat, next: nat)
      requires id in held && next in held && id != next
      modifies this`hash, this`held, this`last
      ensures View() == Joined(fn, old(View()), id, next)
    {
      Grow(id, held[next].size);
      RqhashReposition(id);
      RqhashDel(next);
      held := held - {next};
      last := Some(id);
    }

    /** A merge that did not fit. */
    method NoMore(id: nat)
      requires Valid() && id in held
      modifies this`held, this`last
      ensures Valid() && View() == Closed(old(View()), id)
    {
      ClosedKeeps(fn, View(), id);
      held := held[id := held[id].(mergeable := false)];
      if last == Some(id) { last := None; }
    }

    /**
      Look for a request a bio can be merged into: the one merged into last, then by the hash
      behind one, then what the scheduler proposes in front of one.
     */
    method Merge(sector: nat, n: nat, ok: nat -> bool, front: Option<nat>) returns (m: Match)
      requires Valid() && FrontOk(View(), front, sector + n)
      modifies this`hash
      ensures Valid() && (View(), m) == MergeIndex.Merge(fn, old(View()), sector, n, ok, front)
      ensures m.Back? ==> m.id in held && held[m.id].mergeable && End(held[m.id]) == sector && held[m.id].epoch == epoch
      ensures m.Front? ==> m.id in held && held[m.id].mergeable && held[m.id].sector == sector + n && held[m.id].epoch == epoch
      ensures (forall x :: ok(x)) && m == NoMerge ==>
                forall id :: id in held && held[id].mergeable ==> End(held[id]) != sector
    {
      MergeTells(fn, View(), sector, n, ok, front);
      if last.Some? {
        m := TryMerge(View(), last.value, ok(last.value), sector, n);
        if m != NoMerge { return; }
      }
      var o := RqhashFind(sector);
      if o.Some? && ok(o.value) { return Back(o.value); }
      return if front.Some? then Front(front.value) else NoMerge;
    }

    /** A barrier: the scheduler gives up all it holds, and nothing from before can be found any more. */
    method QueueBarrier()
      requires Valid()
      modifies this
      ensures Valid() && held == map[] && last == None && epoch == old(epoch) + 1
      ensures forall b :: 0 <= b < |hash| ==> hash[b] == []
    {
      while held != map[]
        invariant Valid() && epoch == old(epoch)
        decreases |held|
      {
        var id :| id in held;
        FewerHeld(held, id);
        Dispatch(id);
      }
      EmptyIndex(fn, View());
      epoch := epoch + 1;
    }
  }

  /** `s1` is the index before the two are joined. */
  lemma JoinedEither(fn: nat -> nat, s: Index, s1: Index, id: nat, next: nat, n: nat)
    requires id in s.held && next in s.held && id != next && Inv(fn, s)
    requires s1 == GrownBack(s, id, n) || (n <= s.held[next].sector && s1 == GrownFront(s, next, n))
    ensures Inv(fn, Joined(fn, s1, id, next))
    ensures var s2 := Joined(fn, s1, id, next);
            && s2.held.Keys == s1.held.Keys - {next} && s2.held[id].sector == s1.held[id].sector
            && s2.held[id].size == s1.held[id].size + s1.held[next].size
  {
    if s1 == GrownBack(s, id, n) {
      JoinedBehindKeeps(fn, s, id, n, next);
    } else {
      JoinedInFrontKeeps(fn, s, next, n, id);
    }
  }

  lemma FewerHeld(held: map<nat, Rq>, id: nat)
    requires id in held
    ensures |held - {id}| < |held|
  {
    assert (held - {id}).Keys == held.Keys - {id};
  }

  lemma EmptyIndex(fn: nat -> nat, s: Index)
    requires Inv(fn, s) && s.held == map[]
    ensures s.last == None && forall b :: 0 <= b < |s.hash| ==> s.hash[b] == []
  {
    forall b | 0 <= b < |s.hash| ensures s.hash[b] == [] {
      assert forall x :: x in s.hash[b] ==> x in s.held;
      NoneIn(s.hash[b]);
    }
  }
}
