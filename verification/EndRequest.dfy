// Ending part of a request: bytes are taken off its bios from the front, bios that
// have no bytes left are ended, and the rest is left for the next call.
module EndRequest {
  import opened Common

  const EIO := 5

  /** One piece of memory: address and length. */
  datatype Vec = Vec(addr: int, len: nat)

  /** A bio: pieces before `idx` are done, `size` bytes remain. */
  datatype Bio = Bio(id: nat, vecs: seq<Vec>, idx: nat, size: nat, sector: nat, uptodate: bool)

  /** A bio was ended with this status. */
  datatype End = End(id: nat, err: int)

  /** How many bytes the pieces from `i` on hold. */
  function Sum(vs: seq<Vec>, i: nat): nat
    decreases |vs| - i
  {
    if i >= |vs| then 0 else vs[i].len + Sum(vs, i + 1)
  }

  /** The addresses of the bytes of the pieces from `i` on, in order. */
  function Bytes(vs: seq<Vec>, i: nat): (bs: seq<int>)
    ensures |bs| == Sum(vs, i)
    decreases |vs| - i
  {
    if i >= |vs| then [] else Range(vs[i].addr, vs[i].len) + Bytes(vs, i + 1)
  }

  predicate WellFormed(b: Bio) {
    b.size == Sum(b.vecs, b.idx)
  }

  // ------------------------------------------------------------- the meaning

  /** What is left of a bio. */
  datatype Left = Left(id: nat, bytes: seq<int>, uptodate: bool)

  function ViewOf(b: Bio): Left
    requires WellFormed(b)
  {
    Left(b.id, Bytes(b.vecs, b.idx), b.uptodate)
  }

  predicate AllWellFormed(bios: seq<Bio>) {
    forall i :: 0 <= i < |bios| ==> WellFormed(bios[i])
  }

  function View(bios: seq<Bio>): seq<Left>
    requires AllWellFormed(bios)
  {
    if bios == [] then [] else [ViewOf(bios[0])] + View(bios[1..])
  }

  /** The status a bio is ended with: failure sticks. */
  function Status(uptodate: bool, err: int): int {
    if err != 0 then err else if !uptodate then -EIO else 0
  }

  /** End `n` bytes with status `err`: what is left, and which bios were ended. */
  function Ended(ls: seq<Left>, n: nat, err: int): (seq<Left>, seq<End>)
    decreases |ls|
  {
    if ls == [] then (ls, [])
    else if n < |ls[0].bytes| then
      (if n == 0 then ls
       else [ls[0].(bytes := ls[0].bytes[n..], uptodate := ls[0].uptodate && err == 0)] + ls[1..], [])
    else
      var m, e := n - |ls[0].bytes|, [End(ls[0].id, Status(ls[0].uptodate, err))];
      if m == 0 then (ls[1..], e)
      else var (rest, es) := Ended(ls[1..], m, err); (rest, e + es)
  }

  function AllBytes(ls: seq<Left>): seq<int> {
    if ls == [] then [] else ls[0].bytes + AllBytes(ls[1..])
  }

  /** Exactly the first `n` bytes go, or all of them if there are fewer. */
  lemma {:induction false} EndedTakesFirst(ls: seq<Left>, n: nat, err: int)
    ensures AllBytes(Ended(ls, n, err).0) == if n <= |AllBytes(ls)| then AllBytes(ls)[n..] else []
    decreases |ls|
  {
    if ls != [] {
      if n < |ls[0].bytes| {
        if n > 0 {
          var h := ls[0].(bytes := ls[0].bytes[n..], uptodate := ls[0].uptodate && err == 0);
          assert ([h] + ls[1..])[1..] == ls[1..];
          assert ls[0].bytes[n..] + AllBytes(ls[1..]) == AllBytes(ls)[n..];
        }
      } else {
        EndedTakesFirst(ls[1..], n - |ls[0].bytes|, err);
        assert AllBytes(ls)[|ls[0].bytes|..] == AllBytes(ls[1..]);
      }
    }
  }

  /** No bio but the first is empty. */
  predicate TailNonEmpty(ls: seq<Left>) {
    forall i :: 0 < i < |ls| ==> ls[i].bytes != []
  }

  /** Ending `k` bytes and then `m` is ending `k + m` at once. */
  ghost predicate Splits(ls: seq<Left>, k: nat, m: nat, err: int) {
    var (rest, es) := Ended(ls, k, err);
    var (rest', es') := Ended(rest, m, err);
    Ended(ls, k + m, err) == (rest', es + es')
  }

  lemma SplitsInFirst(ls: seq<Left>, k: nat, m: nat, err: int)
    requires ls != [] && 0 < k < |ls[0].bytes| && 0 < m
    ensures Splits(ls, k, m, err)
  {
    var h := ls[0].(bytes := ls[0].bytes[k..], uptodate := ls[0].uptodate && err == 0);
    var rest := [h] + ls[1..];
    assert rest[1..] == ls[1..] && Ended(ls, k, err) == (rest, []);
    if k + m < |ls[0].bytes| {
      assert ls[0].bytes[k..][m..] == ls[0].bytes[k + m..];
    } else {
      assert Status(h.uptodate, err) == Status(ls[0].uptodate, err);
      assert Ended(rest, m, err) == Ended(ls, k + m, err);
    }
    assert [] + Ended(rest, m, err).1 == Ended(rest, m, err).1;
  }

  /** Ending `k` bytes does not stop right before an empty bio: a call for 0 bytes would end that one. */
  predicate StopsWell(ls: seq<Left>, k: nat)
    decreases |ls|
  {
    || ls == [] || k < |ls[0].bytes|
    || (if k == |ls[0].bytes| then |ls| == 1 || ls[1].bytes != [] else StopsWell(ls[1..], k - |ls[0].bytes|))
  }

  /** When the first bio ends exactly at the cut. */
  lemma SplitsAtEnd(ls: seq<Left>, m: nat, err: int)
    requires ls != []
    ensures Splits(ls, |ls[0].bytes|, m, err) <==> m > 0 || |ls| == 1 || ls[1].bytes != []
  {
    var e := [End(ls[0].id, Status(ls[0].uptodate, err))];
    assert Ended(ls, |ls[0].bytes|, err) == (ls[1..], e);
    if m == 0 {
      if |ls| > 1 && ls[1].bytes == [] {
        assert |Ended(ls[1..], 0, err).0| < |ls[1..]|;
      } else {
        assert Ended(ls[1..], 0, err) == (ls[1..], []);
        assert e + [] == e;
      }
    }
  }

  /** When the cut is behind the first bio, it is a cut in the rest. */
  lemma SplitsBehind(ls: seq<Left>, j: nat, m: nat, err: int)
    requires ls != [] && j > 0
    ensures Splits(ls, |ls[0].bytes| + j, m, err) <==> Splits(ls[1..], j, m, err)
  {
    var e := [End(ls[0].id, Status(ls[0].uptodate, err))];
    var (rest, es) := Ended(ls[1..], j, err);
    var (rest', es') := Ended(rest, m, err);
    var es2 := Ended(ls[1..], j + m, err).1;
    assert e + (es + es') == (e + es) + es';
    assert e + es2 == e + es + es' ==> es2 == (e + es2)[1..] == (e + (es + es'))[1..] == es + es';
  }

  /**
    Ending a request in two parts is ending it at once, except when the second part is 0
    bytes and the first stops right before an empty bio.
   */
  lemma {:induction false} EndedSplits(ls: seq<Left>, k: nat, m: nat, err: int)
    ensures Splits(ls, k, m, err) <==> m > 0 || StopsWell(ls, k)
    decreases |ls|
  {
    if ls == [] {
    } else if k < |ls[0].bytes| {
      if k > 0 && m > 0 {
        SplitsInFirst(ls, k, m, err);
      } else {
        assert [] + Ended(ls, m, err).1 == Ended(ls, m, err).1;
      }
    } else if k == |ls[0].bytes| {
      SplitsAtEnd(ls, m, err);
    } else {
      SplitsBehind(ls, k - |ls[0].bytes|, m, err);
      EndedSplits(ls[1..], k - |ls[0].bytes|, m, err);
    }
  }

  lemma {:induction false} TailStopsWell(ls: seq<Left>, k: nat)
    requires TailNonEmpty(ls)
    ensures StopsWell(ls, k)
    decreases |ls|
  {
    if ls != [] && k > |ls[0].bytes| { TailStopsWell(ls[1..], k - |ls[0].bytes|); }
  }

  lemma {:induction false} EmptyBioStops(ls: seq<Left>, i: nat) returns (k: nat)
    requires 0 < i < |ls| && ls[i].bytes == []
    ensures !StopsWell(ls, k)
    decreases |ls|
  {
    k := |ls[0].bytes|;
    if ls[1].bytes != [] {
      var j := EmptyBioStops(ls[1..], i - 1);
      k := k + j;
    }
  }

  /** So it can be ended in parts wherever it is cut, also into nothing, exactly if no bio but its first is empty. */
  lemma SplitsIffTailNonEmpty(ls: seq<Left>)
    ensures TailNonEmpty(ls) <==> forall k: nat, m: nat, err: int :: Splits(ls, k, m, err)
  {
    if TailNonEmpty(ls) {
      forall k: nat, m: nat, err: int ensures Splits(ls, k, m, err) {
        TailStopsWell(ls, k);
        EndedSplits(ls, k, m, err);
      }
    } else {
      var i :| 0 < i < |ls| && ls[i].bytes == [];
      var k := EmptyBioStops(ls, i);
      EndedSplits(ls, k, 0, 0);
    }
  }

  // --------------------------------------------------------------- the loops

  lemma {:induction false} LaterPieces(vs: seq<Vec>, ws: seq<Vec>, i: nat)
    requires |vs| == |ws| && forall j :: i <= j < |vs| ==> vs[j] == ws[j]
    ensures Bytes(vs, i) == Bytes(ws, i)
    decreases |vs| - i
  {
    if i < |vs| { LaterPieces(vs, ws, i + 1); }
  }

  /** Cutting `n` bytes off the front of piece `i`. */
  lemma CutFront(vs: seq<Vec>, i: nat, n: nat)
    requires i < |vs| && n <= vs[i].len
    ensures Bytes(vs[i := Vec(vs[i].addr + n, vs[i].len - n)], i) == Bytes(vs, i)[n..]
  {
    var ws := vs[i := Vec(vs[i].addr + n, vs[i].len - n)];
    LaterPieces(vs, ws, i + 1);
    assert Bytes(ws, i) == Range(vs[i].addr + n, vs[i].len - n) + Bytes(vs, i + 1);
    DropFirst(vs[i].addr, vs[i].len, n, Bytes(vs, i + 1));
  }

  lemma DropFirst(addr: int, len: nat, n: nat, rest: seq<int>)
    requires n <= len
    ensures (Range(addr, len) + rest)[n..] == Range(addr + n, len - n) + rest
  {
  }

  lemma CutRest(vs: seq<Vec>, i: nat, left: nat, bytes: seq<int>, n: nat)
    requires i < |vs| && left <= vs[i].len && left <= n <= |bytes| && Bytes(vs, i) == bytes[n - left..]
    ensures Bytes(vs[i := Vec(vs[i].addr + left, vs[i].len - left)], i) == bytes[n..]
  {
    CutFront(vs, i, left);
    assert bytes[n - left..][left..] == bytes[n..];
  }

  /** The bio when `n` bytes are done: all before piece `i`, and `left` bytes of piece `i`. */
  function Trimmed(b: Bio, i: nat, left: nat, n: nat, err: int): Bio
    requires i < |b.vecs| && left <= b.vecs[i].len && n <= b.size
  {
    b.(size := b.size - n, sector := b.sector + n / 512, uptodate := b.uptodate && err == 0,
       idx := i, vecs := b.vecs[i := Vec(b.vecs[i].addr + left, b.vecs[i].len - left)])
  }

  lemma TrimmedTells(b: Bio, i: nat, left: nat, n: nat, err: int)
    requires WellFormed(b) && i < |b.vecs| && left <= b.vecs[i].len && left <= n <= b.size
    requires Bytes(b.vecs, i) == Bytes(b.vecs, b.idx)[n - left..]
    ensures var r := Trimmed(b, i, left, n, err);
            WellFormed(r) && ViewOf(r) == Left(b.id, ViewOf(b).bytes[n..], b.uptodate && err == 0)
  {
    CutRest(b.vecs, i, left, Bytes(b.vecs, b.idx), n);
  }

  /** End `n` bytes of a bio that has more than that. */
  method EndPart(b: Bio, n: nat, err: int) returns (r: Bio)
    requires WellFormed(b) && n < b.size
    ensures WellFormed(r) && r.size == b.size - n && r.sector == b.sector + n / 512
    ensures ViewOf(r) == if n == 0 then ViewOf(b)
                         else Left(b.id, ViewOf(b).bytes[n..], b.uptodate && err == 0)
  {
    var i: nat, bytes: nat, left: nat := b.idx, 0, n;
    while true
      invariant i < |b.vecs| && bytes + left == n && Sum(b.vecs, i) == b.size - bytes
      invariant Bytes(b.vecs, i) == Bytes(b.vecs, b.idx)[bytes..]
      decreases |b.vecs| - i
    {
      var v := b.vecs[i];
      if v.len > left { break; }
      i := i + 1;
      bytes := bytes + v.len;
      left := left - v.len;
      if left == 0 { break; }
    }
    TrimmedTells(b, i, left, n, err);
    r := if n == 0 then b else Trimmed(b, i, left, n, err);
  }

  lemma ViewTail(bios: seq<Bio>)
    requires AllWellFormed(bios) && bios != []
    ensures AllWellFormed(bios[1..]) && View(bios)[1..] == View(bios[1..]) && View(bios)[0] == ViewOf(bios[0])
    ensures View(bios) != [] && |ViewOf(bios[0]).bytes| == bios[0].size
  {
  }

  /** A bio is ended whole: what remains to be done, after what was done. */
  lemma PopStep(ls: seq<Left>, n: nat, err: int, ends: seq<End>)
    requires ls != [] && n >= |ls[0].bytes|
    ensures var e := End(ls[0].id, Status(ls[0].uptodate, err));
            var m := n - |ls[0].bytes|;
            var (rest, es) := Ended(ls, n, err);
            if m == 0 then (rest, ends + es) == (ls[1..], ends + [e])
            else (rest, ends + es) == (Ended(ls[1..], m, err).0, (ends + [e]) + Ended(ls[1..], m, err).1)
  {
    var e := End(ls[0].id, Status(ls[0].uptodate, err));
    var es := Ended(ls[1..], n - |ls[0].bytes|, err).1;
    assert ends + ([e] + es) == (ends + [e]) + es;
  }

  /** Having ended bios with `ends`, ending `left` bytes of `bios` finishes the job. */
  ghost predicate ToDo(rq: seq<Bio>, n: nat, err: int, bios: seq<Bio>, left: nat, ends: seq<End>)
    requires AllWellFormed(rq) && AllWellFormed(bios)
  {
    && Ended(View(rq), n, err).0 == Ended(View(bios), left, err).0
    && Ended(View(rq), n, err).1 == ends + Ended(View(bios), left, err).1
  }

  lemma EndWhole(rq: seq<Bio>, n: nat, err: int, bios: seq<Bio>, left: nat, ends: seq<End>)
    requires AllWellFormed(rq) && AllWellFormed(bios) && ToDo(rq, n, err, bios, left, ends)
    requires bios != [] && left >= bios[0].size
    ensures AllWellFormed(bios[1..])
    ensures var rest, e := left - bios[0].size, End(bios[0].id, Status(bios[0].uptodate, err));
            if rest == 0 then Ended(View(rq), n, err) == (View(bios[1..]), ends + [e])
            else ToDo(rq, n, err, bios[1..], rest, ends + [e])
  {
    ViewTail(bios);
    PopStep(View(bios), left, err, ends);
  }

  /** End `n` bytes of a request: `more` tells whether the request is not done. */
  method EndFirst(rq: seq<Bio>, err: int, n: nat) returns (bios: seq<Bio>, ends: seq<End>, more: bool)
    requires AllWellFormed(rq)
    ensures AllWellFormed(bios) && View(bios) == Ended(View(rq), n, err).0 && ends == Ended(View(rq), n, err).1
    ensures more <==> bios != []
    ensures AllBytes(View(bios)) == if n <= |AllBytes(View(rq))| then AllBytes(View(rq))[n..] else []
  {
    bios, ends := rq, [];
    var left: nat := n;
    EndedTakesFirst(View(rq), n, err);
    assert ends + Ended(View(rq), n, err).1 == Ended(View(rq), n, err).1;
    while bios != []
      invariant AllWellFormed(bios) && ToDo(rq, n, err, bios, left, ends)
      decreases |bios|
    {
      var b := bios[0];
      if left < b.size {
        var r := EndPart(b, left, err);
        bios := EndHead(bios, r, left, err);
        assert ends + [] == ends;
        return bios, ends, true;
      }
      EndWhole(rq, n, err, bios, left, ends);
      bios := bios[1..];
      ends := ends + [End(b.id, Status(b.uptodate, err))];
      left := left - b.size;
      if left == 0 { return bios, ends, bios != []; }
    }
    assert ends + [] == ends;
    more := false;
  }

  function EndHead(bios: seq<Bio>, r: Bio, n: nat, err: int): (out: seq<Bio>)
    requires AllWellFormed(bios) && bios != [] && WellFormed(r) && n < bios[0].size
    requires ViewOf(r) == if n == 0 then ViewOf(bios[0])
                          else Left(bios[0].id, ViewOf(bios[0]).bytes[n..], bios[0].uptodate && err == 0)
    ensures AllWellFormed(out) && Ended(View(bios), n, err) == (View(out), []) && out != []
  {
    ViewTail(bios);
    var out := [r] + bios[1..];
    assert out[1..] == bios[1..];
    out
  }
}
