/** What has been done when a walk has come some way through its two lists. */
module WalkProgress {
  import opened BlockModes
  import opened ScatterWalk

  /** The destination has each address once, and the source is the same or nowhere in it. */
  ghost predicate Lists(a: seq<nat>, b: seq<nat>) {
    Distinct(b) && (a == b || forall x :: x in a ==> x !in b)
  }

  /** After `k` bytes: they have been worked on and stored, and nothing else has changed. */
  ghost predicate Progress(p: Coder, iv0: Bytes, v0: Bytes, v: Bytes, a: seq<nat>, b: seq<nat>, k: nat, iv: Bytes) {
    && Lists(a, b) && InMemory(v0, a) && k <= |a| && k <= |b| && Whole(p.size, k) && p.IsIv(iv)
    && iv == ChainIv(p, iv0, Read(v0, a[..k]))
    && Wrote(v0, v, b[..k], Chain(p, iv0, Read(v0, a[..k])))
  }

  /** What is ahead has not been overwritten. */
  lemma InputIntact(v0: Bytes, v: Bytes, a: seq<nat>, b: seq<nat>, k: nat, n: nat, bytes: Bytes)
    requires Lists(a, b) && InMemory(v0, a) && k <= |b| && k + n <= |a| && Wrote(v0, v, b[..k], bytes)
    ensures InMemory(v, a) && Read(v, a[k..k + n]) == Read(v0, a[k..k + n])
  {
    var ahead := a[k..k + n];
    forall i | 0 <= i < n ensures v[ahead[i]] == v0[ahead[i]] {
      assert ahead[i] in a;
      if a == b {
        assert b == b[..k] + b[k..];
        DistinctSplits(b[..k], b[k..]);
        assert ahead[i] == b[k..][i];
      }
      assert ahead[i] !in b[..k];
    }
  }

  lemma ChunkChain(p: Coder, iv0: Bytes, v0: Bytes, a: seq<nat>, k: nat, n: nat, iv: Bytes)
    requires p.size > 0 && Whole(p.size, k) && k + n <= |a| && InMemory(v0, a)
    requires iv == ChainIv(p, iv0, Read(v0, a[..k]))
    ensures var x, y := Read(v0, a[..k]), Read(v0, a[k..k + n]);
            && Chain(p, iv0, Read(v0, a[..k + n])) == Chain(p, iv0, x) + Chain(p, iv, y)
            && ChainIv(p, iv0, Read(v0, a[..k + n])) == ChainIv(p, iv, y)
  {
    var x, y := Read(v0, a[..k]), Read(v0, a[k..k + n]);
    assert a[..k + n] == a[..k] + a[k..k + n];
    ReadJoins(v0, a[..k], a[k..k + n]);
    ChainSplits(p, iv0, x, y);
  }

  lemma ChunkWrote(v0: Bytes, v: Bytes, v': Bytes, b: seq<nat>, k: nat, n: nat, x: Bytes, y: Bytes)
    requires Distinct(b) && k + n <= |b| && Wrote(v0, v, b[..k], x) && Wrote(v, v', b[k..k + n], y)
    ensures Wrote(v0, v', b[..k + n], x + y)
  {
    assert b[..k + n] == b[..k] + b[k..k + n];
    assert b == b[..k + n] + b[k + n..];
    DistinctSplits(b[..k + n], b[k + n..]);
    WroteMore(v0, v, v', b[..k], b[k..k + n], x, y);
  }

  /** One chunk more. */
  lemma ProgressGrows(p: Coder, iv0: Bytes, v0: Bytes, v: Bytes, v': Bytes, a: seq<nat>, b: seq<nat>, k: nat, n: nat, iv: Bytes)
    requires Good(p) && p.IsIv(iv0) && Progress(p, iv0, v0, v, a, b, k, iv) && Whole(p.size, n)
    requires k + n <= |a| && k + n <= |b| && InMemory(v, a)
    requires Wrote(v, v', b[k..k + n], Chain(p, iv, Read(v, a[k..k + n])))
    ensures Progress(p, iv0, v0, v', a, b, k + n, ChainIv(p, iv, Read(v, a[k..k + n])))
  {
    var x, y := Read(v0, a[..k]), Read(v0, a[k..k + n]);
    InputIntact(v0, v, a, b, k, n, Chain(p, iv0, x));
    ChunkChain(p, iv0, v0, a, k, n, iv);
    WholeAdds(p.size, k, n);
    ChainLength(p, iv, y);
    ChunkWrote(v0, v, v', b, k, n, Chain(p, iv0, x), Chain(p, iv, y));
  }
}
