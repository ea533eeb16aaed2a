/** Request/response matching over a request queue, a row of servers and a response queue:
    every waiting client has exactly one message in one of the three places, and nobody else has any. */
module Channels {
  import opened Sequences

  function Tokens<Q, H, R>(kq: Q -> int, q: seq<Q>, kh: H -> int, h: seq<H>, kr: R -> int, r: seq<R>, id: int): int {
    Count(kq, q, id) + Count(kh, h, id) + Count(kr, r, id)
  }

  /** Client i is known to the messages as i + 1. */
  predicate Matched<P, Q, H, R>(waits: P -> bool, ps: seq<P>, kq: Q -> int, q: seq<Q>,
                                kh: H -> int, h: seq<H>, kr: R -> int, r: seq<R>) {
    forall i :: 0 <= i < |ps| ==> MatchedAt(waits, ps, kq, q, kh, h, kr, r, i)
  }

  predicate MatchedAt<P, Q, H, R>(waits: P -> bool, ps: seq<P>, kq: Q -> int, q: seq<Q>,
                                  kh: H -> int, h: seq<H>, kr: R -> int, r: seq<R>, i: int)
    requires 0 <= i < |ps|
  {
    Tokens(kq, q, kh, h, kr, r, i + 1) == (if waits(ps[i]) then 1 else 0)
  }

  predicate NoneIn<T>(key: T -> int, s: seq<T>, id: int) {
    forall k :: 0 <= k < |s| ==> key(s[k]) != id
  }

  predicate OnlyIn<T>(key: T -> int, s: seq<T>, id: int, at: int) {
    forall k :: 0 <= k < |s| && k != at ==> key(s[k]) != id
  }

  lemma NoneWhenZero<T>(key: T -> int, s: seq<T>, id: int)
    requires Count(key, s, id) == 0
    ensures NoneIn(key, s, id)
  {
    CountIff(key, s, id);
  }

  lemma OnlyWhenOne<T>(key: T -> int, s: seq<T>, id: int, at: nat)
    requires at < |s| && key(s[at]) == id && Count(key, s, id) <= 1
    ensures Count(key, s, id) == 1 && OnlyIn(key, s, id, at)
  {
    CountIff(key, s, id);
    forall k | 0 <= k < |s| && k != at ensures key(s[k]) != id {
      if key(s[k]) == id {
        if k < at { CountTwo(key, s, k, at, id); } else { CountTwo(key, s, at, k, id); }
      }
    }
  }

  /** A client that waits for nothing is named by no message. */
  lemma Silent<P, Q, H, R>(waits: P -> bool, ps: seq<P>, kq: Q -> int, q: seq<Q>,
                           kh: H -> int, h: seq<H>, kr: R -> int, r: seq<R>, i: nat)
    requires Matched(waits, ps, kq, q, kh, h, kr, r) && i < |ps| && !waits(ps[i])
    ensures NoneIn(kq, q, i + 1) && NoneIn(kh, h, i + 1) && NoneIn(kr, r, i + 1)
  {
    assert MatchedAt(waits, ps, kq, q, kh, h, kr, r, i);
    NoneWhenZero(kq, q, i + 1);
    NoneWhenZero(kh, h, i + 1);
    NoneWhenZero(kr, r, i + 1);
  }

  /** The message a server holds is its client's only one. */
  lemma HeldAlone<P, Q, H, R>(waits: P -> bool, ps: seq<P>, kq: Q -> int, q: seq<Q>,
                              kh: H -> int, h: seq<H>, kr: R -> int, r: seq<R>, i: nat, g: nat)
    requires Matched(waits, ps, kq, q, kh, h, kr, r) && i < |ps| && g < |h| && kh(h[g]) == i + 1
    ensures waits(ps[i]) && NoneIn(kq, q, i + 1) && OnlyIn(kh, h, i + 1, g) && NoneIn(kr, r, i + 1)
  {
    CountIff(kh, h, i + 1);
    assert MatchedAt(waits, ps, kq, q, kh, h, kr, r, i);
    OnlyWhenOne(kh, h, i + 1, g);
    NoneWhenZero(kq, q, i + 1);
    NoneWhenZero(kr, r, i + 1);
  }

  /** An answer in the response queue is its client's only message. */
  lemma AnsweredAlone<P, Q, H, R>(waits: P -> bool, ps: seq<P>, kq: Q -> int, q: seq<Q>,
                                  kh: H -> int, h: seq<H>, kr: R -> int, r: seq<R>, i: nat, k: nat)
    requires Matched(waits, ps, kq, q, kh, h, kr, r) && i < |ps| && k < |r| && kr(r[k]) == i + 1
    ensures waits(ps[i]) && NoneIn(kq, q, i + 1) && NoneIn(kh, h, i + 1) && OnlyIn(kr, r, i + 1, k)
  {
    CountIff(kr, r, i + 1);
    assert MatchedAt(waits, ps, kq, q, kh, h, kr, r, i);
    OnlyWhenOne(kr, r, i + 1, k);
    NoneWhenZero(kq, q, i + 1);
    NoneWhenZero(kh, h, i + 1);
  }

  lemma ClientMoves<P, Q, H, R>(waits: P -> bool, ps: seq<P>, kq: Q -> int, q: seq<Q>,
                                kh: H -> int, h: seq<H>, kr: R -> int, r: seq<R>, i: nat, p': P)
    requires Matched(waits, ps, kq, q, kh, h, kr, r) && i < |ps| && waits(ps[i]) == waits(p')
    ensures Matched(waits, ps[i := p'], kq, q, kh, h, kr, r)
  {
    var ps' := ps[i := p'];
    forall j | 0 <= j < |ps| ensures MatchedAt(waits, ps', kq, q, kh, h, kr, r, j) {
      assert MatchedAt(waits, ps, kq, q, kh, h, kr, r, j);
    }
  }

  lemma ClientSends<P, Q, H, R>(waits: P -> bool, ps: seq<P>, kq: Q -> int, q: seq<Q>,
                                kh: H -> int, h: seq<H>, kr: R -> int, r: seq<R>, i: nat, p': P, m: Q)
    requires Matched(waits, ps, kq, q, kh, h, kr, r) && i < |ps| && !waits(ps[i]) && waits(p') && kq(m) == i + 1
    ensures Matched(waits, ps[i := p'], kq, q + [m], kh, h, kr, r)
  {
    var ps' := ps[i := p'];
    var q' := q + [m];
    forall j | 0 <= j < |ps|
      ensures MatchedAt(waits, ps', kq, q', kh, h, kr, r, j)
    {
      CountAppend(kq, q, m, j + 1);
      assert MatchedAt(waits, ps, kq, q, kh, h, kr, r, j);
    }
  }

  lemma ServerTakes<P, Q, H, R>(waits: P -> bool, ps: seq<P>, kq: Q -> int, q: seq<Q>,
                                kh: H -> int, h: seq<H>, kr: R -> int, r: seq<R>, k: nat, g: nat, h': H)
    requires Matched(waits, ps, kq, q, kh, h, kr, r)
    requires k < |q| && g < |h| && kh(h[g]) == 0 && kh(h') == kq(q[k])
    ensures Matched(waits, ps, kq, RemoveAt(q, k), kh, h[g := h'], kr, r)
  {
    var servers := h[g := h'];
    var q' := RemoveAt(q, k);
    forall j | 0 <= j < |ps|
      ensures MatchedAt(waits, ps, kq, q', kh, servers, kr, r, j)
    {
      CountRemove(kq, q, k, j + 1);
      CountUpdate(kh, h, g, h', j + 1);
      assert MatchedAt(waits, ps, kq, q, kh, h, kr, r, j);
    }
  }

  lemma ServerWorks<P, Q, H, R>(waits: P -> bool, ps: seq<P>, kq: Q -> int, q: seq<Q>,
                                kh: H -> int, h: seq<H>, kr: R -> int, r: seq<R>, g: nat, h': H)
    requires Matched(waits, ps, kq, q, kh, h, kr, r) && g < |h| && kh(h[g]) == kh(h')
    ensures Matched(waits, ps, kq, q, kh, h[g := h'], kr, r)
  {
    var servers := h[g := h'];
    forall j | 0 <= j < |ps|
      ensures MatchedAt(waits, ps, kq, q, kh, servers, kr, r, j)
    {
      CountUpdate(kh, h, g, h', j + 1);
      assert MatchedAt(waits, ps, kq, q, kh, h, kr, r, j);
    }
  }

  lemma ServerAnswers<P, Q, H, R>(waits: P -> bool, ps: seq<P>, kq: Q -> int, q: seq<Q>,
                                  kh: H -> int, h: seq<H>, kr: R -> int, r: seq<R>, g: nat, h': H, m: R)
    requires Matched(waits, ps, kq, q, kh, h, kr, r) && g < |h| && kh(h[g]) == kr(m) && kh(h') == 0
    ensures Matched(waits, ps, kq, q, kh, h[g := h'], kr, r + [m])
  {
    var servers := h[g := h'];
    var r' := r + [m];
    forall j | 0 <= j < |ps|
      ensures MatchedAt(waits, ps, kq, q, kh, servers, kr, r', j)
    {
      CountUpdate(kh, h, g, h', j + 1);
      CountAppend(kr, r, m, j + 1);
      assert MatchedAt(waits, ps, kq, q, kh, h, kr, r, j);
    }
  }

  lemma ClientReceives<P, Q, H, R>(waits: P -> bool, ps: seq<P>, kq: Q -> int, q: seq<Q>,
                                   kh: H -> int, h: seq<H>, kr: R -> int, r: seq<R>, i: nat, p': P, k: nat)
    requires Matched(waits, ps, kq, q, kh, h, kr, r)
    requires i < |ps| && k < |r| && kr(r[k]) == i + 1 && waits(ps[i]) && !waits(p')
    ensures Matched(waits, ps[i := p'], kq, q, kh, h, kr, RemoveAt(r, k))
  {
    var ps' := ps[i := p'];
    var r' := RemoveAt(r, k);
    forall j | 0 <= j < |ps|
      ensures MatchedAt(waits, ps', kq, q, kh, h, kr, r', j)
    {
      CountRemove(kr, r, k, j + 1);
      assert MatchedAt(waits, ps, kq, q, kh, h, kr, r, j);
    }
  }

  lemma ServersAlike<P, Q, H, R>(waits: P -> bool, ps: seq<P>, kq: Q -> int, q: seq<Q>,
                                 kh: H -> int, h: seq<H>, kr: R -> int, r: seq<R>, h': seq<H>)
    requires Matched(waits, ps, kq, q, kh, h, kr, r)
    requires |h'| == |h| && forall g :: 0 <= g < |h| ==> kh(h'[g]) == kh(h[g])
    ensures Matched(waits, ps, kq, q, kh, h', kr, r)
  {
    forall j | 0 <= j < |ps| ensures MatchedAt(waits, ps, kq, q, kh, h', kr, r, j) {
      CountPointwise(kh, kh, h', h, j + 1);
      assert MatchedAt(waits, ps, kq, q, kh, h, kr, r, j);
    }
  }
}
