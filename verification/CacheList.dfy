/** The doubly linked list of kernel/bio.c through prev and next indices; HEAD is the list head.
    `order` is the list from head.next on. */
module CacheList {
  import opened Counting

  const NBUF: nat := 30
  const HEAD: nat := NBUF

  /** Node k of the circle: the head is both the first and the last. */
  function At(l: seq<nat>, k: nat): nat { if 1 <= k <= |l| then l[k - 1] else HEAD }

  /** Nodes k and k + 1 point to each other. */
  predicate Link(prev: seq<nat>, next: seq<nat>, l: seq<nat>, k: nat) {
    && At(l, k) < |next| && At(l, k + 1) < |prev|
    && next[At(l, k)] == At(l, k + 1) && prev[At(l, k + 1)] == At(l, k)
  }

  ghost predicate Links(prev: seq<nat>, next: seq<nat>, l: seq<nat>) {
    && |prev| == |next| == NBUF + 1
    && forall k: nat {:trigger Link(prev, next, l, k)} :: k <= |l| ==> Link(prev, next, l, k)
  }

  function Without(l: seq<nat>, p: nat): seq<nat>
    requires p < |l|
  {
    l[..p] + l[p + 1..]
  }

  /** b->next->prev = b->prev; b->prev->next = b->next */
  lemma Unlink(prev: seq<nat>, next: seq<nat>, l: seq<nat>, p: nat)
    requires Links(prev, next, l) && Indices(l, NBUF) && p < |l|
    ensures l[p] < NBUF && next[l[p]] < |prev| && prev[l[p]] < |next|
    ensures Links(prev[next[l[p]] := prev[l[p]]], next[prev[l[p]] := next[l[p]]], Without(l, p)) &&
            Indices(Without(l, p), NBUF)
  {
    var b, m := l[p], Without(l, p);
    assert Link(prev, next, l, p) && Link(prev, next, l, p + 1);
    var prev', next' := prev[next[b] := prev[b]], next[prev[b] := next[b]];
    forall k: nat | k <= |m| ensures Link(prev', next', m, k) {
      if k < p {
        assert Link(prev, next, l, k);
        SamePlace(l, p, k);
      } else if k > p {
        assert Link(prev, next, l, k + 1);
        SamePlace(l, p, k);
      }
    }
  }

  /** Away from the gap both ends of a link are different from the ends of the gap. */
  lemma SamePlace(l: seq<nat>, p: nat, k: nat)
    requires Indices(l, NBUF) && p < |l| && k < |l| && k != p
    ensures At(Without(l, p), k) == At(l, if k < p + 1 then k else k + 1)
    ensures At(Without(l, p), k + 1) == At(l, if k + 1 < p + 1 then k + 1 else k + 2)
    ensures At(Without(l, p), k) != At(l, p) && At(Without(l, p), k + 1) != At(l, p + 2)
  {
  }

  /** b->next = head.next; b->prev = head; head.next->prev = b; head.next = b */
  lemma Push(prev: seq<nat>, next: seq<nat>, l: seq<nat>, b: nat)
    requires Links(prev, next, l) && Indices(l, NBUF) && b < NBUF && b !in l
    ensures next[HEAD] <= NBUF && Indices([b] + l, NBUF)
    ensures Links(prev[b := HEAD][next[HEAD] := b], next[b := next[HEAD]][HEAD := b], [b] + l)
  {
    var m := [b] + l;
    assert Link(prev, next, l, 0);
    var prev', next' := prev[b := HEAD][next[HEAD] := b], next[b := next[HEAD]][HEAD := b];
    forall k: nat | k <= |m| ensures Link(prev', next', m, k) {
      if k >= 2 { assert Link(prev, next, l, k - 1); }
    }
  }
}
