/**
  The closure traversal shared by `TripleStore` and `TripleStoreAPI`
  (`yield_triples_found_by_subject`, `get_all_related_triples`). The Python
  generators become functions returning the sequence they yield, over a graph
  given as the sequence rdflib's `triples((n, None, None))` walks.

  The source has no cycle guard: a blank node reachable from itself, or a cycle
  along a followed predicate, makes the generators recurse forever. The model
  states that as a precondition: a rank on nodes that strictly decreases along
  every edge the traversal follows (`Ranked`).
 */
module TripleClosure {
  import opened Rdf

  /** The triples of `g` whose subject is `n`, in `g`'s order. */
  function Matching(g: seq<Triple>, n: Node): (r: seq<Triple>)
    ensures forall t :: t in r <==> t in g && t.s == n
    decreases |g|
  {
    if |g| == 0 then [] else (if g[0].s == n then [g[0]] else []) + Matching(g[1..], n)
  }

  /** An edge the traversal goes down: its object is a blank node, or its predicate is one of `rel`. */
  predicate Followed(t: Triple, rel: seq<Node>) {
    t.o.BNode? || t.p in rel
  }

  /** `rank` strictly decreases along every followed edge of `g`, so `g` has no followed cycle. */
  ghost predicate Ranked(g: seq<Triple>, rel: seq<Node>, rank: Node -> nat) {
    forall t :: t in g && Followed(t, rel) ==> rank(t.o) < rank(t.s)
  }

  /** A cycle along followed edges leaves no rank, so `Ranked` excludes every graph that has one. */
  lemma CycleHasNoRank(g: seq<Triple>, rel: seq<Node>, rank: Node -> nat, t: Triple)
    requires t in g && Followed(t, rel) && t.o == t.s
    ensures !Ranked(g, rel, rank)
  {
  }

  lemma RankedWithoutRelations(g: seq<Triple>, rel: seq<Node>, rank: Node -> nat)
    requires Ranked(g, rel, rank)
    ensures Ranked(g, [], rank)
  {
  }

  /**
    `yield_triples_found_by_subject(n)`: every triple with subject `n`, each
    followed at once by the closure of its object when that object is a blank node.
   */
  function SubjectClosure(g: seq<Triple>, n: Node, rank: Node -> nat): (r: seq<Triple>)
    requires Ranked(g, [], rank)
    ensures forall t :: t in r ==> t in g && rank(t.s) <= rank(n)
    ensures |r| > 0 <==> exists t :: t in g && t.s == n
    decreases rank(n), 1, 0
  {
    Expand(g, Matching(g, n), n, rank)
  }

  /** The loop body of `yield_triples_found_by_subject` over the matching triples `ts`. */
  function Expand(g: seq<Triple>, ts: seq<Triple>, n: Node, rank: Node -> nat): (r: seq<Triple>)
    requires Ranked(g, [], rank)
    requires forall t :: t in ts ==> t in g && t.s == n
    ensures forall t :: t in r ==> t in g && rank(t.s) <= rank(n)
    ensures |r| > 0 <==> |ts| > 0
    decreases rank(n), 0, |ts|
  {
    if |ts| == 0 then []
    else
      [ts[0]]
      + (if ts[0].o.BNode? then SubjectClosure(g, ts[0].o, rank) else [])
      + Expand(g, ts[1..], n, rank)
  }

  /** `also_get`: the object of every triple of `c` whose predicate is in `rel`, in order. */
  function Objects(c: seq<Triple>, rel: seq<Node>): (r: seq<Node>)
    ensures forall o :: o in r <==> exists t :: t in c && t.p in rel && t.o == o
    decreases |c|
  {
    if |c| == 0 then []
    else
      var rest := Objects(c[1..], rel);
      assert forall t :: t in c[1..] ==> t in c;
      (if c[0].p in rel then [c[0].o] else []) + rest
  }

  /**
    `get_all_related_triples(n, rel)`: the subject closure of `n`, then, for
    each object collected along it through a predicate of `rel`, that object's
    related triples, in collection order.
   */
  function Related(g: seq<Triple>, n: Node, rel: seq<Node>, rank: Node -> nat): (r: seq<Triple>)
    requires Ranked(g, rel, rank)
    decreases rank(n), 1, 0
  {
    RankedWithoutRelations(g, rel, rank);
    var c := SubjectClosure(g, n, rank);
    c + RelatedEach(g, Objects(c, rel), rel, rank, rank(n))
  }

  /** The final loop of `get_all_related_triples`, over the collected objects `also`. */
  function RelatedEach(g: seq<Triple>, also: seq<Node>, rel: seq<Node>, rank: Node -> nat, bound: nat): seq<Triple>
    requires Ranked(g, rel, rank)
    requires forall o :: o in also ==> rank(o) < bound
    decreases bound, 0, |also|
  {
    if |also| == 0 then []
    else Related(g, also[0], rel, rank) + RelatedEach(g, also[1..], rel, rank, bound)
  }

  // ---------------------------------------------------------------- reachability

  /** A chain of triples of `g`, each step going down a followed edge to the next triple's subject. */
  ghost predicate IsPath(g: seq<Triple>, rel: seq<Node>, p: seq<Triple>) {
    && |p| > 0
    && (forall i :: 0 <= i < |p| ==> p[i] in g)
    && (forall i :: 0 <= i < |p| - 1 ==> Followed(p[i], rel) && p[i + 1].s == p[i].o)
  }

  /** `t` is reached from `n`: a path starts at `n` and ends in `t`. */
  ghost predicate Reaches(g: seq<Triple>, rel: seq<Node>, n: Node, t: Triple) {
    exists p: seq<Triple> :: IsPath(g, rel, p) && p[0].s == n && p[|p| - 1] == t
  }

  lemma PathCons(g: seq<Triple>, rel: seq<Node>, t: Triple, p: seq<Triple>)
    requires t in g && Followed(t, rel)
    requires IsPath(g, rel, p) && p[0].s == t.o
    ensures IsPath(g, rel, [t] + p)
  {
    var q := [t] + p;
    forall i | 0 <= i < |q| - 1
      ensures Followed(q[i], rel) && q[i + 1].s == q[i].o
    {
      if i > 0 {
        assert q[i] == p[i - 1] && q[i + 1] == p[i];
      }
    }
  }

  lemma PathAppend(g: seq<Triple>, rel: seq<Node>, p: seq<Triple>, q: seq<Triple>)
    requires IsPath(g, rel, p) && IsPath(g, rel, q)
    requires Followed(p[|p| - 1], rel) && q[0].s == p[|p| - 1].o
    ensures IsPath(g, rel, p + q)
  {
    var r := p + q;
    forall i | 0 <= i < |r|
      ensures r[i] in g
    {
      if i < |p| {
        assert r[i] == p[i];
      } else {
        assert r[i] == q[i - |p|];
      }
    }
    forall i | 0 <= i < |r| - 1
      ensures Followed(r[i], rel) && r[i + 1].s == r[i].o
    {
      if i < |p| - 1 {
        assert r[i] == p[i] && r[i + 1] == p[i + 1];
      } else if i == |p| - 1 {
        assert r[i] == p[|p| - 1] && r[i + 1] == q[0];
      } else {
        assert r[i] == q[i - |p|] && r[i + 1] == q[i - |p| + 1];
      }
    }
  }

  lemma PathWidens(g: seq<Triple>, rel: seq<Node>, p: seq<Triple>)
    requires IsPath(g, [], p)
    ensures IsPath(g, rel, p)
  {
  }

  // ---------------------------------------------------------------- subject closure

  lemma {:induction false} ExpandContains(g: seq<Triple>, ts: seq<Triple>, n: Node, rank: Node -> nat, x: Triple, t: Triple)
    requires Ranked(g, [], rank)
    requires forall u :: u in ts ==> u in g && u.s == n
    requires x in ts
    requires t == x || (x.o.BNode? && t in SubjectClosure(g, x.o, rank))
    ensures t in Expand(g, ts, n, rank)
    decreases |ts|
  {
    if ts[0] != x {
      assert x in ts[1..];
      ExpandContains(g, ts[1..], n, rank, x, t);
    }
  }

  /** Whatever `yield_triples_found_by_subject(n)` yields is reached from `n` through blank nodes. */
  lemma {:induction false} SubjectClosureSound(g: seq<Triple>, n: Node, rank: Node -> nat, t: Triple)
    requires Ranked(g, [], rank)
    requires t in SubjectClosure(g, n, rank)
    ensures Reaches(g, [], n, t)
    decreases rank(n), 1, 0
  {
    ExpandSound(g, Matching(g, n), n, rank, t);
  }

  lemma {:induction false} ExpandSound(g: seq<Triple>, ts: seq<Triple>, n: Node, rank: Node -> nat, t: Triple)
    requires Ranked(g, [], rank)
    requires forall u :: u in ts ==> u in g && u.s == n
    requires t in Expand(g, ts, n, rank)
    ensures Reaches(g, [], n, t)
    decreases rank(n), 0, |ts|
  {
    var x := ts[0];
    var inner := if x.o.BNode? then SubjectClosure(g, x.o, rank) else [];
    assert Expand(g, ts, n, rank) == [x] + inner + Expand(g, ts[1..], n, rank);
    if t == x {
      assert IsPath(g, [], [x]);
    } else if t in inner {
      SubjectClosureSound(g, x.o, rank, t);
      var p: seq<Triple> :| IsPath(g, [], p) && p[0].s == x.o && p[|p| - 1] == t;
      PathCons(g, [], x, p);
      assert ([x] + p)[|[x] + p| - 1] == t;
    } else {
      ExpandSound(g, ts[1..], n, rank, t);
    }
  }

  /** Everything reached from `n` through blank nodes is yielded by `yield_triples_found_by_subject(n)`. */
  lemma {:induction false} SubjectClosureComplete(g: seq<Triple>, n: Node, rank: Node -> nat, p: seq<Triple>)
    requires Ranked(g, [], rank)
    requires IsPath(g, [], p) && p[0].s == n
    ensures p[|p| - 1] in SubjectClosure(g, n, rank)
    decreases |p|
  {
    var x := p[0];
    if |p| == 1 {
      ExpandContains(g, Matching(g, n), n, rank, x, x);
    } else {
      var rest := p[1..];
      assert IsPath(g, [], rest) by {
        assert forall i :: 0 <= i < |rest| ==> rest[i] == p[i + 1];
      }
      SubjectClosureComplete(g, x.o, rank, rest);
      ExpandContains(g, Matching(g, n), n, rank, x, p[|p| - 1]);
    }
  }

  /** The subject closure, stated without the traversal: exactly the triples reached through blank nodes. */
  lemma SubjectClosureIsReachability(g: seq<Triple>, n: Node, rank: Node -> nat, t: Triple)
    requires Ranked(g, [], rank)
    ensures t in SubjectClosure(g, n, rank) <==> Reaches(g, [], n, t)
  {
    if t in SubjectClosure(g, n, rank) {
      SubjectClosureSound(g, n, rank, t);
    }
    if Reaches(g, [], n, t) {
      var p: seq<Triple> :| IsPath(g, [], p) && p[0].s == n && p[|p| - 1] == t;
      SubjectClosureComplete(g, n, rank, p);
    }
  }

  // ---------------------------------------------------------------- related triples

  lemma {:induction false} RelatedEachMember(g: seq<Triple>, also: seq<Node>, rel: seq<Node>, rank: Node -> nat, bound: nat, t: Triple)
    returns (k: nat)
    requires Ranked(g, rel, rank)
    requires forall o :: o in also ==> rank(o) < bound
    requires t in RelatedEach(g, also, rel, rank, bound)
    ensures k < |also| && t in Related(g, also[k], rel, rank)
    decreases |also|
  {
    if t in Related(g, also[0], rel, rank) {
      k := 0;
    } else {
      var k' := RelatedEachMember(g, also[1..], rel, rank, bound, t);
      k := k' + 1;
    }
  }

  lemma {:induction false} RelatedEachContains(g: seq<Triple>, also: seq<Node>, rel: seq<Node>, rank: Node -> nat, bound: nat, o: Node, t: Triple)
    requires Ranked(g, rel, rank)
    requires forall o' :: o' in also ==> rank(o') < bound
    requires o in also && t in Related(g, o, rel, rank)
    ensures t in RelatedEach(g, also, rel, rank, bound)
    decreases |also|
  {
    if also[0] != o {
      assert o in also[1..];
      RelatedEachContains(g, also[1..], rel, rank, bound, o, t);
    }
  }

  lemma RelatedUnfold(g: seq<Triple>, n: Node, rel: seq<Node>, rank: Node -> nat)
    requires Ranked(g, rel, rank)
    ensures Ranked(g, [], rank)
    ensures Related(g, n, rel, rank)
      == SubjectClosure(g, n, rank) + RelatedEach(g, Objects(SubjectClosure(g, n, rank), rel), rel, rank, rank(n))
  {
    RankedWithoutRelations(g, rel, rank);
  }

  /** Two paths joined at a followed edge make one. */
  lemma ReachesThrough(g: seq<Triple>, rel: seq<Node>, n: Node, u: Triple, t: Triple)
    requires Reaches(g, [], n, u) && u.p in rel
    requires Reaches(g, rel, u.o, t)
    ensures Reaches(g, rel, n, t)
  {
    var p: seq<Triple> :| IsPath(g, [], p) && p[0].s == n && p[|p| - 1] == u;
    var q: seq<Triple> :| IsPath(g, rel, q) && q[0].s == u.o && q[|q| - 1] == t;
    PathWidens(g, rel, p);
    PathAppend(g, rel, p, q);
    assert (p + q)[0] == p[0] && (p + q)[|p + q| - 1] == q[|q| - 1];
  }

  lemma ReachesWidens(g: seq<Triple>, rel: seq<Node>, n: Node, t: Triple)
    requires Reaches(g, [], n, t)
    ensures Reaches(g, rel, n, t)
  {
    var p: seq<Triple> :| IsPath(g, [], p) && p[0].s == n && p[|p| - 1] == t;
    PathWidens(g, rel, p);
  }

  /** Whatever `get_all_related_triples(n, rel)` yields is reached from `n` along followed edges. */
  lemma {:induction false} RelatedSound(g: seq<Triple>, n: Node, rel: seq<Node>, rank: Node -> nat, t: Triple)
    requires Ranked(g, rel, rank)
    requires t in Related(g, n, rel, rank)
    ensures Reaches(g, rel, n, t)
    decreases rank(n)
  {
    RelatedUnfold(g, n, rel, rank);
    var c := SubjectClosure(g, n, rank);
    var also := Objects(c, rel);
    if t in c {
      SubjectClosureSound(g, n, rank, t);
      ReachesWidens(g, rel, n, t);
    } else {
      var k := RelatedEachMember(g, also, rel, rank, rank(n), t);
      var o := also[k];
      var u :| u in c && u.p in rel && u.o == o;
      RelatedSound(g, o, rel, rank, t);
      SubjectClosureSound(g, n, rank, u);
      ReachesThrough(g, rel, n, u, t);
    }
  }

  /** Every object collected along the closure of `n` ranks below `n`. */
  lemma ObjectsRankBelow(g: seq<Triple>, n: Node, rel: seq<Node>, rank: Node -> nat)
    requires Ranked(g, rel, rank)
    ensures Ranked(g, [], rank)
    ensures forall o :: o in Objects(SubjectClosure(g, n, rank), rel) ==> rank(o) < rank(n)
  {
    RankedWithoutRelations(g, rel, rank);
    var c := SubjectClosure(g, n, rank);
    forall o | o in Objects(c, rel)
      ensures rank(o) < rank(n)
    {
      var u :| u in c && u.p in rel && u.o == o;
      assert Followed(u, rel);
    }
  }

  /** An object collected along the closure of a blank object of `n` is collected along the closure of `n`. */
  lemma ObjectThroughBlank(g: seq<Triple>, n: Node, rel: seq<Node>, rank: Node -> nat, x: Triple, o: Node)
    requires Ranked(g, [], rank)
    requires x in g && x.s == n && x.o.BNode?
    requires o in Objects(SubjectClosure(g, x.o, rank), rel)
    ensures o in Objects(SubjectClosure(g, n, rank), rel)
  {
    var u :| u in SubjectClosure(g, x.o, rank) && u.p in rel && u.o == o;
    ExpandContains(g, Matching(g, n), n, rank, x, u);
  }

  /** Going down a blank-node edge out of `n` loses nothing: what the blank node relates to, `n` relates to. */
  lemma RelatedThroughBlank(g: seq<Triple>, n: Node, rel: seq<Node>, rank: Node -> nat, x: Triple, t: Triple)
    requires Ranked(g, rel, rank)
    requires x in g && x.s == n && x.o.BNode?
    requires t in Related(g, x.o, rel, rank)
    ensures t in Related(g, n, rel, rank)
  {
    RelatedUnfold(g, n, rel, rank);
    RelatedUnfold(g, x.o, rel, rank);
    ObjectsRankBelow(g, n, rel, rank);
    ObjectsRankBelow(g, x.o, rel, rank);
    var cb := SubjectClosure(g, x.o, rank);
    if t in cb {
      ExpandContains(g, Matching(g, n), n, rank, x, t);
    } else {
      var alsoB := Objects(cb, rel);
      var k := RelatedEachMember(g, alsoB, rel, rank, rank(x.o), t);
      ObjectThroughBlank(g, n, rel, rank, x, alsoB[k]);
      RelatedEachContains(g, Objects(SubjectClosure(g, n, rank), rel), rel, rank, rank(n), alsoB[k], t);
    }
  }

  /** Everything reached from `n` along followed edges is yielded by `get_all_related_triples(n, rel)`. */
  lemma {:induction false} RelatedComplete(g: seq<Triple>, n: Node, rel: seq<Node>, rank: Node -> nat, p: seq<Triple>)
    requires Ranked(g, rel, rank)
    requires IsPath(g, rel, p) && p[0].s == n
    ensures p[|p| - 1] in Related(g, n, rel, rank)
    decreases |p|
  {
    RankedWithoutRelations(g, rel, rank);
    var x := p[0];
    var c := SubjectClosure(g, n, rank);
    ExpandContains(g, Matching(g, n), n, rank, x, x);
    if |p| > 1 {
      var rest := p[1..];
      assert IsPath(g, rel, rest) by {
        assert forall i :: 0 <= i < |rest| ==> rest[i] == p[i + 1];
      }
      RelatedComplete(g, x.o, rel, rank, rest);
      if x.o.BNode? {
        RelatedThroughBlank(g, n, rel, rank, x, p[|p| - 1]);
      } else {
        assert x.o in Objects(c, rel);
        RelatedEachContains(g, Objects(c, rel), rel, rank, rank(n), x.o, p[|p| - 1]);
      }
    }
  }

  /**
    The related triples, stated without the traversal: exactly the triples
    reached from `n` along edges whose object is a blank node or whose
    predicate is followed.
   */
  lemma RelatedIsReachability(g: seq<Triple>, n: Node, rel: seq<Node>, rank: Node -> nat, t: Triple)
    requires Ranked(g, rel, rank)
    ensures t in Related(g, n, rel, rank) <==> Reaches(g, rel, n, t)
  {
    if t in Related(g, n, rel, rank) {
      RelatedSound(g, n, rel, rank, t);
    }
    if Reaches(g, rel, n, t) {
      var p: seq<Triple> :| IsPath(g, rel, p) && p[0].s == n && p[|p| - 1] == t;
      RelatedComplete(g, n, rel, rank, p);
    }
  }
}
