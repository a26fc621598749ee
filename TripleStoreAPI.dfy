/**
  `TripleStoreAPI`: the object the web layer talks to. It wraps a `Store`,
  captures the store's source when it is built, repeats the query gate before
  calling the store, and runs the closure traversals over the graph
  `get_graph` returns for that source.
 */
module TripleStoreApi {
  import opened Wrappers
  import opened Text
  import opened Rdf
  import opened TripleClosure
  import opened TripleStore

  /** The predicates `get_full_opstelling_triples` follows beyond blank nodes. */
  const OpstellingRelations: seq<Node> := [OmvatVerkeersbord, Realiseert, HeeftVerkeersbordconcept, HoortBij]

  /** Whether `get_graph` reloads for source `s`. */
  function Reloads(graph: Option<seq<Triple>>, held: Option<string>, s: string): nat {
    if graph.None? || held != Some(s) then 1 else 0
  }

  /**
    What the API's `perform_sparql_query` answers as written: `{}` for the empty
    query, PermissionError from its own gate, and otherwise the TypeError of the
    call `perform_sparql_query(query=…)` on a store method whose parameter is `q`.
   */
  predicate ApiAnswers(q: string, result: Result<Answer, StoreError>) {
    if q == "" then result == Ok(NoAnswer)
    else if Rejected(Normalised(q)) then result == Err(PermissionDenied)
    else result == Err(BadKeywordCall)
  }

  /** On the empty query and on a refused query the API answers as the store would. */
  lemma ApiAgreesUpToTheCall(
    graph: Option<seq<Triple>>, evaluate: (seq<Triple>, string) -> Option<Solutions>,
    q: string, r: Result<Answer, StoreError>)
    requires q == "" || Rejected(Normalised(q))
    ensures ApiAnswers(q, r) <==> Answers(graph, evaluate, q, r)
  {
  }

  /** Every query the API's gate admits ends in the TypeError, which the store never gives. */
  lemma AdmittedQueryNeverAnswered(
    graph: Option<seq<Triple>>, evaluate: (seq<Triple>, string) -> Option<Solutions>,
    q: string, r: Result<Answer, StoreError>)
    requires q != "" && !Rejected(Normalised(q))
    requires ApiAnswers(q, r)
    ensures r == Err(BadKeywordCall)
    ensures !Answers(graph, evaluate, q, r)
  {
    if graph.Some? {
      match evaluate(graph.value, Normalised(q))
      case None =>
      case Some(sol) =>
    }
  }

  /** `ASK{}` is already in normal form apart from its capitals. */
  lemma AskNormalised()
    ensures Normalised("ASK{}") == "ask{}"
  {
    var q := "ASK{}";
    assert !Contains(q, "\n") by { MissingChar(q, "\n", '\n'); }
    assert !Contains(q, "\r") by { MissingChar(q, "\r", '\r'); }
    assert !Contains(q, "  ") by { MissingChar(q, "  ", ' '); }
    SquashFixed(q, false);
    assert Lower(q) == "ask{}";
  }

  /** `ask{}` holds none of the seven reserved words. */
  lemma AskAdmitted()
    ensures !Rejected("ask{}")
  {
    var n := "ask{}";
    forall k | 0 <= k < |ReservedWords|
      ensures !Contains(n, ReservedWords[k])
    {
      if k == 3 {
        MissingChar(n, ReservedWords[k], 'l');
      } else if k == 5 {
        MissingChar(n, ReservedWords[k], 'd');
      } else {
        MissingChar(n, ReservedWords[k], 'e');
      }
    }
  }

  /**
    The discrepancy on one input: for `ASK{}` the API raises the TypeError,
    whatever graph the store holds, while the store itself never does.
   */
  lemma AskRaisesTypeError(
    graph: Option<seq<Triple>>, evaluate: (seq<Triple>, string) -> Option<Solutions>)
    ensures ApiAnswers("ASK{}", Err(BadKeywordCall))
    ensures !Answers(graph, evaluate, "ASK{}", Err(BadKeywordCall))
  {
    AskNormalised();
    AskAdmitted();
    AdmittedQueryNeverAnswered(graph, evaluate, "ASK{}", Err(BadKeywordCall));
  }

  class StoreApi {
    const store: Store
    /** `self.source`; `None` when the attribute was never set. */
    var source: Option<string>

    /** `__init__`: the source is captured only if the store already had one. */
    constructor(store: Store)
      ensures this.store == store
      ensures source == store.source
    {
      this.store := store;
      source := store.source;
    }

    /**
      `perform_sparql_query` as written: the API normalises and gates the query
      itself, then calls the store with the keyword `query`, which the store's
      method does not declare, so every admitted query raises TypeError.
     */
    method PerformSparqlQuery(q: string) returns (r: Result<Answer, StoreError>)
      ensures ApiAnswers(q, r)
    {
      if q == "" {
        return Ok(NoAnswer);
      }
      var n := NormaliseQuery(q);
      var denied := Gate(n);
      if denied {
        return Err(PermissionDenied);
      }
      r := Err(BadKeywordCall);
    }

    /**
      `perform_sparql_query` as evidently intended: the normalised text is passed
      on as the store's `q`. The answer is the one the store gives for the
      original query, because normalising twice is normalising once.
     */
    method PerformSparqlQueryIntended(q: string) returns (r: Result<Answer, StoreError>)
      ensures Answers(store.graph, store.evaluate, q, r)
    {
      if q == "" {
        return Ok(NoAnswer);
      }
      var n := NormaliseQuery(q);
      var denied := Gate(n);
      if denied {
        return Err(PermissionDenied);
      }
      NormalisedNonEmpty(q);
      NormalisedIdempotent(q);
      r := store.PerformSparqlQuery(n);
    }

    /**
      The graph every traversal below reads: `get_graph(self.source)`, or an
      AttributeError when no source was captured. Only the first call of a
      traversal can reload; the recursive calls ask for the same source.
     */
    method CurrentGraph() returns (g: Option<seq<Triple>>)
      requires store.Valid()
      modifies store
      ensures store.Valid()
      ensures source.None? ==> g.None? && unchanged(store)
      ensures source.Some? ==> g == Some(store.parse(source.value)) && store.source == source
      ensures source.Some? ==> store.loads == old(store.loads) + Reloads(old(store.graph), old(store.source), source.value)
    {
      if source.None? {
        return None;
      }
      var graph := store.GetGraph(source.value);
      g := Some(graph);
    }

    /** `get_asset_triples`: the subject closure of the asset IRI in the source's graph. */
    method GetAssetTriples(assetId: string, rank: Node -> nat) returns (r: Result<seq<Triple>, StoreError>)
      requires store.Valid()
      requires source.Some? ==> Ranked(store.parse(source.value), [], rank)
      modifies store
      ensures store.Valid()
      ensures source.None? <==> r == Err(NoSourceAttribute)
      ensures source.Some? ==> r == Ok(SubjectClosure(store.parse(source.value), IRI(AssetNs + assetId), rank))
      ensures source.Some? ==> forall t :: t in r.value <==> Reaches(store.parse(source.value), [], IRI(AssetNs + assetId), t)
    {
      var g := CurrentGraph();
      if g.None? {
        return Err(NoSourceAttribute);
      }
      var root := IRI(AssetNs + assetId);
      forall t {
        SubjectClosureIsReachability(g.value, root, rank, t);
      }
      r := Ok(SubjectClosure(g.value, root, rank));
    }

    /** `get_all_related_triples` on the source's graph. */
    method GetAllRelatedTriples(root: Node, rel: seq<Node>, rank: Node -> nat) returns (r: Result<seq<Triple>, StoreError>)
      requires store.Valid()
      requires source.Some? ==> Ranked(store.parse(source.value), rel, rank)
      modifies store
      ensures store.Valid()
      ensures source.None? <==> r == Err(NoSourceAttribute)
      ensures source.Some? ==> r == Ok(Related(store.parse(source.value), root, rel, rank))
      ensures source.Some? ==> forall t :: t in r.value <==> Reaches(store.parse(source.value), rel, root, t)
    {
      var g := CurrentGraph();
      if g.None? {
        return Err(NoSourceAttribute);
      }
      forall t {
        RelatedIsReachability(g.value, root, rel, rank, t);
      }
      r := Ok(Related(g.value, root, rel, rank));
    }

    /**
      `get_full_opstelling_triples`: everything reached from the installation's
      IRI through blank nodes and the four installation relations.
     */
    method GetFullOpstellingTriples(id: string, rank: Node -> nat) returns (r: Result<seq<Triple>, StoreError>)
      requires store.Valid()
      requires source.Some? ==> Ranked(store.parse(source.value), OpstellingRelations, rank)
      modifies store
      ensures store.Valid()
      ensures source.None? <==> r == Err(NoSourceAttribute)
      ensures source.Some? ==> r == Ok(Related(store.parse(source.value), IRI(VkbNs + id), OpstellingRelations, rank))
      ensures source.Some? ==> forall t :: t in r.value <==>
        Reaches(store.parse(source.value), OpstellingRelations, IRI(VkbNs + id), t)
    {
      r := GetAllRelatedTriples(IRI(VkbNs + id), OpstellingRelations, rank);
    }
  }
}
