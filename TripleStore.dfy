/**
  `TripleStore`: a single-slot graph cache, the textual safety gate in front of
  SPARQL evaluation, the shaping of query results into a table, and the asset
  lookup over the closure traversal.

  rdflib is not part of this model: turtle parsing is the function field
  `parse` and SPARQL evaluation the function field `evaluate`, which yields no
  solutions when the library raises.
 */
module TripleStore {
  import opened Wrappers
  import opened Text
  import opened Rdf
  import opened TripleClosure

  /** A SPARQL result: its variables in order and one binding per row; a variable missing from a row is unbound. */
  datatype Solutions = Solutions(vars: seq<string>, rows: seq<map<string, Node>>)

  /** What `perform_sparql_query` returns: `{}` for the empty query, otherwise a table. */
  datatype Answer =
    | NoAnswer
    | Table(headers: seq<string>, data: seq<seq<string>>)

  datatype StoreError =
    | PermissionDenied    // PermissionError: the query names a reserved keyword
    | NoGraphLoaded       // AttributeError: a query or traversal runs before any graph was loaded
    | QueryFailed         // the query engine raised
    | NoDatasource        // RuntimeError in get_asset_triples
    | NoSourceAttribute   // AttributeError: the API object never captured a source
    | BadKeywordCall      // TypeError: a call passes a keyword argument the method does not declare

  /** The keywords whose presence anywhere in the normalised query rejects it. */
  const ReservedWords: seq<string> := ["update", "delete", "insert", "load", "create", "drop", "clear"]

  /** The text the gate inspects and the engine evaluates: line breaks blanked, space runs collapsed, lower case. */
  function Normalised(q: string): string {
    Lower(SquashSpaces(Replace(Replace(q, "\n", " "), "\r", " "), false))
  }

  predicate Rejected(n: string) {
    exists k :: 0 <= k < |ReservedWords| && Contains(n, ReservedWords[k])
  }

  /** `str(row[key])`: the term's text, or `None` for an unbound variable. */
  function CellText(row: map<string, Node>, v: string): string {
    if v in row then NodeText(row[v]) else "None"
  }

  /** The table holds one header per variable, in order, and one row of cells per solution, one cell per variable. */
  predicate ShapedAs(sol: Solutions, t: Answer) {
    && t.Table?
    && t.headers == sol.vars
    && |t.data| == |sol.rows|
    && forall i :: 0 <= i < |t.data| ==>
         |t.data[i]| == |sol.vars|
         && forall j :: 0 <= j < |sol.vars| ==> t.data[i][j] == CellText(sol.rows[i], sol.vars[j])
  }

  /** The normalised query has no line break, no double space and no capital. */
  lemma NormalisedIsClean(q: string)
    ensures !Contains(Normalised(q), "\n")
    ensures !Contains(Normalised(q), "\r")
    ensures !Contains(Normalised(q), "  ")
    ensures forall i :: 0 <= i < |Normalised(q)| ==> !('A' <= Normalised(q)[i] <= 'Z')
  {
    var b := Replace(Replace(q, "\n", " "), "\r", " ");
    var c := SquashSpaces(b, false);
    BreaksBlankedOut(q);
    if '\n' in c {
      SquashKeepsChars(b, false, '\n');
    }
    if '\r' in c {
      SquashKeepsChars(b, false, '\r');
    }
    ContainsChar(c, '\n');
    ContainsChar(c, '\r');
    SquashHasNoDoubleSpace(b, false);
    LowerKeepsNonLetterPatternsOut(c, "\n");
    LowerKeepsNonLetterPatternsOut(c, "\r");
    LowerKeepsNonLetterPatternsOut(c, "  ");
  }

  /** The two replacements leave no line break of either kind. */
  lemma BreaksBlankedOut(q: string)
    ensures var b := Replace(Replace(q, "\n", " "), "\r", " ");
      '\n' !in b && '\r' !in b
  {
    var a := Replace(q, "\n", " ");
    var b := Replace(a, "\r", " ");
    ReplaceChar(q, '\n', ' ');
    ReplaceChar(a, '\r', ' ');
    assert '\n' !in a by {
      ContainsChar(a, '\n');
    }
    forall i | 0 <= i < |b|
      ensures b[i] != '\n'
    {
      assert b[i] == (if a[i] == '\r' then ' ' else a[i]);
    }
    ContainsChar(b, '\r');
  }

  /** Normalising keeps a non-empty query non-empty, so the store never mistakes it for the empty query. */
  lemma NormalisedNonEmpty(q: string)
    requires q != ""
    ensures Normalised(q) != ""
  {
    var a := Replace(q, "\n", " ");
    var b := Replace(a, "\r", " ");
    ReplaceChar(q, '\n', ' ');
    ReplaceChar(a, '\r', ' ');
    assert |SquashSpaces(b, false)| > 0;
  }

  /** Normalising twice is normalising once: the API's normalised text passes the store's gate unchanged. */
  lemma NormalisedIdempotent(q: string)
    ensures Normalised(Normalised(q)) == Normalised(q)
  {
    var n := Normalised(q);
    NormalisedIsClean(q);
    assert Replace(Replace(n, "\n", " "), "\r", " ") == n;
    SquashFixed(n, false);
    LowerFixed(n);
  }

  /** Normalisation is not the identity: line breaks, space runs and capitals are rewritten. */
  lemma NormalisedExample()
    ensures Normalised("A\n  B") == "a b"
  {
    var q := "A\n  B";
    var a := Replace(q, "\n", " ");
    ExampleBlanked();
    assert !Contains(a, "\r") by { ContainsChar(a, '\r'); }
    ExampleSquashed();
    assert Lower("A B") == "a b";
  }

  lemma ExampleBlanked()
    ensures Replace("A\n  B", "\n", " ") == "A   B"
  {
    var q := "A\n  B";
    ReplaceChar(q, '\n', ' ');
  }

  lemma ExampleSquashed()
    ensures SquashSpaces("A   B", false) == "A B"
  {
    assert SquashSpaces("B", true) == "B";
    assert SquashSpaces(" B", true) == "B";
    assert SquashSpaces("  B", true) == "B";
    assert SquashSpaces("   B", false) == " B";
  }

  /** A query that only mentions a reserved word in capitals is still rejected: the gate runs after lower-casing. */
  lemma RejectedAfterLowering()
    ensures Rejected(Normalised("DROP"))
  {
    DropNormalised();
    assert Contains("drop", ReservedWords[5]) by { ContainsAt("drop", "drop", 0); }
  }

  lemma DropNormalised()
    ensures Normalised("DROP") == "drop"
  {
    var q := "DROP";
    assert !Contains(q, "\n") by { ContainsChar(q, '\n'); }
    assert !Contains(q, "\r") by { ContainsChar(q, '\r'); }
    assert SquashSpaces(q, false) == q;
    assert Lower(q) == "drop";
  }

  /** Python's `while '\n' in q: q = q.replace('\n', ' ')` for a one-character `c`. */
  method BlankOut(q0: string, c: char) returns (q: string)
    requires c != ' '
    ensures q == Replace(q0, [c], " ")
    ensures !Contains(q, [c])
  {
    q := q0;
    ReplaceChar(q0, c, ' ');
    while Contains(q, [c])
      invariant q == q0 || q == Replace(q0, [c], " ")
      invariant Replace(q, [c], " ") == Replace(q0, [c], " ")
      decreases if q == q0 then 1 else 0
    {
      q := Replace(q, [c], " ");
      ReplaceChar(q0, c, ' ');
    }
  }

  /** The query rewriting of `perform_sparql_query` (lines 30-36 of the store, 17-23 of the API). */
  method NormaliseQuery(q0: string) returns (q: string)
    ensures q == Normalised(q0)
  {
    q := BlankOut(q0, '\n');
    q := BlankOut(q, '\r');
    ghost var blanked := q;
    while Contains(q, "  ")
      invariant SquashSpaces(q, false) == SquashSpaces(blanked, false)
      decreases |q|
    {
      SquashAfterReplace(q, false);
      q := Replace(q, "  ", " ");
    }
    SquashFixed(q, false);
    q := Lower(q);
  }

  /** The keyword loop: denied exactly when some reserved word occurs in `n`. */
  method Gate(n: string) returns (denied: bool)
    ensures denied <==> Rejected(n)
  {
    var i := 0;
    while i < |ReservedWords|
      invariant 0 <= i <= |ReservedWords|
      invariant forall k :: 0 <= k < i ==> !Contains(n, ReservedWords[k])
    {
      if Contains(n, ReservedWords[i]) {
        return true;
      }
      i := i + 1;
    }
    return false;
  }

  /** The result loops: one header per variable, then one row of cells per solution. */
  method ShapeResult(sol: Solutions) returns (t: Answer)
    ensures ShapedAs(sol, t)
  {
    var headers: seq<string> := [];
    for k := 0 to |sol.vars|
      invariant headers == sol.vars[..k]
    {
      headers := headers + [sol.vars[k]];
    }
    var data: seq<seq<string>> := [];
    for i := 0 to |sol.rows|
      invariant |data| == i
      invariant forall a :: 0 <= a < i ==>
        |data[a]| == |sol.vars|
        && forall j :: 0 <= j < |sol.vars| ==> data[a][j] == CellText(sol.rows[a], sol.vars[j])
    {
      var row: seq<string> := [];
      for j := 0 to |sol.vars|
        invariant |row| == j
        invariant forall b :: 0 <= b < j ==> row[b] == CellText(sol.rows[i], sol.vars[b])
      {
        row := row + [CellText(sol.rows[i], sol.vars[j])];
      }
      data := data + [row];
    }
    t := Table(headers, data);
  }

  /** What the engine answers for a query that passed the gate: the shaped table, or the engine's failure. */
  predicate Evaluated(result: Result<Answer, StoreError>, solutions: Option<Solutions>) {
    match solutions
    case None => result == Err(QueryFailed)
    case Some(sol) => result.Ok? && ShapedAs(sol, result.value)
  }

  /** The answer to a query `q` against the held graph, whoever normalised it first. */
  predicate Answers(
    graph: Option<seq<Triple>>, evaluate: (seq<Triple>, string) -> Option<Solutions>,
    q: string, result: Result<Answer, StoreError>)
  {
    if q == "" then result == Ok(NoAnswer)
    else if Rejected(Normalised(q)) then result == Err(PermissionDenied)
    else if graph.None? then result == Err(NoGraphLoaded)
    else Evaluated(result, evaluate(graph.value, Normalised(q)))
  }

  class Store {
    var graph: Option<seq<Triple>>
    var source: Option<string>
    /** How many times `load` ran; lets the contracts say when the cache is reused. */
    ghost var loads: nat
    const parse: string -> seq<Triple>
    const evaluate: (seq<Triple>, string) -> Option<Solutions>

    /** A graph is held exactly when a source is, and it is that source parsed. */
    ghost predicate Valid()
      reads this
    {
      (graph.Some? <==> source.Some?) && (graph.Some? ==> graph.value == parse(source.value))
    }

    constructor(parse: string -> seq<Triple>, evaluate: (seq<Triple>, string) -> Option<Solutions>)
      ensures Valid()
      ensures graph == None && source == None && loads == 0
      ensures this.parse == parse && this.evaluate == evaluate
    {
      this.parse := parse;
      this.evaluate := evaluate;
      graph := None;
      source := None;
      loads := 0;
    }

    method Load(s: string)
      modifies this
      ensures Valid()
      ensures graph == Some(parse(s)) && source == Some(s)
      ensures loads == old(loads) + 1
    {
      graph := Some(parse(s));
      source := Some(s);
      loads := loads + 1;
    }

    /** `get_graph`: reloads exactly when no graph is held or the source differs from the held one. */
    method GetGraph(s: string) returns (g: seq<Triple>)
      requires Valid()
      modifies this
      ensures Valid()
      ensures g == parse(s) && graph == Some(g) && source == Some(s)
      ensures loads == old(loads) + (if old(graph).None? || old(source) != Some(s) then 1 else 0)
    {
      if graph.None? {
        Load(s);
      } else if source != Some(s) {
        Load(s);
      }
      g := graph.value;
    }

    /** `perform_sparql_query`: the empty query answers `{}`; otherwise gate, evaluate the normalised text, shape. */
    method PerformSparqlQuery(q: string) returns (r: Result<Answer, StoreError>)
      ensures Answers(graph, evaluate, q, r)
    {
      if q == "" {
        return Ok(NoAnswer);
      }
      var n := NormaliseQuery(q);
      var denied := Gate(n);
      if denied {
        return Err(PermissionDenied);
      }
      if graph.None? {
        return Err(NoGraphLoaded);
      }
      var solutions := evaluate(graph.value, n);
      match solutions
      case None =>
        r := Err(QueryFailed);
      case Some(sol) =>
        var t := ShapeResult(sol);
        r := Ok(t);
    }

    /** `get_asset_triples`: the subject closure of the asset's IRI, or RuntimeError without a graph. */
    method GetAssetTriples(assetId: string, rank: Node -> nat) returns (r: Result<seq<Triple>, StoreError>)
      requires graph.Some? ==> Ranked(graph.value, [], rank)
      ensures graph.None? <==> r == Err(NoDatasource)
      ensures r.Ok? ==> r.value == SubjectClosure(graph.value, IRI(AssetNs + assetId), rank)
      ensures r.Ok? ==> forall t :: t in r.value <==> Reaches(graph.value, [], IRI(AssetNs + assetId), t)
    {
      if graph.None? {
        return Err(NoDatasource);
      }
      var root := IRI(AssetNs + assetId);
      forall t {
        SubjectClosureIsReachability(graph.value, root, rank, t);
      }
      r := Ok(SubjectClosure(graph.value, root, rank));
    }
    /**
      `get_all_related_triples`: the subject closure of `root`, then the related
      triples of every object collected along it through a predicate of `rel`.
     */
    method GetAllRelatedTriples(root: Node, rel: seq<Node>, rank: Node -> nat) returns (r: Result<seq<Triple>, StoreError>)
      requires graph.Some? ==> Ranked(graph.value, rel, rank)
      ensures graph.None? ==> r == Err(NoGraphLoaded)
      ensures graph.Some? ==> r == Ok(Related(graph.value, root, rel, rank))
      ensures graph.Some? ==> forall t :: t in r.value <==> Reaches(graph.value, rel, root, t)
    {
      if graph.None? {
        return Err(NoGraphLoaded);
      }
      forall t {
        RelatedIsReachability(graph.value, root, rel, rank, t);
      }
      r := Ok(Related(graph.value, root, rel, rank));
    }
  }

  /** The cache is reused: asking for the same source twice loads once. */
  method GetGraphTwice(store: Store, s: string) returns (g1: seq<Triple>, g2: seq<Triple>)
    requires store.Valid()
    modifies store
    ensures g1 == g2 == store.parse(s)
    ensures store.loads <= old(store.loads) + 1
  {
    g1 := store.GetGraph(s);
    g2 := store.GetGraph(s);
  }

  /** Loading a source, then collecting what an installation relates to, reads the freshly parsed graph. */
  method LoadThenRelated(store: Store, s: string, root: Node, rel: seq<Node>, rank: Node -> nat)
    returns (r: Result<seq<Triple>, StoreError>)
    requires store.Valid() && Ranked(store.parse(s), rel, rank)
    modifies store
    ensures r == Ok(Related(store.parse(s), root, rel, rank))
    ensures forall t :: t in r.value <==> Reaches(store.parse(s), rel, root, t)
  {
    var g := store.GetGraph(s);
    r := store.GetAllRelatedTriples(root, rel, rank);
  }
}
