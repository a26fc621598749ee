/**
  The graph emitter itself: an object holding the graph, the owner table and
  the coordinate transformation, whose `ProcessToOslo` adds one installation's
  statements step by step. Each method is proved against the specification
  functions of `OsloGraph` and `Beheerders`, whose properties are proved there
  and in `OsloProperties`.

  Line numbers in this module are those of `CreatingData/VkbFeatureToOSLOProcessor.py`.
 */
module VkbFeatureToOSLOProcessor {
  import opened Wrappers
  import opened Text
  import opened Rdf
  import opened VkbFeature
  import opened OsloGraph
  import opened OsloProperties
  import opened Beheerders

  /** What the processor's phases add in turn: the geometry, the segments, the sign loop after the geometry node, the links. */
  function Phases(f: Feature, table: map<string, string>, latLong: (string, string), next: nat): Step
    requires Emittable(f)
  {
    var signs := EmitBorden(f.id, table, f.beheerderCode, f.borden.value, next + 1, f.beheerderNaam);
    Step(
      HeaderTriples(f.id, next, latLong) + SegmentTriples(f.id, f.wegsegmentIds.value)
      + signs.triples + AllLinks(f.id, f.borden.value),
      signs.next, signs.naam)
  }

  /**
    The processor's phases in turn (the geometry, the segments, the sign loop,
    the links) add what `Emit` specifies, and keep every blank node of the
    graph below the counter when they were before.
   */
  lemma PhasesEmit(
    f: Feature, table: map<string, string>, transform: (string, string) -> (string, string), latLong: (string, string),
    next: nat, g0: set<Triple>, g1: set<Triple>, n1: nat, naam: string)
    requires Emittable(f) && latLong == transform(f.coords.value[0], f.coords.value[1])
    requires g1 == g0 + Phases(f, table, latLong, next).triples
    requires n1 == Phases(f, table, latLong, next).next && naam == Phases(f, table, latLong, next).naam
    requires forall t :: t in g0 ==> BlankIn(t, 0, next)
    ensures var e := Emit(f, table, transform, next);
      g1 == g0 + e.triples && n1 == e.next && naam == e.naam
    ensures forall t :: t in g1 ==> BlankIn(t, 0, n1)
  {
    var e := Emit(f, table, transform, next);
    assert g1 == g0 + e.triples;
    forall t | t in g1
      ensures BlankIn(t, 0, n1)
    {
      if t !in g0 {
        BlankNodesFresh(f, table, transform, next, t);
      }
    }
  }

  /** Adding two sets, then two more, adds the union of the four. */
  lemma AddInTurn<T>(g0: set<T>, a: set<T>, b: set<T>, g1: set<T>, c: set<T>, d: set<T>, g2: set<T>)
    requires g1 == g0 + a + b && g2 == g1 + c + d
    ensures g2 == g0 + (a + b + c + d)
  {
  }

  class Processor {
    /** The rdflib graph, as the set of its statements. */
    var graph: set<Triple>
    /** The number the next fresh blank node gets. */
    var nextBlank: nat
    /** Owner code or name to OVO code. */
    var beheerders: map<string, string>
    /** Lambert 72 to WGS 84, on the coordinates' text: `(lat, long)` of `(x, y)`. */
    const transform: (string, string) -> (string, string)

    /** Every blank node in the graph was drawn before `nextBlank`, so a newly drawn one is fresh. */
    ghost predicate Valid()
      reads this
    {
      forall t :: t in graph ==> BlankIn(t, 0, nextBlank)
    }

    /**
      Lines 10-26: an empty graph and the owner table loaded from the lines of
      the organisation export (`csv`) and of the road-manager list (`wdb`).
     */
    constructor (csv: seq<string>, wdb: seq<string>, transform: (string, string) -> (string, string))
      requires CsvRowsOk(csv)
      ensures graph == {} && nextBlank == 0
      ensures beheerders == OwnerTable(csv, wdb)
      ensures this.transform == transform
      ensures Valid()
    {
      graph := {};
      nextBlank := 0;
      this.transform := transform;
      new;
      LoadBeheerders(csv, wdb);
    }

    /** Lines 124-153: the owner table is rebuilt from both files; nothing else changes. */
    method LoadBeheerders(csv: seq<string>, wdb: seq<string>)
      requires CsvRowsOk(csv)
      modifies this
      ensures beheerders == OwnerTable(csv, wdb)
      ensures graph == old(graph) && nextBlank == old(nextBlank)
    {
      var table := ReadCsv(csv, map[]);
      table := ReadWdb(wdb, table);
      beheerders := table;
    }

    /**
      Lines 78-84: the OVO code of the owner by code, by name, and by the
      normalised name read with `Stad` for `Gemeente`; the name stays
      normalised once code and name were both missing.
     */
    method LookUpOwner(code: string, naam: string) returns (ovo: Option<string>, newNaam: string)
      ensures Owner(ovo, newNaam) == ResolveOwner(beheerders, code, naam)
    {
      newNaam := naam;
      ovo := None;
      if code in beheerders {
        ovo := Some(beheerders[code]);
      }
      if ovo.None? && naam in beheerders {
        ovo := Some(beheerders[naam]);
      }
      if ovo.None? {
        newNaam := Replace(Replace(Replace(newNaam, " (na 2019)", ""), "Provincie ", ""), "Vlaams Brabant", "Vlaams-Brabant");
      }
      if ovo.None? && Contains(newNaam, "Gemeente") {
        var stad := Replace(newNaam, "Gemeente", "Stad");
        if stad in beheerders {
          ovo := Some(beheerders[stad]);
        }
      }
    }

    /** Lines 65-71: the height of a sign above the ground, in metres, on a fresh blank node. */
    method AddHeight(bord: Node, y: int)
      modifies this
      ensures graph == old(graph) + HeightTriples(bord, y, old(nextBlank))
      ensures nextBlank == (if y > 0 then old(nextBlank) + 1 else old(nextBlank))
      ensures beheerders == old(beheerders)
    {
      if y > 0 {
        var h := nextBlank;
        nextBlank := nextBlank + 1;
        graph := graph + {Triple(bord, Opstelhoogte, BNode(h))};
        graph := graph + {Triple(BNode(h), SchemaValue, TypedLit(MilliText(y), XsdDecimal))};
        graph := graph + {Triple(BNode(h), SchemaUnitCode, Lit("MTR"))};
      }
    }

    /**
      Lines 53-104 for one sign `b` of installation `fid` owned by `code`,
      with `naam` the installation's owner name so far: the statements of the
      sign, the height on a fresh blank node, and the owner name afterwards.
     */
    method AddSign(fid: int, code: string, b: Bord, naam: string) returns (newNaam: string)
      requires |b.bordCode| > 0
      modifies this
      ensures var s := BordStep(fid, old(beheerders), code, b, old(nextBlank), naam);
        graph == old(graph) + s.triples && nextBlank == s.next && newNaam == s.naam
      ensures beheerders == old(beheerders)
    {
      var op := OpstellingRef(fid);
      var bord := BordRef(fid, b.id);
      var g0 := graph;
      graph := graph + {Triple(op, OmvatVerkeersbord, bord)};

      var h := nextBlank;
      AddHeight(bord, b.y);
      graph := graph + {Triple(op, Aanzicht, Lit(TenthsText(b.aanzichtHoek)))};

      var ovo;
      ovo, newNaam := LookUpOwner(code, naam);
      if ovo.Some? {
        graph := graph + {Triple(bord, Beheerder, OrgRef(ovo.value))};
      }

      AddTeken(fid, b);
      assert graph == g0 + BordTriples(fid, b, h, ovo);
    }

    /** Lines 86-104: the traffic sign the sign realises, its inscription for a G-code with parameters, its concept. */
    method AddTeken(fid: int, b: Bord)
      requires |b.bordCode| > 0
      modifies this
      ensures graph == old(graph) + TekenTriples(fid, b)
      ensures nextBlank == old(nextBlank) && beheerders == old(beheerders)
    {
      var g0 := graph;
      var teken := TekenRef(fid, b.id);
      graph := graph + {Triple(BordRef(fid, b.id), Realiseert, teken)};
      if b.bordCode[0] == 'G' && |b.parameters| > 0 {
        graph := graph + {Triple(teken, VariabelOpschrift, Lit(Join(" ", b.parameters)))};
      }
      var concept := ConceptRef(fid, b.id);
      graph := graph + {Triple(teken, HeeftVerkeersbordconcept, concept)};
      graph := graph + {Triple(concept, PrefLabel, Lit(b.bordCode))};
      assert graph == g0 + TekenTriples(fid, b);
    }

    /** Lines 30-41: the installation node and its geometry on a fresh blank node. */
    method AddHeader(fid: int, latLong: (string, string))
      modifies this
      ensures graph == old(graph) + HeaderTriples(fid, old(nextBlank), latLong)
      ensures nextBlank == old(nextBlank) + 1 && beheerders == old(beheerders)
    {
      var op := OpstellingRef(fid);
      var g0 := graph;
      graph := graph + {Triple(op, RdfType, Opstelling)};
      var geo := nextBlank;
      nextBlank := nextBlank + 1;
      graph := graph + {Triple(op, Geometry, BNode(geo))};
      graph := graph + {Triple(BNode(geo), RdfType, GeoPoint)};
      graph := graph + {Triple(BNode(geo), GeoLat, TypedLit(latLong.0, XsdDecimal))};
      graph := graph + {Triple(BNode(geo), GeoLong, TypedLit(latLong.1, XsdDecimal))};
      assert graph == g0 + HeaderTriples(fid, geo, latLong);
    }

    /** Lines 47-51: one `hoortBij` statement per road segment. */
    method AddSegments(fid: int, ids: seq<string>)
      modifies this
      ensures graph == old(graph) + SegmentTriples(fid, ids)
      ensures nextBlank == old(nextBlank) && beheerders == old(beheerders)
    {
      var op := OpstellingRef(fid);
      for i := 0 to |ids|
        invariant graph == old(graph) + SegmentTriples(fid, ids[..i])
        invariant nextBlank == old(nextBlank) && beheerders == old(beheerders)
      {
        graph := graph + {Triple(op, HoortBij, SegmentRef(ids[i]))};
        assert ids[..i + 1][..i] == ids[..i];
      }
      assert ids[..|ids|] == ids;
    }

    /** Lines 53-104: the sign loop, collecting the sub-signs and threading the owner name. */
    method AddSigns(fid: int, code: string, bs: seq<Bord>, naam0: string) returns (onderborden: seq<Bord>, naam: string)
      requires CodesPresent(bs)
      modifies this
      ensures var e := EmitBorden(fid, old(beheerders), code, bs, old(nextBlank), naam0);
        graph == old(graph) + e.triples && nextBlank == e.next && naam == e.naam
      ensures onderborden == Onderborden(bs)
      ensures beheerders == old(beheerders)
    {
      onderborden := [];
      naam := naam0;
      assert bs[..0] == [];
      for k := 0 to |bs|
        invariant var pre := EmitBorden(fid, beheerders, code, bs[..k], old(nextBlank), naam0);
          graph == old(graph) + pre.triples && nextBlank == pre.next && naam == pre.naam
        invariant onderborden == Onderborden(bs[..k])
        invariant beheerders == old(beheerders)
      {
        var b := bs[k];
        assert b in bs;
        assert bs[..k + 1][..k] == bs[..k] && bs[..k + 1][k] == b;
        if b.bordCode[0] == 'G' {
          onderborden := onderborden + [b];
        }
        naam := AddSign(fid, code, b, naam);
      }
      assert bs[..|bs|] == bs;
    }

    /** Lines 106-122 in full: links only when there are sub-signs. */
    method AddAllLinks(fid: int, bs: seq<Bord>, onderborden: seq<Bord>)
      requires CodesPresent(bs) && onderborden == Onderborden(bs)
      modifies this
      ensures graph == old(graph) + AllLinks(fid, bs)
      ensures nextBlank == old(nextBlank) && beheerders == old(beheerders)
    {
      if |onderborden| > 0 {
        assert |bs| > 0;
        assert bs[|bs| - 1] in bs;
        AddLinks(fid, bs, onderborden);
      } else if |bs| > 0 {
        assert Links(fid, bs, onderborden) == {};
      }
    }

    /**
      Lines 106-122: each sub-sign whose height is not 0 gets the tallest eligible
      sign as parent; `last` is the loop variable left over from the sign loop.
     */
    method AddLinks(fid: int, bs: seq<Bord>, onderborden: seq<Bord>)
      requires |bs| > 0 && |bs[|bs| - 1].bordCode| > 0
      modifies this
      ensures graph == old(graph) + Links(fid, bs, onderborden)
      ensures nextBlank == old(nextBlank) && beheerders == old(beheerders)
    {
      var last := bs[|bs| - 1];
      for j := 0 to |onderborden|
        invariant graph == old(graph) + Links(fid, bs, onderborden[..j])
        invariant nextBlank == old(nextBlank) && beheerders == old(beheerders)
      {
        var o := onderborden[j];
        assert onderborden[..j + 1][..j] == onderborden[..j] && onderborden[..j + 1][j] == o;
        if o.y == 0 {
          continue;
        }
        var candidates := Candidates(bs, o, last);
        if |candidates| == 0 {
          continue;
        }
        candidates := Reverse(SortByY(candidates));
        graph := graph + {Triple(TekenRef(fid, candidates[0].id), HeeftOnderbord, TekenRef(fid, o.id))};
      }
      assert onderborden[..|onderborden|] == onderborden;
    }

    /** Lines 30-122: the statements of `f`, with blank nodes numbered from `nextBlank`, in the four phases. */
    method AddFeature(f: Feature, latLong: (string, string)) returns (naam: string)
      requires Emittable(f)
      modifies this
      ensures graph == old(graph) + Phases(f, old(beheerders), latLong, old(nextBlank)).triples
      ensures nextBlank == Phases(f, old(beheerders), latLong, old(nextBlank)).next
      ensures naam == Phases(f, old(beheerders), latLong, old(nextBlank)).naam
      ensures beheerders == old(beheerders)
    {
      ghost var g0 := graph;
      AddPlacement(f.id, latLong, f.wegsegmentIds.value);
      ghost var g1 := graph;
      naam := AddSignsAndLinks(f, old(nextBlank) + 1);
      AddInTurn(g0, HeaderTriples(f.id, old(nextBlank), latLong), SegmentTriples(f.id, f.wegsegmentIds.value), g1,
        EmitBorden(f.id, old(beheerders), f.beheerderCode, f.borden.value, old(nextBlank) + 1, f.beheerderNaam).triples,
        AllLinks(f.id, f.borden.value), graph);
    }

    /** Lines 30-51: the installation, its geometry and its road segments. */
    method AddPlacement(fid: int, latLong: (string, string), ids: seq<string>)
      modifies this
      ensures graph == old(graph) + HeaderTriples(fid, old(nextBlank), latLong) + SegmentTriples(fid, ids)
      ensures nextBlank == old(nextBlank) + 1 && beheerders == old(beheerders)
    {
      AddHeader(fid, latLong);
      AddSegments(fid, ids);
    }

    /** Lines 53-122: the sign loop, then the links of the sub-signs it collected. */
    method AddSignsAndLinks(f: Feature, ghost first: nat) returns (naam: string)
      requires Emittable(f) && first == nextBlank
      modifies this
      ensures var s := EmitBorden(f.id, old(beheerders), f.beheerderCode, f.borden.value, first, f.beheerderNaam);
        graph == old(graph) + s.triples + AllLinks(f.id, f.borden.value) && nextBlank == s.next && naam == s.naam
      ensures beheerders == old(beheerders)
    {
      var onderborden;
      onderborden, naam := AddSigns(f.id, f.beheerderCode, f.borden.value, f.beheerderNaam);
      AddAllLinks(f.id, f.borden.value, onderborden);
    }

    /**
      Lines 28-122: `process_to_oslo(f)` adds exactly `Emit`'s statements,
      draws its blank nodes fresh, and returns the feature with the owner name
      the lookups left (Python rewrites `f.beheerder_naam` in place).
     */
    method ProcessToOslo(f: Feature) returns (updated: Feature)
      requires Valid() && Emittable(f)
      modifies this
      ensures var e := Emit(f, old(beheerders), transform, old(nextBlank));
        && graph == old(graph) + e.triples
        && nextBlank == e.next
        && updated == f.(beheerderNaam := e.naam)
      ensures beheerders == old(beheerders)
      ensures Valid()
    {
      ghost var g0 := graph;
      var latLong := transform(f.coords.value[0], f.coords.value[1]);
      var naam := AddFeature(f, latLong);
      PhasesEmit(f, old(beheerders), transform, latLong, old(nextBlank), g0, graph, nextBlank, naam);
      updated := f.(beheerderNaam := naam);
    }
  }
}
