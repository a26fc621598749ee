/**
  What the statements `process_to_oslo` emits say, property by property: each
  kind of statement (by its predicate) is traced back to the part of the
  feature that caused it, and each part of the feature is shown to cause it.

  Line numbers in this module are those of `CreatingData/VkbFeatureToOSLOProcessor.py`.
 */
module OsloProperties {
  import opened Wrappers
  import opened Text
  import opened Rdf
  import opened VkbFeature
  import opened OsloGraph

  // ---------------------------------------------------------------- where statements come from

  /** The predicates a sign's statements use. */
  predicate SignPredicate(p: Node) {
    p in {OmvatVerkeersbord, Opstelhoogte, SchemaValue, SchemaUnitCode, Aanzicht,
          Beheerder, Realiseert, VariabelOpschrift, HeeftVerkeersbordconcept, PrefLabel}
  }

  lemma HeaderPredicates(fid: int, g: nat, latLong: (string, string), t: Triple)
    requires t in HeaderTriples(fid, g, latLong)
    ensures t.p == RdfType || t.p == Geometry || t.p == GeoLat || t.p == GeoLong
  {
  }

  /** A sign's statements: the sign itself, its height, its angle, its owner, and the traffic sign it realises. */
  lemma BordParts(fid: int, b: Bord, h: nat, ovo: Option<string>, t: Triple)
    requires |b.bordCode| > 0 && t in BordTriples(fid, b, h, ovo)
    ensures || t == Triple(OpstellingRef(fid), OmvatVerkeersbord, BordRef(fid, b.id))
            || t in HeightTriples(BordRef(fid, b.id), b.y, h)
            || t == Triple(OpstellingRef(fid), Aanzicht, Lit(TenthsText(b.aanzichtHoek)))
            || (ovo.Some? && t == Triple(BordRef(fid, b.id), Beheerder, OrgRef(ovo.value)))
            || t in TekenTriples(fid, b)
  {
  }

  lemma HeightParts(bord: Node, y: int, h: nat, t: Triple)
    requires t in HeightTriples(bord, y, h)
    ensures t.p == Opstelhoogte || t.p == SchemaValue || t.p == SchemaUnitCode
  {
  }

  lemma TekenParts(fid: int, b: Bord, t: Triple)
    requires |b.bordCode| > 0 && t in TekenTriples(fid, b)
    ensures || t.p == Realiseert || t.p == HeeftVerkeersbordconcept || t.p == PrefLabel
            || (IsG(b) && |b.parameters| > 0 && t == Triple(TekenRef(fid, b.id), VariabelOpschrift, Lit(Join(" ", b.parameters))))
  {
  }

  lemma BordPredicates(fid: int, b: Bord, h: nat, ovo: Option<string>, t: Triple)
    requires |b.bordCode| > 0 && t in BordTriples(fid, b, h, ovo)
    ensures SignPredicate(t.p)
  {
    BordParts(fid, b, h, ovo, t);
    if t in HeightTriples(BordRef(fid, b.id), b.y, h) {
      HeightParts(BordRef(fid, b.id), b.y, h, t);
    }
    if t in TekenTriples(fid, b) {
      TekenParts(fid, b, t);
    }
  }

  /** The `hoortBij` statements: one per road-segment id, all about the installation. */
  lemma {:induction false} SegmentMember(fid: int, ids: seq<string>, t: Triple)
    ensures t in SegmentTriples(fid, ids) <==>
      t.s == OpstellingRef(fid) && t.p == HoortBij && exists i :: 0 <= i < |ids| && t.o == SegmentRef(ids[i])
    decreases |ids|
  {
    if |ids| > 0 {
      var n := |ids|;
      var pre := ids[..n - 1];
      var last := Triple(OpstellingRef(fid), HoortBij, SegmentRef(ids[n - 1]));
      SegmentMember(fid, pre, t);
      assert SegmentTriples(fid, ids) == SegmentTriples(fid, pre) + {last};
      if t in SegmentTriples(fid, ids) {
        if t == last {
          assert 0 <= n - 1 < n && t.o == SegmentRef(ids[n - 1]);
        } else {
          var i :| 0 <= i < |pre| && t.o == SegmentRef(pre[i]);
          assert pre[i] == ids[i];
        }
      }
      if t.s == OpstellingRef(fid) && t.p == HoortBij && exists i :: 0 <= i < n && t.o == SegmentRef(ids[i]) {
        var i :| 0 <= i < n && t.o == SegmentRef(ids[i]);
        if i < n - 1 {
          assert pre[i] == ids[i];
        } else {
          assert t == last;
        }
      }
    }
  }

  /** The links are the links of the sub-signs, each on its own. */
  lemma LinksMember(fid: int, bs: seq<Bord>, os: seq<Bord>, t: Triple)
    requires |bs| > 0 && |bs[|bs| - 1].bordCode| > 0
    ensures t in Links(fid, bs, os) <==> exists i :: 0 <= i < |os| && t in LinkFor(fid, bs, os[i])
  {
    if t in Links(fid, bs, os) {
      var i := LinksSound(fid, bs, os, t);
    }
    if exists i :: 0 <= i < |os| && t in LinkFor(fid, bs, os[i]) {
      var i :| 0 <= i < |os| && t in LinkFor(fid, bs, os[i]);
      LinksComplete(fid, bs, os, i, t);
    }
  }

  /** Every link is the link of one of the sub-signs. */
  lemma {:induction false} LinksSound(fid: int, bs: seq<Bord>, os: seq<Bord>, t: Triple) returns (i: nat)
    requires |bs| > 0 && |bs[|bs| - 1].bordCode| > 0 && t in Links(fid, bs, os)
    ensures i < |os| && t in LinkFor(fid, bs, os[i])
    decreases |os|
  {
    var pre := os[..|os| - 1];
    if t in Links(fid, bs, pre) {
      i := LinksSound(fid, bs, pre, t);
      assert pre[i] == os[i];
    } else {
      i := |os| - 1;
    }
  }

  /** The link of each sub-sign is among the links. */
  lemma {:induction false} LinksComplete(fid: int, bs: seq<Bord>, os: seq<Bord>, i: nat, t: Triple)
    requires |bs| > 0 && |bs[|bs| - 1].bordCode| > 0
    requires i < |os| && t in LinkFor(fid, bs, os[i])
    ensures t in Links(fid, bs, os)
    decreases |os|
  {
    var pre := os[..|os| - 1];
    if i < |os| - 1 {
      assert pre[i] == os[i];
      LinksComplete(fid, bs, pre, i, t);
    }
  }

  lemma LinksPredicate(fid: int, bs: seq<Bord>, t: Triple)
    requires CodesPresent(bs) && t in AllLinks(fid, bs)
    ensures t.p == HeeftOnderbord
  {
    LinksMember(fid, bs, Onderborden(bs), t);
  }

  /** Within one sign, the height statements are those of its height node. */
  lemma BordHeight(fid: int, b: Bord, h: nat, ovo: Option<string>, t: Triple)
    requires |b.bordCode| > 0 && t in BordTriples(fid, b, h, ovo)
    requires t.p == Opstelhoogte || t.p == SchemaValue || t.p == SchemaUnitCode
    ensures t in HeightTriples(BordRef(fid, b.id), b.y, h)
  {
  }

  /** Within one sign, the angle statement is about the installation. */
  lemma BordAngle(fid: int, b: Bord, h: nat, ovo: Option<string>, t: Triple)
    requires |b.bordCode| > 0 && t in BordTriples(fid, b, h, ovo) && t.p == Aanzicht
    ensures t == Triple(OpstellingRef(fid), Aanzicht, Lit(TenthsText(b.aanzichtHoek)))
  {
    VocabularyDistinct();
    BordParts(fid, b, h, ovo, t);
    if t in HeightTriples(BordRef(fid, b.id), b.y, h) {
      HeightParts(BordRef(fid, b.id), b.y, h, t);
    }
    if t in TekenTriples(fid, b) {
      TekenParts(fid, b, t);
    }
  }

  /** Whatever sign `k` adds, the feature's emission holds. */
  lemma SignInEmit(f: Feature, table: map<string, string>, transform: (string, string) -> (string, string), next: nat, k: nat)
    requires Emittable(f) && k < |f.borden.value|
    ensures SignAt(f, table, next, k).triples <= Emit(f, table, transform, next).triples
  {
    forall t | t in SignAt(f, table, next, k).triples
      ensures t in Signs(f, table, next).triples
    {
      EmitBordenComplete(f.id, table, f.beheerderCode, f.borden.value, next + 1, f.beheerderNaam, t, k);
    }
  }

  /** A statement with a sign's predicate was added by one of the signs. */
  lemma FromSign(f: Feature, table: map<string, string>, transform: (string, string) -> (string, string), next: nat, t: Triple)
    returns (k: nat)
    requires Emittable(f) && t in Emit(f, table, transform, next).triples && SignPredicate(t.p)
    ensures k < |f.borden.value| && t in SignAt(f, table, next, k).triples
  {
    VocabularyDistinct();
    var coords := f.coords.value;
    if t in HeaderTriples(f.id, next, transform(coords[0], coords[1])) {
      HeaderPredicates(f.id, next, transform(coords[0], coords[1]), t);
    }
    SegmentMember(f.id, f.wegsegmentIds.value, t);
    if t in AllLinks(f.id, f.borden.value) {
      LinksPredicate(f.id, f.borden.value, t);
    }
    k := EmitBordenSound(f.id, table, f.beheerderCode, f.borden.value, next + 1, f.beheerderNaam, t);
  }

  /** What sign `k` adds, in terms of the sign itself and the state it was reached in. */
  lemma SignAtIs(f: Feature, table: map<string, string>, next: nat, k: nat)
    requires Emittable(f) && k < |f.borden.value|
    ensures var before := SignBefore(f, table, next, k);
      SignAt(f, table, next, k).triples
        == BordTriples(f.id, f.borden.value[k], before.next, ResolveOwner(table, f.beheerderCode, before.naam).ovo)
  {
  }

  // ---------------------------------------------------------------- heights

  /** A sign gets a height statement exactly when it is above the ground (lines 65-71). */
  lemma HeightPerSign(f: Feature, table: map<string, string>, next: nat, k: nat)
    requires Emittable(f) && k < |f.borden.value|
    ensures var b := f.borden.value[k];
      (exists o :: Triple(BordRef(f.id, b.id), Opstelhoogte, o) in SignAt(f, table, next, k).triples) <==> b.y > 0
  {
    var b := f.borden.value[k];
    var h := SignBefore(f, table, next, k).next;
    SignAtIs(f, table, next, k);
    if b.y > 0 {
      assert Triple(BordRef(f.id, b.id), Opstelhoogte, BNode(h)) in SignAt(f, table, next, k).triples;
    }
  }

  /**
    Every sign above the ground has its height node, with the value `y / 1000`
    and the unit `MTR`, among the feature's statements.
   */
  lemma HeightComplete(f: Feature, table: map<string, string>, transform: (string, string) -> (string, string), next: nat, k: nat)
    requires Emittable(f) && k < |f.borden.value| && f.borden.value[k].y > 0
    ensures var b := f.borden.value[k];
      var h := SignBefore(f, table, next, k).next;
      && Triple(BordRef(f.id, b.id), Opstelhoogte, BNode(h)) in Emit(f, table, transform, next).triples
      && Triple(BNode(h), SchemaValue, TypedLit(MilliText(b.y), XsdDecimal)) in Emit(f, table, transform, next).triples
      && Triple(BNode(h), SchemaUnitCode, Lit("MTR")) in Emit(f, table, transform, next).triples
  {
    SignAtIs(f, table, next, k);
    SignInEmit(f, table, transform, next, k);
  }

  /** Every height statement belongs to a sign above the ground. */
  lemma HeightSound(f: Feature, table: map<string, string>, transform: (string, string) -> (string, string), next: nat, t: Triple)
    returns (k: nat)
    requires Emittable(f) && t in Emit(f, table, transform, next).triples
    requires t.p == Opstelhoogte || t.p == SchemaValue || t.p == SchemaUnitCode
    ensures k < |f.borden.value| && f.borden.value[k].y > 0
    ensures t in HeightTriples(BordRef(f.id, f.borden.value[k].id), f.borden.value[k].y, SignBefore(f, table, next, k).next)
  {
    k := FromSign(f, table, transform, next, t);
    SignAtIs(f, table, next, k);
    var before := SignBefore(f, table, next, k);
    BordHeight(f.id, f.borden.value[k], before.next, ResolveOwner(table, f.beheerderCode, before.naam).ovo, t);
  }

  // ---------------------------------------------------------------- road segments and angles

  /** The `hoortBij` statements are exactly one per road-segment id, from the installation (lines 47-51). */
  lemma SegmentsExact(f: Feature, table: map<string, string>, transform: (string, string) -> (string, string), next: nat, t: Triple)
    requires Emittable(f) && t.p == HoortBij
    ensures t in Emit(f, table, transform, next).triples <==>
      t.s == OpstellingRef(f.id) && exists i :: 0 <= i < |f.wegsegmentIds.value| && t.o == SegmentRef(f.wegsegmentIds.value[i])
  {
    VocabularyDistinct();
    SegmentMember(f.id, f.wegsegmentIds.value, t);
    var coords := f.coords.value;
    if t in HeaderTriples(f.id, next, transform(coords[0], coords[1])) {
      HeaderPredicates(f.id, next, transform(coords[0], coords[1]), t);
    }
    if t in AllLinks(f.id, f.borden.value) {
      LinksPredicate(f.id, f.borden.value, t);
    }
    if t in Signs(f, table, next).triples {
      var k := EmitBordenSound(f.id, table, f.beheerderCode, f.borden.value, next + 1, f.beheerderNaam, t);
      SignAtIs(f, table, next, k);
      BordPredicates(f.id, f.borden.value[k], SignBefore(f, table, next, k).next,
        ResolveOwner(table, f.beheerderCode, SignBefore(f, table, next, k).naam).ovo, t);
    }
  }

  /**
    The angle statements hang on the installation, not on the sign, and carry
    the angles of the signs (lines 74-75).
   */
  lemma AnglesExact(f: Feature, table: map<string, string>, transform: (string, string) -> (string, string), next: nat, t: Triple)
    requires Emittable(f) && t.p == Aanzicht
    ensures t in Emit(f, table, transform, next).triples <==>
      t.s == OpstellingRef(f.id) && exists k :: 0 <= k < |f.borden.value| && t.o == Lit(TenthsText(f.borden.value[k].aanzichtHoek))
  {
    if t in Emit(f, table, transform, next).triples {
      var k := FromSign(f, table, transform, next, t);
      SignAtIs(f, table, next, k);
      var before := SignBefore(f, table, next, k);
      BordAngle(f.id, f.borden.value[k], before.next, ResolveOwner(table, f.beheerderCode, before.naam).ovo, t);
    }
    if t.s == OpstellingRef(f.id) && exists k :: 0 <= k < |f.borden.value| && t.o == Lit(TenthsText(f.borden.value[k].aanzichtHoek)) {
      var k :| 0 <= k < |f.borden.value| && t.o == Lit(TenthsText(f.borden.value[k].aanzichtHoek));
      SignAtIs(f, table, next, k);
      SignInEmit(f, table, transform, next, k);
    }
  }

  // ---------------------------------------------------------------- the state threaded through the signs

  /**
    The sign loop starts from the feature's own owner name and the counter
    after the geometry node; each sign moves the counter on by one exactly when
    it is above the ground, and leaves behind the owner name its lookup ended with.
   */
  lemma SignThreading(f: Feature, table: map<string, string>, next: nat, k: nat)
    requires Emittable(f) && k < |f.borden.value|
    ensures SignBefore(f, table, next, 0) == Step({}, next + 1, f.beheerderNaam)
    ensures var before := SignBefore(f, table, next, k);
      && SignBefore(f, table, next, k + 1).next == before.next + (if f.borden.value[k].y > 0 then 1 else 0)
      && SignBefore(f, table, next, k + 1).naam == ResolveOwner(table, f.beheerderCode, before.naam).naam
  {
    assert f.borden.value[..0] == [];
    BeforeNext(f.id, table, f.beheerderCode, f.borden.value, next + 1, f.beheerderNaam, k);
  }

  /** After the last sign, the emission's counter and owner name are the loop's. */
  lemma SignsEnd(f: Feature, table: map<string, string>, transform: (string, string) -> (string, string), next: nat)
    requires Emittable(f)
    ensures Emit(f, table, transform, next).next == SignBefore(f, table, next, |f.borden.value|).next
    ensures Emit(f, table, transform, next).naam == SignBefore(f, table, next, |f.borden.value|).naam
  {
    assert f.borden.value[..|f.borden.value|] == f.borden.value;
  }

  /**
    Once a sign's code and name have both failed, the next sign looks up the
    normalised name directly: the overwrite of line 82 persists (lines 80-82).
   */
  lemma NormalisedNameCarriesOver(f: Feature, table: map<string, string>, next: nat, k: nat)
    requires Emittable(f) && k + 1 < |f.borden.value|
    requires f.beheerderCode !in table && SignBefore(f, table, next, k).naam !in table
    requires NormaliseName(SignBefore(f, table, next, k).naam) in table
    ensures var n := NormaliseName(SignBefore(f, table, next, k).naam);
      && SignBefore(f, table, next, k + 1).naam == n
      && ResolveOwner(table, f.beheerderCode, SignBefore(f, table, next, k + 1).naam) == Owner(Some(table[n]), n)
  {
    SignThreading(f, table, next, k);
  }

  // ---------------------------------------------------------------- owners

  lemma BordOwner(fid: int, b: Bord, h: nat, ovo: Option<string>, t: Triple)
    requires |b.bordCode| > 0 && t in BordTriples(fid, b, h, ovo) && t.p == Beheerder
    ensures ovo.Some? && t == Triple(BordRef(fid, b.id), Beheerder, OrgRef(ovo.value))
  {
    BordParts(fid, b, h, ovo, t);
    if t in HeightTriples(BordRef(fid, b.id), b.y, h) {
      HeightParts(BordRef(fid, b.id), b.y, h, t);
    }
    if t in TekenTriples(fid, b) {
      TekenParts(fid, b, t);
    }
  }

  /**
    Sign `k` gets an owner statement exactly when the lookup chain resolves for
    the owner name the feature has at that point, and the statement names the
    organisation found (lines 78-87).
   */
  lemma OwnerPerSign(f: Feature, table: map<string, string>, transform: (string, string) -> (string, string), next: nat, k: nat)
    requires Emittable(f) && k < |f.borden.value|
    ensures var b := f.borden.value[k];
      var r := ResolveOwner(table, f.beheerderCode, SignBefore(f, table, next, k).naam);
      && ((exists o :: Triple(BordRef(f.id, b.id), Beheerder, o) in SignAt(f, table, next, k).triples) <==> r.ovo.Some?)
      && (r.ovo.Some? ==> Triple(BordRef(f.id, b.id), Beheerder, OrgRef(r.ovo.value)) in Emit(f, table, transform, next).triples)
  {
    var b := f.borden.value[k];
    var before := SignBefore(f, table, next, k);
    var r := ResolveOwner(table, f.beheerderCode, before.naam);
    SignAtIs(f, table, next, k);
    SignInEmit(f, table, transform, next, k);
    if exists o :: Triple(BordRef(f.id, b.id), Beheerder, o) in SignAt(f, table, next, k).triples {
      var o :| Triple(BordRef(f.id, b.id), Beheerder, o) in SignAt(f, table, next, k).triples;
      BordOwner(f.id, b, before.next, r.ovo, Triple(BordRef(f.id, b.id), Beheerder, o));
    }
    if r.ovo.Some? {
      assert Triple(BordRef(f.id, b.id), Beheerder, OrgRef(r.ovo.value)) in SignAt(f, table, next, k).triples;
    }
  }

  /** Every owner statement is a sign's, naming the organisation its lookup found. */
  lemma OwnerSound(f: Feature, table: map<string, string>, transform: (string, string) -> (string, string), next: nat, t: Triple)
    returns (k: nat)
    requires Emittable(f) && t in Emit(f, table, transform, next).triples && t.p == Beheerder
    ensures k < |f.borden.value|
    ensures var r := ResolveOwner(table, f.beheerderCode, SignBefore(f, table, next, k).naam);
      r.ovo.Some? && t == Triple(BordRef(f.id, f.borden.value[k].id), Beheerder, OrgRef(r.ovo.value))
  {
    k := FromSign(f, table, transform, next, t);
    SignAtIs(f, table, next, k);
    var before := SignBefore(f, table, next, k);
    BordOwner(f.id, f.borden.value[k], before.next, ResolveOwner(table, f.beheerderCode, before.naam).ovo, t);
  }

  /** `Provincie Vlaams Brabant` normalises to `Vlaams-Brabant`. */
  lemma ProvinceNameExample(naam: string, rest: string)
    requires rest == "Vlaams Brabant" && naam == "Provincie " + rest
    ensures NormaliseName(naam) == "Vlaams-Brabant"
  {
    MissingChar(naam, " (na 2019)", '(');
    MissingChar(rest, "Provincie ", 'P');
    ReplaceLeading("Provincie ", rest, "");
    assert "" + rest == rest;
    ReplaceLeading(rest, "", "Vlaams-Brabant");
    assert rest + "" == rest;
  }

  /**
    `Provincie Vlaams Brabant` is not found as it stands and leaves the
    feature named `Vlaams-Brabant`, under which the next sign finds it.
   */
  lemma ProvinceOwnerExample(naam: string, normalised: string, table: map<string, string>)
    requires naam == "Provincie " + "Vlaams Brabant" && normalised == "Vlaams-Brabant"
    requires table == map[normalised := "OVO000001"]
    ensures ResolveOwner(table, "", naam) == Owner(None, normalised)
    ensures ResolveOwner(table, "", ResolveOwner(table, "", naam).naam) == Owner(Some("OVO000001"), normalised)
  {
    assert "" !in table && normalised in table;
    assert naam !in table by {
      assert |naam| != |normalised|;
    }
    ProvinceNameExample(naam, "Vlaams Brabant");
    MissingChar(normalised, "Gemeente", 'G');
    assert ResolveOwner(table, "", naam) == Owner(None, normalised);
  }

  /** A municipality's name without `(`, `P` or `V` after `Gemeente` is left as it is by the rewrites of line 82. */
  lemma CityNameNormalised(place: string)
    requires '(' !in place && 'P' !in place && 'V' !in place
    ensures NormaliseName("Gemeente" + place) == "Gemeente" + place
  {
    var naam := "Gemeente" + place;
    MissingChar(naam, " (na 2019)", '(');
    MissingChar(naam, "Provincie ", 'P');
    MissingChar(naam, "Vlaams Brabant", 'V');
  }

  /** `Gemeente` followed by a place without `G` reads `Stad` and the place after the rewrite of line 84. */
  lemma CityNameRetried(place: string)
    requires 'G' !in place
    ensures Contains("Gemeente" + place, "Gemeente")
    ensures Replace("Gemeente" + place, "Gemeente", "Stad") == "Stad" + place
  {
    var naam := "Gemeente" + place;
    assert naam[0..8] == "Gemeente";
    ContainsAt(naam, "Gemeente", 0);
    MissingChar(place, "Gemeente", 'G');
    ReplaceLeading("Gemeente", place, "Stad");
  }

  /** A municipality missing under `Gemeente` is found under `Stad`, and keeps its name (lines 78-87). */
  lemma CityOwnerExample(place: string, code: string, table: map<string, string>)
    requires '(' !in place && 'P' !in place && 'V' !in place && 'G' !in place
    requires code !in table && "Gemeente" + place !in table && "Stad" + place in table
    ensures ResolveOwner(table, code, "Gemeente" + place) == Owner(Some(table["Stad" + place]), "Gemeente" + place)
  {
    CityNameNormalised(place);
    CityNameRetried(place);
  }

  // ---------------------------------------------------------------- variable inscriptions

  lemma BordInscription(fid: int, b: Bord, h: nat, ovo: Option<string>, t: Triple)
    requires |b.bordCode| > 0 && t in BordTriples(fid, b, h, ovo) && t.p == VariabelOpschrift
    ensures IsG(b) && |b.parameters| > 0
    ensures t == Triple(TekenRef(fid, b.id), VariabelOpschrift, Lit(Join(" ", b.parameters)))
  {
    VocabularyDistinct();
    BordParts(fid, b, h, ovo, t);
    if t in HeightTriples(BordRef(fid, b.id), b.y, h) {
      HeightParts(BordRef(fid, b.id), b.y, h, t);
    }
    if t in TekenTriples(fid, b) {
      TekenParts(fid, b, t);
    }
  }

  /**
    The variable inscriptions are exactly those of the G-signs with
    parameters: the parameters joined by single spaces, on the sign's
    `_teken` node (lines 95-97).
   */
  lemma InscriptionsExact(f: Feature, table: map<string, string>, transform: (string, string) -> (string, string), next: nat, t: Triple)
    requires Emittable(f) && t.p == VariabelOpschrift
    ensures t in Emit(f, table, transform, next).triples <==>
      exists k :: 0 <= k < |f.borden.value| && IsG(f.borden.value[k]) && |f.borden.value[k].parameters| > 0
        && t == Triple(TekenRef(f.id, f.borden.value[k].id), VariabelOpschrift, Lit(Join(" ", f.borden.value[k].parameters)))
  {
    var bs := f.borden.value;
    if t in Emit(f, table, transform, next).triples {
      var k := FromSign(f, table, transform, next, t);
      SignAtIs(f, table, next, k);
      var before := SignBefore(f, table, next, k);
      BordInscription(f.id, bs[k], before.next, ResolveOwner(table, f.beheerderCode, before.naam).ovo, t);
    }
    if exists k :: 0 <= k < |bs| && IsG(bs[k]) && |bs[k].parameters| > 0
        && t == Triple(TekenRef(f.id, bs[k].id), VariabelOpschrift, Lit(Join(" ", bs[k].parameters))) {
      var k :| 0 <= k < |bs| && IsG(bs[k]) && |bs[k].parameters| > 0
        && t == Triple(TekenRef(f.id, bs[k].id), VariabelOpschrift, Lit(Join(" ", bs[k].parameters)));
      SignAtIs(f, table, next, k);
      SignInEmit(f, table, transform, next, k);
    }
  }

  // ---------------------------------------------------------------- sub-sign links

  /** The sign loop's statements use only the signs' predicates. */
  lemma SignsPredicate(f: Feature, table: map<string, string>, next: nat, t: Triple)
    requires Emittable(f) && t in Signs(f, table, next).triples
    ensures SignPredicate(t.p)
  {
    var k := EmitBordenSound(f.id, table, f.beheerderCode, f.borden.value, next + 1, f.beheerderNaam, t);
    SignAtIs(f, table, next, k);
    var before := SignBefore(f, table, next, k);
    BordPredicates(f.id, f.borden.value[k], before.next, ResolveOwner(table, f.beheerderCode, before.naam).ovo, t);
  }

  /**
    `t` links a sub-sign of `bs` to its parent: a G-sign with a height other
    than 0 and at least one candidate, linked from the `_teken` node of the parent chosen
    among the candidates to its own `_teken` node.
   */
  predicate LinkedBy(fid: int, bs: seq<Bord>, t: Triple)
    requires CodesPresent(bs)
  {
    && |bs| > 0
    && exists o :: o in bs && IsG(o) && o.y != 0 && |Candidates(bs, o, bs[|bs| - 1])| > 0
         && t == LinkTriple(fid, Parent(Candidates(bs, o, bs[|bs| - 1])), o)
  }

  /** The parts of a feature's emission. */
  lemma EmitParts(f: Feature, table: map<string, string>, transform: (string, string) -> (string, string), next: nat, t: Triple)
    requires Emittable(f)
    ensures var coords := f.coords.value;
      t in Emit(f, table, transform, next).triples <==>
        || t in HeaderTriples(f.id, next, transform(coords[0], coords[1]))
        || t in SegmentTriples(f.id, f.wegsegmentIds.value)
        || t in Signs(f, table, next).triples
        || t in AllLinks(f.id, f.borden.value)
  {
  }

  /** Only the links use `heeftOnderbord`. */
  lemma LinkStatements(f: Feature, table: map<string, string>, transform: (string, string) -> (string, string), next: nat, t: Triple)
    requires Emittable(f) && t.p == HeeftOnderbord
    ensures t in Emit(f, table, transform, next).triples <==> t in AllLinks(f.id, f.borden.value)
  {
    var coords := f.coords.value;
    EmitParts(f, table, transform, next, t);
    assert t !in HeaderTriples(f.id, next, transform(coords[0], coords[1])) by {
      if t in HeaderTriples(f.id, next, transform(coords[0], coords[1])) {
        HeaderPredicates(f.id, next, transform(coords[0], coords[1]), t);
      }
    }
    assert t !in SegmentTriples(f.id, f.wegsegmentIds.value) by {
      SegmentMember(f.id, f.wegsegmentIds.value, t);
    }
    assert t !in Signs(f, table, next).triples by {
      if t in Signs(f, table, next).triples {
        SignsPredicate(f, table, next, t);
      }
    }
  }

  lemma LinkForMember(fid: int, bs: seq<Bord>, o: Bord, t: Triple)
    requires |bs| > 0 && |bs[|bs| - 1].bordCode| > 0
    ensures t in LinkFor(fid, bs, o) <==>
      o.y != 0 && |Candidates(bs, o, bs[|bs| - 1])| > 0 && t == LinkTriple(fid, Parent(Candidates(bs, o, bs[|bs| - 1])), o)
  {
  }

  lemma AllLinksSound(fid: int, bs: seq<Bord>, t: Triple)
    requires CodesPresent(bs) && t in AllLinks(fid, bs)
    ensures LinkedBy(fid, bs, t)
  {
    var os := Onderborden(bs);
    LinksMember(fid, bs, os, t);
    var i :| 0 <= i < |os| && t in LinkFor(fid, bs, os[i]);
    var o := os[i];
    OnderbordenMember(bs, o);
    LinkForMember(fid, bs, o, t);
  }

  lemma AllLinksComplete(fid: int, bs: seq<Bord>, t: Triple)
    requires CodesPresent(bs) && LinkedBy(fid, bs, t)
    ensures t in AllLinks(fid, bs)
  {
    var o :| o in bs && IsG(o) && o.y != 0 && |Candidates(bs, o, bs[|bs| - 1])| > 0
      && t == LinkTriple(fid, Parent(Candidates(bs, o, bs[|bs| - 1])), o);
    var os := Onderborden(bs);
    OnderbordenMember(bs, o);
    var i :| 0 <= i < |os| && os[i] == o;
    LinkForMember(fid, bs, o, t);
    LinksMember(fid, bs, os, t);
  }

  /** The links of a sign list are those of its G-signs. */
  lemma AllLinksMember(fid: int, bs: seq<Bord>, t: Triple)
    requires CodesPresent(bs)
    ensures t in AllLinks(fid, bs) <==> LinkedBy(fid, bs, t)
  {
    if t in AllLinks(fid, bs) {
      AllLinksSound(fid, bs, t);
    }
    if LinkedBy(fid, bs, t) {
      AllLinksComplete(fid, bs, t);
    }
  }

  /** The `heeftOnderbord` statements are exactly the links of the sub-signs (lines 106-122). */
  lemma LinksExact(f: Feature, table: map<string, string>, transform: (string, string) -> (string, string), next: nat, t: Triple)
    requires Emittable(f) && t.p == HeeftOnderbord
    ensures t in Emit(f, table, transform, next).triples <==> LinkedBy(f.id, f.borden.value, t)
  {
    LinkStatements(f, table, transform, next, t);
    AllLinksMember(f.id, f.borden.value, t);
  }

  /** When the last sign is a G-sign, no sign is a candidate: the filter reads the last sign (line 110). */
  lemma {:induction false} NoCandidatesUnderLastG(bs: seq<Bord>, o: Bord, last: Bord)
    requires |last.bordCode| > 0 && IsG(last)
    ensures Candidates(bs, o, last) == []
    decreases |bs|
  {
    if |bs| > 0 {
      NoCandidatesUnderLastG(bs[..|bs| - 1], o, last);
    }
  }

  /** A feature whose last sign is a G-sign gets no links at all. */
  lemma NoLinksUnderLastG(f: Feature, table: map<string, string>, transform: (string, string) -> (string, string), next: nat, t: Triple)
    requires Emittable(f) && |f.borden.value| > 0 && IsG(f.borden.value[|f.borden.value| - 1])
    requires t.p == HeeftOnderbord
    ensures t !in Emit(f, table, transform, next).triples
  {
    var bs := f.borden.value;
    LinksExact(f, table, transform, next, t);
    forall o | o in bs
      ensures |Candidates(bs, o, bs[|bs| - 1])| == 0
    {
      NoCandidatesUnderLastG(bs, o, bs[|bs| - 1]);
    }
  }

  /** A sign with only the fields the linking reads set. */
  function Plate(id: int, code: string, y: int): Bord {
    Bord(id, 0, None, None, code, [], None, 0, y, 0, 0, "", None)
  }

  /** Under signs at 800 and 1200, a sub-sign at 300 hangs under the one at 1200. */
  lemma TallestParentExample(fid: int)
    ensures var low := Plate(1, "C43", 800);
      var sub := Plate(3, "GIII", 300);
      var high := Plate(2, "E9a", 1200);
      LinkFor(fid, [low, sub, high], sub) == {LinkTriple(fid, high, sub)}
  {
    var low := Plate(1, "C43", 800);
    var sub := Plate(3, "GIII", 300);
    var high := Plate(2, "E9a", 1200);
    var bs := [low, sub, high];
    assert [low][..0] == [];
    assert Candidates([low], sub, high) == [low];
    assert [low, sub][..1] == [low];
    assert Candidates([low, sub], sub, high) == [low];
    assert bs[..2] == [low, sub];
    assert Candidates(bs, sub, high) == [low, high];
    assert [low, high][..1] == [low];
    assert SortByY([low, high]) == [low, high];
  }

  /** A sub-sign on the ground gets no link. */
  lemma GroundSubSignExample(fid: int)
    ensures var high := Plate(2, "E9a", 1200);
      var sub := Plate(3, "GIII", 0);
      LinkFor(fid, [sub, high], sub) == {}
  {
  }

  /** With a G-sign last, even a sub-sign under a taller sign gets no link. */
  lemma LastSubSignExample(fid: int)
    ensures var high := Plate(2, "E9a", 1200);
      var sub := Plate(3, "GIII", 300);
      LinkFor(fid, [high, sub], sub) == {}
  {
    var high := Plate(2, "E9a", 1200);
    var sub := Plate(3, "GIII", 300);
    NoCandidatesUnderLastG([high, sub], sub, sub);
  }

  // ---------------------------------------------------------------- blank nodes

  /** The statements that involve no blank node. */
  function Named(s: set<Triple>): set<Triple> {
    set t | t in s && !t.s.BNode? && !t.o.BNode?
  }

  lemma NamedUnion(a: set<Triple>, b: set<Triple>)
    ensures Named(a + b) == Named(a) + Named(b)
  {
  }

  lemma BordNamed(fid: int, b: Bord, h1: nat, h2: nat, ovo: Option<string>)
    requires |b.bordCode| > 0
    ensures Named(BordTriples(fid, b, h1, ovo)) == Named(BordTriples(fid, b, h2, ovo))
  {
    var bord := BordRef(fid, b.id);
    assert Named(HeightTriples(bord, b.y, h1)) == {} == Named(HeightTriples(bord, b.y, h2));
    forall t | t in BordTriples(fid, b, h1, ovo) && !t.s.BNode? && !t.o.BNode?
      ensures t in BordTriples(fid, b, h2, ovo)
    {
    }
    forall t | t in BordTriples(fid, b, h2, ovo) && !t.s.BNode? && !t.o.BNode?
      ensures t in BordTriples(fid, b, h1, ovo)
    {
    }
  }

  /** The sign loop started from two counters: the same named statements, the same name, the same count of blank nodes. */
  lemma {:induction false} EmitBordenNamed(
    fid: int, table: map<string, string>, code: string, bs: seq<Bord>, n1: nat, n2: nat, naam: string)
    requires CodesPresent(bs)
    ensures var e1 := EmitBorden(fid, table, code, bs, n1, naam);
      var e2 := EmitBorden(fid, table, code, bs, n2, naam);
      Named(e1.triples) == Named(e2.triples) && e1.naam == e2.naam && e1.next - n1 == e2.next - n2
    decreases |bs|
  {
    if |bs| > 0 {
      var pre := bs[..|bs| - 1];
      var b := bs[|bs| - 1];
      EmitBordenNamed(fid, table, code, pre, n1, n2, naam);
      var p1 := EmitBorden(fid, table, code, pre, n1, naam);
      var p2 := EmitBorden(fid, table, code, pre, n2, naam);
      var s1 := BordStep(fid, table, code, b, p1.next, p1.naam);
      var s2 := BordStep(fid, table, code, b, p2.next, p2.naam);
      BordNamed(fid, b, p1.next, p2.next, ResolveOwner(table, code, p1.naam).ovo);
      NamedUnion(p1.triples, s1.triples);
      NamedUnion(p2.triples, s2.triples);
    }
  }

  /** Two sets with the same statements free of blank nodes have the same named part. */
  lemma NamedEqual(a: set<Triple>, b: set<Triple>)
    requires forall t: Triple :: !t.s.BNode? && !t.o.BNode? ==> (t in a <==> t in b)
    ensures Named(a) == Named(b)
  {
  }

  lemma HeaderNamed(fid: int, g1: nat, g2: nat, latLong: (string, string), t: Triple)
    requires !t.s.BNode? && !t.o.BNode?
    ensures t in HeaderTriples(fid, g1, latLong) <==> t in HeaderTriples(fid, g2, latLong)
  {
  }

  /**
    Emitting a feature again, with the counter elsewhere, gives the same named
    statements and the same owner name: only the blank nodes are new.
   */
  lemma NamedStatementsIndependentOfCounter(
    f: Feature, table: map<string, string>, transform: (string, string) -> (string, string), n1: nat, n2: nat)
    requires Emittable(f)
    ensures var e1 := Emit(f, table, transform, n1);
      var e2 := Emit(f, table, transform, n2);
      Named(e1.triples) == Named(e2.triples) && e1.naam == e2.naam && e1.next - n1 == e2.next - n2
  {
    var coords := f.coords.value;
    var ll := transform(coords[0], coords[1]);
    EmitBordenNamed(f.id, table, f.beheerderCode, f.borden.value, n1 + 1, n2 + 1, f.beheerderNaam);
    var s1 := Signs(f, table, n1).triples;
    var s2 := Signs(f, table, n2).triples;
    forall t: Triple | !t.s.BNode? && !t.o.BNode?
      ensures t in Emit(f, table, transform, n1).triples <==> t in Emit(f, table, transform, n2).triples
    {
      EmitParts(f, table, transform, n1, t);
      EmitParts(f, table, transform, n2, t);
      HeaderNamed(f.id, n1, n2, ll, t);
      assert t in s1 <==> t in Named(s1);
      assert t in s2 <==> t in Named(s2);
    }
    NamedEqual(Emit(f, table, transform, n1).triples, Emit(f, table, transform, n2).triples);
  }

  lemma BordBlanks(fid: int, b: Bord, h: nat, ovo: Option<string>, t: Triple)
    requires |b.bordCode| > 0 && t in BordTriples(fid, b, h, ovo)
    ensures BlankIn(t, h, if b.y > 0 then h + 1 else h)
  {
    BordParts(fid, b, h, ovo, t);
  }

  lemma {:induction false} EmitBordenBlanks(
    fid: int, table: map<string, string>, code: string, bs: seq<Bord>, next: nat, naam: string, t: Triple)
    requires CodesPresent(bs) && t in EmitBorden(fid, table, code, bs, next, naam).triples
    ensures BlankIn(t, next, EmitBorden(fid, table, code, bs, next, naam).next)
    decreases |bs|
  {
    var pre := EmitBorden(fid, table, code, bs[..|bs| - 1], next, naam);
    var b := bs[|bs| - 1];
    if t in pre.triples {
      EmitBordenBlanks(fid, table, code, bs[..|bs| - 1], next, naam, t);
    } else {
      BordBlanks(fid, b, pre.next, ResolveOwner(table, code, pre.naam).ovo, t);
    }
  }

  lemma LinksNamed(fid: int, bs: seq<Bord>, t: Triple)
    requires CodesPresent(bs) && t in AllLinks(fid, bs)
    ensures !t.s.BNode? && !t.o.BNode?
  {
    AllLinksMember(fid, bs, t);
  }

  /**
    Every blank node a feature's statements use is numbered from `next` up to
    the emission's new counter: none is shared with statements made before.
   */
  lemma BlankNodesFresh(f: Feature, table: map<string, string>, transform: (string, string) -> (string, string), next: nat, t: Triple)
    requires Emittable(f) && t in Emit(f, table, transform, next).triples
    ensures BlankIn(t, next, Emit(f, table, transform, next).next)
  {
    var coords := f.coords.value;
    var e := Emit(f, table, transform, next);
    var signs := Signs(f, table, next);
    EmitParts(f, table, transform, next, t);
    if t in signs.triples {
      EmitBordenBlanks(f.id, table, f.beheerderCode, f.borden.value, next + 1, f.beheerderNaam, t);
      BlankWiden(t, next + 1, signs.next, next, e.next);
    } else if t in AllLinks(f.id, f.borden.value) {
      LinksNamed(f.id, f.borden.value, t);
    } else if t in SegmentTriples(f.id, f.wegsegmentIds.value) {
      SegmentMember(f.id, f.wegsegmentIds.value, t);
    } else {
      HeaderBlanks(f.id, next, transform(coords[0], coords[1]), t);
      BlankWiden(t, next, next + 1, next, e.next);
    }
  }

  lemma BlankWiden(t: Triple, lo: nat, hi: nat, lo2: nat, hi2: nat)
    requires BlankIn(t, lo, hi) && lo2 <= lo && hi <= hi2
    ensures BlankIn(t, lo2, hi2)
  {
  }

  lemma HeaderBlanks(fid: int, g: nat, latLong: (string, string), t: Triple)
    requires t in HeaderTriples(fid, g, latLong)
    ensures BlankIn(t, g, g + 1)
  {
  }

  /** Sign `k` moves the counter on by one exactly when it is above the ground. */
  lemma SignCounter(f: Feature, table: map<string, string>, next: nat, k: nat)
    requires Emittable(f) && k < |f.borden.value|
    ensures SignBefore(f, table, next, k + 1).next
      == SignBefore(f, table, next, k).next + (if f.borden.value[k].y > 0 then 1 else 0)
  {
    BeforeNext(f.id, table, f.beheerderCode, f.borden.value, next + 1, f.beheerderNaam, k);
  }

  /**
    The geometry node comes first, and every sign above the ground gets a
    height node of its own, numbered after those of the signs before it.
   */
  lemma {:induction false} HeightNodesDistinct(f: Feature, table: map<string, string>, next: nat, k1: nat, k2: nat)
    requires Emittable(f) && k1 < k2 <= |f.borden.value| && f.borden.value[k1].y > 0
    ensures next < SignBefore(f, table, next, k1).next < SignBefore(f, table, next, k2).next
    decreases k2
  {
    SignCounter(f, table, next, k2 - 1);
    if k1 < k2 - 1 {
      HeightNodesDistinct(f, table, next, k1, k2 - 1);
    } else {
      SignsGrow(f, table, next, k1);
    }
  }

  lemma {:induction false} SignsGrow(f: Feature, table: map<string, string>, next: nat, k: nat)
    requires Emittable(f) && k <= |f.borden.value|
    ensures next < SignBefore(f, table, next, k).next
    decreases k
  {
    if k == 0 {
      assert f.borden.value[..0] == [];
    } else {
      SignCounter(f, table, next, k - 1);
      SignsGrow(f, table, next, k - 1);
    }
  }
}
