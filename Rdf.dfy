/**
  Graph terms and the fixed vocabulary the emitter writes and the query engine
  follows. rdflib's URIRef, BNode and Literal become the three kinds of `Node`;
  a blank node is identified by a number, which the emitter draws from a counter.
 */
module Rdf {
  import opened Text

  datatype Node =
    | IRI(iri: string)
    | BNode(id: nat)
    | Lit(text: string)
    | TypedLit(text: string, dtype: string)

  datatype Triple = Triple(s: Node, p: Node, o: Node)

  const MobNs: string := "https://data.vlaanderen.be/ns/mobiliteit#"
  /** Written as host + path: the verifier reads the characters of a short literal, and `OsloGraph.SignRefsDistinct` needs them. */
  const VkbNs: string := "https://apps.mow.vlaanderen.be/" + "verkeersborden/rest/zi/verkeersborden/"
  const AssetNs: string := "https://data.awvvlaanderen.be/id/asset/"
  const WrNs: string := "https://www.vlaanderen.be/digitaal-vlaanderen/onze-oplossingen/wegenregister/"
  const OrgNs: string := "https://data.vlaanderen.be/doc/organisatie/"
  const XsdDecimal: string := "http://www.w3.org/2001/XMLSchema#decimal"

  const RdfType: Node := IRI("http://www.w3.org/1999/02/22-rdf-syntax-ns#type")
  const Opstelling: Node := IRI(MobNs + "Opstelling")
  const Geometry: Node := IRI("http://www.w3.org/ns/locn#geometry")
  const GeoPoint: Node := IRI("http://www.w3.org/2003/01/geo/wgs84_pos#Point")
  const GeoLat: Node := IRI("http://www.w3.org/2003/01/geo/wgs84_pos#lat")
  const GeoLong: Node := IRI("http://www.w3.org/2003/01/geo/wgs84_pos#long")
  const HoortBij: Node := IRI(MobNs + "hoortBij")
  const OmvatVerkeersbord: Node := IRI(MobNs + "omvatVerkeersbord")
  const Opstelhoogte: Node := IRI(MobNs + "opstelhoogte")
  const SchemaValue: Node := IRI("https://schema.org/value")
  const SchemaUnitCode: Node := IRI("https://schema.org/unitCode")
  const Aanzicht: Node := IRI(MobNs + "aanzicht")
  const Beheerder: Node := IRI("https://data.vlaanderen.be/ns/openbaardomein#beheerder")
  const Realiseert: Node := IRI(MobNs + "realiseert")
  const VariabelOpschrift: Node := IRI(MobNs + "variabelOpschrift")
  const HeeftVerkeersbordconcept: Node := IRI(MobNs + "heeftVerkeersbordconcept")
  const PrefLabel: Node := IRI("http://www.w3.org/2004/02/skos/core#prefLabel")
  const HeeftOnderbord: Node := IRI(MobNs + "heeftOnderbord")

  /** The vocabulary terms of equal length are told apart by one character after the namespace. */
  lemma VocabularyDistinct()
    ensures HoortBij != Aanzicht
    ensures OmvatVerkeersbord != VariabelOpschrift
    ensures Opstelling != Realiseert
    ensures GeoPoint != PrefLabel
  {
    assert HoortBij.iri[41] != Aanzicht.iri[41];
    assert OmvatVerkeersbord.iri[41] != VariabelOpschrift.iri[41];
    assert Opstelling.iri[41] != Realiseert.iri[41];
    assert GeoPoint.iri[21] != PrefLabel.iri[21];
  }

  /**
    Python's `str()` of a term: the IRI or the literal's lexical form. rdflib
    names blank nodes with generated identifiers; here they are `N` and the number.
   */
  function NodeText(n: Node): string {
    match n
    case IRI(iri) => iri
    case BNode(id) => "N" + NatText(id)
    case Lit(text) => text
    case TypedLit(text, _) => text
  }
}
