/**
  What `VkbFeatureToOSLOProcessor.process_to_oslo` adds to its graph, as
  functions of the feature, the owner table, the coordinate transformation and
  the first unused blank-node number. The processor class in
  `VkbFeatureToOSLOProcessor.dfy` is proved to add exactly these triples.

  Line numbers in this module are those of `CreatingData/VkbFeatureToOSLOProcessor.py`.
 */
module OsloGraph {
  import opened Wrappers
  import opened Text
  import opened Rdf
  import opened VkbFeature

  // ---------------------------------------------------------------- named nodes

  function OpstellingRef(fid: int): Node {
    IRI(VkbNs + IntText(fid))
  }

  /** `{feature.id}_bord_{bord.id}`, the stem of every sign node. */
  function SignKey(fid: int, bid: int): string {
    IntText(fid) + "_bord_" + IntText(bid)
  }

  function BordRef(fid: int, bid: int): Node {
    IRI(AssetNs + SignKey(fid, bid))
  }

  function TekenRef(fid: int, bid: int): Node {
    IRI(AssetNs + SignKey(fid, bid) + "_teken")
  }

  function ConceptRef(fid: int, bid: int): Node {
    IRI(AssetNs + SignKey(fid, bid) + "_concept")
  }

  function SegmentRef(id: string): Node {
    IRI(WrNs + id)
  }

  function OrgRef(ovo: string): Node {
    IRI(OrgNs + ovo)
  }

  /** Two texts without `_`, each followed by nothing or by something opening with `_`, split apart the same way. */
  lemma SplitAtUnderscore(x: string, y: string, u: string, v: string)
    requires '_' !in x && '_' !in u
    requires |y| > 0 ==> y[0] == '_'
    requires |v| > 0 ==> v[0] == '_'
    requires x + y == u + v
    ensures x == u && y == v
  {
    var w := x + y;
    assert forall k :: 0 <= k < |x| ==> w[k] == x[k] && w[k] != '_';
    assert forall k :: 0 <= k < |u| ==> w[k] == u[k] && w[k] != '_';
    assert |y| > 0 ==> w[|x|] == '_';
    assert w == u + v;
    assert |v| > 0 ==> w[|u|] == '_';
    assert |x| == |u|;
    assert x == w[..|x|] && u == w[..|u|];
    assert y == w[|x|..] && v == w[|u|..];
  }

  predicate IsSuffix(s: string) {
    s == "" || s == "_teken" || s == "_concept"
  }

  lemma StripPrefix(p: string, x: string, y: string)
    requires p + x == p + y
    ensures x == y
  {
    assert x == (p + x)[|p|..];
    assert y == (p + y)[|p|..];
  }

  /** `a_bord_c` followed by a suffix, with `a` and `c` free of `_`, gives back `a`, `c` and the suffix. */
  lemma KeyTextInjective(a1: string, c1: string, s1: string, a2: string, c2: string, s2: string)
    requires '_' !in a1 && '_' !in c1 && '_' !in a2 && '_' !in c2
    requires IsSuffix(s1) && IsSuffix(s2)
    requires a1 + ("_bord_" + (c1 + s1)) == a2 + ("_bord_" + (c2 + s2))
    ensures a1 == a2 && c1 == c2 && s1 == s2
  {
    SplitAtUnderscore(a1, "_bord_" + (c1 + s1), a2, "_bord_" + (c2 + s2));
    StripPrefix("_bord_", c1 + s1, c2 + s2);
    SplitAtUnderscore(c1, s1, c2, s2);
  }

  /** The text of a sign node after the asset namespace. */
  lemma SignText(fid: int, bid: int, s: string)
    ensures AssetNs + SignKey(fid, bid) + s == AssetNs + (IntText(fid) + ("_bord_" + (IntText(bid) + s)))
  {
    Regroup(AssetNs, IntText(fid), "_bord_", IntText(bid), s);
  }

  lemma Regroup<T>(a: seq<T>, b: seq<T>, c: seq<T>, d: seq<T>, e: seq<T>)
    ensures a + (b + c + d) + e == a + (b + (c + (d + e)))
  {
  }

  /** A sign key followed by one of the three suffixes determines the feature id, the sign id and the suffix. */
  lemma SignTextInjective(f1: int, b1: int, s1: string, f2: int, b2: int, s2: string)
    requires IsSuffix(s1) && IsSuffix(s2)
    requires AssetNs + SignKey(f1, b1) + s1 == AssetNs + SignKey(f2, b2) + s2
    ensures f1 == f2 && b1 == b2 && s1 == s2
  {
    IntTextHasNoUnderscore(f1);
    IntTextHasNoUnderscore(f2);
    IntTextHasNoUnderscore(b1);
    IntTextHasNoUnderscore(b2);
    SignText(f1, b1, s1);
    SignText(f2, b2, s2);
    StripPrefix(AssetNs, IntText(f1) + ("_bord_" + (IntText(b1) + s1)), IntText(f2) + ("_bord_" + (IntText(b2) + s2)));
    KeyTextInjective(IntText(f1), IntText(b1), s1, IntText(f2), IntText(b2), s2);
    IntTextInjective(f1, f2);
    IntTextInjective(b1, b2);
  }

  /** Each of the three sign nodes is determined by `(feature.id, bord.id)` and determines it. */
  lemma SignRefsInjective(f1: int, b1: int, f2: int, b2: int)
    ensures BordRef(f1, b1) == BordRef(f2, b2) <==> f1 == f2 && b1 == b2
    ensures TekenRef(f1, b1) == TekenRef(f2, b2) <==> f1 == f2 && b1 == b2
    ensures ConceptRef(f1, b1) == ConceptRef(f2, b2) <==> f1 == f2 && b1 == b2
  {
    assert AssetNs + SignKey(f1, b1) == AssetNs + SignKey(f1, b1) + "";
    assert AssetNs + SignKey(f2, b2) == AssetNs + SignKey(f2, b2) + "";
    if BordRef(f1, b1) == BordRef(f2, b2) {
      SignTextInjective(f1, b1, "", f2, b2, "");
    }
    if TekenRef(f1, b1) == TekenRef(f2, b2) {
      SignTextInjective(f1, b1, "_teken", f2, b2, "_teken");
    }
    if ConceptRef(f1, b1) == ConceptRef(f2, b2) {
      SignTextInjective(f1, b1, "_concept", f2, b2, "_concept");
    }
  }

  /** The three nodes of a sign are pairwise distinct, also across signs, and none is an installation node. */
  lemma SignRefsDistinct(f1: int, b1: int, f2: int, b2: int)
    ensures BordRef(f1, b1) != TekenRef(f2, b2)
    ensures BordRef(f1, b1) != ConceptRef(f2, b2)
    ensures TekenRef(f1, b1) != ConceptRef(f2, b2)
    ensures OpstellingRef(f1) != BordRef(f2, b2)
    ensures OpstellingRef(f1) != TekenRef(f2, b2)
    ensures OpstellingRef(f1) != ConceptRef(f2, b2)
  {
    assert AssetNs + SignKey(f1, b1) == AssetNs + SignKey(f1, b1) + "";
    if BordRef(f1, b1) == TekenRef(f2, b2) {
      SignTextInjective(f1, b1, "", f2, b2, "_teken");
    }
    if BordRef(f1, b1) == ConceptRef(f2, b2) {
      SignTextInjective(f1, b1, "", f2, b2, "_concept");
    }
    if TekenRef(f1, b1) == ConceptRef(f2, b2) {
      SignTextInjective(f1, b1, "_teken", f2, b2, "_concept");
    }
    assert VkbNs[8] == 'a';
    assert AssetNs[8] == 'd';
    assert OpstellingRef(f1).iri[8] == VkbNs[8];
    assert BordRef(f2, b2).iri[8] == AssetNs[8];
    assert TekenRef(f2, b2).iri[8] == AssetNs[8];
    assert ConceptRef(f2, b2).iri[8] == AssetNs[8];
  }

  // ---------------------------------------------------------------- owners

  /** The name rewriting of line 82: drop ` (na 2019)` and `Provincie `, hyphenate `Vlaams Brabant`. */
  function NormaliseName(naam: string): string {
    Replace(Replace(Replace(naam, " (na 2019)", ""), "Provincie ", ""), "Vlaams Brabant", "Vlaams-Brabant")
  }

  /** The owner found for one sign, and the feature's owner name after that sign. */
  datatype Owner = Owner(ovo: Option<string>, naam: string)

  /**
    Lines 78-84: look up the code, then the name; when both fail, the name is
    normalised for good, and only a normalised name mentioning `Gemeente` is
    looked up once more, with `Gemeente` read as `Stad`.
   */
  function ResolveOwner(table: map<string, string>, code: string, naam: string): Owner {
    if code in table then Owner(Some(table[code]), naam)
    else if naam in table then Owner(Some(table[naam]), naam)
    else
      var n := NormaliseName(naam);
      if Contains(n, "Gemeente") && Replace(n, "Gemeente", "Stad") in table
      then Owner(Some(table[Replace(n, "Gemeente", "Stad")]), n)
      else Owner(None, n)
  }

  /**
    The owner chain: an owner is found exactly when the code, the name, or
    (for a normalised name mentioning `Gemeente`) its `Stad` reading is in the
    table; the name changes only when neither code nor name was found.
   */
  lemma OwnerChain(table: map<string, string>, code: string, naam: string)
    ensures var r := ResolveOwner(table, code, naam);
      && (r.ovo.Some? ==> r.ovo.value in table.Values)
      && (code in table ==> r == Owner(Some(table[code]), naam))
      && (code !in table && naam in table ==> r == Owner(Some(table[naam]), naam))
      && (code !in table && naam !in table ==> r.naam == NormaliseName(naam))
      && (r.ovo.None? <==>
           && code !in table
           && naam !in table
           && !(Contains(NormaliseName(naam), "Gemeente") && Replace(NormaliseName(naam), "Gemeente", "Stad") in table))
  {
  }

  // ---------------------------------------------------------------- sub-signs

  /** Every sign has a code to look at: line 58 reads its first character. */
  predicate CodesPresent(bs: seq<Bord>) {
    forall b :: b in bs ==> |b.bordCode| > 0
  }

  /** A sub-sign (onderbord): its code opens with `G`. */
  predicate IsG(b: Bord)
    requires |b.bordCode| > 0
  {
    b.bordCode[0] == 'G'
  }

  /** The `onderborden` list of lines 45 and 58-59: the G-signs, in order. */
  function Onderborden(bs: seq<Bord>): seq<Bord>
    requires CodesPresent(bs)
    decreases |bs|
  {
    if |bs| == 0 then []
    else
      var pre := Onderborden(bs[..|bs| - 1]);
      if IsG(bs[|bs| - 1]) then pre + [bs[|bs| - 1]] else pre
  }

  /** The sub-signs are the G-signs. */
  lemma {:induction false} OnderbordenMember(bs: seq<Bord>, b: Bord)
    requires CodesPresent(bs)
    ensures b in Onderborden(bs) <==> b in bs && IsG(b)
    decreases |bs|
  {
    if |bs| > 0 {
      var pre := bs[..|bs| - 1];
      OnderbordenMember(pre, b);
      assert b in bs <==> b in pre || b == bs[|bs| - 1];
    }
  }

  /**
    The filter of line 110. The third conjunct reads `f_bord`, which after the
    loop is the last sign of the feature (`last`), not the candidate.
   */
  predicate Eligible(b: Bord, o: Bord, last: Bord)
    requires |last.bordCode| > 0
  {
    b.y > o.y && b.y > 0 && !IsG(last)
  }

  function Candidates(bs: seq<Bord>, o: Bord, last: Bord): seq<Bord>
    requires |last.bordCode| > 0
    decreases |bs|
  {
    if |bs| == 0 then []
    else
      var pre := Candidates(bs[..|bs| - 1], o, last);
      if Eligible(bs[|bs| - 1], o, last) then pre + [bs[|bs| - 1]] else pre
  }

  /** The candidates are the eligible signs. */
  lemma {:induction false} CandidatesMember(bs: seq<Bord>, o: Bord, last: Bord, b: Bord)
    requires |last.bordCode| > 0
    ensures b in Candidates(bs, o, last) <==> b in bs && Eligible(b, o, last)
    decreases |bs|
  {
    if |bs| > 0 {
      var pre := bs[..|bs| - 1];
      CandidatesMember(pre, o, last, b);
      assert b in bs <==> b in pre || b == bs[|bs| - 1];
    }
  }

  /** Insertion of a later element into a list sorted by `y`: after every element whose `y` is not larger. */
  function InsertByY(x: Bord, s: seq<Bord>): (r: seq<Bord>)
    ensures multiset(r) == multiset(s) + multiset{x}
    ensures |r| == |s| + 1
    decreases |s|
  {
    if |s| == 0 then [x]
    else if s[|s| - 1].y <= x.y then s + [x]
    else
      assert s == s[..|s| - 1] + [s[|s| - 1]];
      InsertByY(x, s[..|s| - 1]) + [s[|s| - 1]]
  }

  /** `sorted(candidates, key=lambda b: b.y)`: Python's sort is stable, as insertion in order is. */
  function SortByY(c: seq<Bord>): (r: seq<Bord>)
    ensures multiset(r) == multiset(c)
    ensures |r| == |c|
    decreases |c|
  {
    if |c| == 0 then []
    else
      assert c == c[..|c| - 1] + [c[|c| - 1]];
      InsertByY(c[|c| - 1], SortByY(c[..|c| - 1]))
  }

  predicate SortedByY(s: seq<Bord>) {
    forall i, j :: 0 <= i < j < |s| ==> s[i].y <= s[j].y
  }

  lemma {:induction false} InsertByYSorted(x: Bord, s: seq<Bord>)
    requires SortedByY(s)
    ensures SortedByY(InsertByY(x, s))
    ensures forall b :: b in InsertByY(x, s) ==> b == x || b in s
    decreases |s|
  {
    if |s| == 0 {
    } else if s[|s| - 1].y <= x.y {
      SortedAppend(s, x);
    } else {
      var pre := s[..|s| - 1];
      var last := s[|s| - 1];
      assert forall i :: 0 <= i < |pre| ==> pre[i] == s[i];
      InsertByYSorted(x, pre);
      var r := InsertByY(x, pre);
      forall b | b in r
        ensures b.y <= last.y
      {
        if b != x {
          var i :| 0 <= i < |pre| && pre[i] == b;
        }
      }
      SortedAppend(r, last);
    }
  }

  /** An element no lower than every element of a sorted list can go at its end. */
  lemma SortedAppend(r: seq<Bord>, last: Bord)
    requires SortedByY(r) && forall b :: b in r ==> b.y <= last.y
    ensures SortedByY(r + [last])
  {
    var t := r + [last];
    forall i, j | 0 <= i < j < |t|
      ensures t[i].y <= t[j].y
    {
      if j == |r| {
        assert t[i] == r[i];
      }
    }
  }

  /** The sort yields the candidates again, sorted by `y`. */
  lemma {:induction false} SortByYSorted(c: seq<Bord>)
    ensures SortedByY(SortByY(c))
    ensures multiset(SortByY(c)) == multiset(c)
    decreases |c|
  {
    if |c| > 0 {
      SortByYSorted(c[..|c| - 1]);
      InsertByYSorted(c[|c| - 1], SortByY(c[..|c| - 1]));
    }
  }

  function Reverse<T>(s: seq<T>): (r: seq<T>)
    ensures |r| == |s|
    ensures forall i :: 0 <= i < |s| ==> r[i] == s[|s| - 1 - i]
    decreases |s|
  {
    if |s| == 0 then [] else [s[|s| - 1]] + Reverse(s[..|s| - 1])
  }

  /** `list(reversed(sorted(candidates, key=y)))[0]`, the parent of lines 114 and 119. */
  function Parent(c: seq<Bord>): Bord
    requires |c| > 0
  {
    Reverse(SortByY(c))[0]
  }

  /** The last element after an insertion: the inserted one unless the former last is strictly higher. */
  lemma InsertByYLast(x: Bord, s: seq<Bord>)
    ensures InsertByY(x, s)[|s|] == (if |s| == 0 || s[|s| - 1].y <= x.y then x else s[|s| - 1])
  {
  }

  /** One more candidate becomes the parent exactly when it is at least as high as the current one. */
  lemma ParentExtend(c: seq<Bord>, x: Bord)
    ensures Parent(c + [x]) == (if |c| == 0 || Parent(c).y <= x.y then x else Parent(c))
  {
    var d := c + [x];
    assert d[..|d| - 1] == c && d[|d| - 1] == x;
    var s := SortByY(c);
    InsertByYLast(x, s);
    assert Parent(d) == InsertByY(x, s)[|s|];
  }

  /** `bs[i]` is eligible, no eligible sign is higher, and every eligible sign after it is strictly lower. */
  predicate LastTallestAt(bs: seq<Bord>, o: Bord, last: Bord, i: nat)
    requires |last.bordCode| > 0
  {
    && i < |bs|
    && Eligible(bs[i], o, last)
    && (forall k :: 0 <= k < |bs| && Eligible(bs[k], o, last) ==> bs[k].y <= bs[i].y)
    && (forall k :: i < k < |bs| && Eligible(bs[k], o, last) ==> bs[k].y < bs[i].y)
  }

  lemma LastTallestKeep(bs: seq<Bord>, o: Bord, last: Bord, i: nat)
    requires |last.bordCode| > 0 && |bs| > 0
    requires LastTallestAt(bs[..|bs| - 1], o, last, i)
    requires Eligible(bs[|bs| - 1], o, last) ==> bs[|bs| - 1].y < bs[i].y
    ensures LastTallestAt(bs, o, last, i)
  {
    var pre := bs[..|bs| - 1];
    assert forall k :: 0 <= k < |pre| ==> bs[k] == pre[k];
  }

  lemma LastTallestNew(bs: seq<Bord>, o: Bord, last: Bord)
    requires |last.bordCode| > 0 && |bs| > 0
    requires Eligible(bs[|bs| - 1], o, last)
    requires forall k :: 0 <= k < |bs| - 1 && Eligible(bs[k], o, last) ==> bs[k].y <= bs[|bs| - 1].y
    ensures LastTallestAt(bs, o, last, |bs| - 1)
  {
  }

  lemma NoEarlierCandidate(bs: seq<Bord>, o: Bord, last: Bord)
    requires |last.bordCode| > 0 && |bs| > 0 && |Candidates(bs[..|bs| - 1], o, last)| == 0
    ensures forall k :: 0 <= k < |bs| - 1 ==> !Eligible(bs[k], o, last)
  {
    var pre := bs[..|bs| - 1];
    forall k | 0 <= k < |bs| - 1
      ensures !Eligible(bs[k], o, last)
    {
      assert bs[k] == pre[k];
      CandidatesMember(pre, o, last, pre[k]);
    }
  }

  lemma NoEarlierHigher(bs: seq<Bord>, o: Bord, last: Bord, i: nat)
    requires |last.bordCode| > 0 && |bs| > 0 && LastTallestAt(bs[..|bs| - 1], o, last, i)
    requires bs[..|bs| - 1][i].y <= bs[|bs| - 1].y
    ensures forall k :: 0 <= k < |bs| - 1 && Eligible(bs[k], o, last) ==> bs[k].y <= bs[|bs| - 1].y
  {
    var pre := bs[..|bs| - 1];
    forall k | 0 <= k < |bs| - 1 && Eligible(bs[k], o, last)
      ensures bs[k].y <= bs[|bs| - 1].y
    {
      assert pre[k] == bs[k];
    }
  }

  /**
    The parent is the eligible sign of greatest `y` and, among equal heights,
    the last one in the feature's order: every eligible sign after it is lower.
   */
  lemma {:induction false} ParentIsLastTallest(bs: seq<Bord>, o: Bord, last: Bord) returns (i: nat)
    requires |last.bordCode| > 0
    requires |Candidates(bs, o, last)| > 0
    ensures LastTallestAt(bs, o, last, i)
    ensures bs[i] == Parent(Candidates(bs, o, last))
    decreases |bs|
  {
    var n := |bs|;
    var pre := bs[..n - 1];
    var x := bs[n - 1];
    var c' := Candidates(pre, o, last);
    if !Eligible(x, o, last) {
      assert Candidates(bs, o, last) == c';
      i := ParentIsLastTallest(pre, o, last);
      LastTallestKeep(bs, o, last, i);
    } else {
      assert Candidates(bs, o, last) == c' + [x];
      ParentExtend(c', x);
      if |c'| == 0 {
        NoEarlierCandidate(bs, o, last);
        LastTallestNew(bs, o, last);
        i := n - 1;
      } else {
        var i' := ParentIsLastTallest(pre, o, last);
        if Parent(c').y <= x.y {
          NoEarlierHigher(bs, o, last, i');
          LastTallestNew(bs, o, last);
          i := n - 1;
        } else {
          LastTallestKeep(bs, o, last, i');
          i := i';
        }
      }
    }
  }

  // ---------------------------------------------------------------- one sign

  /** The height quantity of lines 65-71: only for a sign above the ground. */
  function HeightTriples(bord: Node, y: int, h: nat): set<Triple> {
    if y > 0 then
      {Triple(bord, Opstelhoogte, BNode(h)),
       Triple(BNode(h), SchemaValue, TypedLit(MilliText(y), XsdDecimal)),
       Triple(BNode(h), SchemaUnitCode, Lit("MTR"))}
    else {}
  }

  /** Lines 61-104 for one sign `b`, with `h` the blank node for its height and `ovo` its resolved owner. */
  function BordTriples(fid: int, b: Bord, h: nat, ovo: Option<string>): set<Triple>
    requires |b.bordCode| > 0
  {
    var op := OpstellingRef(fid);
    var bord := BordRef(fid, b.id);
    {Triple(op, OmvatVerkeersbord, bord)}
    + HeightTriples(bord, b.y, h)
    + {Triple(op, Aanzicht, Lit(TenthsText(b.aanzichtHoek)))}
    + (if ovo.Some? then {Triple(bord, Beheerder, OrgRef(ovo.value))} else {})
    + TekenTriples(fid, b)
  }

  /** The traffic sign a sign realises: its variable inscription for a G-code with parameters, its concept and code. */
  function TekenTriples(fid: int, b: Bord): set<Triple>
    requires |b.bordCode| > 0
  {
    var teken := TekenRef(fid, b.id);
    var concept := ConceptRef(fid, b.id);
    {Triple(BordRef(fid, b.id), Realiseert, teken)}
    + (if IsG(b) && |b.parameters| > 0 then {Triple(teken, VariabelOpschrift, Lit(Join(" ", b.parameters)))} else {})
    + {Triple(teken, HeeftVerkeersbordconcept, concept), Triple(concept, PrefLabel, Lit(b.bordCode))}
  }

  /** Triples added, the next unused blank-node number, and the feature's owner name afterwards. */
  datatype Step = Step(triples: set<Triple>, next: nat, naam: string)

  /** Every blank node of `t` is numbered in `[lo, hi)`. */
  predicate BlankIn(t: Triple, lo: nat, hi: nat) {
    (t.s.BNode? ==> lo <= t.s.id < hi) && (t.o.BNode? ==> lo <= t.o.id < hi)
  }

  function BordStep(fid: int, table: map<string, string>, code: string, b: Bord, next: nat, naam: string): (r: Step)
    requires |b.bordCode| > 0
    ensures r.next == if b.y > 0 then next + 1 else next
  {
    var owner := ResolveOwner(table, code, naam);
    Step(BordTriples(fid, b, next, owner.ovo), if b.y > 0 then next + 1 else next, owner.naam)
  }

  /** The sign loop of lines 53-104 over `bs`, threading the blank counter and the owner name. */
  function EmitBorden(fid: int, table: map<string, string>, code: string, bs: seq<Bord>, next: nat, naam: string): (r: Step)
    requires CodesPresent(bs)
    ensures next <= r.next
    decreases |bs|
  {
    if |bs| == 0 then Step({}, next, naam)
    else
      var pre := EmitBorden(fid, table, code, bs[..|bs| - 1], next, naam);
      var s := BordStep(fid, table, code, bs[|bs| - 1], pre.next, pre.naam);
      Step(pre.triples + s.triples, s.next, s.naam)
  }

  /** The state before sign `k`: the signs before it emitted. */
  function Before(fid: int, table: map<string, string>, code: string, bs: seq<Bord>, next: nat, naam: string, k: nat): Step
    requires CodesPresent(bs) && k <= |bs|
  {
    EmitBorden(fid, table, code, bs[..k], next, naam)
  }

  /** What sign `k` itself adds. */
  function StepAt(fid: int, table: map<string, string>, code: string, bs: seq<Bord>, next: nat, naam: string, k: nat): Step
    requires CodesPresent(bs) && k < |bs|
  {
    var pre := Before(fid, table, code, bs, next, naam, k);
    BordStep(fid, table, code, bs[k], pre.next, pre.naam)
  }

  lemma EmitBordenSplit(fid: int, table: map<string, string>, code: string, bs: seq<Bord>, next: nat, naam: string)
    requires CodesPresent(bs) && |bs| > 0
    ensures EmitBorden(fid, table, code, bs, next, naam).triples
      == EmitBorden(fid, table, code, bs[..|bs| - 1], next, naam).triples
       + StepAt(fid, table, code, bs, next, naam, |bs| - 1).triples
  {
  }

  /** Sign `k` takes the state before it to the state before the next sign. */
  lemma BeforeNext(fid: int, table: map<string, string>, code: string, bs: seq<Bord>, next: nat, naam: string, k: nat)
    requires CodesPresent(bs) && k < |bs|
    ensures var pre := Before(fid, table, code, bs, next, naam, k);
      && Before(fid, table, code, bs, next, naam, k + 1).next == (if bs[k].y > 0 then pre.next + 1 else pre.next)
      && Before(fid, table, code, bs, next, naam, k + 1).naam == ResolveOwner(table, code, pre.naam).naam
  {
    var c := bs[..k + 1];
    assert c[..k] == bs[..k];
    assert c[|c| - 1] == bs[k];
  }

  lemma StepAtPrefix(fid: int, table: map<string, string>, code: string, bs: seq<Bord>, next: nat, naam: string, k: nat)
    requires CodesPresent(bs) && k < |bs| - 1
    ensures StepAt(fid, table, code, bs[..|bs| - 1], next, naam, k) == StepAt(fid, table, code, bs, next, naam, k)
  {
    assert bs[..|bs| - 1][..k] == bs[..k];
  }

  /** Whatever the sign loop adds, some sign added. */
  lemma {:induction false} EmitBordenSound(
    fid: int, table: map<string, string>, code: string, bs: seq<Bord>, next: nat, naam: string, t: Triple)
    returns (k: nat)
    requires CodesPresent(bs)
    requires t in EmitBorden(fid, table, code, bs, next, naam).triples
    ensures k < |bs| && t in StepAt(fid, table, code, bs, next, naam, k).triples
    decreases |bs|
  {
    var n := |bs|;
    var pre := bs[..n - 1];
    EmitBordenSplit(fid, table, code, bs, next, naam);
    if t in EmitBorden(fid, table, code, pre, next, naam).triples {
      k := EmitBordenSound(fid, table, code, pre, next, naam, t);
      StepAtPrefix(fid, table, code, bs, next, naam, k);
    } else {
      k := n - 1;
    }
  }

  /** What the loop adds includes what the signs before the last one add, and what the last one adds. */
  lemma EmitBordenGrows(fid: int, table: map<string, string>, code: string, bs: seq<Bord>, next: nat, naam: string)
    requires CodesPresent(bs) && |bs| > 0
    ensures EmitBorden(fid, table, code, bs[..|bs| - 1], next, naam).triples
      <= EmitBorden(fid, table, code, bs, next, naam).triples
    ensures StepAt(fid, table, code, bs, next, naam, |bs| - 1).triples
      <= EmitBorden(fid, table, code, bs, next, naam).triples
  {
    EmitBordenSplit(fid, table, code, bs, next, naam);
  }

  /** Whatever a sign adds, the sign loop adds. */
  lemma {:induction false} EmitBordenComplete(
    fid: int, table: map<string, string>, code: string, bs: seq<Bord>, next: nat, naam: string, t: Triple, k: nat)
    requires CodesPresent(bs)
    requires k < |bs| && t in StepAt(fid, table, code, bs, next, naam, k).triples
    ensures t in EmitBorden(fid, table, code, bs, next, naam).triples
    decreases |bs|
  {
    EmitBordenGrows(fid, table, code, bs, next, naam);
    if k < |bs| - 1 {
      StepAtPrefix(fid, table, code, bs, next, naam, k);
      EmitBordenComplete(fid, table, code, bs[..|bs| - 1], next, naam, t, k);
    }
  }

  // ---------------------------------------------------------------- one feature

  /** What `process_to_oslo` reads without raising: two coordinates, the lists set, a code on every sign. */
  predicate Emittable(f: Feature) {
    && f.coords.Some? && |f.coords.value| >= 2
    && f.wegsegmentIds.Some?
    && f.borden.Some? && CodesPresent(f.borden.value)
  }

  /** Lines 30-41: the installation node, its type and its point geometry on blank node `g`. */
  function HeaderTriples(fid: int, g: nat, latLong: (string, string)): set<Triple> {
    var op := OpstellingRef(fid);
    {Triple(op, RdfType, Opstelling),
     Triple(op, Geometry, BNode(g)),
     Triple(BNode(g), RdfType, GeoPoint),
     Triple(BNode(g), GeoLat, TypedLit(latLong.0, XsdDecimal)),
     Triple(BNode(g), GeoLong, TypedLit(latLong.1, XsdDecimal))}
  }

  /** Lines 47-51: one `hoortBij` triple per road-segment id. */
  function SegmentTriples(fid: int, ids: seq<string>): set<Triple>
    decreases |ids|
  {
    if |ids| == 0 then {}
    else SegmentTriples(fid, ids[..|ids| - 1]) + {Triple(OpstellingRef(fid), HoortBij, SegmentRef(ids[|ids| - 1]))}
  }

  function LinkTriple(fid: int, parent: Bord, o: Bord): Triple {
    Triple(TekenRef(fid, parent.id), HeeftOnderbord, TekenRef(fid, o.id))
  }

  /** The link, if any, that sub-sign `o` gets (lines 108-122). */
  function LinkFor(fid: int, bs: seq<Bord>, o: Bord): set<Triple>
    requires |bs| > 0 && |bs[|bs| - 1].bordCode| > 0
  {
    if o.y == 0 then {}
    else
      var c := Candidates(bs, o, bs[|bs| - 1]);
      if |c| == 0 then {} else {LinkTriple(fid, Parent(c), o)}
  }

  /** The links of the sub-signs `os`, in order. */
  function Links(fid: int, bs: seq<Bord>, os: seq<Bord>): set<Triple>
    requires |bs| > 0 && |bs[|bs| - 1].bordCode| > 0
    decreases |os|
  {
    if |os| == 0 then {}
    else Links(fid, bs, os[..|os| - 1]) + LinkFor(fid, bs, os[|os| - 1])
  }

  function AllLinks(fid: int, bs: seq<Bord>): set<Triple>
    requires CodesPresent(bs)
  {
    if |bs| == 0 then {} else Links(fid, bs, Onderborden(bs))
  }

  /** The sign loop of `f`: the geometry takes `next`, so the signs number from `next + 1`. */
  function Signs(f: Feature, table: map<string, string>, next: nat): Step
    requires Emittable(f)
  {
    EmitBorden(f.id, table, f.beheerderCode, f.borden.value, next + 1, f.beheerderNaam)
  }

  /** The counter and the owner name when sign `k` of `f` is reached. */
  function SignBefore(f: Feature, table: map<string, string>, next: nat, k: nat): Step
    requires Emittable(f) && k <= |f.borden.value|
  {
    Before(f.id, table, f.beheerderCode, f.borden.value, next + 1, f.beheerderNaam, k)
  }

  /** What sign `k` of `f` adds. */
  function SignAt(f: Feature, table: map<string, string>, next: nat, k: nat): Step
    requires Emittable(f) && k < |f.borden.value|
  {
    StepAt(f.id, table, f.beheerderCode, f.borden.value, next + 1, f.beheerderNaam, k)
  }

  /**
    Everything `process_to_oslo(f)` adds when blank nodes are numbered from
    `next`: the geometry takes `next`, each sign above the ground one more.
   */
  function Emit(f: Feature, table: map<string, string>, transform: (string, string) -> (string, string), next: nat): (e: Step)
    requires Emittable(f)
    ensures next < e.next
  {
    var coords := f.coords.value;
    var signs := Signs(f, table, next);
    Step(
      HeaderTriples(f.id, next, transform(coords[0], coords[1]))
      + SegmentTriples(f.id, f.wegsegmentIds.value)
      + signs.triples
      + AllLinks(f.id, f.borden.value),
      signs.next,
      signs.naam)
  }
}
