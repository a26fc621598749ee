/**
  The record normaliser (`JsonToVkbFeatureProcessor`): one decoded survey
  record becomes one `Feature`. Decoding itself (`json.loads`) is a function
  parameter; the model starts from the decoded record, whose viewing angle is
  already rounded to a whole number of tenths of a degree.
 */
module JsonToVkb {
  import opened Wrappers
  import opened Text
  import opened VkbFeature

  /** One sign block of a decoded record. An `Option` field is a key that may be absent. */
  datatype BordRecord = BordRecord(
    id: int,
    externalId: Option<string>,
    clientId: Option<string>,
    code: string,
    parameters: seq<string>,
    folieType: Option<string>,
    x: int,
    y: int,
    breedte: int,
    hoogte: int,
    vorm: string,
    datumPlaasting: Option<string>,
    datumPlaatsing: Option<string>)

  /** One viewing direction: its angle in tenths of a degree, its road segment and its signs. */
  datatype AanzichtRecord = AanzichtRecord(hoek: int, wegsegmentId: string, borden: seq<BordRecord>)

  /** One decoded installation record. */
  datatype FeatureRecord = FeatureRecord(
    id: int,
    externalId: Option<string>,
    coordinates: seq<string>,
    beheerderKey: int,
    wegenregisterCode: Option<string>,
    beheerderNaam: string,
    aanzichten: seq<AanzichtRecord>)

  /** The `KeyError` a record raises when it reads a key it does not have. */
  datatype RecordError = MissingKey(key: string)

  const FullCircle: int := 3600
  const PlaceholderDate: string := "01/01/1950"

  // ---------------------------------------------------------------- angles

  /**
    Where an angle in tenths of a degree ends up: a value in [0, 360] degrees is
    kept as it is (360 included); anything else is reduced modulo 360 degrees.
   */
  function NormalisedAngle(t: int): (r: int)
    ensures 0 <= r <= FullCircle
    ensures (r - t) % FullCircle == 0
    ensures r == FullCircle <==> t == FullCircle
    ensures 0 <= t <= FullCircle ==> r == t
  {
    if 0 <= t <= FullCircle then t else t % FullCircle
  }

  /** The angle loop of `process_json_object`: add 360 while negative, then `% 360` when above 360. */
  method NormaliseAngle(t: int) returns (r: int)
    ensures r == NormalisedAngle(t)
  {
    r := t;
    while r < 0
      invariant (r - t) % FullCircle == 0
      invariant t >= 0 ==> r == t
      invariant t < 0 ==> r < FullCircle
      decreases -r
    {
      r := r + FullCircle;
    }
    if r > FullCircle {
      r := r % FullCircle;
    }
  }

  lemma AngleExamples()
    ensures NormalisedAngle(-900) == 2700
    ensures NormalisedAngle(9000) == 1800
    ensures NormalisedAngle(3600) == 3600
    ensures NormalisedAngle(7200) == 0
  {
  }

  // ---------------------------------------------------------------- signs

  /** The sign block reads `datumPlaatsing` after finding the differently spelt `datumPlaasting`, and that key is absent. */
  predicate DateKeyMissing(b: BordRecord) {
    b.datumPlaasting.Some? && b.datumPlaasting.value != PlaceholderDate && b.datumPlaatsing.None?
  }

  /** Some sign block of the record raises the `KeyError` above. */
  predicate RecordHasDateKeyMissing(aanzichten: seq<AanzichtRecord>) {
    exists i, j :: 0 <= i < |aanzichten| && 0 <= j < |aanzichten[i].borden| && DateKeyMissing(aanzichten[i].borden[j])
  }

  /** The sign a sign block becomes under an aanzicht whose normalised angle is `hoek`. */
  function BordFrom(b: BordRecord, hoek: int): Bord
    requires !DateKeyMissing(b)
  {
    Bord(
      id := b.id,
      aanzichtHoek := hoek,
      externalId := b.externalId,
      clientId := b.clientId,
      bordCode := b.code,
      parameters := b.parameters,
      folieType := b.folieType,
      x := b.x,
      y := b.y,
      breedte := b.breedte,
      hoogte := b.hoogte,
      vorm := b.vorm,
      plaatsingDatum :=
        if b.datumPlaasting.Some? && b.datumPlaasting.value != PlaceholderDate then b.datumPlaatsing else None)
  }

  /** The signs of one aanzicht, each carrying the angle `hoek`. */
  function BordenFrom(bs: seq<BordRecord>, hoek: int): (r: seq<Bord>)
    requires forall j :: 0 <= j < |bs| ==> !DateKeyMissing(bs[j])
    ensures |r| == |bs|
    ensures forall j :: 0 <= j < |bs| ==> r[j] == BordFrom(bs[j], hoek)
  {
    seq(|bs|, j requires 0 <= j < |bs| => BordFrom(bs[j], hoek))
  }

  /** The signs of all aanzichten, aanzicht after aanzicht. */
  function Flatten(aanzichten: seq<AanzichtRecord>): seq<Bord>
    requires !RecordHasDateKeyMissing(aanzichten)
    decreases |aanzichten|
  {
    if |aanzichten| == 0 then []
    else
      var n := |aanzichten| - 1;
      assert forall j :: 0 <= j < |aanzichten[n].borden| ==> !DateKeyMissing(aanzichten[n].borden[j]);
      NoDateKeyMissingInPrefix(aanzichten, n);
      Flatten(aanzichten[..n]) + BordenFrom(aanzichten[n].borden, NormalisedAngle(aanzichten[n].hoek))
  }

  lemma NoDateKeyMissingInPrefix(aanzichten: seq<AanzichtRecord>, n: nat)
    requires n <= |aanzichten|
    requires !RecordHasDateKeyMissing(aanzichten)
    ensures !RecordHasDateKeyMissing(aanzichten[..n])
  {
    var p := aanzichten[..n];
    forall i, j | 0 <= i < |p| && 0 <= j < |p[i].borden|
      ensures !DateKeyMissing(p[i].borden[j])
    {
      assert p[i] == aanzichten[i];
    }
  }

  lemma NoDateKeyMissingExtend(aanzichten: seq<AanzichtRecord>, n: nat)
    requires n < |aanzichten|
    requires !RecordHasDateKeyMissing(aanzichten[..n])
    requires forall j :: 0 <= j < |aanzichten[n].borden| ==> !DateKeyMissing(aanzichten[n].borden[j])
    ensures !RecordHasDateKeyMissing(aanzichten[..n + 1])
  {
    var p := aanzichten[..n + 1];
    forall i, j | 0 <= i < |p| && 0 <= j < |p[i].borden|
      ensures !DateKeyMissing(p[i].borden[j])
    {
      if i < n {
        assert p[i] == aanzichten[..n][i];
      }
    }
  }

  /** How many signs the first `i` aanzichten hold. */
  function Offset(aanzichten: seq<AanzichtRecord>, i: nat): nat
    requires i <= |aanzichten|
  {
    if i == 0 then 0 else Offset(aanzichten, i - 1) + |aanzichten[i - 1].borden|
  }

  /** The signs of all aanzichten are as many as their sign blocks. */
  lemma {:induction false} FlattenLength(aanzichten: seq<AanzichtRecord>)
    requires !RecordHasDateKeyMissing(aanzichten)
    ensures |Flatten(aanzichten)| == Offset(aanzichten, |aanzichten|)
    decreases |aanzichten|
  {
    if |aanzichten| > 0 {
      var n := |aanzichten| - 1;
      NoDateKeyMissingInPrefix(aanzichten, n);
      FlattenLength(aanzichten[..n]);
      OffsetPrefixAt(aanzichten, n, n);
    }
  }

  /**
    `borden` is the concatenation of every aanzicht's signs, in order: sign `j`
    of aanzicht `i` sits at `Offset(i) + j` and carries aanzicht `i`'s
    normalised angle.
   */
  lemma {:induction false} FlattenAt(aanzichten: seq<AanzichtRecord>, i: nat, j: nat)
    requires !RecordHasDateKeyMissing(aanzichten)
    requires i < |aanzichten| && j < |aanzichten[i].borden|
    ensures Offset(aanzichten, i) + j < |Flatten(aanzichten)|
    ensures Flatten(aanzichten)[Offset(aanzichten, i) + j] == BordFrom(aanzichten[i].borden[j], NormalisedAngle(aanzichten[i].hoek))
    decreases |aanzichten|
  {
    var n := |aanzichten| - 1;
    var front := aanzichten[..n];
    NoDateKeyMissingInPrefix(aanzichten, n);
    var last := BordenFrom(aanzichten[n].borden, NormalisedAngle(aanzichten[n].hoek));
    assert Flatten(aanzichten) == Flatten(front) + last;
    OffsetPrefixAt(aanzichten, n, i);
    if i < n {
      FlattenAt(front, i, j);
      assert front[i] == aanzichten[i];
    } else {
      FlattenLength(front);
      OffsetPrefixAt(aanzichten, n, n);
    }
  }

  lemma {:induction false} OffsetPrefixAt(aanzichten: seq<AanzichtRecord>, n: nat, i: nat)
    requires i <= n <= |aanzichten|
    ensures Offset(aanzichten[..n], i) == Offset(aanzichten, i)
    decreases i
  {
    if i > 0 {
      OffsetPrefixAt(aanzichten, n, i - 1);
      assert aanzichten[..n][i - 1] == aanzichten[i - 1];
    }
  }

  /** The road-segment ids: one per aanzicht, in aanzicht order. */
  function SegmentIds(aanzichten: seq<AanzichtRecord>): (r: seq<string>)
    ensures |r| == |aanzichten|
    ensures forall i :: 0 <= i < |aanzichten| ==> r[i] == aanzichten[i].wegsegmentId
  {
    seq(|aanzichten|, i requires 0 <= i < |aanzichten| => aanzichten[i].wegsegmentId)
  }

  /** The scalar fields of the feature: the optional keys keep the `''` defaults when absent. */
  function HeaderFrom(rec: FeatureRecord): Feature {
    NewFeature.(
      id := rec.id,
      externalId := if rec.externalId.Some? then rec.externalId.value else NewFeature.externalId,
      wktPoint := WktPoint(rec.coordinates),
      coords := Some(rec.coordinates),
      beheerderKey := rec.beheerderKey,
      beheerderCode := if rec.wegenregisterCode.Some? then rec.wegenregisterCode.value else NewFeature.beheerderCode,
      beheerderNaam := rec.beheerderNaam)
  }

  /** The feature `process_json_object` returns for a record that raises nothing. */
  function FeatureFrom(rec: FeatureRecord): Feature
    requires !RecordHasDateKeyMissing(rec.aanzichten)
  {
    HeaderFrom(rec).(
      borden := Some(Flatten(rec.aanzichten)),
      bevestigingen := Some([]),
      steunen := Some([]),
      wegsegmentIds := Some(SegmentIds(rec.aanzichten)))
  }

  /** One more aanzicht appends its signs and its road segment. */
  lemma AanzichtNext(views: seq<AanzichtRecord>, i: nat)
    requires i < |views| && !RecordHasDateKeyMissing(views[..i + 1])
    ensures !RecordHasDateKeyMissing(views[..i])
    ensures forall j :: 0 <= j < |views[i].borden| ==> !DateKeyMissing(views[i].borden[j])
    ensures Flatten(views[..i + 1]) == Flatten(views[..i]) + BordenFrom(views[i].borden, NormalisedAngle(views[i].hoek))
    ensures SegmentIds(views[..i + 1]) == SegmentIds(views[..i]) + [views[i].wegsegmentId]
  {
    var p := views[..i + 1];
    assert p[..i] == views[..i] && p[i] == views[i];
    NoDateKeyMissingInPrefix(p, i);
    forall j | 0 <= j < |views[i].borden|
      ensures !DateKeyMissing(views[i].borden[j])
    {
      assert p[i].borden[j] == views[i].borden[j];
    }
  }

  /** The first part of `process_json_object`: a fresh feature, filled with the record's scalar fields. */
  method ProcessHeader(rec: FeatureRecord) returns (f: Feature)
    ensures f == HeaderFrom(rec)
  {
    f := NewFeature.(id := rec.id);
    if rec.externalId.Some? {
      f := f.(externalId := rec.externalId.value);
    }
    f := f.(wktPoint := WktPoint(rec.coordinates), coords := Some(rec.coordinates), beheerderKey := rec.beheerderKey);
    if rec.wegenregisterCode.Some? {
      f := f.(beheerderCode := rec.wegenregisterCode.value);
    }
    f := f.(beheerderNaam := rec.beheerderNaam);
  }

  /**
    `process_json_object`: fills a fresh `VkbFeature` field by field, then walks
    the aanzichten, appending one road-segment id per aanzicht and one sign per
    sign block. A sign block that announces a date under `datumPlaasting` but
    has no `datumPlaatsing` raises `KeyError`, and no feature comes out.
   */
  method ProcessJsonObject(rec: FeatureRecord) returns (res: Result<Feature, RecordError>)
    ensures res.Err? <==> RecordHasDateKeyMissing(rec.aanzichten)
    ensures res.Err? ==> res.error == MissingKey("datumPlaatsing")
    ensures res.Ok? ==> res.value == FeatureFrom(rec)
  {
    var f := ProcessHeader(rec);
    var borden: seq<Bord> := [];
    var wegsegmentIds: seq<string> := [];
    var views := rec.aanzichten;
    var i := 0;
    while i < |views|
      invariant 0 <= i <= |views|
      invariant !RecordHasDateKeyMissing(views[..i])
      invariant borden == Flatten(views[..i])
      invariant wegsegmentIds == SegmentIds(views[..i])
    {
      var hoek := NormaliseAngle(views[i].hoek);
      wegsegmentIds := wegsegmentIds + [views[i].wegsegmentId];
      var bs := ProcessBorden(views[i].borden, hoek);
      if bs.Err? {
        var j :| 0 <= j < |views[i].borden| && DateKeyMissing(views[i].borden[j]);
        assert DateKeyMissing(rec.aanzichten[i].borden[j]);
        return Err(bs.error);
      }
      borden := borden + bs.value;
      NoDateKeyMissingExtend(views, i);
      AanzichtNext(views, i);
      i := i + 1;
    }
    assert views[..i] == views;
    res := Ok(f.(borden := Some(borden), bevestigingen := Some([]), steunen := Some([]), wegsegmentIds := Some(wegsegmentIds)));
  }

  /** The inner loop of `process_json_object`: the sign blocks of one aanzicht, in order, until one raises. */
  method ProcessBorden(bs: seq<BordRecord>, hoek: int) returns (res: Result<seq<Bord>, RecordError>)
    ensures res.Err? <==> exists j :: 0 <= j < |bs| && DateKeyMissing(bs[j])
    ensures res.Err? ==> res.error == MissingKey("datumPlaatsing")
    ensures res.Ok? ==> (forall j :: 0 <= j < |bs| ==> !DateKeyMissing(bs[j])) && res.value == BordenFrom(bs, hoek)
  {
    var borden: seq<Bord> := [];
    for j := 0 to |bs|
      invariant forall k :: 0 <= k < j ==> !DateKeyMissing(bs[k])
      invariant borden == BordenFrom(bs[..j], hoek)
    {
      var bord := ProcessBord(bs[j], hoek);
      if bord.Err? {
        return Err(bord.error);
      }
      borden := borden + [bord.value];
    }
    assert bs[..|bs|] == bs;
    res := Ok(borden);
  }

  /**
    One sign block under an aanzicht whose normalised angle is `hoek`: a
    `KeyError` when a real placement date is announced under `datumPlaasting`
    but `datumPlaatsing` is missing.
   */
  method ProcessBord(b: BordRecord, hoek: int) returns (res: Result<Bord, RecordError>)
    ensures res.Err? <==> DateKeyMissing(b)
    ensures res.Err? ==> res.error == MissingKey("datumPlaatsing")
    ensures res.Ok? ==> res.value == BordFrom(b, hoek)
  {
    var datum: Option<string> := None;
    if b.datumPlaasting.Some? && b.datumPlaasting.value != PlaceholderDate {
      if b.datumPlaatsing.None? {
        return Err(MissingKey("datumPlaatsing"));
      }
      datum := b.datumPlaatsing;
    }
    var bord := Bord(b.id, hoek, b.externalId, b.clientId, b.code, [], b.folieType, b.x, b.y, b.breedte, b.hoogte, b.vorm, datum);
    if |b.parameters| > 0 {
      bord := bord.(parameters := bord.parameters + b.parameters);
    }
    res := Ok(bord);
  }

  /**
    `process_json_object_and_add_to_list`: the record's feature appended to the
    list it is given; the `KeyError` leaves the list as it was.
   */
  method ProcessJsonObjectAndAddToList(rec: FeatureRecord, features: seq<Feature>)
    returns (res: Result<seq<Feature>, RecordError>)
    ensures res.Err? <==> RecordHasDateKeyMissing(rec.aanzichten)
    ensures res.Ok? ==> |res.value| == |features| + 1 && res.value[..|features|] == features
    ensures res.Ok? ==> res.value[|features|] == FeatureFrom(rec)
  {
    var f := ProcessJsonObject(rec);
    if f.Err? {
      return Err(f.error);
    }
    res := Ok(features + [f.value]);
  }

  /**
    The optional keys: `externalId` and `wegenregisterCode` reach the feature
    only when present (otherwise the fields keep their `''` defaults, so the
    owner lookup runs under the key `''`), and `externalId`, `clientId` and
    `folieType` reach a sign only when present.
   */
  lemma AbsentKeysKeepDefaults(rec: FeatureRecord)
    requires !RecordHasDateKeyMissing(rec.aanzichten)
    ensures rec.externalId.None? ==> FeatureFrom(rec).externalId == ""
    ensures rec.externalId.Some? ==> FeatureFrom(rec).externalId == rec.externalId.value
    ensures rec.wegenregisterCode.None? ==> FeatureFrom(rec).beheerderCode == ""
    ensures rec.wegenregisterCode.Some? ==> FeatureFrom(rec).beheerderCode == rec.wegenregisterCode.value
    ensures FeatureFrom(rec).clientId == NewFeature.clientId == ""
    ensures forall b, h :: !DateKeyMissing(b) ==>
      BordFrom(b, h).externalId == b.externalId && BordFrom(b, h).clientId == b.clientId &&
      BordFrom(b, h).folieType == b.folieType && BordFrom(b, h).parameters == b.parameters
  {
  }

  /**
    The installation date is set exactly when `datumPlaasting` is present and
    not the placeholder, and it is then read from `datumPlaatsing`.
   */
  lemma PlacementDate(b: BordRecord, hoek: int)
    requires !DateKeyMissing(b)
    ensures BordFrom(b, hoek).plaatsingDatum.Some? <==>
      b.datumPlaasting.Some? && b.datumPlaasting.value != PlaceholderDate
    ensures BordFrom(b, hoek).plaatsingDatum.Some? ==> BordFrom(b, hoek).plaatsingDatum == b.datumPlaatsing
  {
  }

  /**
    A fresh `VkbFeature` has the id and owner key -1, empty strings and no
    lists at all; the normaliser replaces the lists with real (possibly empty) ones.
   */
  lemma DefaultsAndParsedLists(rec: FeatureRecord)
    requires !RecordHasDateKeyMissing(rec.aanzichten)
    ensures NewFeature.id == -1 && NewFeature.beheerderKey == -1
    ensures NewFeature.wktPoint == "" && NewFeature.externalId == "" && NewFeature.clientId == ""
    ensures NewFeature.beheerderCode == "" && NewFeature.beheerderNaam == ""
    ensures NewFeature.coords.None? && NewFeature.borden.None? && NewFeature.bevestigingen.None?
    ensures NewFeature.steunen.None? && NewFeature.wegsegmentIds.None?
    ensures FeatureFrom(rec).borden.Some? && FeatureFrom(rec).bevestigingen == Some([])
    ensures FeatureFrom(rec).steunen == Some([]) && FeatureFrom(rec).wegsegmentIds.Some?
  {
  }

  // ---------------------------------------------------------------- batches

  /** What `json.loads` is handed: the mis-escaped `\xc3\x98` rewritten to `(diam)`, newlines removed. */
  function PrepareJsonText(s: string): string {
    Replace(Replace(s, "\\xc3\\x98", "(diam)"), "\n", "")
  }

  /** The records that decode, in input order; a string that fails to decode is dropped. */
  function Decoded(jsonList: seq<string>, decode: string -> Option<FeatureRecord>): (r: seq<FeatureRecord>)
    ensures |r| <= |jsonList|
    decreases |jsonList|
  {
    if |jsonList| == 0 then []
    else
      var n := |jsonList| - 1;
      var d := decode(PrepareJsonText(jsonList[n]));
      Decoded(jsonList[..n], decode) + (if d.Some? then [d.value] else [])
  }

  /** One input string gives at most one record: the one `json.loads` makes of it, if any. */
  lemma DecodedSingle(x: string, decode: string -> Option<FeatureRecord>)
    ensures Decoded([x], decode) ==
      (if decode(PrepareJsonText(x)).Some? then [decode(PrepareJsonText(x)).value] else [])
  {
    assert [x][..0] == [];
  }

  /**
    Decoding a batch is decoding its parts one after the other: records come
    out in input order, and no record depends on another input.
   */
  lemma {:induction false} DecodedAppend(xs: seq<string>, ys: seq<string>, decode: string -> Option<FeatureRecord>)
    ensures Decoded(xs + ys, decode) == Decoded(xs, decode) + Decoded(ys, decode)
    decreases |ys|
  {
    if |ys| == 0 {
      assert xs + ys == xs;
    } else {
      var n := |ys| - 1;
      assert (xs + ys)[..|xs + ys| - 1] == xs + ys[..n];
      assert (xs + ys)[|xs + ys| - 1] == ys[n];
      DecodedAppend(xs, ys[..n], decode);
    }
  }

  /** Whether some decoded record raises the date `KeyError`, which the batch does not catch. */
  predicate BatchRaises(records: seq<FeatureRecord>) {
    exists k :: 0 <= k < |records| && RecordHasDateKeyMissing(records[k].aanzichten)
  }

  /** The features of a batch in which no record raises. */
  function FeaturesFrom(records: seq<FeatureRecord>): (r: seq<Feature>)
    requires !BatchRaises(records)
    ensures |r| == |records|
    ensures forall k :: 0 <= k < |records| ==> r[k] == FeatureFrom(records[k])
  {
    seq(|records|, k requires 0 <= k < |records| => FeatureFrom(records[k]))
  }

  /**
    `process_json_object_to_vkb_features`: decodes each string in turn, drops
    the ones `json.loads` rejects and keeps going; a `KeyError` from
    `process_json_object` is not caught and ends the whole batch.
   */
  method ProcessJsonObjectsToVkbFeatures(jsonList: seq<string>, decode: string -> Option<FeatureRecord>)
    returns (res: Result<seq<Feature>, RecordError>)
    ensures res.Err? <==> BatchRaises(Decoded(jsonList, decode))
    ensures res.Ok? ==> res.value == FeaturesFrom(Decoded(jsonList, decode)) && |res.value| <= |jsonList|
  {
    var returnList: seq<Feature> := [];
    var i := 0;
    while i < |jsonList|
      invariant 0 <= i <= |jsonList|
      invariant !BatchRaises(Decoded(jsonList[..i], decode))
      invariant returnList == FeaturesFrom(Decoded(jsonList[..i], decode))
    {
      var prepared := PrepareJsonText(jsonList[i]);
      var dictList := decode(prepared);
      DecodedNext(jsonList, i, decode);
      if dictList.Some? {
        var vkbFeature := ProcessJsonObject(dictList.value);
        BatchNext(Decoded(jsonList[..i], decode), dictList.value);
        if vkbFeature.Err? {
          DecodedPrefixRaises(jsonList, i + 1, decode);
          return Err(vkbFeature.error);
        }
        returnList := returnList + [vkbFeature.value];
      }
      i := i + 1;
    }
    assert jsonList[..i] == jsonList;
    res := Ok(returnList);
  }

  /** Decoding one more string appends the record `json.loads` makes of it, if any. */
  lemma DecodedNext(jsonList: seq<string>, i: nat, decode: string -> Option<FeatureRecord>)
    requires i < |jsonList|
    ensures var d := decode(PrepareJsonText(jsonList[i]));
      Decoded(jsonList[..i + 1], decode) == Decoded(jsonList[..i], decode) + (if d.Some? then [d.value] else [])
  {
    assert jsonList[..i + 1][..i] == jsonList[..i];
  }

  /** One more record raises in the batch exactly when it raises itself, and otherwise adds its feature. */
  lemma BatchNext(records: seq<FeatureRecord>, r: FeatureRecord)
    requires !BatchRaises(records)
    ensures BatchRaises(records + [r]) <==> RecordHasDateKeyMissing(r.aanzichten)
    ensures !RecordHasDateKeyMissing(r.aanzichten) ==> FeaturesFrom(records + [r]) == FeaturesFrom(records) + [FeatureFrom(r)]
  {
    if RecordHasDateKeyMissing(r.aanzichten) {
      assert (records + [r])[|records|] == r;
    }
  }

  /** A record that raises in a prefix of the batch raises in the whole batch. */
  lemma {:induction false} DecodedPrefixRaises(jsonList: seq<string>, i: nat, decode: string -> Option<FeatureRecord>)
    requires i <= |jsonList|
    requires BatchRaises(Decoded(jsonList[..i], decode))
    ensures BatchRaises(Decoded(jsonList, decode))
    decreases |jsonList| - i
  {
    if i < |jsonList| {
      DecodedNext(jsonList, i, decode);
      var d := Decoded(jsonList[..i], decode);
      var k :| 0 <= k < |d| && RecordHasDateKeyMissing(d[k].aanzichten);
      var d' := Decoded(jsonList[..i + 1], decode);
      assert d'[k] == d[k];
      DecodedPrefixRaises(jsonList, i + 1, decode);
    } else {
      assert jsonList[..i] == jsonList;
    }
  }

  // ---------------------------------------------------------------- WKT

  /** `FSInputToWktPoint`: the space-joined coordinates, then a zero Z, inside `POINT Z (...)`. */
  function WktPoint(coords: seq<string>): string {
    "POINT Z (" + Join(" ", coords) + " 0)"
  }

  /** Reading a WKT point back: splitting its body on spaces gives the coordinates and the added zero. */
  lemma WktPointRoundTrip(coords: seq<string>)
    requires |coords| > 0
    requires forall i :: 0 <= i < |coords| ==> ' ' !in coords[i]
    ensures |WktPoint(coords)| >= 10
    ensures StartsWith(WktPoint(coords), "POINT Z (")
    ensures WktPoint(coords)[|WktPoint(coords)| - 1] == ')'
    ensures Split(WktPoint(coords)[9..|WktPoint(coords)| - 1], ' ') == coords + ["0"]
  {
    var w := WktPoint(coords);
    JoinAppend(" ", coords, "0");
    assert w[9..|w| - 1] == Join(" ", coords + ["0"]);
    assert w[..9] == "POINT Z (";
    var xs := coords + ["0"];
    assert forall i :: 0 <= i < |xs| ==> ' ' !in xs[i] by {
      assert forall i :: 0 <= i < |coords| ==> xs[i] == coords[i];
    }
    SplitJoin(xs, ' ');
  }

  lemma {:induction false} JoinAppend(sep: string, xs: seq<string>, x: string)
    requires |xs| > 0
    ensures Join(sep, xs + [x]) == Join(sep, xs) + sep + x
    decreases |xs|
  {
    if |xs| > 1 {
      assert (xs + [x])[1..] == xs[1..] + [x];
      JoinAppend(sep, xs[1..], x);
    } else {
      assert (xs + [x])[1..] == [x];
    }
  }

  /** Each piece followed by the terminator, concatenated. */
  function Terminated(xs: seq<string>, t: string): string
    decreases |xs|
  {
    if |xs| == 0 then "" else Terminated(xs[..|xs| - 1], t) + xs[|xs| - 1] + t
  }

  lemma {:induction false} TerminatedIsJoin(xs: seq<string>, t: string)
    requires |xs| > 0
    ensures Terminated(xs, t) == Join(t, xs) + t
    decreases |xs|
  {
    var n := |xs| - 1;
    if n > 0 {
      TerminatedIsJoin(xs[..n], t);
      JoinAppend(t, xs[..n], xs[n]);
      assert xs[..n] + [xs[n]] == xs;
    }
  }

  /** Trimming the last terminator off terminated items leaves the items joined. */
  lemma TrimTerminator(prefix: string, xs: seq<string>, t: string)
    requires |xs| > 0
    ensures var s := prefix + Terminated(xs, t);
      |s| >= |t| && s[..|s| - |t|] == prefix + Join(t, xs)
  {
    TerminatedIsJoin(xs, t);
    var s := prefix + Terminated(xs, t);
    assert s == (prefix + Join(t, xs)) + t;
  }

  predicate AllNonEmpty(points: seq<seq<string>>) {
    forall k :: 0 <= k < |points| ==> |points[k]| > 0
  }

  /** Each point's values joined with single spaces. */
  function PointTexts(points: seq<seq<string>>): (r: seq<string>)
    ensures |r| == |points|
    ensures forall k :: 0 <= k < |points| ==> r[k] == Join(" ", points[k])
  {
    seq(|points|, k requires 0 <= k < |points| => Join(" ", points[k]))
  }

  /** The inner loop of `FSInputToWktLineStringZM`: each value of one point, then a space. */
  method AppendValues(s0: string, punt: seq<string>) returns (s: string)
    ensures s == s0 + Terminated(punt, " ")
  {
    s := s0;
    var j := 0;
    while j < |punt|
      invariant 0 <= j <= |punt|
      invariant s == s0 + Terminated(punt[..j], " ")
    {
      assert punt[..j + 1][..j] == punt[..j];
      s := s + punt[j] + " ";
      j := j + 1;
    }
    assert punt[..j] == punt;
  }

  /** The last step of `FSInputToWktLineStringZM`: trimming the last two characters and closing the parenthesis. */
  lemma LineStringClose(points: seq<seq<string>>, s: string)
    requires |s| >= 15
    requires AllNonEmpty(points) ==> s == "LINESTRING ZM (" + Terminated(PointTexts(points), ", ")
    requires |points| == 0 ==> s == "LINESTRING ZM ("
    ensures |points| > 0 && AllNonEmpty(points) ==> s[..|s| - 2] + ")" == "LINESTRING ZM (" + Join(", ", PointTexts(points)) + ")"
    ensures |points| == 0 ==> s[..|s| - 2] + ")" == "LINESTRING ZM)"
  {
    if |points| > 0 && AllNonEmpty(points) {
      TrimTerminator("LINESTRING ZM (", PointTexts(points), ", ");
    }
  }

  /** One point of `FSInputToWktLineStringZM`: its values and spaces, the last space trimmed, then `", "`. */
  method AppendPoint(s0: string, punt: seq<string>) returns (s: string)
    requires |s0| > 0
    ensures |s| > |s0|
    ensures |punt| > 0 ==> s == s0 + Join(" ", punt) + ", "
  {
    s := AppendValues(s0, punt);
    if |punt| > 0 {
      TrimTerminator(s0, punt, " ");
    }
    s := s[..|s| - 1] + ", ";
  }

  lemma LineStringStep(points: seq<seq<string>>, i: nat, before: string, after: string)
    requires i < |points|
    requires AllNonEmpty(points[..i]) ==> before == "LINESTRING ZM (" + Terminated(PointTexts(points[..i]), ", ")
    requires |points[i]| > 0 ==> after == before + Join(" ", points[i]) + ", "
    ensures AllNonEmpty(points[..i + 1]) ==> after == "LINESTRING ZM (" + Terminated(PointTexts(points[..i + 1]), ", ")
  {
    var pre := points[..i + 1];
    assert pre[..i] == points[..i];
    assert PointTexts(pre)[..i] == PointTexts(points[..i]);
    if AllNonEmpty(pre) {
      assert pre[i] == points[i];
      assert forall k :: 0 <= k < i ==> points[..i][k] == pre[k];
    }
  }

  /**
    `FSInputToWktLineStringZM`: appends every value and a space, trims the last
    space of each point and appends `", "`, then trims the last `", "` and
    closes the parenthesis. With at least one point and no empty point this is
    the points, values joined by spaces and points by `", "`, inside
    `LINESTRING ZM (...)`; with no point at all the trim eats the opening
    `" ("` and the text is `LINESTRING ZM)`.
   */
  method WktLineStringZM(points: seq<seq<string>>) returns (s: string)
    ensures |points| > 0 && AllNonEmpty(points) ==>
      s == "LINESTRING ZM (" + Join(", ", PointTexts(points)) + ")"
    ensures |points| == 0 ==> s == "LINESTRING ZM)"
  {
    s := "LINESTRING ZM (";
    var i := 0;
    while i < |points|
      invariant 0 <= i <= |points|
      invariant |s| >= 15
      invariant AllNonEmpty(points[..i]) ==> s == "LINESTRING ZM (" + Terminated(PointTexts(points[..i]), ", ")
      invariant i == 0 ==> s == "LINESTRING ZM ("
    {
      ghost var before := s;
      s := AppendPoint(s, points[i]);
      LineStringStep(points, i, before, s);
      i := i + 1;
    }
    assert points[..i] == points;
    LineStringClose(points, s);
    s := s[..|s| - 2] + ")";
  }
}
