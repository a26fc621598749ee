# LDSolidProject core, modelled in Dafny

LDSolidProject turns the Flemish road-sign survey (VKB) into linked data and
serves it back. This project models its core:

- **The record normaliser** (`JsonToVkbFeatureProcessor`). One decoded survey
  record becomes one `VkbFeature` (module `JsonToVkb`).
  - It fills the scalar fields.
  - It normalises each aanzicht's viewing angle.
  - It flattens the signs of all aanzichten into one list.
  - It reads the installation date, and raises the `KeyError` that the
    misspelt `datumPlaasting` key provokes.
  - It produces the two WKT texts.
  - A batch of JSON strings drops the strings that do not decode and stops at
    the first `KeyError`.
- **The owner table** (`load_beheerders`, module `Beheerders`). The organisation
  export and the road-manager list become a sequence of dictionary assignments.
  The table is what those assignments leave behind.
- **The graph emitter** (`VkbFeatureToOSLOProcessor.process_to_oslo`).
  - Module `OsloGraph` specifies, as functions (`Emit`), the statements that
    one installation adds. Blank nodes are numbered from a counter.
  - Module `VkbFeatureToOSLOProcessor` holds the class `Processor`. Its
    `graph`, `nextBlank` and `beheerders` fields are updated in place, step by
    step as in the source. It is proved to add exactly `Emit`'s statements.
  - Module `OsloProperties` proves what those statements say. Each kind of
    statement is traced back to the part of the feature that caused it, and
    the other way round:
    - heights;
    - road segments;
    - angles;
    - owners, with the lookup chain and the name rewrite that persists from
      sign to sign;
    - variable inscriptions;
    - the sub-sign links (the tallest eligible sign, the last one among equals);
    - fresh blank nodes.
- **The triple store** (`TripleStore`, `TripleStoreAPI`; modules `TripleStore`,
  `TripleClosure` and `TripleStoreApi`).
  - The single-slot graph cache, which reloads exactly when the source changes.
  - The textual query gate: line breaks blanked, space runs collapsed,
    lower-cased, reserved words refused.
  - The shaping of query results into a table.
  - The API's own query gate and the keyword call that follows it, which
    raises TypeError for every query the gate admits (see "## Findings").
  - The two closure traversals, `yield_triples_found_by_subject` and
    `get_all_related_triples`. Both are proved equal, as sets, to
    reachability: through blank nodes, and through blank nodes or the
    followed predicates, respectively.
- **The records** `VkbFeature` and `VkbBord` are the datatypes `Feature` and
  `Bord` (module `VkbFeature`). Their defaults are those of the dataclass.

Behaviours of the code worth noting, all modelled as the code has them:

- **The angle range.** A viewing angle of exactly 360 degrees is kept as 360,
  because only values above 360 are reduced
  (`CreatingData/JsonToVkbFeatureProcessor.py` lines 60-61). The stored angle
  lies in [0, 360].
- **The road-manager list.** An entry whose third line is a single space is
  stored under the key `' '` as well as under its first line
  (`CreatingData/VkbFeatureToOSLOProcessor.py` lines 146-147).
- **The normalised owner name.** When code and name both fail, the name is
  rewritten on the feature and looked up through its `Gemeente`→`Stad` reading
  (`CreatingData/VkbFeatureToOSLOProcessor.py` lines 80-84). The rewritten name
  stays on the feature, so every later sign of that feature looks it up
  directly (`NormalisedNameCarriesOver`).
- **The installation date.** It is read from `datumPlaatsing` after the code
  tests for the differently spelt `datumPlaasting`
  (`CreatingData/JsonToVkbFeatureProcessor.py` lines 86-87).
- **The sub-sign filter** (line 110 of `VkbFeatureToOSLOProcessor.py`). It
  tests the code of the loop variable left over from the sign loop, that is
  the last sign, rather than the candidate's own code. A feature whose last
  sign is a sub-sign gets no links at all (`NoLinksUnderLastG`).
- **The closure traversals** (`TripleAPI/TripleStore.py` lines 67-82). They
  recurse without a cycle guard. The model requires `Ranked`, a rank that
  decreases along every edge the traversal follows, anywhere in the graph.

## Model

| member | source | states |
|---|---|---|
| JsonToVkb.NormalisedAngle | CreatingData/JsonToVkbFeatureProcessor.py:57-61 | the stored angle lies in [0, 360] degrees, differs from the input by whole turns, is 360 exactly when the input is 360, and an angle already in [0, 360] is kept |
| JsonToVkb.NormaliseAngle | CreatingData/JsonToVkbFeatureProcessor.py:58-61 | the add-360-while-negative loop followed by the modulo step yields `NormalisedAngle` of the input |
| JsonToVkb.AngleExamples | CreatingData/JsonToVkbFeatureProcessor.py:57-61 | -90 degrees becomes 270, 900 becomes 180, 360 stays 360 and 720 becomes 0 |
| JsonToVkb.ProcessBord | CreatingData/JsonToVkbFeatureProcessor.py:65-87 | one sign block raises exactly when it announces a real date under `datumPlaasting` without a `datumPlaatsing` key, the error names `datumPlaatsing`, otherwise the sign is `BordFrom` of the block with the aanzicht's angle |
| JsonToVkb.ProcessBorden | CreatingData/JsonToVkbFeatureProcessor.py:64-87 | the sign loop of one aanzicht raises exactly when some block raises, and otherwise yields one sign per block, in order |
| JsonToVkb.BordenFrom | CreatingData/JsonToVkbFeatureProcessor.py:64-85 | one sign per sign block, in block order, each carrying the aanzicht's normalised angle |
| JsonToVkb.ProcessHeader | CreatingData/JsonToVkbFeatureProcessor.py:37-50 | the fresh feature gets the record's id, point, coordinates, owner key and name, and the optional external id and road-register code only when present |
| JsonToVkb.ProcessJsonObject | CreatingData/JsonToVkbFeatureProcessor.py:36-89 | a record raises `KeyError('datumPlaatsing')` exactly when one of its sign blocks does; otherwise the feature is `FeatureFrom` of the record: the header fields, the signs of all aanzichten flattened in order, one road-segment id per aanzicht, empty mount lists |
| JsonToVkb.AanzichtNext | CreatingData/JsonToVkbFeatureProcessor.py:56-66 | each further aanzicht appends its road-segment id and its signs, with its angle, to what the earlier ones produced |
| JsonToVkb.FlattenLength | CreatingData/JsonToVkbFeatureProcessor.py:56-66 | the feature has exactly as many signs as the record has sign blocks |
| JsonToVkb.FlattenAt | CreatingData/JsonToVkbFeatureProcessor.py:56-87 | sign j of aanzicht i sits at position `Offset(i) + j` of the feature's signs and carries aanzicht i's normalised angle |
| JsonToVkb.SegmentIds | CreatingData/JsonToVkbFeatureProcessor.py:62 | one road-segment id per aanzicht, in aanzicht order |
| JsonToVkb.AbsentKeysKeepDefaults | CreatingData/JsonToVkbFeatureProcessor.py:43-79 | absent `externalId` and `wegenregisterCode` leave the `''` defaults and present ones are copied; the client id stays `''`; a sign's external id, client id, foil type and parameters are the block's |
| JsonToVkb.PlacementDate | CreatingData/JsonToVkbFeatureProcessor.py:86-87 | a sign has an installation date exactly when `datumPlaasting` is present and not `01/01/1950`, and the date is the one under `datumPlaatsing` |
| JsonToVkb.DefaultsAndParsedLists | CreatingData/DataHelpers/VkbFeature.py:10-21 | a fresh feature has id and owner key -1, empty strings and no lists; a normalised feature has all four lists set, the mounts and supports empty |
| JsonToVkb.ProcessJsonObjectAndAddToList | CreatingData/JsonToVkbFeatureProcessor.py:33-34 | the list gains exactly the record's feature at its end, or the `KeyError` is raised |
| JsonToVkb.DecodedSingle | CreatingData/JsonToVkbFeatureProcessor.py:18-22 | one JSON string yields the record `json.loads` makes of the prepared text, or nothing when it does not decode |
| JsonToVkb.DecodedAppend | CreatingData/JsonToVkbFeatureProcessor.py:16-22 | decoding a batch is decoding its parts in turn: records keep input order and are independent of each other |
| JsonToVkb.DecodedNext | CreatingData/JsonToVkbFeatureProcessor.py:16-22 | one more string appends at most its own record |
| JsonToVkb.BatchNext | CreatingData/JsonToVkbFeatureProcessor.py:20-22 | one more record makes the batch raise exactly when it raises itself, and otherwise appends its feature |
| JsonToVkb.FeaturesFrom | CreatingData/JsonToVkbFeatureProcessor.py:20-22 | one feature per decoded record, in order |
| JsonToVkb.ProcessJsonObjectsToVkbFeatures | CreatingData/JsonToVkbFeatureProcessor.py:14-31 | the batch raises exactly when some decoded record raises; otherwise it returns one feature per decoded record, in input order, never more features than strings |
| JsonToVkb.DecodedPrefixRaises | CreatingData/JsonToVkbFeatureProcessor.py:14-31 | a record that raises early makes the whole batch raise |
| JsonToVkb.WktPointRoundTrip | CreatingData/JsonToVkbFeatureProcessor.py:102-104 | the point text is `POINT Z (...)`, and splitting its body on spaces gives back the coordinates followed by the added `0` |
| JsonToVkb.AppendValues | CreatingData/JsonToVkbFeatureProcessor.py:95-96 | the inner loop appends each value of the point followed by a space |
| JsonToVkb.TerminatedIsJoin | CreatingData/JsonToVkbFeatureProcessor.py:94-97 | values each followed by a separator are the values joined by it, plus one trailing separator |
| JsonToVkb.TrimTerminator | CreatingData/JsonToVkbFeatureProcessor.py:97-98 | trimming the trailing separator leaves the values joined |
| JsonToVkb.AppendPoint | CreatingData/JsonToVkbFeatureProcessor.py:94-97 | a non-empty point adds its values joined by single spaces, then `", "` |
| JsonToVkb.LineStringClose | CreatingData/JsonToVkbFeatureProcessor.py:98 | the final trim closes the joined points, and with no point at all it eats the opening `" ("` |
| JsonToVkb.WktLineStringZM | CreatingData/JsonToVkbFeatureProcessor.py:92-99 | with non-empty points the text is `LINESTRING ZM (` + values joined by spaces, points joined by `", "` + `)`; with no point it is `LINESTRING ZM)` |
| Beheerders.AssignAppend | CreatingData/VkbFeatureToOSLOProcessor.py:125-148 | the assignments of the two files compose: the table after both is the table after the first, updated by the second |
| Beheerders.AssignUntouched | CreatingData/VkbFeatureToOSLOProcessor.py:125-148 | a key that no assignment names keeps its presence and its value |
| Beheerders.AssignLastWins | CreatingData/VkbFeatureToOSLOProcessor.py:125-148 | the last assignment to a key decides its value |
| Beheerders.AssignFrom | CreatingData/VkbFeatureToOSLOProcessor.py:125-148 | every entry of the table was there before or was assigned |
| Beheerders.CsvLastRowWins | CreatingData/VkbFeatureToOSLOProcessor.py:128-130 | a row whose name no later row repeats maps that name (field 1 without newlines) to the row's field 0 |
| Beheerders.ReadCsv | CreatingData/VkbFeatureToOSLOProcessor.py:127-130 | the export loop skips the header and assigns field 1 (newlines removed) to field 0 for every row, in order |
| Beheerders.GroupsAt | CreatingData/VkbFeatureToOSLOProcessor.py:133-141 | the loop's j-th entry is the block of four lines at line 4j, and it is not the blank end marker |
| Beheerders.GroupsEnd | CreatingData/VkbFeatureToOSLOProcessor.py:140-141 | the loop stops at the first block of four empty lines |
| Beheerders.WdbWritesSound | CreatingData/VkbFeatureToOSLOProcessor.py:142-148 | every assignment from the road-manager list stores an OVO code from an entry not marked `Nee`, under its first line or under `' '` |
| Beheerders.WdbWritesComplete | CreatingData/VkbFeatureToOSLOProcessor.py:142-148 | every entry not marked `Nee` whose fourth line starts with `OVO` is stored under its first line, and under `' '` when its third line is `' '` |
| Beheerders.GroupAssignedIs | CreatingData/VkbFeatureToOSLOProcessor.py:142-148 | one entry's statements leave the table as its assignments do |
| Beheerders.GroupStep | CreatingData/VkbFeatureToOSLOProcessor.py:133-148 | a non-blank entry is processed, then the loop goes on four lines further |
| Beheerders.ReadWdb | CreatingData/VkbFeatureToOSLOProcessor.py:132-151 | the road-manager loop leaves the table its entries' assignments specify, up to the first blank block |
| Beheerders.OwnerTableValues | CreatingData/VkbFeatureToOSLOProcessor.py:124-153 | every value of the owner table is either the export's value for that key or an OVO code |
| OsloGraph.SignRefsInjective | CreatingData/VkbFeatureToOSLOProcessor.py:54-100 | each of a sign's three nodes (`_bord_`, `_teken`, `_concept`) determines the installation id and the sign id, and is determined by them |
| OsloGraph.SignRefsDistinct | CreatingData/VkbFeatureToOSLOProcessor.py:30-100 | sign, traffic-sign and concept nodes never coincide, across signs and installations, and none is an installation node |
| OsloGraph.SignTextInjective | CreatingData/VkbFeatureToOSLOProcessor.py:54-100 | the text `{id}_bord_{bid}` plus a suffix gives back both ids and the suffix |
| OsloGraph.OwnerChain | CreatingData/VkbFeatureToOSLOProcessor.py:78-84 | the code wins over the name and the name over the `Stad` reading; an owner is found exactly when one of the three is in the table, and it is a table value; the name changes, to its normalised form, only when code and name both failed |
| OsloGraph.OnderbordenMember | CreatingData/VkbFeatureToOSLOProcessor.py:45-59 | the collected sub-signs are exactly the signs whose code starts with `G` |
| OsloGraph.CandidatesMember | CreatingData/VkbFeatureToOSLOProcessor.py:110-111 | the candidates are exactly the signs higher than the sub-sign and above the ground, provided the last sign of the loop is not a G-sign |
| OsloGraph.InsertByY | CreatingData/VkbFeatureToOSLOProcessor.py:114 | one insertion step of the sort adds exactly the new element |
| OsloGraph.SortByY | CreatingData/VkbFeatureToOSLOProcessor.py:114 | the sort keeps the candidates as a multiset |
| OsloGraph.InsertByYSorted | CreatingData/VkbFeatureToOSLOProcessor.py:114 | inserting into a list sorted by height keeps it sorted |
| OsloGraph.SortByYSorted | CreatingData/VkbFeatureToOSLOProcessor.py:114 | `sorted(candidates, key=y)` is sorted by height and a permutation of the candidates |
| OsloGraph.Reverse | CreatingData/VkbFeatureToOSLOProcessor.py:114 | `reversed` puts element `i` at position `n - 1 - i` |
| OsloGraph.ParentExtend | CreatingData/VkbFeatureToOSLOProcessor.py:114-119 | a further candidate becomes the parent exactly when it is at least as high as the current parent |
| OsloGraph.ParentIsLastTallest | CreatingData/VkbFeatureToOSLOProcessor.py:110-119 | the parent chosen is an eligible sign of greatest height, and every eligible sign after it in the feature is strictly lower |
| OsloGraph.BeforeNext | CreatingData/VkbFeatureToOSLOProcessor.py:53-104 | each sign moves the blank counter on by one exactly when it is above the ground, and leaves the owner name its lookup ended with |
| OsloGraph.EmitBordenSound | CreatingData/VkbFeatureToOSLOProcessor.py:53-104 | every statement of the sign loop was added by one particular sign |
| OsloGraph.EmitBordenComplete | CreatingData/VkbFeatureToOSLOProcessor.py:53-104 | every statement a sign adds is in the sign loop's output |
| OsloGraph.Emit | CreatingData/VkbFeatureToOSLOProcessor.py:28-122 | an installation always draws at least one blank node, for its geometry |
| OsloProperties.HeaderPredicates | CreatingData/VkbFeatureToOSLOProcessor.py:30-41 | the header statements use only `rdf:type`, `locn:geometry`, `geo:lat` and `geo:long` |
| OsloProperties.BordParts | CreatingData/VkbFeatureToOSLOProcessor.py:61-104 | a sign's statements are its membership, its height, its angle, its owner and its traffic-sign statements |
| OsloProperties.BordPredicates | CreatingData/VkbFeatureToOSLOProcessor.py:61-104 | a sign's statements use only the ten sign predicates |
| OsloProperties.SegmentMember | CreatingData/VkbFeatureToOSLOProcessor.py:47-51 | the `hoortBij` statements are exactly one per road-segment id, from the installation |
| OsloProperties.LinksMember | CreatingData/VkbFeatureToOSLOProcessor.py:107-122 | the links are exactly the links of the individual sub-signs |
| OsloProperties.LinksSound | CreatingData/VkbFeatureToOSLOProcessor.py:107-122 | every link belongs to one sub-sign |
| OsloProperties.LinksComplete | CreatingData/VkbFeatureToOSLOProcessor.py:107-122 | every sub-sign's link is among the links |
| OsloProperties.LinksPredicate | CreatingData/VkbFeatureToOSLOProcessor.py:121-122 | links use only `heeftOnderbord` |
| OsloProperties.BordHeight | CreatingData/VkbFeatureToOSLOProcessor.py:64-71 | within a sign, the height statements are those of its own height node |
| OsloProperties.BordAngle | CreatingData/VkbFeatureToOSLOProcessor.py:74-75 | within a sign, the angle statement hangs on the installation and carries the sign's angle |
| OsloProperties.SignInEmit | CreatingData/VkbFeatureToOSLOProcessor.py:53-104 | whatever one sign adds is in the installation's output |
| OsloProperties.FromSign | CreatingData/VkbFeatureToOSLOProcessor.py:28-122 | a statement with a sign predicate was added by one particular sign |
| OsloProperties.SignAtIs | CreatingData/VkbFeatureToOSLOProcessor.py:53-104 | sign k adds its statements with the counter and owner name left by the signs before it |
| OsloProperties.HeightPerSign | CreatingData/VkbFeatureToOSLOProcessor.py:65-71 | a sign gets an `opstelhoogte` statement exactly when its `y` is above 0 |
| OsloProperties.HeightComplete | CreatingData/VkbFeatureToOSLOProcessor.py:65-71 | every sign above the ground has a height node with value `y / 1000` and unit `MTR` in the graph |
| OsloProperties.HeightSound | CreatingData/VkbFeatureToOSLOProcessor.py:65-71 | every height statement belongs to a sign above the ground |
| OsloProperties.SegmentsExact | CreatingData/VkbFeatureToOSLOProcessor.py:47-51 | among all the installation's statements, the `hoortBij` ones are exactly one per road-segment id, from the installation |
| OsloProperties.AnglesExact | CreatingData/VkbFeatureToOSLOProcessor.py:74-75 | the angle statements are exactly the angles of the signs, on the installation node |
| OsloProperties.SignThreading | CreatingData/VkbFeatureToOSLOProcessor.py:53-84 | the sign loop starts after the geometry node with the feature's own name, and each sign advances the counter and the name as the source does |
| OsloProperties.SignsEnd | CreatingData/VkbFeatureToOSLOProcessor.py:53-104 | after the last sign, the installation's counter and owner name are the sign loop's |
| OsloProperties.NormalisedNameCarriesOver | CreatingData/VkbFeatureToOSLOProcessor.py:80-84 | once code and name fail, the normalised name stays on the feature, and the next sign finds the owner under it directly |
| OsloProperties.BordOwner | CreatingData/VkbFeatureToOSLOProcessor.py:85-87 | a sign's owner statement names the organisation its lookup found |
| OsloProperties.OwnerPerSign | CreatingData/VkbFeatureToOSLOProcessor.py:77-89 | sign k gets an owner statement exactly when the lookup chain resolves for the name the feature has at that point, naming the organisation found |
| OsloProperties.OwnerSound | CreatingData/VkbFeatureToOSLOProcessor.py:85-87 | every owner statement belongs to a sign whose lookup resolved, and names that organisation |
| OsloProperties.ProvinceNameExample | CreatingData/VkbFeatureToOSLOProcessor.py:82 | `Provincie Vlaams Brabant` normalises to `Vlaams-Brabant` |
| OsloProperties.ProvinceOwnerExample | CreatingData/VkbFeatureToOSLOProcessor.py:78-84 | `Provincie Vlaams Brabant` is not found as it stands, leaves the name `Vlaams-Brabant`, and the next lookup finds it |
| OsloProperties.CityNameNormalised | CreatingData/VkbFeatureToOSLOProcessor.py:82 | a `Gemeente` name without the rewritten patterns is left unchanged by the rewrite |
| OsloProperties.CityNameRetried | CreatingData/VkbFeatureToOSLOProcessor.py:83-84 | `Gemeente X` mentions `Gemeente` and reads `Stad X` after the substitution |
| OsloProperties.CityOwnerExample | CreatingData/VkbFeatureToOSLOProcessor.py:78-87 | a municipality missing under `Gemeente X` is found under `Stad X` and keeps its name |
| OsloProperties.BordInscription | CreatingData/VkbFeatureToOSLOProcessor.py:95-97 | within a sign, an inscription statement exists only for a G-code with parameters, and it holds the parameters joined by spaces on the traffic-sign node |
| OsloProperties.InscriptionsExact | CreatingData/VkbFeatureToOSLOProcessor.py:95-97 | the inscription statements are exactly those of the G-signs with parameters |
| OsloProperties.SignsPredicate | CreatingData/VkbFeatureToOSLOProcessor.py:53-104 | the sign loop uses only the sign predicates |
| OsloProperties.EmitParts | CreatingData/VkbFeatureToOSLOProcessor.py:28-122 | the installation's statements are the header, the segments, the sign loop and the links, and nothing else |
| OsloProperties.LinkStatements | CreatingData/VkbFeatureToOSLOProcessor.py:106-122 | only the links use `heeftOnderbord` |
| OsloProperties.LinkForMember | CreatingData/VkbFeatureToOSLOProcessor.py:108-122 | a sub-sign is linked exactly when its height is not 0 and it has a candidate, from the parent's traffic sign to its own |
| OsloProperties.AllLinksSound | CreatingData/VkbFeatureToOSLOProcessor.py:106-122 | every link links a G-sign whose height is not 0 (a negative height included) to the parent chosen among its candidates |
| OsloProperties.AllLinksComplete | CreatingData/VkbFeatureToOSLOProcessor.py:106-122 | every G-sign whose height is not 0 and that has a candidate is linked to its parent |
| OsloProperties.AllLinksMember | CreatingData/VkbFeatureToOSLOProcessor.py:106-122 | the links of a sign list are exactly those of its G-signs |
| OsloProperties.LinksExact | CreatingData/VkbFeatureToOSLOProcessor.py:106-122 | the installation's `heeftOnderbord` statements are exactly the sub-sign links |
| OsloProperties.NoCandidatesUnderLastG | CreatingData/VkbFeatureToOSLOProcessor.py:110 | when the last sign is a G-sign, the filter admits no candidate at all |
| OsloProperties.NoLinksUnderLastG | CreatingData/VkbFeatureToOSLOProcessor.py:106-122 | an installation whose last sign is a G-sign gets no `heeftOnderbord` statement |
| OsloProperties.TallestParentExample | CreatingData/VkbFeatureToOSLOProcessor.py:110-122 | a sub-sign under signs at 800 and 1200 hangs under the one at 1200 |
| OsloProperties.GroundSubSignExample | CreatingData/VkbFeatureToOSLOProcessor.py:108-109 | a sub-sign on the ground gets no link |
| OsloProperties.LastSubSignExample | CreatingData/VkbFeatureToOSLOProcessor.py:110-113 | with a G-sign last, even a sub-sign under a taller sign gets no link |
| OsloProperties.BordNamed | CreatingData/VkbFeatureToOSLOProcessor.py:61-104 | a sign's statements without blank nodes do not depend on the counter |
| OsloProperties.EmitBordenNamed | CreatingData/VkbFeatureToOSLOProcessor.py:53-104 | the sign loop from two counters gives the same named statements, the same owner name and the same number of blank nodes |
| OsloProperties.NamedStatementsIndependentOfCounter | CreatingData/VkbFeatureToOSLOProcessor.py:28-122 | processing an installation with the counter anywhere gives the same named statements: only the blank nodes differ |
| OsloProperties.BordBlanks | CreatingData/VkbFeatureToOSLOProcessor.py:64-71 | a sign uses at most its own height node |
| OsloProperties.EmitBordenBlanks | CreatingData/VkbFeatureToOSLOProcessor.py:53-104 | the sign loop uses only blank nodes it drew itself |
| OsloProperties.LinksNamed | CreatingData/VkbFeatureToOSLOProcessor.py:116-122 | links use no blank node |
| OsloProperties.HeaderBlanks | CreatingData/VkbFeatureToOSLOProcessor.py:37-41 | the header uses only its geometry node |
| OsloProperties.BlankNodesFresh | CreatingData/VkbFeatureToOSLOProcessor.py:37-71 | every blank node of an installation's statements is one it drew, none shared with statements made before |
| OsloProperties.SignCounter | CreatingData/VkbFeatureToOSLOProcessor.py:64-71 | sign k draws a blank node exactly when it is above the ground |
| OsloProperties.HeightNodesDistinct | CreatingData/VkbFeatureToOSLOProcessor.py:37-71 | the geometry node comes first, and each sign above the ground gets a height node after those of the signs before it |
| OsloProperties.SignsGrow | CreatingData/VkbFeatureToOSLOProcessor.py:37-41 | the signs' blank nodes come after the geometry node |
| VkbFeatureToOSLOProcessor.PhasesEmit | CreatingData/VkbFeatureToOSLOProcessor.py:28-122 | the four phases in turn add exactly `Emit`'s statements, and every blank node in the graph stays below the counter |
| VkbFeatureToOSLOProcessor.Processor.constructor | CreatingData/VkbFeatureToOSLOProcessor.py:10-26 | an empty graph, the counter at 0, and the owner table loaded from both files |
| VkbFeatureToOSLOProcessor.Processor.LoadBeheerders | CreatingData/VkbFeatureToOSLOProcessor.py:124-153 | the owner table becomes the one both files specify; the graph and the counter are unchanged |
| VkbFeatureToOSLOProcessor.Processor.LookUpOwner | CreatingData/VkbFeatureToOSLOProcessor.py:78-84 | the owner found and the name left behind are those of the lookup chain `ResolveOwner` |
| VkbFeatureToOSLOProcessor.Processor.AddHeight | CreatingData/VkbFeatureToOSLOProcessor.py:64-71 | a sign above the ground gets its height on a fresh blank node, and the counter moves on; otherwise nothing changes |
| VkbFeatureToOSLOProcessor.Processor.AddSign | CreatingData/VkbFeatureToOSLOProcessor.py:53-104 | one sign adds exactly its `BordStep` statements, advances the counter and returns the owner name afterwards |
| VkbFeatureToOSLOProcessor.Processor.AddTeken | CreatingData/VkbFeatureToOSLOProcessor.py:91-104 | the traffic sign, its inscription for a G-code with parameters, and its concept with the code are added |
| VkbFeatureToOSLOProcessor.Processor.AddHeader | CreatingData/VkbFeatureToOSLOProcessor.py:30-41 | the installation node and its point geometry are added on a fresh blank node |
| VkbFeatureToOSLOProcessor.Processor.AddSegments | CreatingData/VkbFeatureToOSLOProcessor.py:47-51 | one `hoortBij` statement per road segment is added |
| VkbFeatureToOSLOProcessor.Processor.AddSigns | CreatingData/VkbFeatureToOSLOProcessor.py:53-104 | the sign loop adds `EmitBorden`'s statements and collects the G-signs in order |
| VkbFeatureToOSLOProcessor.Processor.AddAllLinks | CreatingData/VkbFeatureToOSLOProcessor.py:106-122 | the links are added only when there are sub-signs |
| VkbFeatureToOSLOProcessor.Processor.AddLinks | CreatingData/VkbFeatureToOSLOProcessor.py:106-122 | each sub-sign whose height is not 0 and that has a candidate gets a link from the tallest candidate's traffic sign |
| VkbFeatureToOSLOProcessor.Processor.AddFeature | CreatingData/VkbFeatureToOSLOProcessor.py:28-122 | the header, the segments, the signs and the links are added in turn |
| VkbFeatureToOSLOProcessor.Processor.AddPlacement | CreatingData/VkbFeatureToOSLOProcessor.py:30-51 | the header and the segments are added |
| VkbFeatureToOSLOProcessor.Processor.AddSignsAndLinks | CreatingData/VkbFeatureToOSLOProcessor.py:53-122 | the sign loop and the links are added |
| VkbFeatureToOSLOProcessor.Processor.ProcessToOslo | CreatingData/VkbFeatureToOSLOProcessor.py:28-122 | `process_to_oslo(f)` adds exactly `Emit`'s statements, draws its blank nodes fresh, keeps the owner table, and leaves `f` with the owner name the lookups wrote back |
| TripleClosure.Matching | TripleAPI/TripleStore.py:68 | `triples((n, None, None))` yields exactly the triples whose subject is `n` |
| TripleClosure.CycleHasNoRank | TripleAPI/TripleStore.py:67-71 | a followed self-loop admits no rank, so the traversal precondition excludes it |
| TripleClosure.SubjectClosure | TripleAPI/TripleStore.py:67-71 | everything yielded is in the graph and is nowhere above `n`; something is yielded exactly when `n` is the subject of some triple |
| TripleClosure.Expand | TripleAPI/TripleStore.py:68-71 | the loop over the matching triples yields something exactly when there is a matching triple |
| TripleClosure.Objects | TripleAPI/TripleStore.py:77-80 | `also_get` collects exactly the objects of the yielded triples whose predicate is followed |
| TripleClosure.ExpandContains | TripleAPI/TripleStore.py:68-71 | each matching triple, and the closure of its blank object, is yielded |
| TripleClosure.SubjectClosureSound | TripleAPI/TripleStore.py:67-71 | whatever the subject closure yields is reached from `n` through blank nodes |
| TripleClosure.ExpandSound | TripleAPI/TripleStore.py:68-71 | whatever the matching loop yields is reached from `n` through blank nodes |
| TripleClosure.SubjectClosureComplete | TripleAPI/TripleStore.py:67-71 | every triple reached from `n` through blank nodes is yielded |
| TripleClosure.SubjectClosureIsReachability | TripleAPI/TripleStore.py:67-71 | the subject closure is exactly the set of triples reached from `n` through blank nodes |
| TripleClosure.RelatedEachMember | TripleAPI/TripleStore.py:81-82 | whatever the final loop yields comes from one collected object |
| TripleClosure.RelatedEachContains | TripleAPI/TripleStore.py:81-82 | everything related to a collected object is yielded |
| TripleClosure.RelatedSound | TripleAPI/TripleStore.py:73-82 | whatever `get_all_related_triples` yields is reached from `n` along blank-node or followed edges |
| TripleClosure.RelatedThroughBlank | TripleAPI/TripleStore.py:73-82 | what a blank object of `n` relates to, `n` relates to |
| TripleClosure.RelatedComplete | TripleAPI/TripleStore.py:73-82 | every triple reached from `n` along blank-node or followed edges is yielded |
| TripleClosure.RelatedIsReachability | TripleAPI/TripleStore.py:73-82 | the related triples are exactly the triples reached from `n` along edges with a blank object or a followed predicate |
| TripleStore.NormalisedIsClean | TripleAPI/TripleStore.py:30-36 | the normalised query has no line break, no double space and no capital |
| TripleStore.BreaksBlankedOut | TripleAPI/TripleStore.py:30-33 | blanking leaves no `\n` and no `\r` |
| TripleStore.NormalisedNonEmpty | TripleAPI/TripleStore.py:28-36 | a non-empty query stays non-empty after normalising |
| TripleStore.NormalisedIdempotent | TripleAPI/TripleStore.py:30-36 | normalising twice is normalising once: the loops and `lower()` leave an already normalised text unchanged |
| TripleStore.NormalisedExample | TripleAPI/TripleStore.py:30-36 | `"A\n  B"` normalises to `"a b"` |
| TripleStore.ExampleBlanked | TripleAPI/TripleStore.py:30-31 | the line break of `"A\n  B"` becomes a space |
| TripleStore.ExampleSquashed | TripleAPI/TripleStore.py:34-35 | a run of three spaces becomes one |
| TripleStore.RejectedAfterLowering | TripleAPI/TripleStore.py:36-41 | `DROP` is refused, because the gate runs after lower-casing |
| TripleStore.DropNormalised | TripleAPI/TripleStore.py:36 | `DROP` normalises to `drop` |
| TripleStore.BlankOut | TripleAPI/TripleStore.py:30-33 | the `while c in q: q = q.replace(c, ' ')` loop ends with every `c` replaced and none left |
| TripleStore.NormaliseQuery | TripleAPI/TripleStore.py:30-36 | the three loops and `lower()` yield `Normalised` of the query |
| TripleStore.Gate | TripleAPI/TripleStore.py:38-41 | the query is refused exactly when it contains one of the seven reserved words |
| TripleStore.ShapeResult | TripleAPI/TripleStore.py:48-55 | the table has one header per variable, in order, and one row per solution with one cell per variable, `None` for an unbound one |
| TripleStore.Store.constructor | TripleAPI/TripleStore.py:8-10 | no graph and no source are held |
| TripleStore.Store.Load | TripleAPI/TripleStore.py:20-25 | the parsed source becomes the held graph and the source is recorded |
| TripleStore.Store.GetGraph | TripleAPI/TripleStore.py:12-18 | the graph of the requested source is returned, reloading exactly when no graph is held or the source differs |
| TripleStore.GetGraphTwice | TripleAPI/TripleStore.py:12-18 | asking twice for the same source loads at most once and returns the same graph |
| TripleStore.Store.PerformSparqlQuery | TripleAPI/TripleStore.py:27-57 | the empty query answers `{}`; a reserved word raises PermissionError; otherwise the normalised text is evaluated and its solutions shaped into the table |
| TripleStore.Store.GetAssetTriples | TripleAPI/TripleStore.py:59-65 | RuntimeError without a graph; otherwise the triples reached from the asset IRI through blank nodes |
| TripleStore.Store.GetAllRelatedTriples | TripleAPI/TripleStore.py:73-82 | without a graph the traversal fails; otherwise it yields exactly the triples reached from the root along blank-node or followed edges |
| TripleStore.LoadThenRelated | UnitTests/TripleStoreTests.py:9-22 | loading a source and then asking for an installation's related triples traverses the freshly parsed graph |
| TripleStoreApi.StoreApi.constructor | TripleAPI/TripleStoreAPI.py:9-12 | the source is captured only when the store already has one |
| TripleStoreApi.StoreApi.PerformSparqlQuery | TripleAPI/TripleStoreAPI.py:14-36 | as written: `{}` for the empty query, PermissionError when the normalised query holds a reserved word, and otherwise the TypeError of the call with the undeclared keyword `query` |
| TripleStoreApi.StoreApi.PerformSparqlQueryIntended | TripleAPI/TripleStoreAPI.py:14-36 | with the normalised text passed as the store's `q`, the API's gate followed by the store's gives the answer the store alone gives for the original query |
| TripleStoreApi.ApiAgreesUpToTheCall | TripleAPI/TripleStoreAPI.py:14-28 | on the empty query and on a refused query the API answers exactly as the store does |
| TripleStoreApi.AdmittedQueryNeverAnswered | TripleAPI/TripleStoreAPI.py:36 | every non-empty query the gate admits ends in the TypeError, an answer the store never gives |
| TripleStoreApi.AskNormalised | TripleAPI/TripleStoreAPI.py:17-23 | `ASK{}` normalises to `ask{}` |
| TripleStoreApi.AskAdmitted | TripleAPI/TripleStoreAPI.py:25-28 | `ask{}` holds none of the seven reserved words, so the gate admits it |
| TripleStoreApi.AskRaisesTypeError | TripleAPI/TripleStoreAPI.py:36 | for `ASK{}` the API raises TypeError whatever graph is held, where the store would answer |
| TripleStoreApi.StoreApi.CurrentGraph | TripleAPI/TripleStoreAPI.py:38-47 | the graph is `get_graph(self.source)`, loaded at most once, or AttributeError without a captured source |
| TripleStoreApi.StoreApi.GetAssetTriples | TripleAPI/TripleStoreAPI.py:38-50 | the triples reached from the asset IRI through blank nodes in the source's graph, or AttributeError without a source |
| TripleStoreApi.StoreApi.GetAllRelatedTriples | TripleAPI/TripleStoreAPI.py:52-61 | the triples reached from the root along blank-node or followed edges in the source's graph |
| TripleStoreApi.StoreApi.GetFullOpstellingTriples | TripleAPI/TripleStoreAPI.py:63-70 | the triples reached from the installation IRI through blank nodes and `omvatVerkeersbord`, `realiseert`, `heeftVerkeersbordconcept`, `hoortBij` |
| Text.Replace | CreatingData/VkbFeatureToOSLOProcessor.py:82 | `str.replace` with a shorter replacement never lengthens the text, shortens it when the pattern occurs, and is the identity when it does not |
| Text.ReplaceChar | TripleAPI/TripleStore.py:30-33 | replacing one character by another maps the text pointwise and leaves none of the old character |
| Text.ContainsChar | TripleAPI/TripleStore.py:30-33 | `c in q` for one character is membership of that character |
| Text.SquashAfterReplace | TripleAPI/TripleStore.py:34-35 | each pass of `replace('  ', ' ')` keeps the text's collapsed form |
| Text.SquashFixed | TripleAPI/TripleStore.py:34-35 | text without a double space is its own collapsed form, which ends the loop |
| Text.SquashHasNoDoubleSpace | TripleAPI/TripleStore.py:34-35 | collapsed text has no double space |
| Text.Lower | TripleAPI/TripleStore.py:36 | `lower()` keeps the length and leaves no capital |
| Text.LowerKeepsNonLetterPatternsOut | TripleAPI/TripleStore.py:36 | lower-casing creates no line break and no double space |
| Text.Split | CreatingData/VkbFeatureToOSLOProcessor.py:129 | the pieces of `split(';')` hold no `;` and join back into the row |
| Text.SplitAtLeastTwo | CreatingData/VkbFeatureToOSLOProcessor.py:129-130 | a row holding `;` has a field 1 |
| Text.SplitJoin | CreatingData/JsonToVkbFeatureProcessor.py:103 | splitting text joined by a separator that no piece holds gives the pieces back |
| Text.NatTextRoundTrip | CreatingData/VkbFeatureToOSLOProcessor.py:30 | reading back the digits Python prints for a number gives the number |
| Text.IntTextInjective | CreatingData/VkbFeatureToOSLOProcessor.py:54 | different ids print differently |
| Text.IntTextHasNoUnderscore | CreatingData/VkbFeatureToOSLOProcessor.py:54 | a printed id holds no `_`, which keeps `{id}_bord_{bid}` unambiguous |
| Rdf.VocabularyDistinct | CreatingData/VkbFeatureToOSLOProcessor.py:32-104 | vocabulary terms of equal length are distinct predicates and classes |

## Findings

| source | as written | input that shows it | evidently intended | confidence | as-written member | corrected member |
|---|---|---|---|---|---|---|
| TripleAPI/TripleStoreAPI.py:36 | `self.store.perform_sparql_query(query=query)`, while the store's method declares its parameter as `q` (TripleAPI/TripleStore.py:27), so every admitted query raises TypeError | `"ASK{}"`, or any non-empty query without a reserved word such as `"SELECT ?s WHERE { ?s ?p ?o }"` (`AskRaisesTypeError`, `AdmittedQueryNeverAnswered`) | the normalised query passed as `q`, answered by the store | high, not executed | TripleStoreApi.StoreApi.PerformSparqlQuery | TripleStoreApi.StoreApi.PerformSparqlQueryIntended |

## Left out

- Floating point. The radians-to-degrees conversion with `round(…, 1)` is not
  modelled. The decoded record carries the angle in whole tenths of a degree,
  and the model renders the angle as the text of that exact one-decimal value
  (`TenthsText`). Python's float arithmetic can print differently:
  - the residue of `+= 360.0` and `% 360.0` on an out-of-range angle: a
    rounded 400.3 becomes `40.30000000000001`, where the model writes `40.3`;
  - negative zero: an angle that rounds to `-0.0` skips the `while < 0` loop
    and prints `-0.0`, where the model writes `0.0`.
- The height `y / 1000.0` for an integer `y` is rendered as the text of the
  exact three-decimal value (`MilliText`). This is what Python prints for `y`
  below 10^15. Larger heights print differently: the float is rounded
  (`8796093022208001 / 1000.0` prints `8796093022208.002`), and from 10^19 on
  Python prints an exponent (`1e+16`).
- The coordinate transformation from Lambert 72 to WGS 84 (pyproj) is the
  function field `transform` of the processor. Coordinates are kept as the
  text Python prints for them.
- rdflib is not modelled. Instead:
  - a graph is a set (the emitter) or a sequence (the store) of triples;
  - literals are a plain or datatyped lexical form;
  - blank nodes are numbered from a counter rather than named by the library;
  - turtle parsing and SPARQL evaluation are the function fields `parse` and
    `evaluate` of the store;
  - the namespace bindings of the constructor only change serialisation
    prefixes and are left out.
- `json.loads` is the function parameter `decode`. The printing of JSON errors
  and the `Invalid \escape` diagnostics do nothing but print, and are left out.
- Decoded records are typed. A missing mandatory key (id, geometry, code, …)
  is not modelled. The only modelled `KeyError` is the installation-date one.
- `datetime.strptime` is not modelled. The installation date keeps its text,
  and a malformed date's ValueError is not modelled.
- The batch's `KeyError` is returned as an error value at the point where it
  is raised. The features built before it are discarded, as the exception
  discards them.
- Crashes on malformed input are preconditions, not modelled errors:
  - `Emittable`: fewer than two coordinates, lists left at `None`, an empty
    sign code;
  - `CsvRowsOk`: an export row without `;`.
- Files are given as their lines, already decoded, and the file names and
  encodings are left out. In the source, a `UnicodeDecodeError` (a ValueError)
  while reading `WDB_beheerders.txt` reaches the handler at lines 150-151 of
  `CreatingData/VkbFeatureToOSLOProcessor.py`. It ends the loop and keeps the
  entries read so far. With decoded lines that handler is unreachable in the
  model, so it is left out.
- `print` output, and the `feature_objects` list that is built but never read,
  are left out.
- VkbFeatureToOSLOProcessor.Processor.ProcessToOslo: Python overwrites
  `feature.beheerder_naam` in place. The model returns the updated feature, so
  other references to the same feature object are not modelled.
- JsonToVkb.ProcessJsonObjectAndAddToList: the Python list is appended in
  place. The model returns the new list, so aliasing is not modelled.
- JsonToVkb.WktLineStringZM: the text is stated only for no point at all and
  for non-empty points. An empty point also trims the space of the preceding
  `", "`, and that text is left unstated.
- Text.Lower: only ASCII letters are lower-cased. Python's `lower()` also
  folds non-ASCII capitals.
- The traversals return the sequence their generators yield, computed at the
  call. Laziness is not modelled: an error the generator would raise on its
  first step is returned at once.
- The traversals need `Ranked`, a rank passed as a parameter that decreases
  along every followed edge (a blank-node object or a followed predicate)
  anywhere in the graph. This excludes every graph with a followed cycle.
  - The source also terminates when no such cycle is reachable from the start
    node. The model does not describe those graphs.
  - A reachable cycle, or a followed chain deeper than Python's recursion limit
    (about 1000 nested generators), ends in `RecursionError` in the source.
    That error is not modelled.
- The API's RuntimeError when `get_graph` returns `None` cannot happen. Parsing
  is total in the model and `get_graph` always returns the parsed graph, so
  that branch is left out.
- The unused query strings assigned in both `perform_sparql_query` methods are
  left out.
- `VkbBevestiging` and `VkbSteun` are placeholders. The normaliser only ever
  sets their lists to `[]`.
