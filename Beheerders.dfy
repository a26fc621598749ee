/**
  The owner table of `load_beheerders`: from the lines of an organisation
  export (`;`-separated, one header line) and of a list of road managers (four
  lines per entry, ended by four empty lines), the dictionary from code or name
  to OVO code. Both files become a sequence of dictionary assignments, and the
  table is what those assignments leave behind.

  Line numbers in this module are those of `CreatingData/VkbFeatureToOSLOProcessor.py`.
 */
module Beheerders {
  import opened Text

  /** One assignment `beheerders[key] = value`. */
  datatype Write = Write(key: string, value: string)

  /** The dictionary `m` after the assignments `ws`, first to last. */
  function Assign(m: map<string, string>, ws: seq<Write>): map<string, string>
    decreases |ws|
  {
    if |ws| == 0 then m else Assign(m[ws[0].key := ws[0].value], ws[1..])
  }

  lemma {:induction false} AssignAppend(m: map<string, string>, a: seq<Write>, b: seq<Write>)
    ensures Assign(m, a + b) == Assign(Assign(m, a), b)
    decreases |a|
  {
    if |a| == 0 {
      assert a + b == b;
    } else {
      assert (a + b)[0] == a[0] && (a + b)[1..] == a[1..] + b;
      AssignAppend(m[a[0].key := a[0].value], a[1..], b);
    }
  }

  /** A key no assignment names keeps its presence and its value. */
  lemma {:induction false} AssignUntouched(m: map<string, string>, ws: seq<Write>, k: string)
    requires forall i :: 0 <= i < |ws| ==> ws[i].key != k
    ensures k in Assign(m, ws) <==> k in m
    ensures k in m ==> Assign(m, ws)[k] == m[k]
    decreases |ws|
  {
    if |ws| > 0 {
      assert forall i :: 0 <= i < |ws| - 1 ==> ws[1..][i] == ws[i + 1];
      AssignUntouched(m[ws[0].key := ws[0].value], ws[1..], k);
    }
  }

  /** The last assignment to a key decides its value: later entries overwrite earlier ones. */
  lemma {:induction false} AssignLastWins(m: map<string, string>, ws: seq<Write>, i: nat)
    requires i < |ws|
    requires forall j :: i < j < |ws| ==> ws[j].key != ws[i].key
    ensures ws[i].key in Assign(m, ws) && Assign(m, ws)[ws[i].key] == ws[i].value
    decreases |ws|
  {
    assert forall j :: 0 <= j < |ws| - 1 ==> ws[1..][j] == ws[j + 1];
    if i == 0 {
      AssignUntouched(m[ws[0].key := ws[0].value], ws[1..], ws[0].key);
    } else {
      AssignLastWins(m[ws[0].key := ws[0].value], ws[1..], i - 1);
    }
  }

  /** Every entry of the result was there before or was assigned. */
  lemma {:induction false} AssignFrom(m: map<string, string>, ws: seq<Write>, k: string)
    requires k in Assign(m, ws)
    ensures (k in m && Assign(m, ws)[k] == m[k]) || Write(k, Assign(m, ws)[k]) in ws
    decreases |ws|
  {
    if |ws| > 0 {
      var m' := m[ws[0].key := ws[0].value];
      AssignFrom(m', ws[1..], k);
      if Write(k, Assign(m, ws)[k]) in ws[1..] {
        assert Write(k, Assign(m, ws)[k]) in ws;
      }
    }
  }

  // ---------------------------------------------------------------- the organisation export

  /** Every row after the header holds a `;`: line 130 reads field 1 of each. */
  predicate CsvRowsOk(lines: seq<string>) {
    forall i :: 1 <= i < |lines| ==> ';' in lines[i]
  }

  /** `readlines()[1:]`: the rows after the header. */
  function Rows(lines: seq<string>): seq<string> {
    if |lines| == 0 then [] else lines[1..]
  }

  /** Line 130: field 1 of the row, newlines removed, names field 0. */
  function CsvWrite(row: string): Write
    requires ';' in row
  {
    SplitAtLeastTwo(row, ';');
    var fields := Split(row, ';');
    Write(Replace(fields[1], "\n", ""), fields[0])
  }

  function CsvWrites(rows: seq<string>): (ws: seq<Write>)
    requires forall i :: 0 <= i < |rows| ==> ';' in rows[i]
  {
    seq(|rows|, i requires 0 <= i < |rows| => CsvWrite(rows[i]))
  }

  lemma CsvWritesNext(rows: seq<string>, i: nat)
    requires i < |rows| && forall k :: 0 <= k < |rows| ==> ';' in rows[k]
    ensures CsvWrites(rows[..i + 1]) == CsvWrites(rows[..i]) + [CsvWrite(rows[i])]
  {
    assert rows[..i + 1][i] == rows[i];
  }

  lemma RowsOk(lines: seq<string>)
    requires CsvRowsOk(lines)
    ensures forall i :: 0 <= i < |Rows(lines)| ==> ';' in Rows(lines)[i]
  {
    if |lines| > 0 {
      assert forall i :: 0 <= i < |lines| - 1 ==> Rows(lines)[i] == lines[i + 1];
    }
  }

  /**
    A row whose key no later row repeats decides that key: it names the
    row's field 0 (lines 128-130, later rows overwrite earlier ones).
   */
  lemma CsvLastRowWins(m: map<string, string>, rows: seq<string>, i: nat)
    requires forall j :: 0 <= j < |rows| ==> ';' in rows[j]
    requires i < |rows|
    requires forall j :: i < j < |rows| ==> CsvWrite(rows[j]).key != CsvWrite(rows[i]).key
    ensures var key := Replace(Split(rows[i], ';')[1], "\n", "");
      key in Assign(m, CsvWrites(rows)) && Assign(m, CsvWrites(rows))[key] == Split(rows[i], ';')[0]
  {
    SplitAtLeastTwo(rows[i], ';');
    AssignLastWins(m, CsvWrites(rows), i);
  }

  /** The dictionary `m` after the export's rows (the header is skipped). */
  function CsvTable(m: map<string, string>, lines: seq<string>): map<string, string>
    requires CsvRowsOk(lines)
  {
    RowsOk(lines);
    Assign(m, CsvWrites(Rows(lines)))
  }

  /** Lines 127-130 over the file's lines. */
  method ReadCsv(lines: seq<string>, table0: map<string, string>) returns (table: map<string, string>)
    requires CsvRowsOk(lines)
    ensures table == CsvTable(table0, lines)
  {
    RowsOk(lines);
    var rows := Rows(lines);
    table := table0;
    for i := 0 to |rows|
      invariant table == Assign(table0, CsvWrites(rows[..i]))
    {
      SplitAtLeastTwo(rows[i], ';');
      var splitted := Split(rows[i], ';');
      table := table[Replace(splitted[1], "\n", "") := splitted[0]];
      CsvWritesNext(rows, i);
      AssignAppend(table0, CsvWrites(rows[..i]), [CsvWrite(rows[i])]);
    }
    assert rows[..|rows|] == rows;
  }

  // ---------------------------------------------------------------- the road-manager list

  /**
    `f.readline()[:-1]` when the file's lines (each with its line break, the
    last one perhaps without) are `lines` and `i` have been read: the line
    without its last character, and `""` past the end.
   */
  function ReadLine(lines: seq<string>, i: nat): string {
    if i < |lines| && |lines[i]| > 0 then lines[i][..|lines[i]| - 1] else ""
  }

  /** The four lines read by one turn of the loop of lines 133-151. */
  datatype Group = Group(l1: string, l2: string, l3: string, l4: string)

  function GroupAt(lines: seq<string>, pos: nat): Group {
    Group(ReadLine(lines, pos), ReadLine(lines, pos + 1), ReadLine(lines, pos + 2), ReadLine(lines, pos + 3))
  }

  /** Line 140: four empty lines end the loop. */
  predicate Blank(g: Group) {
    g.l1 == "" && g.l2 == "" && g.l3 == "" && g.l4 == ""
  }

  /** The groups the loop reads from line `pos` on, up to the first blank one. */
  function Groups(lines: seq<string>, pos: nat): seq<Group>
    decreases |lines| - pos
  {
    var g := GroupAt(lines, pos);
    if Blank(g) then [] else [g] + Groups(lines, pos + 4)
  }

  /** The `j`-th group is the block of four lines from line `pos + 4 j`, and it is not blank. */
  lemma {:induction false} GroupsAt(lines: seq<string>, pos: nat, j: nat)
    requires j < |Groups(lines, pos)|
    ensures Groups(lines, pos)[j] == GroupAt(lines, pos + 4 * j)
    ensures !Blank(GroupAt(lines, pos + 4 * j))
    decreases j
  {
    var rest := Groups(lines, pos + 4);
    assert Groups(lines, pos) == [GroupAt(lines, pos)] + rest;
    if j > 0 {
      GroupsAt(lines, pos + 4, j - 1);
      assert pos + 4 + 4 * (j - 1) == pos + 4 * j;
    }
  }

  /** The block of four lines after the last group is blank: there the loop stops. */
  lemma {:induction false} GroupsEnd(lines: seq<string>, pos: nat)
    ensures Blank(GroupAt(lines, pos + 4 * |Groups(lines, pos)|))
    decreases |lines| - pos
  {
    if !Blank(GroupAt(lines, pos)) {
      GroupsEnd(lines, pos + 4);
      var rest := Groups(lines, pos + 4);
      assert Groups(lines, pos) == [GroupAt(lines, pos)] + rest;
      assert pos + 4 + 4 * |rest| == pos + 4 * |Groups(lines, pos)|;
    }
  }

  /** Lines 142-148 for one group: nothing for a `Nee` entry, else an OVO code under line 1 (and under `' '`). */
  function GroupWrites(g: Group): seq<Write> {
    if g.l2 == "Nee" then []
    else if StartsWith(g.l4, "OVO") then [Write(g.l1, g.l4)] + (if g.l3 == " " then [Write(g.l3, g.l4)] else [])
    else []
  }

  function WdbWrites(gs: seq<Group>): seq<Write>
    decreases |gs|
  {
    if |gs| == 0 then [] else GroupWrites(gs[0]) + WdbWrites(gs[1..])
  }

  /** Every assignment the list makes comes from a group not marked `Nee`, and assigns an OVO code. */
  lemma {:induction false} WdbWritesSound(gs: seq<Group>, w: Write)
    requires w in WdbWrites(gs)
    ensures StartsWith(w.value, "OVO")
    ensures exists g :: g in gs && g.l2 != "Nee" && w.value == g.l4 && (w.key == g.l1 || (w.key == " " && g.l3 == " "))
    decreases |gs|
  {
    if w in GroupWrites(gs[0]) {
      assert gs[0] in gs;
    } else {
      WdbWritesSound(gs[1..], w);
      var g :| g in gs[1..] && g.l2 != "Nee" && w.value == g.l4 && (w.key == g.l1 || (w.key == " " && g.l3 == " "));
      assert g in gs;
    }
  }

  /** Every group not marked `Nee` whose fourth line is an OVO code is assigned, also under `' '` when line 3 is `' '`. */
  lemma {:induction false} WdbWritesComplete(gs: seq<Group>, g: Group)
    requires g in gs && g.l2 != "Nee" && StartsWith(g.l4, "OVO")
    ensures Write(g.l1, g.l4) in WdbWrites(gs)
    ensures g.l3 == " " ==> Write(" ", g.l4) in WdbWrites(gs)
    decreases |gs|
  {
    if gs[0] != g {
      assert g in gs[1..];
      WdbWritesComplete(gs[1..], g);
    }
  }

  /** A group that is not blank is assigned, then the loop goes on four lines further down. */
  lemma GroupStep(table: map<string, string>, lines: seq<string>, pos: nat)
    requires !Blank(GroupAt(lines, pos))
    ensures var g := GroupAt(lines, pos);
      Assign(table, WdbWrites(Groups(lines, pos))) == Assign(GroupAssigned(table, g), WdbWrites(Groups(lines, pos + 4)))
  {
    var g := GroupAt(lines, pos);
    assert Groups(lines, pos) == [g] + Groups(lines, pos + 4);
    AssignAppend(table, GroupWrites(g), WdbWrites(Groups(lines, pos + 4)));
    GroupAssignedIs(table, g);
  }

  /** The table after one group's assignments, as the statements of lines 142-148 leave it. */
  function GroupAssigned(table: map<string, string>, g: Group): map<string, string> {
    if g.l2 == "Nee" || !StartsWith(g.l4, "OVO") then table
    else if g.l3 == " " then table[g.l1 := g.l4][g.l3 := g.l4]
    else table[g.l1 := g.l4]
  }

  lemma GroupAssignedIs(table: map<string, string>, g: Group)
    ensures Assign(table, GroupWrites(g)) == GroupAssigned(table, g)
  {
    if g.l2 != "Nee" && StartsWith(g.l4, "OVO") {
      var w := Write(g.l1, g.l4);
      if g.l3 == " " {
        AssignAppend(table, [w], [Write(g.l3, g.l4)]);
      }
    }
  }

  /** Lines 132-151 over the file's lines. */
  method ReadWdb(lines: seq<string>, table0: map<string, string>) returns (table: map<string, string>)
    ensures table == Assign(table0, WdbWrites(Groups(lines, 0)))
  {
    table := table0;
    var pos := 0;
    while true
      invariant pos <= |lines| + 3
      invariant Assign(table, WdbWrites(Groups(lines, pos))) == Assign(table0, WdbWrites(Groups(lines, 0)))
      decreases |lines| + 4 - pos
    {
      var line1 := ReadLine(lines, pos);
      var line2 := ReadLine(lines, pos + 1);
      var line3 := ReadLine(lines, pos + 2);
      var line4 := ReadLine(lines, pos + 3);
      if line1 == "" && line2 == "" && line3 == "" && line4 == "" {
        break;
      }
      GroupStep(table, lines, pos);
      if line2 == "Nee" {
        pos := pos + 4;
        continue;
      }
      if StartsWith(line4, "OVO") {
        table := table[line1 := line4];
        if line3 == " " {
          table := table[line3 := line4];
        }
      }
      pos := pos + 4;
    }
  }

  // ---------------------------------------------------------------- the table

  /** The whole of `load_beheerders`: the export's rows, then the road-manager list, over an empty dictionary. */
  function OwnerTable(csv: seq<string>, wdb: seq<string>): map<string, string>
    requires CsvRowsOk(csv)
  {
    Assign(CsvTable(map[], csv), WdbWrites(Groups(wdb, 0)))
  }

  /** What the road-manager list puts in the table is an OVO code; every other entry is the export's. */
  lemma OwnerTableValues(csv: seq<string>, wdb: seq<string>, k: string)
    requires CsvRowsOk(csv) && k in OwnerTable(csv, wdb)
    ensures var fromCsv := CsvTable(map[], csv);
      (k in fromCsv && OwnerTable(csv, wdb)[k] == fromCsv[k]) || StartsWith(OwnerTable(csv, wdb)[k], "OVO")
  {
    var fromCsv := CsvTable(map[], csv);
    AssignFrom(fromCsv, WdbWrites(Groups(wdb, 0)), k);
    if Write(k, OwnerTable(csv, wdb)[k]) in WdbWrites(Groups(wdb, 0)) {
      WdbWritesSound(Groups(wdb, 0), Write(k, OwnerTable(csv, wdb)[k]));
    }
  }
}
