/** The text of the CSV export: a fixed header, then one comma-joined line per transaction, each
    line ended by a newline, with no quoting or escaping of the fields. */
module CsvExport {
  import opened Records

  const Header: string := "Tipo,Monto,Moneda,Fecha,Categoría,Notas"

  /** How a template literal renders an absent field. */
  function Shown(c: Option<string>): (r: string)
    ensures c == None ==> r == "undefined"
    ensures c.Some? ==> r == c.value
  {
    if c.Some? then c.value else "undefined"
  }

  /** The six columns of one record, in header order; `amountText` is the number-to-string conversion. */
  function Fields(t: Transaction, amountText: real -> string): seq<string>
  {
    [t.kind, amountText(t.amount), Shown(t.currency), t.date, t.category, t.notes]
  }

  function Join(parts: seq<string>, sep: char): string
    requires |parts| >= 1
    decreases |parts|
  {
    if |parts| == 1 then parts[0] else parts[0] + [sep] + Join(parts[1..], sep)
  }

  /** The pieces of `s` between occurrences of `sep`. */
  function Split(s: string, sep: char): (r: seq<string>)
    ensures |r| >= 1
    decreases |s|
  {
    if s == [] then [""]
    else
      var rest := Split(s[1..], sep);
      if s[0] == sep then [""] + rest else [[s[0]] + rest[0]] + rest[1..]
  }

  function Line(t: Transaction, amountText: real -> string): string
  {
    Join(Fields(t, amountText), ',')
  }

  /** The data lines, one per record, in ledger order. */
  function Lines(ts: seq<Transaction>, amountText: real -> string): (r: seq<string>)
    ensures |r| == |ts|
    ensures forall k :: 0 <= k < |ts| ==> r[k] == Line(ts[k], amountText)
    decreases |ts|
  {
    if ts == [] then [] else Lines(ts[..|ts| - 1], amountText) + [Line(ts[|ts| - 1], amountText)]
  }

  /** The text `csv` holds after the loop over `ts`. */
  function CsvText(ts: seq<Transaction>, amountText: real -> string): (r: string)
    ensures |r| > |Header| && r[..|Header| + 1] == Header + "\n"
    ensures r[|r| - 1] == '\n'
    decreases |ts|
  {
    if ts == [] then Header + "\n"
    else CsvText(ts[..|ts| - 1], amountText) + Line(ts[|ts| - 1], amountText) + "\n"
  }

  /** No field of any record holds a comma or a line break, so nothing needs escaping. */
  predicate Plain(ts: seq<Transaction>, amountText: real -> string)
  {
    forall t | t in ts :: PlainFields(Fields(t, amountText))
  }

  predicate PlainFields(fs: seq<string>)
  {
    forall f | f in fs :: ',' !in f && '\n' !in f
  }

  lemma {:induction false} SplitWhole(p: string, sep: char)
    requires sep !in p
    ensures Split(p, sep) == [p]
    decreases |p|
  {
    if p != [] {
      SplitWhole(p[1..], sep);
      assert [p[0]] + p[1..] == p;
    }
  }

  lemma {:induction false} SplitFirst(p: string, rest: string, sep: char)
    requires sep !in p
    ensures Split(p + [sep] + rest, sep) == [p] + Split(rest, sep)
    decreases |p|
  {
    var s := p + [sep] + rest;
    if p == [] {
      assert s[1..] == rest;
    } else {
      assert s[1..] == p[1..] + [sep] + rest;
      SplitFirst(p[1..], rest, sep);
      assert [p[0]] + p[1..] == p;
    }
  }

  /** Splitting a join gives the parts back when no part contains the separator. */
  lemma {:induction false} SplitJoin(parts: seq<string>, sep: char)
    requires |parts| >= 1
    requires forall k :: 0 <= k < |parts| ==> sep !in parts[k]
    ensures Split(Join(parts, sep), sep) == parts
    decreases |parts|
  {
    if |parts| == 1 {
      SplitWhole(parts[0], sep);
    } else {
      SplitJoin(parts[1..], sep);
      SplitFirst(parts[0], Join(parts[1..], sep), sep);
      assert [parts[0]] + parts[1..] == parts;
    }
  }

  lemma {:induction false} JoinLast(parts: seq<string>, last: string, sep: char)
    requires |parts| >= 1
    ensures Join(parts + [last], sep) == Join(parts, sep) + [sep] + last
    decreases |parts|
  {
    if |parts| > 1 {
      assert (parts + [last])[1..] == parts[1..] + [last];
      JoinLast(parts[1..], last, sep);
    }
  }

  lemma {:induction false} JoinAvoids(parts: seq<string>, sep: char, c: char)
    requires |parts| >= 1 && c != sep
    requires forall k :: 0 <= k < |parts| ==> c !in parts[k]
    ensures c !in Join(parts, sep)
    decreases |parts|
  {
    if |parts| > 1 {
      JoinAvoids(parts[1..], sep, c);
    }
  }

  /** The export text is the header and the data lines joined by line breaks, with a final line break. */
  lemma {:induction false} CsvIsJoin(ts: seq<Transaction>, amountText: real -> string)
    ensures CsvText(ts, amountText) == Join([Header] + Lines(ts, amountText), '\n') + "\n"
    decreases |ts|
  {
    if ts != [] {
      var init := ts[..|ts| - 1];
      CsvIsJoin(init, amountText);
      var line := Line(ts[|ts| - 1], amountText);
      assert [Header] + Lines(ts, amountText) == ([Header] + Lines(init, amountText)) + [line];
      JoinLast([Header] + Lines(init, amountText), line, '\n');
    }
  }

  /** One record's line splits back into its fields and holds no line break. */
  lemma {:induction false} LineReadsBack(t: Transaction, amountText: real -> string)
    requires PlainFields(Fields(t, amountText))
    ensures Split(Line(t, amountText), ',') == Fields(t, amountText)
    ensures '\n' !in Line(t, amountText)
  {
    var fs := Fields(t, amountText);
    assert forall j :: 0 <= j < |fs| ==> fs[j] in fs;
    SplitJoin(fs, ',');
    JoinAvoids(fs, ',', '\n');
  }

  /** Every data line of a plain ledger splits back into its record's fields and holds no line break. */
  lemma {:induction false} LinesReadBack(ts: seq<Transaction>, amountText: real -> string)
    requires Plain(ts, amountText)
    ensures forall k :: 0 <= k < |ts| ==>
      Split(Lines(ts, amountText)[k], ',') == Fields(ts[k], amountText) && '\n' !in Lines(ts, amountText)[k]
  {
    var lines := Lines(ts, amountText);
    forall k | 0 <= k < |ts| ensures Split(lines[k], ',') == Fields(ts[k], amountText) && '\n' !in lines[k] {
      assert ts[k] in ts;
      LineReadsBack(ts[k], amountText);
    }
  }

  /** When no data line holds a line break, the export splits at line breaks into the header, the data
      lines in ledger order and the empty rest after the final break. */
  lemma {:induction false} CsvSplitsIntoLines(ts: seq<Transaction>, amountText: real -> string)
    requires forall k :: 0 <= k < |ts| ==> '\n' !in Lines(ts, amountText)[k]
    ensures Split(CsvText(ts, amountText), '\n') == [Header] + Lines(ts, amountText) + [""]
  {
    var lines := Lines(ts, amountText);
    var all := [Header] + lines + [""];
    assert '\n' !in Header;
    assert forall k :: 0 <= k < |all| ==> '\n' !in all[k] by {
      forall k | 0 <= k < |all| ensures '\n' !in all[k] {
        if 0 < k <= |lines| {
          assert all[k] == lines[k - 1];
        }
      }
    }
    CsvIsJoin(ts, amountText);
    JoinLast([Header] + lines, "", '\n');
    assert ([Header] + lines) + [""] == all;
    assert Join([Header] + lines, '\n') + ['\n'] + "" == Join([Header] + lines, '\n') + "\n";
    SplitJoin(all, '\n');
  }

  /** Reading the export back: when no field holds a comma or a line break, the text splits into the
      header and one line per record in ledger order, and each record's line splits at commas into its
      six fields. */
  lemma {:induction false} CsvReadsBack(ts: seq<Transaction>, amountText: real -> string)
    requires Plain(ts, amountText)
    ensures Split(CsvText(ts, amountText), '\n') == [Header] + Lines(ts, amountText) + [""]
    ensures forall k :: 0 <= k < |ts| ==> Split(Lines(ts, amountText)[k], ',') == Fields(ts[k], amountText)
  {
    LinesReadBack(ts, amountText);
    CsvSplitsIntoLines(ts, amountText);
  }

  /** Because nothing is escaped, a comma inside the notes splits that line into seven fields. */
  lemma CommaInNotesAddsField(t: Transaction, amountText: real -> string)
    requires t.notes == "pan, leche"
    requires PlainFields(Fields(t.(notes := "pan"), amountText))
    ensures |Split(Line(t, amountText), ',')| == 7
  {
    var u := t.(notes := "pan");
    var fs := Fields(t, amountText);
    var head := fs[..5];
    assert forall j :: 0 <= j < 5 ==> fs[j] == Fields(u, amountText)[j] && fs[j] in Fields(u, amountText);
    assert fs == head + ["pan, leche"];
    JoinLast(head, "pan, leche", ',');
    assert "pan, leche" == "pan" + [','] + " leche";
    var pieces := head + ["pan", " leche"];
    assert Join(pieces, ',') == Join(head + ["pan"], ',') + [','] + " leche" by {
      assert pieces == (head + ["pan"]) + [" leche"];
      JoinLast(head + ["pan"], " leche", ',');
    }
    JoinLast(head, "pan", ',');
    assert Line(t, amountText) == Join(pieces, ',');
    SplitJoin(pieces, ',');
  }
}
