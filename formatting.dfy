/** Markdown rendering of tool results: the pipe table used by every read tool
    and the nested bullet list used for dict-shaped replies. */
module Formatting {
  import opened Wrappers
  import opened Text
  import opened Dicts

  const NoRowsMessage := "_Nessun risultato trovato._"
  const MissingCell := "-"
  const SeparatorCell := "---"
  const CellSep := " | "

  // ---------------------------------------------------------------------
  // format_table_markdown

  /** `headers or {col: col for col in columns}`: a missing or empty mapping
      falls back to the identity on the columns. */
  function DisplayHeaders(headers: Option<map<string, string>>, columns: seq<string>): map<string, string> {
    if headers.Some? && headers.value != map[] then headers.value
    else map c | c in columns :: c
  }

  /** `display_headers.get(c, c)`. */
  function HeaderLabel(display: map<string, string>, c: string): string {
    if c in display then display[c] else c
  }

  /** `str(row.get(c, "-"))`. */
  function Cell(row: seq<Entry>, c: string): string {
    match Get(row, c)
    case Some(v) => Str(v)
    case None => MissingCell
  }

  /** `f"| {' | '.join(cells)} |"`. */
  function TableLine(cells: seq<string>): string {
    "| " + Join(CellSep, cells) + " |"
  }

  function HeaderCells(display: map<string, string>, columns: seq<string>): (r: seq<string>)
    ensures |r| == |columns|
  {
    seq(|columns|, i requires 0 <= i < |columns| => HeaderLabel(display, columns[i]))
  }

  function SeparatorCells(n: nat): (r: seq<string>)
    ensures |r| == n
  {
    seq(n, _ => SeparatorCell)
  }

  function RowCells(row: seq<Entry>, columns: seq<string>): (r: seq<string>)
    ensures |r| == |columns|
  {
    seq(|columns|, i requires 0 <= i < |columns| => Cell(row, columns[i]))
  }

  /** The joined cells of each body row, as the loop collects them. */
  function BodyRows(rows: seq<seq<Entry>>, columns: seq<string>): (r: seq<string>)
    ensures |r| == |rows|
  {
    seq(|rows|, i requires 0 <= i < |rows| => Join(CellSep, RowCells(rows[i], columns)))
  }

  /** The lines of a non-empty table: header, separator, one line per row. */
  function TableLines(rows: seq<seq<Entry>>, columns: seq<string>, headers: Option<map<string, string>>): seq<string> {
    var body := BodyRows(rows, columns);
    [TableLine(HeaderCells(DisplayHeaders(headers, columns), columns)),
     TableLine(SeparatorCells(|columns|))]
    + seq(|body|, i requires 0 <= i < |body| => "| " + body[i] + " |")
  }

  /** The rendered table, or the fixed message when there are no rows. */
  function Table(rows: seq<seq<Entry>>, columns: seq<string>, headers: Option<map<string, string>>): string {
    if rows == [] then NoRowsMessage else Join("\n", TableLines(rows, columns, headers))
  }

  /** `format_table_markdown(rows, columns, headers)`. */
  method FormatTableMarkdown(rows: seq<seq<Entry>>, columns: seq<string>, headers: Option<map<string, string>>)
    returns (s: string)
    ensures rows == [] ==> s == NoRowsMessage
    ensures rows != [] ==> s == Join("\n", TableLines(rows, columns, headers))
  {
    if rows == [] {
      return NoRowsMessage;
    }
    var display := DisplayHeaders(headers, columns);
    var headerRow := Join(CellSep, HeaderCells(display, columns));
    var separator := Join(CellSep, SeparatorCells(|columns|));
    var body: seq<string> := [];
    var k := 0;
    while k < |rows|
      invariant 0 <= k <= |rows|
      invariant body == BodyRows(rows[..k], columns)
    {
      var cells := RowCells(rows[k], columns);
      body := body + [Join(CellSep, cells)];
      k := k + 1;
      assert rows[..k][..k - 1] == rows[..k - 1];
    }
    assert rows[..k] == rows;
    var framed := seq(|body|, i requires 0 <= i < |body| => "| " + body[i] + " |");
    s := Join("\n", ["| " + headerRow + " |", "| " + separator + " |"] + framed);
  }

  /** A non-empty table has |rows| + 2 lines: the header, a separator with
      one `---` per column, then one line per row, each framed by pipes. */
  lemma TableShape(rows: seq<seq<Entry>>, columns: seq<string>, headers: Option<map<string, string>>)
    ensures var lines := TableLines(rows, columns, headers);
      |lines| == |rows| + 2
      && lines[1] == TableLine(SeparatorCells(|columns|))
      && (forall c :: c in SeparatorCells(|columns|) ==> c == SeparatorCell)
      && forall i :: 0 <= i < |rows| ==> lines[i + 2] == TableLine(RowCells(rows[i], columns))
  {
  }

  /** Without a usable headers mapping each column is its own header. */
  lemma DefaultHeaders(headers: Option<map<string, string>>, columns: seq<string>)
    requires headers.None? || headers.value == map[]
    ensures HeaderCells(DisplayHeaders(headers, columns), columns) == columns
  {
    var cells := HeaderCells(DisplayHeaders(headers, columns), columns);
    forall i | 0 <= i < |columns| ensures cells[i] == columns[i] {
      assert columns[i] in columns;
    }
  }

  /** With a non-empty mapping a column takes its mapped label, and a column
      the mapping omits keeps its own name. */
  lemma GivenHeaders(hs: map<string, string>, columns: seq<string>, i: nat)
    requires hs != map[] && i < |columns|
    ensures var cell := HeaderCells(DisplayHeaders(Some(hs), columns), columns)[i];
      cell == if columns[i] in hs then hs[columns[i]] else columns[i]
  {
  }

  /** A cell holds `str` of the row's value, or "-" when the row lacks the
      column. */
  lemma CellContents(row: seq<Entry>, c: string)
    ensures !HasKey(row, c) ==> Cell(row, c) == MissingCell
    ensures forall v :: Entry(c, v) in row && DistinctKeys(row) ==> Cell(row, c) == Str(v)
  {
    forall v | Entry(c, v) in row && DistinctKeys(row) ensures Cell(row, c) == Str(v) {
      var i :| 0 <= i < |row| && row[i] == Entry(c, v);
      var j := IndexOf(KeyList(row), c);
      assert KeyList(row)[i] == c;
      assert i == j;
    }
  }

  /** Keys outside `columns` play no part: rows that agree on the columns
      render identically. */
  lemma ExtraKeysIgnored(r1: seq<Entry>, r2: seq<Entry>, columns: seq<string>)
    requires forall c :: c in columns ==> Get(r1, c) == Get(r2, c)
    ensures TableLine(RowCells(r1, columns)) == TableLine(RowCells(r2, columns))
  {
    assert RowCells(r1, columns) == RowCells(r2, columns) by {
      forall i | 0 <= i < |columns| ensures Cell(r1, columns[i]) == Cell(r2, columns[i]) {
        assert columns[i] in columns;
      }
    }
  }

  // ---------------------------------------------------------------------
  // _dict_to_markdown

  /** `"  " * indent`. */
  function Indent(indent: nat): (r: string)
    ensures |r| == 2 * indent && forall i :: 0 <= i < |r| ==> r[i] == ' '
  {
    if indent == 0 then "" else Indent(indent - 1) + "  "
  }

  function Bold(k: string): string {
    "**" + k + "**"
  }

  /** The heading written for a list or dict value. */
  function Heading(prefix: string, key: string): string {
    prefix + Bold(key) + ":"
  }

  /** The line of a scalar entry. */
  function ScalarLine(prefix: string, key: string, value: Data): string {
    prefix + "- " + Bold(key) + ": " + Str(value)
  }

  /** The line of one key of a dict inside a list. */
  function PairLine(prefix: string, key: string, value: Data): string {
    prefix + "  - " + Bold(key) + ": " + Str(value)
  }

  /** The lines of the first entries of a dict inside a list. */
  function PairLines(es: seq<Entry>, prefix: string): (r: seq<string>)
    ensures |r| == |es|
  {
    if es == [] then []
    else PairLines(es[..|es| - 1], prefix) + [PairLine(prefix, es[|es| - 1].key, es[|es| - 1].value)]
  }

  /** A dict item lists its pairs then a blank line; any other item is one bullet. */
  function ItemLines(item: Data, prefix: string): seq<string> {
    if item.DictOf? then PairLines(item.entries, prefix) + [""]
    else [prefix + "  - " + Str(item)]
  }

  function ItemsLines(items: seq<Data>, prefix: string): seq<string> {
    if items == [] then []
    else ItemsLines(items[..|items| - 1], prefix) + ItemLines(items[|items| - 1], prefix)
  }

  /** `_dict_to_markdown(d, indent)`: the lines of all entries, joined. */
  function Markdown(d: Data, indent: nat): string
    requires d.DictOf?
    decreases d, 2, 0
  {
    Join("\n", EntriesLines(d, |d.entries|, indent))
  }

  /** The lines written for the first n entries. */
  function EntriesLines(d: Data, n: nat, indent: nat): seq<string>
    requires d.DictOf? && n <= |d.entries|
    decreases d, 1, n
  {
    if n == 0 then [] else EntriesLines(d, n - 1, indent) + EntryLines(d, n - 1, indent)
  }

  /** The lines written for entry j; a nested dict is rendered one level
      deeper and contributes its joined text as a single element. */
  function EntryLines(d: Data, j: nat, indent: nat): seq<string>
    requires d.DictOf? && j < |d.entries|
    decreases d, 0, 0
  {
    var e := d.entries[j];
    var prefix := Indent(indent);
    match e.value
    case ListOf(items) => [Heading(prefix, e.key)] + ItemsLines(items, prefix)
    case DictOf(_) => [Heading(prefix, e.key), Markdown(e.value, indent + 1)]
    case Scalar(_, _) => [ScalarLine(prefix, e.key, e.value)]
  }

  lemma ItemsLinesStep(items: seq<Data>, t: nat, prefix: string)
    requires t < |items|
    ensures ItemsLines(items[..t + 1], prefix) == ItemsLines(items[..t], prefix) + ItemLines(items[t], prefix)
  {
    assert items[..t + 1][..t] == items[..t];
  }

  lemma PairLinesStep(es: seq<Entry>, u: nat, prefix: string)
    requires u < |es|
    ensures PairLines(es[..u + 1], prefix) == PairLines(es[..u], prefix) + [PairLine(prefix, es[u].key, es[u].value)]
  {
    assert es[..u + 1][..u] == es[..u];
  }

  /** The list branch's inner loops: each dict item's pairs then a blank
      line, any other item as one bullet. */
  method WriteItems(items: seq<Data>, prefix: string) returns (lines: seq<string>)
    ensures lines == ItemsLines(items, prefix)
  {
    lines := [];
    var t := 0;
    while t < |items|
      invariant 0 <= t <= |items|
      invariant lines == ItemsLines(items[..t], prefix)
    {
      var item := items[t];
      var chunk: seq<string>;
      if item.DictOf? {
        var pairs := WritePairs(item.entries, prefix);
        chunk := pairs + [""];
      } else {
        chunk := [prefix + "  - " + Str(item)];
      }
      assert chunk == ItemLines(item, prefix);
      ItemsLinesStep(items, t, prefix);
      lines := lines + chunk;
      t := t + 1;
    }
    assert items[..t] == items;
  }

  method WritePairs(es: seq<Entry>, prefix: string) returns (lines: seq<string>)
    ensures lines == PairLines(es, prefix)
  {
    lines := [];
    var u := 0;
    while u < |es|
      invariant 0 <= u <= |es|
      invariant lines == PairLines(es[..u], prefix)
    {
      PairLinesStep(es, u, prefix);
      lines := lines + [PairLine(prefix, es[u].key, es[u].value)];
      u := u + 1;
    }
    assert es[..u] == es;
  }

  /** `_dict_to_markdown(data, indent)`. */
  method DictToMarkdown(d: Data, indent: nat) returns (s: string)
    requires d.DictOf?
    ensures s == Markdown(d, indent)
    decreases d
  {
    var lines: seq<string> := [];
    var prefix := Indent(indent);
    var j := 0;
    while j < |d.entries|
      invariant 0 <= j <= |d.entries|
      invariant lines == EntriesLines(d, j, indent)
    {
      var key, value := d.entries[j].key, d.entries[j].value;
      if value.ListOf? {
        var itemLines := WriteItems(value.items, prefix);
        lines := lines + [Heading(prefix, key)] + itemLines;
      } else if value.DictOf? {
        var inner := DictToMarkdown(value, indent + 1);
        lines := lines + [Heading(prefix, key), inner];
      } else {
        lines := lines + [ScalarLine(prefix, key, value)];
      }
      j := j + 1;
    }
    s := Join("\n", lines);
  }

  /** Each level of nesting adds two spaces of indentation. */
  lemma IndentStep(indent: nat)
    ensures Indent(indent + 1) == Indent(indent) + "  "
  {
  }

  /** A dict of scalars renders one `- **k**: v` line per entry, in order. */
  lemma {:induction false} ScalarEntriesLines(d: Data, n: nat, indent: nat)
    requires d.DictOf? && n <= |d.entries|
    requires forall e :: e in d.entries ==> e.value.Scalar?
    ensures var lines := EntriesLines(d, n, indent);
      |lines| == n
      && forall i :: 0 <= i < n ==>
        lines[i] == ScalarLine(Indent(indent), d.entries[i].key, d.entries[i].value)
  {
    if n > 0 {
      ScalarEntriesLines(d, n - 1, indent);
      assert d.entries[n - 1] in d.entries;
    }
  }

  /** A nested dict contributes its heading, then its own rendering one level
      deeper. */
  lemma NestedDictLines(key: string, inner: seq<Entry>, indent: nat)
    ensures Markdown(DictOf([Entry(key, DictOf(inner))]), indent)
      == Heading(Indent(indent), key) + "\n" + Markdown(DictOf(inner), indent + 1)
  {
    var d := DictOf([Entry(key, DictOf(inner))]);
    assert EntriesLines(d, 1, indent) == [Heading(Indent(indent), key), Markdown(DictOf(inner), indent + 1)];
  }

  /** A list value contributes its heading followed by the lines of its items. */
  lemma ListEntryLines(d: Data, j: nat, indent: nat)
    requires d.DictOf? && j < |d.entries| && d.entries[j].value.ListOf?
    ensures EntryLines(d, j, indent)
      == [Heading(Indent(indent), d.entries[j].key)] + ItemsLines(d.entries[j].value.items, Indent(indent))
  {
  }
}
