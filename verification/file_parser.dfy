/** services/file_parser.py: the row loop of `FileParser.parse_excel_file`
    over the rows of a worksheet. Loading the workbook is not modelled;
    `str(float)` and `float(str)` are function parameters. */
module FileParser {
  import opened Wrappers
  import opened Text

  /** A cell value as the worksheet yields it. */
  datatype Cell = CellEmpty | CellText(text: string) | CellNumber(x: real)

  /** A price-list entry: `{'name': name, 'price': price}`. */
  datatype PriceRow = PriceRow(name: string, price: real)

  /** Python's `str(value)` on a cell: a text cell is its own text, a
      number is formatted, and an empty cell (`None`) reads "None". */
  function CellString(c: Cell, showNumber: real -> string): (r: string)
    ensures c.CellText? ==> r == c.text
    ensures c.CellNumber? ==> r == showNumber(c.x)
    ensures c.CellEmpty? ==> r == "None"
  {
    match c
    case CellEmpty => "None"
    case CellText(t) => t
    case CellNumber(x) => showNumber(x)
  }

  /** The price text with every `,` turned into `.`, as handed to `float`. */
  function PriceText(c: Cell, showNumber: real -> string): (t: string)
    ensures |t| == |CellString(c, showNumber)|
    ensures forall i | 0 <= i < |t| :: t[i] != ','
    ensures forall i | 0 <= i < |t| :: CellString(c, showNumber)[i] == ',' ==> t[i] == '.'
    ensures forall i | 0 <= i < |t| :: CellString(c, showNumber)[i] != ',' ==> t[i] == CellString(c, showNumber)[i]
  {
    ReplaceChar(CellString(c, showNumber), ',', '.')
  }

  /** What one data row yields: nothing for a row of fewer than two cells,
      an unparsable price, an empty name or a zero price. */
  function RowEntry(row: seq<Cell>, showNumber: real -> string, parseFloat: string -> Option<real>): (r: Option<PriceRow>)
    ensures r.Some? ==> r.value.name != [] && Strip(r.value.name) == r.value.name && r.value.price != 0.0
  {
    if |row| < 2 then None
    else
      var name := Strip(CellString(row[0], showNumber));
      match parseFloat(PriceText(row[1], showNumber))
      case None => None
      case Some(price) =>
        if name != [] && price != 0.0 then
          StripIdempotent(CellString(row[0], showNumber));
          Some(PriceRow(name, price))
        else None
  }

  /** The entries of a run of data rows, in row order: at most one per row. */
  function Entries(rows: seq<seq<Cell>>, showNumber: real -> string, parseFloat: string -> Option<real>): (r: seq<PriceRow>)
    ensures |r| <= |rows|
  {
    if rows == [] then []
    else
      var init := Entries(rows[..|rows| - 1], showNumber, parseFloat);
      match RowEntry(rows[|rows| - 1], showNumber, parseFloat)
      case None => init
      case Some(e) => init + [e]
  }

  /** The entries of a worksheet: every row but the first (the header), so
      no more entries than data rows. */
  function SheetEntries(rows: seq<seq<Cell>>, showNumber: real -> string, parseFloat: string -> Option<real>): (r: seq<PriceRow>)
    ensures |r| <= if rows == [] then 0 else |rows| - 1
  {
    if rows == [] then [] else Entries(rows[1..], showNumber, parseFloat)
  }

  /** Reading one more data row appends that row's entry, if any. */
  lemma EntriesStep(rows: seq<seq<Cell>>, i: nat, showNumber: real -> string, parseFloat: string -> Option<real>)
    requires 1 <= i < |rows|
    ensures Entries(rows[1..i + 1], showNumber, parseFloat)
         == match RowEntry(rows[i], showNumber, parseFloat)
            case None => Entries(rows[1..i], showNumber, parseFloat)
            case Some(e) => Entries(rows[1..i], showNumber, parseFloat) + [e]
  {
    assert rows[1..i + 1][..i - 1] == rows[1..i];
  }

  /** The loop over `rows[1:]`. */
  method ParseRows(rows: seq<seq<Cell>>, showNumber: real -> string, parseFloat: string -> Option<real>)
    returns (products: seq<PriceRow>)
    ensures products == SheetEntries(rows, showNumber, parseFloat)
  {
    products := [];
    if rows == [] {
      return;
    }
    for i := 1 to |rows|
      invariant products == Entries(rows[1..i], showNumber, parseFloat)
    {
      EntriesStep(rows, i, showNumber, parseFloat);
      var row := rows[i];
      if |row| >= 2 {
        var name := Strip(CellString(row[0], showNumber));
        var price := parseFloat(ReplaceChar(CellString(row[1], showNumber), ',', '.'));
        if price.None? {
          continue;
        }
        if name != [] && price.value != 0.0 {
          products := products + [PriceRow(name, price.value)];
        }
      }
    }
    assert rows[1..|rows|] == rows[1..];
  }

  /** Entries distribute over concatenation: output keeps row order. */
  lemma {:induction false} EntriesAppend(a: seq<seq<Cell>>, b: seq<seq<Cell>>,
                                         showNumber: real -> string, parseFloat: string -> Option<real>)
    ensures Entries(a + b, showNumber, parseFloat) == Entries(a, showNumber, parseFloat) + Entries(b, showNumber, parseFloat)
    decreases |b|
  {
    if b == [] {
      assert a + b == a;
    } else {
      var b' := b[..|b| - 1];
      assert (a + b)[..|a + b| - 1] == a + b';
      assert (a + b)[|a + b| - 1] == b[|b| - 1];
      EntriesAppend(a, b', showNumber, parseFloat);
    }
  }

  /** Every entry comes from a row past the header, and has a non-empty,
      already stripped name and a nonzero price. */
  lemma {:induction false} EntriesSound(rows: seq<seq<Cell>>, showNumber: real -> string, parseFloat: string -> Option<real>)
    ensures forall e | e in Entries(rows, showNumber, parseFloat) ::
      && e.name != [] && Strip(e.name) == e.name && e.price != 0.0
      && exists i | 0 <= i < |rows| :: RowEntry(rows[i], showNumber, parseFloat) == Some(e)
  {
    if rows != [] {
      var init := rows[..|rows| - 1];
      EntriesSound(init, showNumber, parseFloat);
      forall e | e in Entries(rows, showNumber, parseFloat)
        ensures e.name != [] && Strip(e.name) == e.name && e.price != 0.0
        ensures exists i | 0 <= i < |rows| :: RowEntry(rows[i], showNumber, parseFloat) == Some(e)
      {
        if e in Entries(init, showNumber, parseFloat) {
          var i :| 0 <= i < |init| && RowEntry(init[i], showNumber, parseFloat) == Some(e);
          assert rows[i] == init[i];
        } else {
          var last := rows[|rows| - 1];
          assert RowEntry(last, showNumber, parseFloat) == Some(e);
          StripIdempotent(CellString(last[0], showNumber));
        }
      }
    }
  }

  lemma SplitAt<T>(s: seq<T>, j: nat)
    requires j <= |s|
    ensures s[..j] + s[j..] == s
  {
  }

  /** The converse of `EntriesSound`: every row that yields an entry has
      that entry in the output. */
  lemma EntriesComplete(rows: seq<seq<Cell>>, i: nat, showNumber: real -> string, parseFloat: string -> Option<real>)
    requires i < |rows| && RowEntry(rows[i], showNumber, parseFloat).Some?
    ensures RowEntry(rows[i], showNumber, parseFloat).value in Entries(rows, showNumber, parseFloat)
  {
    var e := RowEntry(rows[i], showNumber, parseFloat).value;
    var front, rest := rows[..i + 1], rows[i + 1..];
    assert front[..i] == rows[..i] && front[i] == rows[i];
    var before := Entries(rows[..i], showNumber, parseFloat);
    assert Entries(front, showNumber, parseFloat) == before + [e];
    SplitAt(rows, i + 1);
    EntriesAppend(front, rest, showNumber, parseFloat);
    assert Entries(rows, showNumber, parseFloat) == before + [e] + Entries(rest, showNumber, parseFloat);
    assert Entries(rows, showNumber, parseFloat)[|before|] == e;
  }

  /** Every data row that yields an entry, negative prices included, has
      that entry in what the whole sheet returns. */
  lemma SheetEntriesComplete(rows: seq<seq<Cell>>, i: nat, showNumber: real -> string, parseFloat: string -> Option<real>)
    requires 1 <= i < |rows| && RowEntry(rows[i], showNumber, parseFloat).Some?
    ensures RowEntry(rows[i], showNumber, parseFloat).value in SheetEntries(rows, showNumber, parseFloat)
  {
    assert rows[1..][i - 1] == rows[i];
    EntriesComplete(rows[1..], i - 1, showNumber, parseFloat);
  }

  /** Soundness for the whole sheet: each entry comes from a data row and
      is named and priced as required, and the header row's content does
      not matter. `SheetEntriesComplete` is the converse. */
  lemma SheetEntriesSpec(rows: seq<seq<Cell>>, showNumber: real -> string, parseFloat: string -> Option<real>)
    ensures forall e | e in SheetEntries(rows, showNumber, parseFloat) ::
      && e.name != [] && Strip(e.name) == e.name && e.price != 0.0
      && exists i | 1 <= i < |rows| :: RowEntry(rows[i], showNumber, parseFloat) == Some(e)
    ensures forall header: seq<Cell> | rows != [] ::
      SheetEntries([header] + rows[1..], showNumber, parseFloat) == SheetEntries(rows, showNumber, parseFloat)
  {
    if rows != [] {
      var body := rows[1..];
      EntriesSound(body, showNumber, parseFloat);
      forall e | e in SheetEntries(rows, showNumber, parseFloat)
        ensures exists i | 1 <= i < |rows| :: RowEntry(rows[i], showNumber, parseFloat) == Some(e)
      {
        var i :| 0 <= i < |body| && RowEntry(body[i], showNumber, parseFloat) == Some(e);
        assert rows[i + 1] == body[i];
      }
      forall header: seq<Cell>
        ensures SheetEntries([header] + body, showNumber, parseFloat) == SheetEntries(rows, showNumber, parseFloat)
      {
        assert ([header] + body)[1..] == body;
      }
    }
  }

  /** The row filter itself: short rows, unparsable prices, empty names and
      zero prices give nothing; everything else, negative prices included,
      gives the stripped name and the parsed price. */
  lemma RowEntrySpec(row: seq<Cell>, showNumber: real -> string, parseFloat: string -> Option<real>)
    ensures |row| < 2 ==> RowEntry(row, showNumber, parseFloat).None?
    ensures |row| >= 2 ==>
      var name := Strip(CellString(row[0], showNumber));
      var price := parseFloat(PriceText(row[1], showNumber));
      (RowEntry(row, showNumber, parseFloat).Some? <==> price.Some? && name != [] && price.value != 0.0)
    ensures RowEntry(row, showNumber, parseFloat).Some? ==>
      RowEntry(row, showNumber, parseFloat).value
        == PriceRow(Strip(CellString(row[0], showNumber)), parseFloat(PriceText(row[1], showNumber)).value)
  {
  }
}
