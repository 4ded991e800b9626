/**
  `GeneConverter`: reads the genenames.org table of NCBI gene ids and approved
  symbols and converts between the two.

  The first line must be the header `NCBI Gene ID<TAB>Approved symbol` (after
  right-stripping), otherwise a FileContentError is raised. Every later line is
  right-stripped, split on tabs and padded with empty fields to two columns;
  rows with an empty id are skipped, a symbol seen before raises a
  FileContentError, and otherwise the row goes into both tables.
*/
module GeneConversion {
  import opened Results
  import opened PyStr
  import opened Converters

  const ExpectedFileHeader: string := "NCBI Gene ID\tApproved symbol"

  /** The columns padded with empty strings up to `width`. */
  function Pad(cols: seq<string>, width: nat): (r: seq<string>)
    ensures |r| == if |cols| < width then width else |cols|
    ensures r[..|cols|] == cols
    ensures forall i :: |cols| <= i < |r| ==> r[i] == ""
    decreases width - |cols|
  {
    if |cols| < width then Pad(cols + [""], width) else cols
  }

  /** The id and symbol of a data line. */
  function Row(line: string): (string, string) {
    var cols := Pad(Split(RStrip(line), "\t"), 2);
    (cols[0], cols[1])
  }

  function HeaderError(line: string): PyError {
    FileContentError("Unexpected gene info file header.\nExpected: " + ExpectedFileHeader + "\nActual: " + line)
  }

  function DuplicateSymbolError(symbol: string, id: string): PyError {
    FileContentError("The symbol " + symbol + " was already assigned to " + id)
  }

  datatype GeneTables = GeneTables(idBySymbol: map<string, string>, symbolById: map<string, string>)

  /**
    Line number `counter` of the file. (`id_by_symbol.get(symbol) is not None` holds
    exactly when the symbol is a key: the table's values are ids, never None.)
  */
  function GeneStep(t: GeneTables, counter: nat, line: string): Result<GeneTables, PyError> {
    if counter == 0 then
      if RStrip(line) != ExpectedFileHeader then Err(HeaderError(line)) else Ok(t)
    else
      var (id, symbol) := Row(line);
      if id == "" then Ok(t)
      else if symbol in t.idBySymbol then Err(DuplicateSymbolError(symbol, id))
      else Ok(GeneTables(t.idBySymbol[symbol := id], t.symbolById[id := symbol]))
  }

  datatype GeneOutcome = GeneOutcome(tables: GeneTables, error: Option<PyError>)

  /** Reading the lines in order into `base`; the first error stops the reading. */
  function ReadGenes(base: GeneTables, lines: seq<string>): GeneOutcome
    decreases |lines|
  {
    if lines == [] then GeneOutcome(base, None)
    else
      var before := ReadGenes(base, lines[..|lines| - 1]);
      if before.error.Some? then before
      else
        match GeneStep(before.tables, |lines| - 1, lines[|lines| - 1])
        case Ok(t) => GeneOutcome(t, None)
        case Err(e) => GeneOutcome(before.tables, Some(e))
  }

  /** The (id, symbol) pairs of the data rows that have an id, in file order. */
  function RowPairs(lines: seq<string>): (r: seq<(string, string)>)
    decreases |lines|
  {
    if |lines| <= 1 then []
    else
      var row := Row(lines[|lines| - 1]);
      RowPairs(lines[..|lines| - 1]) + (if row.0 != "" then [row] else [])
  }

  /** The header check passes (a file without lines has none to check). */
  predicate HeaderOk(lines: seq<string>) {
    lines == [] || RStrip(lines[0]) == ExpectedFileHeader
  }

  /** No symbol occurs in two rows, nor in the table already. */
  predicate FreshSymbols(base: map<string, string>, pairs: seq<(string, string)>) {
    && (forall j, k :: 0 <= j < k < |pairs| ==> pairs[j].1 != pairs[k].1)
    && (forall j :: 0 <= j < |pairs| ==> pairs[j].1 !in base)
  }

  /** Rows free of repeated symbols stay so when some are dropped from the end. */
  lemma FreshPrefix(base: map<string, string>, pairs: seq<(string, string)>, more: seq<(string, string)>)
    ensures FreshSymbols(base, pairs + more) ==> FreshSymbols(base, pairs)
  {
    assert forall j :: 0 <= j < |pairs| ==> (pairs + more)[j] == pairs[j];
  }

  /** Once an error has stopped the reading, later lines change nothing. */
  lemma {:induction false} ReadGenesStopsAtError(base: GeneTables, lines: seq<string>, k: nat)
    requires k <= |lines|
    requires ReadGenes(base, lines[..k]).error.Some?
    ensures ReadGenes(base, lines) == ReadGenes(base, lines[..k])
    decreases |lines|
  {
    if k < |lines| {
      assert lines[..|lines| - 1][..k] == lines[..k];
      ReadGenesStopsAtError(base, lines[..|lines| - 1], k);
    } else {
      assert lines[..k] == lines;
    }
  }

  /** Reading one more line is one more step, unless an error already stopped the reading. */
  lemma ReadGenesNext(base: GeneTables, lines: seq<string>, i: nat, t: GeneTables)
    requires i < |lines|
    requires ReadGenes(base, lines[..i]) == GeneOutcome(t, None)
    ensures ReadGenes(base, lines[..i + 1]) ==
              match GeneStep(t, i, lines[i])
              case Ok(next) => GeneOutcome(next, None)
              case Err(e) => GeneOutcome(t, Some(e))
  {
    assert lines[..i + 1][..i] == lines[..i];
  }

  /** Adding one more row to tables filled from fresh rows: it fails exactly when its symbol is taken. */
  lemma AddRow(base: GeneTables, pairs: seq<(string, string)>, row: (string, string))
    requires FreshSymbols(base.idBySymbol, pairs)
    ensures row.1 in Record(base.idBySymbol, Swapped(pairs)) <==> !FreshSymbols(base.idBySymbol, pairs + [row])
    ensures Record(base.idBySymbol, Swapped(pairs))[row.1 := row.0] == Record(base.idBySymbol, Swapped(pairs + [row]))
  {
    var all := pairs + [row];
    assert Swapped(all)[..|pairs|] == Swapped(pairs);
    RecordKeys(base.idBySymbol, Swapped(pairs), row.1);
    if row.1 in Record(base.idBySymbol, Swapped(pairs)) {
      if row.1 in base.idBySymbol {
        assert all[|pairs|].1 in base.idBySymbol;
      } else {
        var j :| 0 <= j < |pairs| && Swapped(pairs)[j].0 == row.1;
        assert all[j].1 == all[|pairs|].1;
      }
    } else {
      forall j | 0 <= j < |pairs| ensures pairs[j].1 != row.1 {
        assert Swapped(pairs)[j].0 == pairs[j].1;
      }
      forall j, k | 0 <= j < k < |all| ensures all[j].1 != all[k].1 {
        if k < |pairs| {
          assert all[j] == pairs[j] && all[k] == pairs[k];
        } else {
          assert all[j] == pairs[j];
        }
      }
    }
  }

  /**
    The file is read without error exactly when the header matches and no symbol
    repeats; then the id -> symbol table is filled from the rows in order (a later
    row with the same id overwrites) and the symbol -> id table from the same rows
    read the other way round.
  */
  lemma {:induction false} ReadGenesTables(base: GeneTables, lines: seq<string>)
    ensures var out := ReadGenes(base, lines);
            out.error.None? <==> HeaderOk(lines) && FreshSymbols(base.idBySymbol, RowPairs(lines))
    ensures var out := ReadGenes(base, lines);
            out.error.None? ==>
              && out.tables.symbolById == Record(base.symbolById, RowPairs(lines))
              && out.tables.idBySymbol == Record(base.idBySymbol, Swapped(RowPairs(lines)))
    decreases |lines|
  {
    if |lines| == 1 {
      assert lines[..0] == [];
    } else if |lines| > 1 {
      var init := lines[..|lines| - 1];
      ReadGenesTables(base, init);
      if ReadGenes(base, init).error.None? {
        ReadGenesTablesStep(base, lines);
      } else {
        assert HeaderOk(lines) == HeaderOk(init) by {
          assert init[0] == lines[0];
        }
        var row := Row(lines[|lines| - 1]);
        FreshPrefix(base.idBySymbol, RowPairs(init), if row.0 != "" then [row] else []);
      }
    }
  }

  /** One data line read into tables filled from fresh rows: the tables of the rows with one more row, or the duplicate's error. */
  lemma DataLineStep(base: GeneTables, t: GeneTables, pairs: seq<(string, string)>, counter: nat, line: string)
    requires counter > 0
    requires FreshSymbols(base.idBySymbol, pairs)
    requires t.symbolById == Record(base.symbolById, pairs) && t.idBySymbol == Record(base.idBySymbol, Swapped(pairs))
    ensures var row := Row(line);
            var more := pairs + (if row.0 != "" then [row] else []);
            && (GeneStep(t, counter, line).Ok? <==> FreshSymbols(base.idBySymbol, more))
            && (GeneStep(t, counter, line).Ok? ==>
                  && GeneStep(t, counter, line).value.symbolById == Record(base.symbolById, more)
                  && GeneStep(t, counter, line).value.idBySymbol == Record(base.idBySymbol, Swapped(more)))
  {
    var row := Row(line);
    if row.0 != "" {
      AddRow(base, pairs, row);
      RecordNext(base.symbolById, pairs, row);
    } else {
      assert pairs + [] == pairs;
    }
  }

  /** The step case of ReadGenesTables, when the lines before the last were read without error. */
  lemma ReadGenesTablesStep(base: GeneTables, lines: seq<string>)
    requires |lines| > 1
    requires var init := lines[..|lines| - 1];
             && ReadGenes(base, init).error.None?
             && HeaderOk(init) && FreshSymbols(base.idBySymbol, RowPairs(init))
             && ReadGenes(base, init).tables.symbolById == Record(base.symbolById, RowPairs(init))
             && ReadGenes(base, init).tables.idBySymbol == Record(base.idBySymbol, Swapped(RowPairs(init)))
    ensures var out := ReadGenes(base, lines);
            out.error.None? <==> HeaderOk(lines) && FreshSymbols(base.idBySymbol, RowPairs(lines))
    ensures var out := ReadGenes(base, lines);
            out.error.None? ==>
              && out.tables.symbolById == Record(base.symbolById, RowPairs(lines))
              && out.tables.idBySymbol == Record(base.idBySymbol, Swapped(RowPairs(lines)))
  {
    var init := lines[..|lines| - 1];
    assert HeaderOk(lines) by {
      assert init[0] == lines[0];
    }
    DataLineStep(base, ReadGenes(base, init).tables, RowPairs(init), |lines| - 1, lines[|lines| - 1]);
  }

  /** A header other than the expected one raises a FileContentError before anything is read. */
  lemma HeaderMismatchFails(base: GeneTables, lines: seq<string>)
    requires lines != [] && RStrip(lines[0]) != ExpectedFileHeader
    ensures ReadGenes(base, lines) == GeneOutcome(base, Some(HeaderError(lines[0])))
  {
    assert lines[..1][..0] == [];
    ReadGenesStopsAtError(base, lines, 1);
  }

  /**
    id -> symbol -> id gives the id back for every id of a file read without error
    into empty tables: the duplicate-symbol check guarantees the symbol is unique.
  */
  lemma IdSymbolIdRoundTrip(lines: seq<string>, id: string)
    requires var out := ReadGenes(GeneTables(map[], map[]), lines);
             out.error.None? && id in out.tables.symbolById
    ensures var t := ReadGenes(GeneTables(map[], map[]), lines).tables;
            var symbol := Conversion(Single(id), t.symbolById, false).found;
            && symbol.Some?
            && Conversion(Single(symbol.value), t.idBySymbol, false) == Value(Some(id))
  {
    var pairs := RowPairs(lines);
    ReadGenesTables(GeneTables(map[], map[]), lines);
    RecordKeys(map[], pairs, id);
    RecordValueFromPair(map[], pairs, id);
    var symbol := Record(map[], pairs)[id];
    var j0 :| 0 <= j0 < |pairs| && pairs[j0] == (id, symbol);
    forall j | 0 <= j < |pairs| && pairs[j].1 == symbol ensures pairs[j].0 == id {
      assert j == j0;
    }
    RoundTrip(pairs, id);
  }

  class GeneConverter {
    var idBySymbol: map<string, string>
    var symbolById: map<string, string>

    /** Empty tables, as `__init__` sets them before reading the file. */
    constructor ()
      ensures idBySymbol == map[] && symbolById == map[]
    {
      idBySymbol := map[];
      symbolById := map[];
    }

    /** `__read_file`: reads the lines of the gene file into the tables. */
    method ReadFile(lines: seq<string>) returns (err: Option<PyError>)
      modifies this
      ensures var out := ReadGenes(GeneTables(old(idBySymbol), old(symbolById)), lines);
              && err == out.error
              && idBySymbol == out.tables.idBySymbol
              && symbolById == out.tables.symbolById
    {
      ghost var base := GeneTables(idBySymbol, symbolById);
      var counter := 0;
      while counter < |lines|
        invariant 0 <= counter <= |lines|
        invariant ReadGenes(base, lines[..counter]) == GeneOutcome(GeneTables(idBySymbol, symbolById), None)
      {
        var line := lines[counter];
        ReadGenesNext(base, lines, counter, GeneTables(idBySymbol, symbolById));
        if counter == 0 && RStrip(line) != ExpectedFileHeader {
          ReadGenesStopsAtError(base, lines, counter + 1);
          return Some(HeaderError(line));
        }
        if counter > 0 {
          var cols := Split(RStrip(line), "\t");
          ghost var split := cols;
          while |cols| < 2
            invariant Pad(cols, 2) == Pad(split, 2)
            decreases 2 - |cols|
          {
            cols := cols + [""];
          }
          var geneId := cols[0];
          var geneSymbol := cols[1];
          if geneId != "" {
            if geneSymbol in idBySymbol {
              ReadGenesStopsAtError(base, lines, counter + 1);
              return Some(DuplicateSymbolError(geneSymbol, geneId));
            }
            idBySymbol := idBySymbol[geneSymbol := geneId];
            symbolById := symbolById[geneId := geneSymbol];
          }
        }
        counter := counter + 1;
      }
      assert lines[..counter] == lines;
      err := None;
    }

    /** `id_to_symbol`: converts gene ids with the id -> symbol table. */
    method IdToSymbol(geneIds: Keys, includeNa: bool) returns (r: Converted)
      ensures r == Conversion(geneIds, symbolById, includeNa)
    {
      r := KeyToValue(geneIds, symbolById, includeNa);
    }

    /** `symbol_to_id`: converts gene symbols with the symbol -> id table. */
    method SymbolToId(geneSymbols: Keys, includeNa: bool) returns (r: Converted)
      ensures r == Conversion(geneSymbols, idBySymbol, includeNa)
    {
      r := KeyToValue(geneSymbols, idBySymbol, includeNa);
    }
  }

  /** `GeneConverter(gene_file_dir)` once the file is present: empty tables, then the file read into them. */
  method NewGeneConverter(lines: seq<string>) returns (c: GeneConverter, err: Option<PyError>)
    ensures fresh(c)
    ensures var out := ReadGenes(GeneTables(map[], map[]), lines);
            && err == out.error
            && c.idBySymbol == out.tables.idBySymbol
            && c.symbolById == out.tables.symbolById
  {
    c := new GeneConverter();
    err := c.ReadFile(lines);
  }
}
