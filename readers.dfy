/**
  `SeparatedValuesFileReader.key_value_stream_reader`: reads two columns of a
  separated-values stream into a dictionary. The first line is skipped when
  asked to (a header); every other line is split on the separator, and the
  stripped key-column field maps to the stripped value-column field, or to that
  field split on the values separator when one is given. A later line with the
  same key overwrites an earlier one.
*/
module Readers {
  import opened Results
  import opened PyStr
  import opened Converters

  /** The defaults of `key_value_stream_reader`: tab-separated, no values separator, a header line. */
  const DefaultSeparator := "\t"
  const DefaultSkipFirstLine := true

  /** A dictionary value: the stripped field, or its parts when a values separator is given. */
  datatype Cell = Text(text: string) | Parts(parts: seq<string>)

  /** The reader's arguments that say how one line is taken apart. */
  datatype Layout = Layout(keyColumn: int, valueColumn: int, separator: string, valuesSeparator: Option<string>)

  /**
    The key and value of one line. Python evaluates the value (the right-hand side
    of the assignment) before the key, so a failing value column is reported first.
  */
  function ParseLine(line: string, layout: Layout): Result<(string, Cell), PyError>
  {
    if layout.separator == "" then Err(ValueError)
    else
      var splits := Split(line, layout.separator);
      match At(splits, layout.valueColumn)
      case Err(e) => Err(e)
      case Ok(field) =>
        var value := Strip(field);
        if layout.valuesSeparator.Some? && layout.valuesSeparator.value == "" then Err(ValueError)
        else
          var cell := if layout.valuesSeparator.None? then Text(value)
                      else Parts(Split(value, layout.valuesSeparator.value));
          match At(splits, layout.keyColumn)
          case Err(e) => Err(e)
          case Ok(key) => Ok((Strip(key), cell))
  }

  /** The lines that are read: all of them, or all but the first when it is a header. */
  function Body(lines: seq<string>, skipFirstLine: bool): seq<string> {
    if skipFirstLine && |lines| > 0 then lines[1..] else lines
  }

  /** `ParseLine` with the reader's arguments fixed, as applied to every line read. */
  function Parser(layout: Layout): string -> Result<(string, Cell), PyError> {
    row => ParseLine(row, layout)
  }

  /** The (key, value) entries of the rows in order, or the error of the first row that fails. */
  function Entries(rows: seq<string>, layout: Layout): Result<seq<(string, Cell)>, PyError> {
    Collect(rows, Parser(layout))
  }

  /** What `key_value_stream_reader` returns: the entries recorded in order, later keys overwriting. */
  function ReadKeyValues(lines: seq<string>, layout: Layout, skipFirstLine: bool): Result<map<string, Cell>, PyError>
  {
    match Entries(Body(lines, skipFirstLine), layout)
    case Ok(entries) => Ok(Record(map[], entries))
    case Err(e) => Err(e)
  }

  /** The key a row contributes, when it parses. */
  function RowKey(row: string, layout: Layout): Option<string> {
    match ParseLine(row, layout)
    case Ok(entry) => Some(entry.0)
    case Err(_) => None
  }

  /**
    Read without error, the dictionary holds the stripped key field of every line
    read (the skipped header is not read), and holds there the value of the last
    line with that key.
  */
  lemma ReadKeyValuesContents(lines: seq<string>, layout: Layout, skipFirstLine: bool, j: nat)
    requires ReadKeyValues(lines, layout, skipFirstLine).Ok?
    requires j < |Body(lines, skipFirstLine)|
    ensures var rows := Body(lines, skipFirstLine);
            var table := ReadKeyValues(lines, layout, skipFirstLine).value;
            var entry := ParseLine(rows[j], layout);
            && entry.Ok?
            && entry.value.0 in table
            && ((forall l :: j < l < |rows| ==> RowKey(rows[l], layout) != Some(entry.value.0))
                ==> table[entry.value.0] == entry.value.1)
  {
    var rows := Body(lines, skipFirstLine);
    CollectPerItem(rows, Parser(layout));
    var entries := Entries(rows, layout).value;
    RecordKeys(map[], entries, entries[j].0);
    if forall l :: j < l < |rows| ==> RowKey(rows[l], layout) != Some(entries[j].0) {
      forall l | j < l < |entries|
        ensures entries[l].0 != entries[j].0
      {
        assert RowKey(rows[l], layout) == Some(entries[l].0);
      }
      RecordLastWins(map[], entries, j);
    }
  }

  /** Every key of the dictionary comes from a line that was read. */
  lemma ReadKeyValuesKeys(lines: seq<string>, layout: Layout, skipFirstLine: bool, key: string)
    requires ReadKeyValues(lines, layout, skipFirstLine).Ok?
    requires key in ReadKeyValues(lines, layout, skipFirstLine).value
    ensures exists j :: 0 <= j < |Body(lines, skipFirstLine)| && RowKey(Body(lines, skipFirstLine)[j], layout) == Some(key)
  {
    var rows := Body(lines, skipFirstLine);
    CollectPerItem(rows, Parser(layout));
    var entries := Entries(rows, layout).value;
    RecordKeys(map[], entries, key);
    var j :| 0 <= j < |entries| && entries[j].0 == key;
    assert RowKey(rows[j], layout) == Some(key);
  }

  /** Without a values separator, or with a non-empty one, a line fails exactly when it lacks the key or the value column, with an IndexError. */
  lemma ParseLineErrors(row: string, layout: Layout)
    requires layout.separator != [] && (layout.valuesSeparator.None? || layout.valuesSeparator.value != [])
    ensures var n := |Split(row, layout.separator)|;
            ParseLine(row, layout).Err? <==> !(-n <= layout.keyColumn < n) || !(-n <= layout.valueColumn < n)
    ensures ParseLine(row, layout).Err? ==> ParseLine(row, layout).error == IndexError
  {
  }

  /** A line read with too few columns for the value or the key is an IndexError. */
  lemma TooFewColumnsFails(lines: seq<string>, layout: Layout, skipFirstLine: bool, j: nat)
    requires layout.separator != [] && (layout.valuesSeparator.None? || layout.valuesSeparator.value != [])
    requires j < |Body(lines, skipFirstLine)|
    requires var n := |Split(Body(lines, skipFirstLine)[j], layout.separator)|;
             !(-n <= layout.keyColumn < n) || !(-n <= layout.valueColumn < n)
    ensures ReadKeyValues(lines, layout, skipFirstLine) == Err(IndexError)
  {
    var rows := Body(lines, skipFirstLine);
    ParseLineErrors(rows[j], layout);
    assert Entries(rows, layout).Err? by {
      CollectPerItem(rows, Parser(layout));
      assert Parser(layout)(rows[j]).Err?;
    }
    CollectFirstError(rows, Parser(layout));
    var first :| 0 <= first < |rows| && Parser(layout)(rows[first]) == Err(Entries(rows, layout).error);
    ParseLineErrors(rows[first], layout);
  }

  /** With the header skipped or not, the lines read so far grow by one line per further line. */
  lemma BodyGrows(lines: seq<string>, skipFirstLine: bool, i: nat)
    requires i < |lines| && !(skipFirstLine && i == 0)
    ensures Body(lines[..i + 1], skipFirstLine) == Body(lines[..i], skipFirstLine) + [lines[i]]
    ensures Body(lines, skipFirstLine)[..|Body(lines[..i], skipFirstLine)| + 1] == Body(lines[..i + 1], skipFirstLine)
  {
  }

  /** One more line read: its entry is appended, or its error is the reader's. */
  lemma ReadStep(lines: seq<string>, layout: Layout, skipFirstLine: bool, i: nat, entries: seq<(string, Cell)>)
    requires i < |lines| && !(skipFirstLine && i == 0)
    requires Entries(Body(lines[..i], skipFirstLine), layout) == Ok(entries)
    ensures ParseLine(lines[i], layout).Err? ==>
              ReadKeyValues(lines, layout, skipFirstLine) == Err(ParseLine(lines[i], layout).error)
    ensures ParseLine(lines[i], layout).Ok? ==>
              Entries(Body(lines[..i + 1], skipFirstLine), layout) == Ok(entries + [ParseLine(lines[i], layout).value])
  {
    var done := Body(lines[..i], skipFirstLine);
    BodyGrows(lines, skipFirstLine, i);
    CollectNext(done, lines[i], Parser(layout));
    if ParseLine(lines[i], layout).Err? {
      CollectStopsAtError(Body(lines, skipFirstLine), |done| + 1, Parser(layout));
    }
  }

  /** `key_value_stream_reader` */
  method KeyValueStreamReader(lines: seq<string>, keyColumn: int, valueColumn: int, separator: string,
                              valuesSeparator: Option<string>, skipFirstLine: bool)
    returns (r: Result<map<string, Cell>, PyError>)
    ensures r == ReadKeyValues(lines, Layout(keyColumn, valueColumn, separator, valuesSeparator), skipFirstLine)
  {
    var layout := Layout(keyColumn, valueColumn, separator, valuesSeparator);
    var dataDict: map<string, Cell> := map[];
    ghost var entries: seq<(string, Cell)> := [];
    for i := 0 to |lines|
      invariant Entries(Body(lines[..i], skipFirstLine), layout) == Ok(entries)
      invariant dataDict == Record(map[], entries)
    {
      if skipFirstLine && i == 0 {
        assert Body(lines[..1], skipFirstLine) == [];
        continue;
      }
      var parsed := ParseLine(lines[i], layout);
      ReadStep(lines, layout, skipFirstLine, i, entries);
      if parsed.Err? {
        return Err(parsed.error);
      }
      var (key, value) := parsed.value;
      RecordNext(map[], entries, (key, value));
      dataDict := dataDict[key := value];
      entries := entries + [(key, value)];
    }
    assert lines[..|lines|] == lines;
    r := Ok(dataDict);
  }

  /** The two fields of a line of two tab-separated fields ending in a newline, and their stripped forms. */
  lemma TwoColumnFields(key: string, value: string)
    requires '\t' !in key && '\t' !in value
    requires key != [] && !IsSpace(key[0]) && !IsSpace(key[|key| - 1])
    requires value != [] && !IsSpace(value[0]) && !IsSpace(value[|value| - 1])
    ensures Split(key + "\t" + value + "\n", DefaultSeparator) == [key, value + "\n"]
    ensures Strip(key) == key && Strip(value + "\n") == value
  {
    TwoColumnSplit(key, value);
    StripUnpadded(key);
    StripNewline(value);
  }

  /** A line of two tab-separated fields ending in a newline splits into the two fields. */
  lemma TwoColumnSplit(key: string, value: string)
    requires '\t' !in key && '\t' !in value
    ensures Split(key + "\t" + value + "\n", DefaultSeparator) == [key, value + "\n"]
  {
    assert '\t' !in value + "\n";
    SplitWithoutSeparator(value + "\n", '\t');
    assert key + "\t" + value + "\n" == key + ['\t'] + (value + "\n");
    SplitAtFirst(key, value + "\n", '\t');
  }

  /** A line of two tab-separated fields ending in a newline gives the key and value fields, unpadded. */
  lemma TwoColumnLine(key: string, value: string, valuesSeparator: Option<string>)
    requires '\t' !in key && '\t' !in value
    requires key != [] && !IsSpace(key[0]) && !IsSpace(key[|key| - 1])
    requires value != [] && !IsSpace(value[0]) && !IsSpace(value[|value| - 1])
    requires valuesSeparator != Some("")
    ensures ParseLine(key + "\t" + value + "\n", Layout(0, 1, DefaultSeparator, valuesSeparator))
            == Ok((key, if valuesSeparator.None? then Text(value) else Parts(Split(value, valuesSeparator.value))))
  {
    TwoColumnFields(key, value);
    ParseFirstTwo(key + "\t" + value + "\n", key, value + "\n", valuesSeparator);
  }

  /** A line split into a key field and a value field, read as column 0 and column 1. */
  lemma ParseFirstTwo(line: string, keyField: string, valueField: string, valuesSeparator: Option<string>)
    requires Split(line, DefaultSeparator) == [keyField, valueField]
    requires valuesSeparator != Some("")
    ensures ParseLine(line, Layout(0, 1, DefaultSeparator, valuesSeparator))
            == Ok((Strip(keyField), if valuesSeparator.None? then Text(Strip(valueField))
                                    else Parts(Split(Strip(valueField), valuesSeparator.value))))
  {
  }

  /** A field without commas is one part; a comma splits it in two. */
  lemma CommaSplit(a: string, b: string)
    requires ',' !in a && ',' !in b
    ensures Split(a + "," + b, ",") == [a, b]
  {
    SplitWithoutSeparator(b, ',');
    SplitAtFirst(a, b, ',');
  }

  /** Two data rows after a header: the header is skipped and both rows are recorded. */
  lemma ReadTwoRows(header: string, row1: string, row2: string, layout: Layout, entry1: (string, Cell), entry2: (string, Cell))
    requires ParseLine(row1, layout) == Ok(entry1) && ParseLine(row2, layout) == Ok(entry2)
    ensures ReadKeyValues([header, row1, row2], layout, DefaultSkipFirstLine)
            == Ok(map[entry1.0 := entry1.1][entry2.0 := entry2.1])
  {
    assert Body([header, row1, row2], true) == [row1, row2];
    assert Parser(layout)(row1) == Ok(entry1) && Parser(layout)(row2) == Ok(entry2);
    CollectTwo(row1, row2, Parser(layout));
    RecordTwo(map[], entry1, entry2);
  }

  /** A header and two rows of two tab-separated fields each. */
  lemma TwoRowFile(header: string, key1: string, value1: string, key2: string, value2: string, valuesSeparator: Option<string>)
    requires '\t' !in key1 && '\t' !in value1 && '\t' !in key2 && '\t' !in value2
    requires key1 != [] && !IsSpace(key1[0]) && !IsSpace(key1[|key1| - 1])
    requires value1 != [] && !IsSpace(value1[0]) && !IsSpace(value1[|value1| - 1])
    requires key2 != [] && !IsSpace(key2[0]) && !IsSpace(key2[|key2| - 1])
    requires value2 != [] && !IsSpace(value2[0]) && !IsSpace(value2[|value2| - 1])
    requires valuesSeparator != Some("")
    ensures var cell1 := if valuesSeparator.None? then Text(value1) else Parts(Split(value1, valuesSeparator.value));
            var cell2 := if valuesSeparator.None? then Text(value2) else Parts(Split(value2, valuesSeparator.value));
            ReadKeyValues([header, key1 + "\t" + value1 + "\n", key2 + "\t" + value2 + "\n"],
                          Layout(0, 1, DefaultSeparator, valuesSeparator), DefaultSkipFirstLine)
            == Ok(map[key1 := cell1][key2 := cell2])
  {
    TwoColumnLine(key1, value1, valuesSeparator);
    TwoColumnLine(key2, value2, valuesSeparator);
    var cell1 := if valuesSeparator.None? then Text(value1) else Parts(Split(value1, valuesSeparator.value));
    var cell2 := if valuesSeparator.None? then Text(value2) else Parts(Split(value2, valuesSeparator.value));
    ReadTwoRows(header, key1 + "\t" + value1 + "\n", key2 + "\t" + value2 + "\n",
                Layout(0, 1, DefaultSeparator, valuesSeparator), (key1, cell1), (key2, cell2));
  }

  /** The reader's test file: a header and two rows, read with the default arguments. */
  lemma ReaderExampleText()
    ensures ReadKeyValues(["id\tomim\n", "0001\t012345,543210\n", "0002\t456789,987654\n"],
                          Layout(0, 1, DefaultSeparator, None), DefaultSkipFirstLine)
            == Ok(map["0001" := Text("012345,543210"), "0002" := Text("456789,987654")])
  {
    TwoRowFile("id\tomim\n", "0001", "012345,543210", "0002", "456789,987654", None);
    ReaderTestLines();
  }

  /** The data lines of the reader's test file, cut at their tab and at their comma. */
  lemma ReaderTestLine1()
    ensures "0001\t012345,543210\n" == "0001" + "\t" + "012345,543210" + "\n"
    ensures "012345,543210" == "012345" + "," + "543210"
  {
  }

  lemma ReaderTestLine2()
    ensures "0002\t456789,987654\n" == "0002" + "\t" + "456789,987654" + "\n"
    ensures "456789,987654" == "456789" + "," + "987654"
  {
  }

  lemma ReaderTestLines()
    ensures ["id\tomim\n", "0001\t012345,543210\n", "0002\t456789,987654\n"]
            == ["id\tomim\n", "0001" + "\t" + "012345,543210" + "\n", "0002" + "\t" + "456789,987654" + "\n"]
    ensures ["id\tomim\n", "0001\t012345,543210\n", "0002\t456789,987654\n"]
            == ["id\tomim\n", "0001" + "\t" + ("012345" + "," + "543210") + "\n", "0002" + "\t" + ("456789" + "," + "987654") + "\n"]
  {
    ReaderTestLine1();
    ReaderTestLine2();
  }

  /** A value of two comma-separated parts, as the two-column lemmas need it. */
  lemma CommaValue(a: string, b: string)
    requires '\t' !in a && '\t' !in b && ',' !in a && ',' !in b
    requires a != [] && b != [] && !IsSpace(a[0]) && !IsSpace(b[|b| - 1])
    ensures var value := a + "," + b;
            && '\t' !in value && value != [] && !IsSpace(value[0]) && !IsSpace(value[|value| - 1])
            && Split(value, ",") == [a, b]
  {
    CommaSplit(a, b);
    var value := a + "," + b;
    assert value[0] == a[0] && value[|value| - 1] == b[|b| - 1];
  }

  /** Two rows whose values are two comma-separated parts each, read with ',' as the values separator. */
  lemma TwoRowFileParts(header: string, key1: string, a1: string, b1: string, key2: string, a2: string, b2: string)
    requires '\t' !in key1 && '\t' !in key2
    requires '\t' !in a1 && '\t' !in b1 && ',' !in a1 && ',' !in b1
    requires '\t' !in a2 && '\t' !in b2 && ',' !in a2 && ',' !in b2
    requires key1 != [] && !IsSpace(key1[0]) && !IsSpace(key1[|key1| - 1])
    requires key2 != [] && !IsSpace(key2[0]) && !IsSpace(key2[|key2| - 1])
    requires a1 != [] && b1 != [] && !IsSpace(a1[0]) && !IsSpace(b1[|b1| - 1])
    requires a2 != [] && b2 != [] && !IsSpace(a2[0]) && !IsSpace(b2[|b2| - 1])
    ensures ReadKeyValues([header, key1 + "\t" + (a1 + "," + b1) + "\n", key2 + "\t" + (a2 + "," + b2) + "\n"],
                          Layout(0, 1, DefaultSeparator, Some(",")), DefaultSkipFirstLine)
            == Ok(map[key1 := Parts([a1, b1])][key2 := Parts([a2, b2])])
  {
    CommaValue(a1, b1);
    CommaValue(a2, b2);
    TwoRowFile(header, key1, a1 + "," + b1, key2, a2 + "," + b2, Some(","));
  }

  /** The same file read with ',' as the values separator: each value becomes a list. */
  lemma ReaderExampleParts()
    ensures ReadKeyValues(["id\tomim\n", "0001\t012345,543210\n", "0002\t456789,987654\n"],
                          Layout(0, 1, DefaultSeparator, Some(",")), DefaultSkipFirstLine)
            == Ok(map["0001" := Parts(["012345", "543210"]), "0002" := Parts(["456789", "987654"])])
  {
    TwoRowFileParts("id\tomim\n", "0001", "012345", "543210", "0002", "456789", "987654");
    ReaderTestLines();
  }
}
