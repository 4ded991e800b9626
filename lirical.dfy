/**
  The LIRICAL runner's reading of a LIRICAL TSV result file
  (`__extract_fields_from_lirical_data`): `!` lines are LIRICAL's comments and
  are skipped wherever they occur, the first other line is the column header,
  and every later line gives one OMIM number (the part after the `:` of its
  third tab column) and, when the disease name carries one, a gene alias found
  by the pattern `\t[\w, ]+; ([\w]+)`.
*/
module LiricalRunner {
  import opened Results
  import opened PyStr

  // ---------------------------------------------------------------------------
  // The gene-alias pattern

  /** `\w`, on ASCII text: a letter, a digit or `_`. */
  predicate IsWord(c: char) {
    ('a' <= c <= 'z') || ('A' <= c <= 'Z') || ('0' <= c <= '9') || c == '_'
  }

  /** The class `[\w, ]`. */
  predicate IsNameChar(c: char) {
    IsWord(c) || c == ',' || c == ' '
  }

  /** The end of the longest run of characters satisfying `p` that starts at `k`. */
  function RunEnd(s: string, k: nat, p: char -> bool): (r: nat)
    requires k <= |s|
    ensures k <= r <= |s|
    ensures forall m :: k <= m < r ==> p(s[m])
    ensures r == |s| || !p(s[r])
    decreases |s| - k
  {
    if k < |s| && p(s[k]) then RunEnd(s, k + 1, p) else k
  }

  /** A run is determined by where it starts: any maximal run is the one `RunEnd` finds. */
  lemma RunEndUnique(s: string, k: nat, p: char -> bool, r: nat)
    requires k <= r <= |s|
    requires forall m :: k <= m < r ==> p(s[m])
    requires r == |s| || !p(s[r])
    ensures RunEnd(s, k, p) == r
  {
  }

  /**
    What it means for the pattern to match with its tab at `i`, its `; ` at `j`
    and `a` as its group: a tab, one or more characters of `[\w, ]`, `; `, then
    the longest run of word characters, which is not empty.
  */
  predicate PatternAt(s: string, i: nat, j: nat, a: string) {
    && i + 1 < j && j + 2 + |a| <= |s|
    && s[i] == '\t'
    && (forall m :: i < m < j ==> IsNameChar(s[m]))
    && s[j] == ';' && s[j + 1] == ' '
    && a != [] && s[j + 2..j + 2 + |a|] == a
    && (forall m :: 0 <= m < |a| ==> IsWord(a[m]))
    && (j + 2 + |a| == |s| || !IsWord(s[j + 2 + |a|]))
  }

  /** The pattern tried at position `i` alone, as the regular expression engine tries it. */
  function MatchAt(s: string, i: nat): Option<string>
    requires i < |s|
  {
    if s[i] != '\t' then None
    else
      var j := RunEnd(s, i + 1, IsNameChar);
      if i + 1 < j && j + 2 < |s| && s[j] == ';' && s[j + 1] == ' ' && IsWord(s[j + 2])
      then Some(s[j + 2..RunEnd(s, j + 2, IsWord)])
      else None
  }

  /** `re.search`: the match at the first position, from `i` on, where there is one. */
  function SearchFrom(s: string, i: nat): Option<string>
    requires i <= |s|
    decreases |s| - i
  {
    if i == |s| then None
    else
      match MatchAt(s, i)
      case Some(a) => Some(a)
      case None => SearchFrom(s, i + 1)
  }

  /** `search(r'\t[\w, ]+; ([\w]+)', line)[1]`, or `None` when there is no match. */
  function GeneAlias(line: string): Option<string> {
    SearchFrom(line, 0)
  }

  /** A match found at `i` is the pattern at `i`. */
  lemma MatchAtSound(s: string, i: nat)
    requires i < |s| && MatchAt(s, i).Some?
    ensures PatternAt(s, i, RunEnd(s, i + 1, IsNameChar), MatchAt(s, i).value)
  {
    var j := RunEnd(s, i + 1, IsNameChar);
    var e := RunEnd(s, j + 2, IsWord);
    var a := MatchAt(s, i).value;
    assert a == s[j + 2..e];
    assert forall m :: 0 <= m < |a| ==> a[m] == s[j + 2 + m];
  }

  /** The pattern at `i` is what the engine finds there, whatever else the line holds. */
  lemma MatchAtComplete(s: string, i: nat, j: nat, a: string)
    requires PatternAt(s, i, j, a)
    ensures MatchAt(s, i) == Some(a)
  {
    assert !IsNameChar(s[j]);
    RunEndUnique(s, i + 1, IsNameChar, j);
    assert forall m :: j + 2 <= m < j + 2 + |a| ==> s[m] == a[m - (j + 2)];
    RunEndUnique(s, j + 2, IsWord, j + 2 + |a|);
  }

  /** The search finds nothing exactly when no position from `i` on has a match. */
  lemma {:induction false} SearchFromNone(s: string, i: nat)
    requires i <= |s|
    ensures SearchFrom(s, i).None? <==> forall k :: i <= k < |s| ==> MatchAt(s, k).None?
    decreases |s| - i
  {
    if i < |s| && MatchAt(s, i).None? {
      SearchFromNone(s, i + 1);
    }
  }

  /** A match the search finds is the one at the first position from `i` on that has one. */
  lemma {:induction false} SearchFromSome(s: string, i: nat)
    requires i <= |s| && SearchFrom(s, i).Some?
    ensures exists k :: i <= k < |s| && MatchAt(s, k) == SearchFrom(s, i)
                        && forall l :: i <= l < k ==> MatchAt(s, l).None?
    decreases |s| - i
  {
    if MatchAt(s, i).None? {
      SearchFromSome(s, i + 1);
      var k :| i + 1 <= k < |s| && MatchAt(s, k) == SearchFrom(s, i + 1)
               && forall l :: i + 1 <= l < k ==> MatchAt(s, l).None?;
      assert forall l :: i <= l < k ==> MatchAt(s, l).None?;
    } else {
      assert MatchAt(s, i) == SearchFrom(s, i);
    }
  }

  /** The search finds a match exactly when some position from `i` on has one, and then the first. */
  lemma SearchFromFirst(s: string, i: nat)
    requires i <= |s|
    ensures SearchFrom(s, i).None? <==> forall k :: i <= k < |s| ==> MatchAt(s, k).None?
    ensures SearchFrom(s, i).Some? ==>
              exists k :: i <= k < |s| && MatchAt(s, k) == SearchFrom(s, i)
                          && forall l :: i <= l < k ==> MatchAt(s, l).None?
  {
    SearchFromNone(s, i);
    if SearchFrom(s, i).Some? {
      SearchFromSome(s, i);
    }
  }

  /** The leftmost occurrence of the pattern, with `a` as its group. */
  ghost predicate FirstPattern(s: string, a: string) {
    exists i: nat, j: nat ::
      PatternAt(s, i, j, a) && forall i2: nat, j2: nat, a2 :: PatternAt(s, i2, j2, a2) ==> i <= i2
  }

  /** No occurrence of the pattern: the line has no gene alias. */
  lemma GeneAliasNone(line: string)
    ensures GeneAlias(line).None? <==> forall i: nat, j: nat, a :: !PatternAt(line, i, j, a)
  {
    SearchFromFirst(line, 0);
    if GeneAlias(line).Some? {
      var k :| 0 <= k < |line| && MatchAt(line, k) == GeneAlias(line);
      MatchAtSound(line, k);
    } else {
      forall i: nat, j: nat, a | PatternAt(line, i, j, a)
        ensures false
      {
        MatchAtComplete(line, i, j, a);
      }
    }
  }

  /** The gene alias is the group of the leftmost occurrence of the pattern. */
  lemma GeneAliasFirst(line: string, a: string)
    ensures GeneAlias(line) == Some(a) <==> FirstPattern(line, a)
  {
    SearchFromFirst(line, 0);
    if GeneAlias(line).Some? {
      var k :| 0 <= k < |line| && MatchAt(line, k) == GeneAlias(line)
               && forall l :: 0 <= l < k ==> MatchAt(line, l).None?;
      var j := RunEnd(line, k + 1, IsNameChar);
      MatchAtSound(line, k);
      forall i2: nat, j2: nat, a2 | PatternAt(line, i2, j2, a2)
        ensures k <= i2
      {
        MatchAtComplete(line, i2, j2, a2);
      }
      assert PatternAt(line, k, j, GeneAlias(line).value);
      if FirstPattern(line, a) {
        var i: nat, j1: nat :| PatternAt(line, i, j1, a)
                               && forall i2: nat, j2: nat, a2 :: PatternAt(line, i2, j2, a2) ==> i <= i2;
        assert i <= k;
        MatchAtComplete(line, i, j1, a);
      }
    } else {
      GeneAliasNone(line);
    }
  }

  // ---------------------------------------------------------------------------
  // The OMIM column

  /** `line.split('\t')[2].split(':')[1]`, with the `IndexError` a short line or a colon-less column raises. */
  function OmimField(line: string): Result<string, PyError> {
    match At(Split(line, "\t"), 2)
    case Err(e) => Err(e)
    case Ok(column) => At(Split(column, ":"), 1)
  }

  /** The OMIM number is missing exactly when the line has fewer than three columns or its third has no colon. */
  lemma OmimFieldFails(line: string)
    ensures OmimField(line).Err? <==> |Split(line, "\t")| < 3 || ':' !in Split(line, "\t")[2]
    ensures OmimField(line).Err? ==> OmimField(line) == Err(IndexError)
  {
    var columns := Split(line, "\t");
    if |columns| >= 3 {
      SplitSinglePiece(columns[2], ':');
    }
  }

  /** A line whose third column is `prefix:number…`: the OMIM number is what follows the first colon. */
  lemma OmimFieldOfColumns(c0: string, c1: string, prefix: string, number: string, tail: string, rest: string)
    requires '\t' !in c0 && '\t' !in c1 && '\t' !in prefix && '\t' !in number && '\t' !in tail
    requires ':' !in prefix && ':' !in number
    requires tail == [] || tail[0] == ':'
    requires rest == [] || rest[0] == '\t'
    ensures OmimField(c0 + "\t" + (c1 + "\t" + (prefix + ":" + (number + tail) + rest))) == Ok(number)
  {
    var c2 := prefix + ":" + (number + tail);
    assert '\t' !in c2;
    TabColumns(c0, c1, c2, rest);
    assert c2 == prefix + [':'] + (number + tail);
    SplitAtFirst(prefix, number + tail, ':');
    if tail == [] {
      assert number + tail == number;
      SplitWithoutSeparator(number, ':');
    } else {
      assert number + tail == number + [':'] + tail[1..];
      SplitAtFirst(number, tail[1..], ':');
    }
  }

  /** The first three tab columns of a line. */
  lemma TabColumns(c0: string, c1: string, c2: string, rest: string)
    requires '\t' !in c0 && '\t' !in c1 && '\t' !in c2
    requires rest == [] || rest[0] == '\t'
    ensures |Split(c0 + "\t" + (c1 + "\t" + (c2 + rest)), "\t")| >= 3
    ensures Split(c0 + "\t" + (c1 + "\t" + (c2 + rest)), "\t")[2] == c2
  {
    TabCut(c0, c1 + "\t" + (c2 + rest));
    TabCut(c1, c2 + rest);
    FirstColumn(c2, rest);
  }

  /** The first tab column of a line is everything before its first tab. */
  lemma FirstColumn(column: string, rest: string)
    requires '\t' !in column
    requires rest == [] || rest[0] == '\t'
    ensures Split(column + rest, "\t")[0] == column
  {
    if rest == [] {
      assert column + rest == column;
      SplitWithoutSeparator(column, '\t');
    } else {
      var more := rest[1..];
      assert rest == [rest[0]] + more;
      assert column + rest == column + ['\t'] + more;
      SplitAtFirst(column, more, '\t');
    }
  }

  // ---------------------------------------------------------------------------
  // The rows that are read

  /** LIRICAL's comment lines. */
  predicate IsComment(line: string) {
    StartsWith(line, "!")
  }

  /** The lines that are not comments, in order. */
  function Records(lines: seq<string>): seq<string> {
    Uncommented(lines, "!")
  }

  /** The rows read for data: the records after the header. */
  function DataRows(lines: seq<string>): seq<string> {
    var records := Records(lines);
    if records == [] then [] else records[1..]
  }

  /** The gene aliases of the rows that have one, in row order. */
  function Aliases(rows: seq<string>): seq<string>
    decreases |rows|
  {
    if rows == [] then []
    else
      var last := rows[|rows| - 1];
      Aliases(rows[..|rows| - 1]) + (if GeneAlias(last).Some? then [GeneAlias(last).value] else [])
  }

  /** What `__extract_fields_from_lirical_data` returns, or the error its OMIM column raises. */
  function Extraction(lines: seq<string>): Result<(seq<string>, seq<string>), PyError> {
    var rows := DataRows(lines);
    match Collect(rows, OmimField)
    case Err(e) => Err(e)
    case Ok(omims) => Ok((Aliases(rows), omims))
  }

  /** A comment line changes nothing, wherever it stands. */
  lemma CommentLineIgnored(a: seq<string>, comment: string, b: seq<string>)
    requires IsComment(comment)
    ensures Extraction(a + [comment] + b) == Extraction(a + b)
  {
    UncommentedAppend(a + [comment], b, "!");
    UncommentedAppend(a, [comment], "!");
    RecordsOne(comment);
    UncommentedAppend(a, b, "!");
    assert Records(a + [comment] + b) == Records(a + b);
  }

  lemma RecordsOne(line: string)
    ensures Records([line]) == if IsComment(line) then [] else [line]
  {
    assert [line][..0] == [];
  }

  /** The first record is the header: whatever it holds, the data rows are the records after it. */
  lemma HeaderSkipped(comments: seq<string>, header: string, rest: seq<string>)
    requires forall k :: 0 <= k < |comments| ==> IsComment(comments[k])
    requires !IsComment(header)
    ensures DataRows(comments + [header] + rest) == Records(rest)
  {
    NoRecords(comments);
    UncommentedAppend(comments + [header], rest, "!");
    UncommentedAppend(comments, [header], "!");
    RecordsOne(header);
    assert Records(comments + [header] + rest) == [header] + Records(rest);
  }

  lemma {:induction false} NoRecords(lines: seq<string>)
    requires forall k :: 0 <= k < |lines| ==> IsComment(lines[k])
    ensures Records(lines) == []
    decreases |lines|
  {
    if lines != [] {
      NoRecords(lines[..|lines| - 1]);
    }
  }

  /** The rows with a gene alias, by index, in increasing order. */
  function AliasRows(rows: seq<string>): (idx: seq<nat>)
    ensures forall k :: 0 <= k < |idx| ==> idx[k] < |rows| && GeneAlias(rows[idx[k]]).Some?
    ensures forall k, l :: 0 <= k < l < |idx| ==> idx[k] < idx[l]
    ensures forall j :: 0 <= j < |rows| && GeneAlias(rows[j]).Some? ==> j in idx
    decreases |rows|
  {
    if rows == [] then []
    else
      var n := |rows| - 1;
      var before := AliasRows(rows[..n]);
      assert forall k :: 0 <= k < |before| ==> rows[..n][before[k]] == rows[before[k]];
      if GeneAlias(rows[n]).Some? then before + [n] else before
  }

  /** The aliases are those of the matching rows, one each, in row order. */
  lemma {:induction false} AliasesOfRows(rows: seq<string>)
    ensures |Aliases(rows)| == |AliasRows(rows)|
    ensures forall k :: 0 <= k < |Aliases(rows)| ==> Aliases(rows)[k] == GeneAlias(rows[AliasRows(rows)[k]]).value
    decreases |rows|
  {
    if rows != [] {
      var n := |rows| - 1;
      AliasesOfRows(rows[..n]);
      var before := AliasRows(rows[..n]);
      var last := rows[n];
      assert Aliases(rows) == Aliases(rows[..n]) + (if GeneAlias(last).Some? then [GeneAlias(last).value] else []);
      assert AliasRows(rows) == if GeneAlias(last).Some? then before + [n] else before;
      forall k | 0 <= k < |Aliases(rows)| ensures Aliases(rows)[k] == GeneAlias(rows[AliasRows(rows)[k]]).value {
        if k < |before| {
          assert rows[..n][before[k]] == rows[before[k]];
        }
      }
    }
  }

  /**
    A successful extraction: one OMIM number per data row, in row order, and the
    aliases of the rows that have one, so never more aliases than OMIM numbers.
    It fails exactly when some data row lacks its OMIM number.
  */
  lemma ExtractionShape(lines: seq<string>)
    ensures Extraction(lines).Ok? <==> forall k :: 0 <= k < |DataRows(lines)| ==> OmimField(DataRows(lines)[k]).Ok?
    ensures Extraction(lines).Ok? ==>
              && |Extraction(lines).value.1| == |DataRows(lines)|
              && (forall k :: 0 <= k < |DataRows(lines)| ==>
                    Extraction(lines).value.1[k] == OmimField(DataRows(lines)[k]).value)
              && Extraction(lines).value.0 == Aliases(DataRows(lines))
              && |Extraction(lines).value.0| <= |Extraction(lines).value.1|
  {
    var rows := DataRows(lines);
    CollectPerItem(rows, OmimField);
    AliasesOfRows(rows);
    AliasRowsBound(rows);
  }

  /** There are at most as many matching rows as rows. */
  lemma AliasRowsBound(rows: seq<string>)
    ensures |AliasRows(rows)| <= |rows|
  {
    var idx := AliasRows(rows);
    if |idx| > |rows| {
      IncreasingBound(idx, |rows|);
    }
  }

  lemma {:induction false} IncreasingBound(idx: seq<nat>, n: nat)
    requires forall k :: 0 <= k < |idx| ==> idx[k] < n
    requires forall k, l :: 0 <= k < l < |idx| ==> idx[k] < idx[l]
    ensures |idx| <= n
    decreases n
  {
    if idx != [] {
      var init := idx[..|idx| - 1];
      assert forall k :: 0 <= k < |init| ==> init[k] < idx[|idx| - 1] <= n - 1;
      IncreasingBound(init, n - 1);
    }
  }

  /** Once the header is behind, the data rows of the whole file continue those of a prefix. */
  lemma DataRowsPrefix(lines: seq<string>, i: nat)
    requires i <= |lines| && Records(lines[..i]) != []
    ensures DataRows(lines) == DataRows(lines[..i]) + Records(lines[i..])
  {
    var before, after := lines[..i], lines[i..];
    assert before + after == lines;
    UncommentedAppend(before, after, "!");
    assert (Records(before) + Records(after))[1..] == Records(before)[1..] + Records(after);
  }

  /** A comment, or the header, adds no data row. */
  lemma RowSkipped(lines: seq<string>, i: nat)
    requires i < |lines| && (IsComment(lines[i]) || Records(lines[..i]) == [])
    ensures DataRows(lines[..i + 1]) == DataRows(lines[..i])
  {
    UncommentedNext(lines, i, "!");
  }

  /** A data row without its OMIM number ends the extraction with that row's error. */
  lemma RowFails(lines: seq<string>, i: nat)
    requires i < |lines| && !IsComment(lines[i]) && Records(lines[..i]) != []
    requires Collect(DataRows(lines[..i]), OmimField).Ok? && OmimField(lines[i]).Err?
    ensures Extraction(lines) == Err(OmimField(lines[i]).error)
  {
    UncommentedNext(lines, i, "!");
    var rows := DataRows(lines[..i + 1]);
    assert rows == DataRows(lines[..i]) + [lines[i]];
    CollectNext(DataRows(lines[..i]), lines[i], OmimField);
    DataRowsPrefix(lines, i + 1);
    assert DataRows(lines)[..|rows|] == rows;
    CollectStopsAtError(DataRows(lines), |rows|, OmimField);
  }

  /** A data row: its alias, if any, and its OMIM number are appended. */
  lemma RowRead(lines: seq<string>, i: nat)
    requires i < |lines| && !IsComment(lines[i]) && Records(lines[..i]) != []
    requires Collect(DataRows(lines[..i]), OmimField).Ok? && OmimField(lines[i]).Ok?
    ensures Aliases(DataRows(lines[..i + 1]))
            == Aliases(DataRows(lines[..i])) + (if GeneAlias(lines[i]).Some? then [GeneAlias(lines[i]).value] else [])
    ensures Collect(DataRows(lines[..i + 1]), OmimField)
            == Ok(Collect(DataRows(lines[..i]), OmimField).value + [OmimField(lines[i]).value])
  {
    UncommentedNext(lines, i, "!");
    var rows := DataRows(lines[..i + 1]);
    assert rows == DataRows(lines[..i]) + [lines[i]];
    assert rows[..|rows| - 1] == DataRows(lines[..i]);
    CollectNext(DataRows(lines[..i]), lines[i], OmimField);
  }

  /** `__extract_fields_from_lirical_data` over the lines of a LIRICAL TSV file. */
  method ExtractFieldsFromLiricalData(fileData: seq<string>) returns (r: Result<(seq<string>, seq<string>), PyError>)
    ensures r == Extraction(fileData)
  {
    var genes: seq<string> := [];
    var omims: seq<string> := [];
    var header := true;
    for i := 0 to |fileData|
      invariant header <==> Records(fileData[..i]) == []
      invariant genes == Aliases(DataRows(fileData[..i]))
      invariant Collect(DataRows(fileData[..i]), OmimField) == Ok(omims)
    {
      var line := fileData[i];
      UncommentedNext(fileData, i, "!");
      if StartsWith(line, "!") {
        RowSkipped(fileData, i);
        continue;
      }
      if header {
        RowSkipped(fileData, i);
        header := false;
        continue;
      }
      var geneAlias := GeneAlias(line);
      if geneAlias.Some? {
        genes := genes + [geneAlias.value];
      }
      var omim := OmimField(line);
      if omim.Err? {
        RowFails(fileData, i);
        return Err(omim.error);
      }
      RowRead(fileData, i);
      omims := omims + [omim.value];
    }
    assert fileData[..|fileData|] == fileData;
    return Ok((genes, omims));
  }

  // ---------------------------------------------------------------------------
  // An example row

  /** A disease name `words; ALIAS` in the second column gives `ALIAS` as the gene alias. */
  lemma AliasOfDiseaseName(rank: string, words: string, alias: string, rest: string)
    requires '\t' !in rank && words != [] && alias != []
    requires forall m :: 0 <= m < |words| ==> IsNameChar(words[m])
    requires forall m :: 0 <= m < |alias| ==> IsWord(alias[m])
    requires rest == [] || !IsWord(rest[0])
    ensures GeneAlias(rank + "\t" + (words + "; " + (alias + rest))) == Some(alias)
  {
    var line := rank + "\t" + (words + "; " + (alias + rest));
    var i := |rank|;
    var j := i + 1 + |words|;
    assert line[i] == '\t';
    assert forall m :: i < m < j ==> line[m] == words[m - i - 1];
    assert line[j] == ';' && line[j + 1] == ' ';
    assert line[j + 2..j + 2 + |alias|] == alias;
    assert j + 2 + |alias| < |line| ==> line[j + 2 + |alias|] == rest[0];
    assert PatternAt(line, i, j, alias);
    forall i2: nat, j2: nat, a2 | PatternAt(line, i2, j2, a2)
      ensures i <= i2
    {
    }
    GeneAliasFirst(line, alias);
  }

  lemma ExampleRowAliasParts()
    ensures "1\tMARFAN SYNDROME; MFS\tOMIM:154700\t0.5\n"
            == "1" + "\t" + ("MARFAN SYNDROME" + "; " + ("MFS" + "\tOMIM:154700\t0.5\n"))
  {
  }

  lemma ExampleRowOmimParts()
    ensures "1\tMARFAN SYNDROME; MFS\tOMIM:154700\t0.5\n"
            == "1" + "\t" + ("MARFAN SYNDROME; MFS" + "\t" + ("OMIM" + ":" + ("154700" + "") + "\t0.5\n"))
  {
  }

  /** A LIRICAL row for Marfan syndrome: alias `MFS`, OMIM number `154700`. */
  lemma ExampleRow()
    ensures GeneAlias("1\tMARFAN SYNDROME; MFS\tOMIM:154700\t0.5\n") == Some("MFS")
    ensures OmimField("1\tMARFAN SYNDROME; MFS\tOMIM:154700\t0.5\n") == Ok("154700")
  {
    AliasOfDiseaseName("1", "MARFAN SYNDROME", "MFS", "\tOMIM:154700\t0.5\n");
    OmimFieldOfColumns("1", "MARFAN SYNDROME; MFS", "OMIM", "154700", "", "\t0.5\n");
    ExampleRowAliasParts();
    ExampleRowOmimParts();
  }
}
