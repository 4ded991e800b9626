/**
  The converters of the LIRICAL runner. `LiricalGeneAliasConverter` maps every
  alias of a gene (column 4 of NCBI's gene_info file, '|'-separated) to the
  gene's symbol (column 2); `LiricalOmimConverter` maps an OMIM number (column 0
  of mim2gene_medgen) to its NCBI gene ID (column 1) unless that is "-". Neither
  skips a header line nor strips its fields, and a later line overwrites an
  earlier one for the same key.
*/
module LiricalConversion {
  import opened Results
  import opened PyStr
  import opened Converters

  /** Each alias paired with the gene symbol. */
  function Paired(aliases: seq<string>, symbol: string): (r: seq<(string, string)>)
    ensures |r| == |aliases|
    ensures forall i :: 0 <= i < |aliases| ==> r[i] == (aliases[i], symbol)
  {
    seq(|aliases|, i requires 0 <= i < |aliases| => (aliases[i], symbol))
  }

  /** The (key, value) pairs of all lines, line after line. */
  function Flatten(groups: seq<seq<(string, string)>>): seq<(string, string)>
    decreases |groups|
  {
    if groups == [] then [] else Flatten(groups[..|groups| - 1]) + groups[|groups| - 1]
  }

  /** The (alias, symbol) pairs of one gene_info line: IndexError when it has fewer than five columns. */
  function AliasPairs(line: string): Result<seq<(string, string)>, PyError> {
    var columns := Split(line, "\t");
    match At(columns, 2)
    case Err(e) => Err(e)
    case Ok(symbol) =>
      match At(columns, 4)
      case Err(e) => Err(e)
      case Ok(aliases) => Ok(Paired(Split(aliases, "|"), symbol))
  }

  /** The table `LiricalGeneAliasConverter.__read_file` builds from the lines of gene_info. */
  function AliasTable(lines: seq<string>): Result<map<string, string>, PyError> {
    match Collect(lines, AliasPairs)
    case Ok(groups) => Ok(Record(map[], Flatten(groups)))
    case Err(e) => Err(e)
  }

  /** The (OMIM, gene ID) pair of one mim2gene_medgen line, none when the gene ID is "-". */
  function OmimPairs(line: string): Result<seq<(string, string)>, PyError> {
    var columns := Split(line, "\t");
    match At(columns, 1)
    case Err(e) => Err(e)
    case Ok(geneId) => if geneId != "-" then Ok([(columns[0], geneId)]) else Ok([])
  }

  /** The table `LiricalOmimConverter.__read_file` builds from the lines of mim2gene_medgen. */
  function OmimTable(lines: seq<string>): Result<map<string, string>, PyError> {
    match Collect(lines, OmimPairs)
    case Ok(groups) => Ok(Record(map[], Flatten(groups)))
    case Err(e) => Err(e)
  }

  lemma FlattenAppend(groups: seq<seq<(string, string)>>, group: seq<(string, string)>)
    ensures Flatten(groups + [group]) == Flatten(groups) + group
  {
    assert (groups + [group])[..|groups|] == groups;
  }

  /** A pair occurs in the flattened pairs exactly when it occurs in one of the groups. */
  lemma {:induction false} FlattenMembers(groups: seq<seq<(string, string)>>, p: (string, string))
    ensures p in Flatten(groups) <==> exists j :: 0 <= j < |groups| && p in groups[j]
    decreases |groups|
  {
    if groups != [] {
      var init := groups[..|groups| - 1];
      FlattenMembers(init, p);
      assert forall j :: 0 <= j < |init| ==> init[j] == groups[j];
      if p in groups[|groups| - 1] {
        assert p in Flatten(groups);
      }
    }
  }

  /** The keys of a table recorded from groups are the keys of the pairs in the groups. */
  lemma GroupedKeys(groups: seq<seq<(string, string)>>, k: string)
    ensures k in Record(map[], Flatten(groups))
            <==> exists j, i :: 0 <= j < |groups| && 0 <= i < |groups[j]| && groups[j][i].0 == k
  {
    var flat := Flatten(groups);
    RecordKeys(map[], flat, k);
    if k in Record(map[], flat) {
      var n :| 0 <= n < |flat| && flat[n].0 == k;
      FlattenMembers(groups, flat[n]);
      var j :| 0 <= j < |groups| && flat[n] in groups[j];
      var i :| 0 <= i < |groups[j]| && groups[j][i] == flat[n];
    }
    if exists j, i :: 0 <= j < |groups| && 0 <= i < |groups[j]| && groups[j][i].0 == k {
      var j, i :| 0 <= j < |groups| && 0 <= i < |groups[j]| && groups[j][i].0 == k;
      FlattenMembers(groups, groups[j][i]);
      var n :| 0 <= n < |flat| && flat[n] == groups[j][i];
    }
  }

  /**
    The value a table recorded from groups holds for a key is the one a group
    gives it, when that group gives the key one value only and no later group
    mentions the key: the last line with the key wins.
  */
  lemma {:induction false} LastGroupWins(groups: seq<seq<(string, string)>>, j: nat, p: (string, string))
    requires j < |groups| && p in groups[j]
    requires forall q :: q in groups[j] && q.0 == p.0 ==> q.1 == p.1
    requires forall l, q :: j < l < |groups| && q in groups[l] ==> q.0 != p.0
    ensures p.0 in Record(map[], Flatten(groups)) && Record(map[], Flatten(groups))[p.0] == p.1
    decreases |groups|
  {
    var init := groups[..|groups| - 1];
    var last := groups[|groups| - 1];
    RecordConcat(map[], Flatten(init), last);
    if j == |groups| - 1 {
      var i :| 0 <= i < |last| && last[i] == p;
      RecordValueFromPair(Record(map[], Flatten(init)), last, p.0);
    } else {
      LastGroupWins(init, j, p);
      assert forall i :: 0 <= i < |last| ==> last[i] in last;
      RecordOutside(Record(map[], Flatten(init)), last, p.0);
    }
  }

  /** Every value of a table recorded from groups is the value of one of their pairs. */
  lemma GroupedValues(groups: seq<seq<(string, string)>>, k: string)
    requires k in Record(map[], Flatten(groups))
    ensures exists j :: 0 <= j < |groups| && (k, Record(map[], Flatten(groups))[k]) in groups[j]
  {
    var flat := Flatten(groups);
    RecordKeys(map[], flat, k);
    RecordValueFromPair(map[], flat, k);
    var n :| 0 <= n < |flat| && flat[n] == (k, Record(map[], flat)[k]);
    FlattenMembers(groups, flat[n]);
  }

  /** The aliases a gene_info line lists (none when it is too short). */
  function AliasesOf(line: string): seq<string> {
    match At(Split(line, "\t"), 4)
    case Ok(aliases) => Split(aliases, "|")
    case Err(_) => []
  }

  /** The gene symbol of a gene_info line (empty when it is too short). */
  function SymbolOf(line: string): string {
    match At(Split(line, "\t"), 2)
    case Ok(symbol) => symbol
    case Err(_) => ""
  }

  /** A line's pairs, once it is known to parse, are its aliases paired with its symbol. */
  lemma AliasPairsOf(line: string)
    requires AliasPairs(line).Ok?
    ensures AliasPairs(line).value == Paired(AliasesOf(line), SymbolOf(line))
  {
  }

  /** Each group is the names of its position paired with the symbol of its position. */
  predicate PairedBy(groups: seq<seq<(string, string)>>, names: seq<seq<string>>, symbols: seq<string>) {
    && |groups| == |names| == |symbols|
    && forall l :: 0 <= l < |groups| ==> groups[l] == Paired(names[l], symbols[l])
  }

  /** Read without error, the groups of pairs are the lines' aliases, each paired with its line's symbol. */
  lemma AliasGroups(lines: seq<string>)
    requires AliasTable(lines).Ok?
    ensures Collect(lines, AliasPairs).Ok?
    ensures AliasTable(lines).value == Record(map[], Flatten(Collect(lines, AliasPairs).value))
    ensures PairedBy(Collect(lines, AliasPairs).value, AliasLists(lines), Symbols(lines))
  {
    CollectPerItem(lines, AliasPairs);
    forall j | 0 <= j < |lines|
      ensures Collect(lines, AliasPairs).value[j] == Paired(AliasLists(lines)[j], Symbols(lines)[j])
    {
      AliasPairsOf(lines[j]);
    }
  }

  /**
    Groups made of named aliases each paired with a symbol: an alias of group `j`
    is a key of the recorded table, naming `j`'s symbol when no later group lists it.
  */
  lemma PairedGroupEntry(groups: seq<seq<(string, string)>>, names: seq<seq<string>>, symbols: seq<string>,
                         j: nat, alias: string)
    requires PairedBy(groups, names, symbols) && j < |groups|
    requires alias in names[j]
    ensures alias in Record(map[], Flatten(groups))
    ensures (forall l :: j < l < |groups| ==> alias !in names[l])
            ==> Record(map[], Flatten(groups))[alias] == symbols[j]
  {
    var i :| 0 <= i < |names[j]| && names[j][i] == alias;
    assert groups[j][i] == (alias, symbols[j]);
    GroupedKeys(groups, alias);
    if forall l :: j < l < |groups| ==> alias !in names[l] {
      forall l, q: (string, string) | j < l < |groups| && q in groups[l]
        ensures q.0 != alias
      {
        var m :| 0 <= m < |groups[l]| && groups[l][m] == q;
        assert q.0 == names[l][m];
      }
      LastGroupWins(groups, j, (alias, symbols[j]));
    }
  }

  /** Groups made of named aliases each paired with a symbol: every key comes from a group listing it, with that group's symbol. */
  lemma PairedGroupKey(groups: seq<seq<(string, string)>>, names: seq<seq<string>>, symbols: seq<string>, alias: string)
    requires PairedBy(groups, names, symbols)
    requires alias in Record(map[], Flatten(groups))
    ensures exists j :: 0 <= j < |groups| && alias in names[j] && Record(map[], Flatten(groups))[alias] == symbols[j]
  {
    GroupedValues(groups, alias);
    var v := Record(map[], Flatten(groups))[alias];
    var j :| 0 <= j < |groups| && (alias, v) in groups[j];
    var i :| 0 <= i < |groups[j]| && groups[j][i] == (alias, v);
    assert names[j][i] == alias;
  }

  /** The aliases of each line, line by line. */
  function AliasLists(lines: seq<string>): (r: seq<seq<string>>)
    ensures |r| == |lines| && forall j :: 0 <= j < |lines| ==> r[j] == AliasesOf(lines[j])
  {
    seq(|lines|, j requires 0 <= j < |lines| => AliasesOf(lines[j]))
  }

  /** The gene symbol of each line, line by line. */
  function Symbols(lines: seq<string>): (r: seq<string>)
    ensures |r| == |lines| && forall j :: 0 <= j < |lines| ==> r[j] == SymbolOf(lines[j])
  {
    seq(|lines|, j requires 0 <= j < |lines| => SymbolOf(lines[j]))
  }

  /** Some line after line `j` lists the alias. */
  predicate ListedAfter(lines: seq<string>, j: nat, alias: string) {
    exists l :: j < l < |lines| && alias in AliasesOf(lines[l])
  }

  /**
    Read without error, every alias of every gene_info line is a key of the table,
    and it names that line's gene symbol unless a later line lists the same alias.
  */
  lemma AliasTableEntries(lines: seq<string>, j: nat, alias: string)
    requires AliasTable(lines).Ok? && j < |lines| && alias in AliasesOf(lines[j])
    ensures alias in AliasTable(lines).value
    ensures !ListedAfter(lines, j, alias) ==> AliasTable(lines).value[alias] == SymbolOf(lines[j])
  {
    AliasGroups(lines);
    PairedGroupEntry(Collect(lines, AliasPairs).value, AliasLists(lines), Symbols(lines), j, alias);
  }

  /** Every key of the alias table is an alias listed on some line, and its value that line's symbol. */
  lemma AliasTableKeys(lines: seq<string>, alias: string)
    requires AliasTable(lines).Ok? && alias in AliasTable(lines).value
    ensures exists j :: 0 <= j < |lines| && alias in AliasesOf(lines[j])
                        && AliasTable(lines).value[alias] == SymbolOf(lines[j])
  {
    AliasGroups(lines);
    PairedGroupKey(Collect(lines, AliasPairs).value, AliasLists(lines), Symbols(lines), alias);
  }

  /** The gene_info reader fails exactly when some line has fewer than five tab-separated columns. */
  lemma AliasTableFails(lines: seq<string>)
    ensures AliasTable(lines).Err? <==> exists j :: 0 <= j < |lines| && |Split(lines[j], "\t")| < 5
    ensures AliasTable(lines).Err? ==> AliasTable(lines).error == IndexError
  {
    CollectPerItem(lines, AliasPairs);
    if AliasTable(lines).Err? {
      CollectFirstError(lines, AliasPairs);
    }
  }

  /** The OMIM number of a mim2gene_medgen line: its first column. */
  function OmimOf(line: string): string {
    Split(line, "\t")[0]
  }

  /** The gene ID column of a mim2gene_medgen line, when it has one. */
  function GeneIdOf(line: string): Option<string> {
    match At(Split(line, "\t"), 1)
    case Ok(geneId) => Some(geneId)
    case Err(_) => None
  }

  /** No OMIM number is ever mapped to "-": those lines are left out. */
  lemma OmimValuesNotDash(lines: seq<string>, omim: string)
    requires OmimTable(lines).Ok? && omim in OmimTable(lines).value
    ensures OmimTable(lines).value[omim] != "-"
  {
    CollectPerItem(lines, OmimPairs);
    var groups := Collect(lines, OmimPairs).value;
    GroupedValues(groups, omim);
    var j :| 0 <= j < |groups| && (omim, OmimTable(lines).value[omim]) in groups[j];
  }

  /** Some line after line `j` maps the OMIM number to a gene ID. */
  predicate MappedAfter(lines: seq<string>, j: nat, omim: string) {
    exists l :: j < l < |lines| && GeneIdOf(lines[l]) != Some("-") && OmimOf(lines[l]) == omim
  }

  /**
    Read without error, the OMIM number of a line whose gene ID is not "-" maps to
    that gene ID unless a later such line has the same OMIM number.
  */
  lemma OmimTableEntries(lines: seq<string>, j: nat, geneId: string)
    requires OmimTable(lines).Ok? && j < |lines|
    requires GeneIdOf(lines[j]) == Some(geneId) && geneId != "-"
    ensures OmimOf(lines[j]) in OmimTable(lines).value
    ensures !MappedAfter(lines, j, OmimOf(lines[j])) ==> OmimTable(lines).value[OmimOf(lines[j])] == geneId
  {
    CollectPerItem(lines, OmimPairs);
    var groups := Collect(lines, OmimPairs).value;
    assert groups[j] == [(OmimOf(lines[j]), geneId)];
    assert groups[j][0].0 == OmimOf(lines[j]);
    GroupedKeys(groups, OmimOf(lines[j]));
    if forall l :: j < l < |lines| && GeneIdOf(lines[l]) != Some("-") ==> OmimOf(lines[l]) != OmimOf(lines[j]) {
      forall l, q: (string, string) | j < l < |groups| && q in groups[l]
        ensures q.0 != OmimOf(lines[j])
      {
        assert groups[l] == [(OmimOf(lines[l]), GeneIdOf(lines[l]).value)];
      }
      LastGroupWins(groups, j, (OmimOf(lines[j]), geneId));
    }
  }

  /** Every key of the OMIM table is the OMIM number of a line whose gene ID it holds. */
  lemma OmimTableKeys(lines: seq<string>, omim: string)
    requires OmimTable(lines).Ok? && omim in OmimTable(lines).value
    ensures exists j :: 0 <= j < |lines| && OmimOf(lines[j]) == omim
                        && GeneIdOf(lines[j]) == Some(OmimTable(lines).value[omim])
  {
    CollectPerItem(lines, OmimPairs);
    var groups := Collect(lines, OmimPairs).value;
    GroupedValues(groups, omim);
    var j :| 0 <= j < |groups| && (omim, OmimTable(lines).value[omim]) in groups[j];
    assert groups[j] == [(OmimOf(lines[j]), GeneIdOf(lines[j]).value)];
  }

  /** The mim2gene_medgen reader fails exactly when some line has no tab, with an IndexError. */
  lemma OmimTableFails(lines: seq<string>)
    ensures OmimTable(lines).Err? <==> exists j :: 0 <= j < |lines| && '\t' !in lines[j]
    ensures OmimTable(lines).Err? ==> OmimTable(lines).error == IndexError
  {
    CollectPerItem(lines, OmimPairs);
    forall j | 0 <= j < |lines|
      ensures OmimPairs(lines[j]).Err? <==> '\t' !in lines[j]
    {
      SplitSinglePiece(lines[j], '\t');
    }
    if OmimTable(lines).Err? {
      CollectFirstError(lines, OmimPairs);
    }
  }

  /** Recording one more alias of a line. */
  lemma RecordPairedNext(before: seq<(string, string)>, aliases: seq<string>, k: nat, symbol: string)
    requires k < |aliases|
    ensures Record(map[], before + Paired(aliases[..k + 1], symbol))
            == Record(map[], before + Paired(aliases[..k], symbol))[aliases[k] := symbol]
  {
    assert Paired(aliases[..k + 1], symbol) == Paired(aliases[..k], symbol) + [(aliases[k], symbol)];
    assert before + Paired(aliases[..k + 1], symbol) == before + Paired(aliases[..k], symbol) + [(aliases[k], symbol)];
    RecordNext(map[], before + Paired(aliases[..k], symbol), (aliases[k], symbol));
  }

  /** One more gene_info line read: its pairs are appended, or its error is the reader's. */
  lemma AliasLineStep(lines: seq<string>, i: nat, groups: seq<seq<(string, string)>>)
    requires i < |lines| && Collect(lines[..i], AliasPairs) == Ok(groups)
    ensures AliasPairs(lines[i]).Err? ==> AliasTable(lines) == Err(AliasPairs(lines[i]).error)
    ensures AliasPairs(lines[i]).Ok? ==> Collect(lines[..i + 1], AliasPairs) == Ok(groups + [AliasPairs(lines[i]).value])
  {
    assert lines[..i + 1] == lines[..i] + [lines[i]];
    CollectNext(lines[..i], lines[i], AliasPairs);
    if AliasPairs(lines[i]).Err? {
      CollectStopsAtError(lines, i + 1, AliasPairs);
    }
  }

  /** `LiricalGeneAliasConverter.__read_file`: a loop over the lines and, within a line, over its aliases. */
  method ReadGeneInfo(lines: seq<string>) returns (r: Result<map<string, string>, PyError>)
    ensures r == AliasTable(lines)
  {
    var geneInfoDict: map<string, string> := map[];
    ghost var groups: seq<seq<(string, string)>> := [];
    for i := 0 to |lines|
      invariant Collect(lines[..i], AliasPairs) == Ok(groups)
      invariant geneInfoDict == Record(map[], Flatten(groups))
    {
      AliasLineStep(lines, i, groups);
      var line := Split(lines[i], "\t");
      var geneSymbol := At(line, 2);
      if geneSymbol.Err? {
        return Err(geneSymbol.error);
      }
      var aliases := At(line, 4);
      if aliases.Err? {
        return Err(aliases.error);
      }
      var aliasList := Split(aliases.value, "|");
      assert Flatten(groups) + Paired(aliasList[..0], geneSymbol.value) == Flatten(groups);
      for k := 0 to |aliasList|
        invariant geneInfoDict == Record(map[], Flatten(groups) + Paired(aliasList[..k], geneSymbol.value))
      {
        RecordPairedNext(Flatten(groups), aliasList, k, geneSymbol.value);
        geneInfoDict := geneInfoDict[aliasList[k] := geneSymbol.value];
      }
      assert aliasList[..|aliasList|] == aliasList;
      FlattenAppend(groups, Paired(aliasList, geneSymbol.value));
      groups := groups + [Paired(aliasList, geneSymbol.value)];
    }
    assert lines[..|lines|] == lines;
    r := Ok(geneInfoDict);
  }

  /** `LiricalOmimConverter.__read_file`: lines whose gene ID is "-" are passed over. */
  method ReadMim2Gene(lines: seq<string>) returns (r: Result<map<string, string>, PyError>)
    ensures r == OmimTable(lines)
  {
    var omimDict: map<string, string> := map[];
    ghost var groups: seq<seq<(string, string)>> := [];
    for i := 0 to |lines|
      invariant Collect(lines[..i], OmimPairs) == Ok(groups)
      invariant omimDict == Record(map[], Flatten(groups))
    {
      assert lines[..i + 1] == lines[..i] + [lines[i]];
      CollectNext(lines[..i], lines[i], OmimPairs);
      var line := Split(lines[i], "\t");
      var geneId := At(line, 1);
      if geneId.Err? {
        CollectStopsAtError(lines, i + 1, OmimPairs);
        return Err(geneId.error);
      }
      ghost var group: seq<(string, string)> := [];
      if geneId.value != "-" {
        omimDict := omimDict[line[0] := geneId.value];
        group := [(line[0], geneId.value)];
        RecordNext(map[], Flatten(groups), (line[0], geneId.value));
      } else {
        assert Flatten(groups) + group == Flatten(groups);
      }
      FlattenAppend(groups, group);
      groups := groups + [group];
    }
    assert lines[..|lines|] == lines;
    r := Ok(omimDict);
  }

  /** A gene alias converter: its table maps gene aliases to gene symbols. */
  class LiricalGeneAliasConverter {
    var geneInfoDict: map<string, string>

    constructor (geneInfoDict: map<string, string>)
      ensures this.geneInfoDict == geneInfoDict
    {
      this.geneInfoDict := geneInfoDict;
    }

    /** `alias_to_gene_symbol` */
    method AliasToGeneSymbol(geneAliases: Keys, includeNa: bool) returns (r: Converted)
      ensures r == Conversion(geneAliases, geneInfoDict, includeNa)
    {
      r := KeyToValue(geneAliases, geneInfoDict, includeNa);
    }
  }

  /** `LiricalGeneAliasConverter(gene_info_file)`: reads the (decompressed) lines of gene_info. */
  method NewLiricalGeneAliasConverter(lines: seq<string>) returns (r: Result<LiricalGeneAliasConverter, PyError>)
    ensures AliasTable(lines).Err? ==> r == Err(AliasTable(lines).error)
    ensures AliasTable(lines).Ok? ==> r.Ok? && fresh(r.value) && r.value.geneInfoDict == AliasTable(lines).value
  {
    var table := ReadGeneInfo(lines);
    if table.Err? {
      return Err(table.error);
    }
    var converter := new LiricalGeneAliasConverter(table.value);
    r := Ok(converter);
  }

  /** An OMIM converter: its table maps OMIM numbers to NCBI gene IDs. */
  class LiricalOmimConverter {
    var omimDict: map<string, string>

    constructor (omimDict: map<string, string>)
      ensures this.omimDict == omimDict
    {
      this.omimDict := omimDict;
    }

    /** `omim_to_gene_id` */
    method OmimToGeneId(omims: Keys, includeNa: bool) returns (r: Converted)
      ensures r == Conversion(omims, omimDict, includeNa)
    {
      r := KeyToValue(omims, omimDict, includeNa);
    }
  }

  /** `LiricalOmimConverter(mim2gene_medgen_file)`: reads the lines of mim2gene_medgen. */
  method NewLiricalOmimConverter(lines: seq<string>) returns (r: Result<LiricalOmimConverter, PyError>)
    ensures OmimTable(lines).Err? ==> r == Err(OmimTable(lines).error)
    ensures OmimTable(lines).Ok? ==> r.Ok? && fresh(r.value) && r.value.omimDict == OmimTable(lines).value
  {
    var table := ReadMim2Gene(lines);
    if table.Err? {
      return Err(table.error);
    }
    var converter := new LiricalOmimConverter(table.value);
    r := Ok(converter);
  }

  /** The columns of a mim2gene_medgen line: OMIM number, gene ID, then the rest. */
  lemma OmimLineColumns(omim: string, geneId: string, rest: string)
    requires '\t' !in omim && '\t' !in geneId
    ensures var line := omim + "\t" + geneId + "\t" + rest;
            '\t' in line && OmimOf(line) == omim && GeneIdOf(line) == Some(geneId)
  {
    var line := omim + "\t" + geneId + "\t" + rest;
    assert line == omim + ['\t'] + (geneId + "\t" + rest);
    assert geneId + "\t" + rest == geneId + ['\t'] + rest;
    SplitAtFirst(omim, geneId + "\t" + rest, '\t');
    SplitAtFirst(geneId, rest, '\t');
    assert line[|omim|] == '\t';
  }

  /**
    Four lines whose second and fourth map distinct OMIM numbers to gene IDs and
    whose third has gene ID "-": the second and fourth OMIM numbers convert, in
    the order asked, and the third is unknown.
  */
  lemma OmimFourLineTable(lines: seq<string>)
    requires |lines| == 4 && forall j :: 0 <= j < 4 ==> GeneIdOf(lines[j]).Some?
    requires GeneIdOf(lines[1]) != Some("-") && GeneIdOf(lines[2]) == Some("-") && GeneIdOf(lines[3]) != Some("-")
    requires OmimOf(lines[1]) != OmimOf(lines[3])
    requires OmimOf(lines[2]) != OmimOf(lines[0]) && OmimOf(lines[2]) != OmimOf(lines[1]) && OmimOf(lines[2]) != OmimOf(lines[3])
    ensures OmimTable(lines).Ok?
    ensures Conversion(Batch([OmimOf(lines[3]), OmimOf(lines[1])]), OmimTable(lines).value, false)
            == Values([GeneIdOf(lines[3]).value, GeneIdOf(lines[1]).value], {})
    ensures OmimOf(lines[2]) !in OmimTable(lines).value
  {
    assert OmimTable(lines).Ok? by {
      CollectPerItem(lines, OmimPairs);
    }
    var table := OmimTable(lines).value;
    OmimTableEntries(lines, 1, GeneIdOf(lines[1]).value);
    assert !MappedAfter(lines, 1, OmimOf(lines[1]));
    OmimTableEntries(lines, 3, GeneIdOf(lines[3]).value);
    assert !MappedAfter(lines, 3, OmimOf(lines[3]));
    TwoKeysFound(OmimOf(lines[3]), OmimOf(lines[1]), table);
    if OmimOf(lines[2]) in table {
      OmimTableKeys(lines, OmimOf(lines[2]));
      OmimValuesNotDash(lines, OmimOf(lines[2]));
    }
  }

  /**
    A header line and three data lines, the second with gene ID "-": the two
    other OMIM numbers are converted, in the order asked, and the second is unknown.
  */
  lemma OmimFourLines(h: string, hg: string, hr: string, o1: string, g1: string, r1: string,
                      o2: string, r2: string, o3: string, g3: string, r3: string)
    requires '\t' !in h && '\t' !in hg && '\t' !in o1 && '\t' !in g1 && '\t' !in o2 && '\t' !in o3 && '\t' !in g3
    requires g1 != "-" && g3 != "-"
    requires o1 != o3 && o2 != h && o2 != o1 && o2 != o3
    ensures var lines := [h + "\t" + hg + "\t" + hr, o1 + "\t" + g1 + "\t" + r1,
                          o2 + "\t" + "-" + "\t" + r2, o3 + "\t" + g3 + "\t" + r3];
            && OmimTable(lines).Ok?
            && Conversion(Batch([o3, o1]), OmimTable(lines).value, false) == Values([g3, g1], {})
            && o2 !in OmimTable(lines).value
  {
    OmimLineColumns(h, hg, hr);
    OmimLineColumns(o1, g1, r1);
    OmimLineColumns(o2, "-", r2);
    OmimLineColumns(o3, g3, r3);
    OmimFourLineTable([h + "\t" + hg + "\t" + hr, o1 + "\t" + g1 + "\t" + r1,
                       o2 + "\t" + "-" + "\t" + r2, o3 + "\t" + g3 + "\t" + r3]);
  }

  /** The lines of the OMIM converter's test data, cut at their first two tabs. */
  lemma Mim2GeneTestLine0()
    ensures "#MIM number\tGeneID\ttype\tSource\tMedGenCUI\tComment\n"
            == "#MIM number" + "\t" + "GeneID" + "\t" + "type\tSource\tMedGenCUI\tComment\n"
  {
  }

  lemma Mim2GeneTestLine1()
    ensures "100100\t1131\tphenotype\t GeneMap\tC0033770\t-\n"
            == "100100" + "\t" + "1131" + "\t" + "phenotype\t GeneMap\tC0033770\t-\n"
  {
  }

  lemma Mim2GeneTestLine2()
    ensures "100200\t-\tphenotype\t-\tC4551519\t-\n"
            == "100200" + "\t" + "-" + "\t" + "phenotype\t-\tC4551519\t-\n"
  {
  }

  lemma Mim2GeneTestLine3()
    ensures "100300\t57514\tphenotype\t GeneMap\tC4551482\t-\n"
            == "100300" + "\t" + "57514" + "\t" + "phenotype\t GeneMap\tC4551482\t-\n"
  {
  }

  lemma Mim2GeneTestLines()
    ensures ["#MIM number\tGeneID\ttype\tSource\tMedGenCUI\tComment\n",
             "100100\t1131\tphenotype\t GeneMap\tC0033770\t-\n",
             "100200\t-\tphenotype\t-\tC4551519\t-\n",
             "100300\t57514\tphenotype\t GeneMap\tC4551482\t-\n"]
            == ["#MIM number" + "\t" + "GeneID" + "\t" + "type\tSource\tMedGenCUI\tComment\n",
                "100100" + "\t" + "1131" + "\t" + "phenotype\t GeneMap\tC0033770\t-\n",
                "100200" + "\t" + "-" + "\t" + "phenotype\t-\tC4551519\t-\n",
                "100300" + "\t" + "57514" + "\t" + "phenotype\t GeneMap\tC4551482\t-\n"]
  {
    Mim2GeneTestLine0();
    Mim2GeneTestLine1();
    Mim2GeneTestLine2();
    Mim2GeneTestLine3();
  }

  /**
    The converter's test data: of three OMIM numbers, 100200 has no gene ID
    ("-") and is unknown; 100300 and 100100 convert to 57514 and 1131.
  */
  lemma OmimExample()
    ensures var lines := ["#MIM number\tGeneID\ttype\tSource\tMedGenCUI\tComment\n",
                          "100100\t1131\tphenotype\t GeneMap\tC0033770\t-\n",
                          "100200\t-\tphenotype\t-\tC4551519\t-\n",
                          "100300\t57514\tphenotype\t GeneMap\tC4551482\t-\n"];
            && OmimTable(lines).Ok?
            && Conversion(Batch(["100300", "100100"]), OmimTable(lines).value, false) == Values(["57514", "1131"], {})
            && "100200" !in OmimTable(lines).value
  {
    OmimFourLines("#MIM number", "GeneID", "type\tSource\tMedGenCUI\tComment\n",
                  "100100", "1131", "phenotype\t GeneMap\tC0033770\t-\n",
                  "100200", "phenotype\t-\tC4551519\t-\n",
                  "100300", "57514", "phenotype\t GeneMap\tC4551482\t-\n");
    Mim2GeneTestLines();
  }



  /** The columns of a gene_info line: its first five tab-separated fields, then the rest. */
  lemma AliasLineColumns(c0: string, c1: string, c2: string, c3: string, c4: string, rest: string)
    requires '\t' !in c0 && '\t' !in c1 && '\t' !in c2 && '\t' !in c3 && '\t' !in c4
    ensures var line := c0 + "\t" + (c1 + "\t" + (c2 + "\t" + (c3 + "\t" + (c4 + "\t" + rest))));
            AliasPairs(line).Ok? && AliasesOf(line) == Split(c4, "|") && SymbolOf(line) == c2
  {
    TabCut(c4, rest);
    TabCut(c3, c4 + "\t" + rest);
    TabCut(c2, c3 + "\t" + (c4 + "\t" + rest));
    TabCut(c1, c2 + "\t" + (c3 + "\t" + (c4 + "\t" + rest)));
    TabCut(c0, c1 + "\t" + (c2 + "\t" + (c3 + "\t" + (c4 + "\t" + rest))));
  }

  /** Four '|'-separated aliases. */
  lemma FourAliases(a: string, b: string, c: string, d: string)
    requires '|' !in a && '|' !in b && '|' !in c && '|' !in d
    ensures Split(a + "|" + (b + "|" + (c + "|" + d)), "|") == [a, b, c, d]
  {
    SplitWithoutSeparator(d, '|');
    SplitAtFirst(c, d, '|');
    SplitAtFirst(b, c + "|" + d, '|');
    SplitAtFirst(a, b + "|" + (c + "|" + d), '|');
  }

  /**
    Three gene_info lines (the first a header, read like any other line): an alias
    of the second line that the third does not list, and an alias of the third,
    convert to the symbols of their lines.
  */
  lemma AliasThreeLines(lines: seq<string>, x: string, y: string)
    requires |lines| == 3 && AliasPairs(lines[0]).Ok? && AliasPairs(lines[1]).Ok? && AliasPairs(lines[2]).Ok?
    requires x in AliasesOf(lines[1]) && x !in AliasesOf(lines[2]) && y in AliasesOf(lines[2])
    ensures AliasTable(lines).Ok?
    ensures Conversion(Batch([x, y]), AliasTable(lines).value, false) == Values([SymbolOf(lines[1]), SymbolOf(lines[2])], {})
  {
    assert AliasTable(lines).Ok? by {
      CollectPerItem(lines, AliasPairs);
      assert forall j :: 0 <= j < 3 ==> AliasPairs(lines[j]).Ok?;
    }
    var table := AliasTable(lines).value;
    AliasTableEntries(lines, 1, x);
    assert table[x] == SymbolOf(lines[1]);
    AliasTableEntries(lines, 2, y);
    assert table[y] == SymbolOf(lines[2]);
    TwoKeysFound(x, y, table);
  }

  /** A gene_info line listing one alias. */
  lemma OneAliasLine(c0: string, c1: string, c2: string, c3: string, alias: string, rest: string)
    requires '\t' !in c0 && '\t' !in c1 && '\t' !in c2 && '\t' !in c3 && '\t' !in alias && '|' !in alias
    ensures var line := c0 + "\t" + (c1 + "\t" + (c2 + "\t" + (c3 + "\t" + (alias + "\t" + rest))));
            AliasPairs(line).Ok? && AliasesOf(line) == [alias] && SymbolOf(line) == c2
  {
    AliasLineColumns(c0, c1, c2, c3, alias, rest);
    SplitWithoutSeparator(alias, '|');
  }

  /** A gene_info line listing four aliases. */
  lemma FourAliasLine(c0: string, c1: string, c2: string, c3: string, a: string, b: string, c: string, d: string, rest: string)
    requires '\t' !in c0 && '\t' !in c1 && '\t' !in c2 && '\t' !in c3
    requires '\t' !in a && '\t' !in b && '\t' !in c && '\t' !in d
    requires '|' !in a && '|' !in b && '|' !in c && '|' !in d
    ensures var line := c0 + "\t" + (c1 + "\t" + (c2 + "\t" + (c3 + "\t" + ((a + "|" + (b + "|" + (c + "|" + d))) + "\t" + rest))));
            AliasPairs(line).Ok? && AliasesOf(line) == [a, b, c, d] && SymbolOf(line) == c2
  {
    var aliases := a + "|" + (b + "|" + (c + "|" + d));
    assert '\t' !in aliases by {
      assert forall x :: x in aliases ==> x in a || x in b || x in c || x in d || x == '|';
    }
    AliasLineColumns(c0, c1, c2, c3, aliases, rest);
    FourAliases(a, b, c, d);
  }

  /** The first data line of the gene alias converter's test data, up to its fifth column. */
  lemma A1bgLine(rest1: string)
    ensures var line := "9606" + "\t" + ("1" + "\t" + ("A1BG" + "\t" + ("-" + "\t" + (("A1B" + "|" + ("ABG" + "|" + ("GAB" + "|" + "HYST2477"))) + "\t" + rest1))));
            AliasPairs(line).Ok? && "GAB" in AliasesOf(line) && SymbolOf(line) == "A1BG"
  {
    FourAliasLine("9606", "1", "A1BG", "-", "A1B", "ABG", "GAB", "HYST2477", rest1);
  }

  /** The second data line of the gene alias converter's test data, up to its fifth column. */
  lemma A2mLine(rest2: string)
    ensures var line := "9606" + "\t" + ("2" + "\t" + ("A2M" + "\t" + ("-" + "\t" + (("A2MD" + "|" + ("CPAMD5" + "|" + ("FWP007" + "|" + "S863-7"))) + "\t" + rest2))));
            AliasPairs(line).Ok? && "GAB" !in AliasesOf(line) && "CPAMD5" in AliasesOf(line) && SymbolOf(line) == "A2M"
  {
    FourAliasLine("9606", "2", "A2M", "-", "A2MD", "CPAMD5", "FWP007", "S863-7", rest2);
  }

  /** The header line of gene_info, up to its fifth column: its one alias "Synonyms" names "Symbol". */
  lemma HeaderLineColumns(rest0: string)
    ensures var line := "#tax_id" + "\t" + ("GeneID" + "\t" + ("Symbol" + "\t" + ("LocusTag" + "\t" + ("Synonyms" + "\t" + rest0))));
            AliasPairs(line).Ok? && AliasesOf(line) == ["Synonyms"] && SymbolOf(line) == "Symbol"
  {
    OneAliasLine("#tax_id", "GeneID", "Symbol", "LocusTag", "Synonyms", rest0);
  }

  /**
    The gene alias converter's test data, its first five columns as given and the
    remaining columns whatever they are: GAB is an alias of A1BG and CPAMD5 one of A2M.
  */
  lemma AliasExample(rest0: string, rest1: string, rest2: string)
    ensures var lines := ["#tax_id" + "\t" + ("GeneID" + "\t" + ("Symbol" + "\t" + ("LocusTag" + "\t" + ("Synonyms" + "\t" + rest0)))),
                          "9606" + "\t" + ("1" + "\t" + ("A1BG" + "\t" + ("-" + "\t" + (("A1B" + "|" + ("ABG" + "|" + ("GAB" + "|" + "HYST2477"))) + "\t" + rest1)))),
                          "9606" + "\t" + ("2" + "\t" + ("A2M" + "\t" + ("-" + "\t" + (("A2MD" + "|" + ("CPAMD5" + "|" + ("FWP007" + "|" + "S863-7"))) + "\t" + rest2))))];
            && AliasTable(lines).Ok?
            && Conversion(Batch(["GAB", "CPAMD5"]), AliasTable(lines).value, false) == Values(["A1BG", "A2M"], {})
  {
    HeaderLineColumns(rest0);
    A1bgLine(rest1);
    A2mLine(rest2);
    AliasThreeLines(["#tax_id" + "\t" + ("GeneID" + "\t" + ("Symbol" + "\t" + ("LocusTag" + "\t" + ("Synonyms" + "\t" + rest0)))),
                     "9606" + "\t" + ("1" + "\t" + ("A1BG" + "\t" + ("-" + "\t" + (("A1B" + "|" + ("ABG" + "|" + ("GAB" + "|" + "HYST2477"))) + "\t" + rest1)))),
                     "9606" + "\t" + ("2" + "\t" + ("A2M" + "\t" + ("-" + "\t" + (("A2MD" + "|" + ("CPAMD5" + "|" + ("FWP007" + "|" + "S863-7"))) + "\t" + rest2))))],
                    "GAB", "CPAMD5");
  }

  /** The header line is read like the others: its "Synonyms" column becomes an alias of "Symbol". */
  lemma HeaderAliasRecorded(rest0: string, lines: seq<string>)
    requires lines != [] && lines[0] == "#tax_id" + "\t" + ("GeneID" + "\t" + ("Symbol" + "\t" + ("LocusTag" + "\t" + ("Synonyms" + "\t" + rest0))))
    requires AliasTable(lines).Ok?
    requires forall l :: 0 < l < |lines| ==> "Synonyms" !in AliasesOf(lines[l])
    ensures "Synonyms" in AliasTable(lines).value && AliasTable(lines).value["Synonyms"] == "Symbol"
  {
    HeaderLineColumns(rest0);
    AliasTableEntries(lines, 0, "Synonyms");
  }
}
