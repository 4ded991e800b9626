/**
  The HPO phenotype_to_genes runner: `__load_data` groups the gene ids of the
  HPO annotation file by phenotype, keeping each gene once and in the order it
  is first seen; `__process_input_case` sorts a case's phenotypes in place and
  collects the genes of the known phenotypes, each gene once, in that order.
*/
module PhenotypeToGenes {
  import opened Results
  import opened PyStr

  /** A sequence in which no element occurs twice. */
  predicate NoDup(s: seq<string>) {
    forall i, j :: 0 <= i < j < |s| ==> s[i] != s[j]
  }

  /** The elements of `xs`, each kept at its first occurrence only. */
  function Dedup(xs: seq<string>): seq<string>
    decreases |xs|
  {
    if xs == [] then []
    else
      var before := Dedup(xs[..|xs| - 1]);
      if xs[|xs| - 1] in before then before else before + [xs[|xs| - 1]]
  }

  /** The position of the first occurrence of `x` in `xs`. */
  function FirstIndex(xs: seq<string>, x: string): (n: nat)
    requires x in xs
    ensures n < |xs| && xs[n] == x && x !in xs[..n]
    decreases |xs|
  {
    if xs[0] == x then 0
    else
      assert x in xs[1..];
      var n := 1 + FirstIndex(xs[1..], x);
      assert xs[..n] == [xs[0]] + xs[1..][..n - 1];
      n
  }

  /** Dropping duplicates keeps exactly the elements there were. */
  lemma {:induction false} DedupMembers(xs: seq<string>)
    ensures forall x :: x in Dedup(xs) <==> x in xs
    decreases |xs|
  {
    if xs != [] {
      var init := xs[..|xs| - 1];
      DedupMembers(init);
      assert xs == init + [xs[|xs| - 1]];
    }
  }

  /** Dropping duplicates leaves none. */
  lemma {:induction false} DedupNoDup(xs: seq<string>)
    ensures NoDup(Dedup(xs))
    decreases |xs|
  {
    if xs != [] {
      DedupNoDup(xs[..|xs| - 1]);
    }
  }

  /** A first occurrence inside a prefix is the first occurrence in the whole sequence. */
  lemma {:induction false} FirstIndexOfPrefix(xs: seq<string>, ys: seq<string>, x: string)
    requires x in xs
    ensures FirstIndex(xs + ys, x) == FirstIndex(xs, x)
    decreases |xs|
  {
    if xs[0] != x {
      assert (xs + ys)[1..] == xs[1..] + ys;
      FirstIndexOfPrefix(xs[1..], ys, x);
    }
  }

  /** Dropping duplicates keeps the elements in the order of their first occurrences. */
  lemma {:induction false} DedupFirstSeenOrder(xs: seq<string>, i: nat, k: nat)
    requires i < k < |Dedup(xs)|
    ensures Dedup(xs)[i] in xs && Dedup(xs)[k] in xs
    ensures FirstIndex(xs, Dedup(xs)[i]) < FirstIndex(xs, Dedup(xs)[k])
    decreases |xs|
  {
    var init := xs[..|xs| - 1];
    var x := xs[|xs| - 1];
    var d := Dedup(init);
    assert xs == init + [x];
    DedupMembers(init);
    if x in d || k < |d| {
      DedupFirstSeenOrder(init, i, k);
      FirstIndexOfPrefix(init, [x], d[i]);
      FirstIndexOfPrefix(init, [x], d[k]);
    } else {
      assert Dedup(xs)[k] == x && x !in init;
      FirstIndexOfPrefix(init, [x], d[i]);
      assert FirstIndex(xs, x) == |init| by {
        assert xs[..|init|] == init;
      }
    }
  }

  /** Dropping duplicates of a non-empty sequence leaves a non-empty one. */
  lemma DedupNonEmpty(xs: seq<string>)
    requires xs != []
    ensures Dedup(xs) != []
  {
    DedupMembers(xs);
    assert xs[0] in Dedup(xs);
  }

  // ---------------------------------------------------------------------------
  // __load_data

  /** A header or comment line of the annotation file: it starts with '#'. */
  predicate IsComment(line: string) {
    StartsWith(line, "#")
  }

  /** The lines `__load_data` reads: those that do not start with '#', in order. */
  function DataLines(lines: seq<string>): seq<string> {
    Uncommented(lines, "#")
  }

  /** The phenotype (column 0) and gene id (column 2) of a data line: IndexError when it has fewer than three columns. */
  function HpoGenePair(line: string): Result<(string, string), PyError> {
    var columns := Split(line, "\t");
    match At(columns, 2)
    case Err(e) => Err(e)
    case Ok(gene) => Ok((columns[0], gene))
  }

  /** `hpo2gene` after recording one (phenotype, gene) pair: the gene joins the phenotype's list unless already in it. */
  function AddGene(table: map<string, seq<string>>, hpo: string, gene: string): map<string, seq<string>> {
    var genes := if hpo in table then table[hpo] else [];
    table[hpo := if gene in genes then genes else genes + [gene]]
  }

  /** `AddGene` as `__load_data` does it: an empty list for a new phenotype, then the gene appended unless present. */
  lemma AddGeneSteps(table: map<string, seq<string>>, hpo: string, gene: string)
    ensures AddGene(table, hpo, gene)
            == var t := if hpo !in table then table[hpo := []] else table;
               if gene !in t[hpo] then t[hpo := t[hpo] + [gene]] else t
  {
    if hpo !in table {
      assert [] + [gene] == [gene];
      assert table[hpo := []][hpo := [gene]] == table[hpo := [gene]];
    } else if gene in table[hpo] {
      assert table[hpo := table[hpo]] == table;
    }
  }

  /** The table built from the pairs in order. */
  function Grouped(pairs: seq<(string, string)>): map<string, seq<string>>
    decreases |pairs|
  {
    if pairs == [] then map[]
    else
      var last := pairs[|pairs| - 1];
      AddGene(Grouped(pairs[..|pairs| - 1]), last.0, last.1)
  }

  /** What `__load_data` returns for the lines of the file. */
  function LoadTable(lines: seq<string>): Result<map<string, seq<string>>, PyError> {
    match Collect(DataLines(lines), HpoGenePair)
    case Ok(pairs) => Ok(Grouped(pairs))
    case Err(e) => Err(e)
  }

  /** The genes paired with `hpo`, in order, repeats included. */
  function GenesOf(pairs: seq<(string, string)>, hpo: string): seq<string>
    decreases |pairs|
  {
    if pairs == [] then []
    else
      var last := pairs[|pairs| - 1];
      GenesOf(pairs[..|pairs| - 1], hpo) + (if last.0 == hpo then [last.1] else [])
  }

  /** A phenotype has genes paired with it exactly when some pair names it. */
  lemma {:induction false} GenesOfNonEmpty(pairs: seq<(string, string)>, hpo: string)
    ensures GenesOf(pairs, hpo) != [] <==> exists j :: 0 <= j < |pairs| && pairs[j].0 == hpo
    decreases |pairs|
  {
    if pairs != [] {
      var init := pairs[..|pairs| - 1];
      GenesOfNonEmpty(init, hpo);
      if exists j :: 0 <= j < |pairs| && pairs[j].0 == hpo {
        var j :| 0 <= j < |pairs| && pairs[j].0 == hpo;
        if j < |init| {
          assert init[j].0 == hpo;
        }
      }
    }
  }

  /**
    The table holds exactly the phenotypes of the pairs, and for each one the
    genes paired with it, duplicates dropped, in the order they are first seen.
  */
  lemma {:induction false} GroupedLists(pairs: seq<(string, string)>, hpo: string)
    ensures hpo in Grouped(pairs) <==> GenesOf(pairs, hpo) != []
    ensures hpo in Grouped(pairs) ==> Grouped(pairs)[hpo] == Dedup(GenesOf(pairs, hpo))
    decreases |pairs|
  {
    if pairs != [] {
      var init := pairs[..|pairs| - 1];
      var last := pairs[|pairs| - 1];
      GroupedLists(init, hpo);
      if last.0 == hpo {
        var genes := GenesOf(init, hpo);
        assert GenesOf(pairs, hpo) == genes + [last.1];
        assert (genes + [last.1])[..|genes|] == genes;
        assert Dedup(genes + [last.1]) == if last.1 in Dedup(genes) then Dedup(genes) else Dedup(genes) + [last.1];
        if hpo !in Grouped(init) {
          assert genes == [];
        }
      } else {
        assert GenesOf(pairs, hpo) == GenesOf(init, hpo);
      }
    }
  }

  /** The gene lists hold no duplicates, are never empty, and keep the file order of first occurrences. */
  lemma GroupedListProperties(pairs: seq<(string, string)>, hpo: string)
    requires hpo in Grouped(pairs)
    ensures NoDup(Grouped(pairs)[hpo])
    ensures Grouped(pairs)[hpo] != []
    ensures forall g :: g in Grouped(pairs)[hpo] <==> (hpo, g) in pairs
    ensures forall i, k :: 0 <= i < k < |Grouped(pairs)[hpo]| ==>
              && Grouped(pairs)[hpo][i] in GenesOf(pairs, hpo) && Grouped(pairs)[hpo][k] in GenesOf(pairs, hpo)
              && FirstIndex(GenesOf(pairs, hpo), Grouped(pairs)[hpo][i])
                 < FirstIndex(GenesOf(pairs, hpo), Grouped(pairs)[hpo][k])
  {
    GroupedLists(pairs, hpo);
    var genes := GenesOf(pairs, hpo);
    DedupNoDup(genes);
    DedupNonEmpty(genes);
    DedupMembers(genes);
    forall i, k | 0 <= i < k < |Dedup(genes)|
      ensures && Dedup(genes)[i] in genes && Dedup(genes)[k] in genes
              && FirstIndex(genes, Dedup(genes)[i]) < FirstIndex(genes, Dedup(genes)[k])
    {
      DedupFirstSeenOrder(genes, i, k);
    }
    GenesOfMembers(pairs, hpo);
  }

  /** The genes paired with a phenotype are the second halves of its pairs. */
  lemma {:induction false} GenesOfMembers(pairs: seq<(string, string)>, hpo: string)
    ensures forall g :: g in GenesOf(pairs, hpo) <==> (hpo, g) in pairs
    decreases |pairs|
  {
    if pairs != [] {
      var init := pairs[..|pairs| - 1];
      GenesOfMembers(init, hpo);
      assert pairs == init + [pairs[|pairs| - 1]];
    }
  }

  /** The phenotypes of the table are those of the pairs. */
  lemma GroupedKeysOfPairs(pairs: seq<(string, string)>, hpo: string)
    ensures hpo in Grouped(pairs) <==> exists j :: 0 <= j < |pairs| && pairs[j].0 == hpo
  {
    GroupedLists(pairs, hpo);
    GenesOfNonEmpty(pairs, hpo);
  }

  /** A line starting with '#' may stand anywhere in the file: it changes nothing. */
  lemma CommentLineIgnored(a: seq<string>, comment: string, b: seq<string>)
    requires IsComment(comment)
    ensures LoadTable(a + [comment] + b) == LoadTable(a + b)
  {
    UncommentedAppend(a + [comment], b, "#");
    UncommentedAppend(a, b, "#");
    assert DataLines(a + [comment]) == DataLines(a) by {
      assert (a + [comment])[..|a|] == a;
    }
  }

  /** The file is read without error exactly when every data line has at least three columns; otherwise it is an IndexError. */
  lemma LoadTableFails(lines: seq<string>)
    ensures LoadTable(lines).Err? <==>
              exists j :: 0 <= j < |DataLines(lines)| && |Split(DataLines(lines)[j], "\t")| < 3
    ensures LoadTable(lines).Err? ==> LoadTable(lines).error == IndexError
  {
    CollectPerItem(DataLines(lines), HpoGenePair);
    if LoadTable(lines).Err? {
      CollectFirstError(DataLines(lines), HpoGenePair);
    }
  }

  /** The data lines read so far are a prefix of all the data lines. */
  lemma DataLinesPrefix(lines: seq<string>, i: nat)
    requires i <= |lines|
    ensures |DataLines(lines[..i])| <= |DataLines(lines)|
    ensures DataLines(lines)[..|DataLines(lines[..i])|] == DataLines(lines[..i])
  {
    UncommentedAppend(lines[..i], lines[i..], "#");
    assert lines[..i] + lines[i..] == lines;
  }

  /** One more line read: a comment changes nothing. */
  lemma LoadSkip(lines: seq<string>, i: nat, pairs: seq<(string, string)>)
    requires i < |lines| && Collect(DataLines(lines[..i]), HpoGenePair) == Ok(pairs)
    requires IsComment(lines[i])
    ensures Collect(DataLines(lines[..i + 1]), HpoGenePair) == Ok(pairs)
  {
    UncommentedNext(lines, i, "#");
    assert DataLines(lines[..i]) + [] == DataLines(lines[..i]);
  }

  /** One more line read: a data line whose third column is missing is the reader's error. */
  lemma LoadFails(lines: seq<string>, i: nat, pairs: seq<(string, string)>)
    requires i < |lines| && Collect(DataLines(lines[..i]), HpoGenePair) == Ok(pairs)
    requires !IsComment(lines[i]) && HpoGenePair(lines[i]).Err?
    ensures LoadTable(lines) == Err(HpoGenePair(lines[i]).error)
  {
    UncommentedNext(lines, i, "#");
    var done := DataLines(lines[..i]);
    CollectNext(done, lines[i], HpoGenePair);
    DataLinesPrefix(lines, i + 1);
    CollectStopsAtError(DataLines(lines), |done| + 1, HpoGenePair);
  }

  /** One more line read: a data line adds its pair. */
  lemma LoadRead(lines: seq<string>, i: nat, pairs: seq<(string, string)>)
    requires i < |lines| && Collect(DataLines(lines[..i]), HpoGenePair) == Ok(pairs)
    requires !IsComment(lines[i]) && HpoGenePair(lines[i]).Ok?
    ensures Collect(DataLines(lines[..i + 1]), HpoGenePair) == Ok(pairs + [HpoGenePair(lines[i]).value])
  {
    UncommentedNext(lines, i, "#");
    CollectNext(DataLines(lines[..i]), lines[i], HpoGenePair);
  }

  /** `__load_data`, over the lines of the file. */
  method LoadData(lines: seq<string>) returns (r: Result<map<string, seq<string>>, PyError>)
    ensures r == LoadTable(lines)
  {
    var hpo2gene: map<string, seq<string>> := map[];
    ghost var pairs: seq<(string, string)> := [];
    for i := 0 to |lines|
      invariant Collect(DataLines(lines[..i]), HpoGenePair) == Ok(pairs)
      invariant hpo2gene == Grouped(pairs)
    {
      if StartsWith(lines[i], "#") {
        LoadSkip(lines, i, pairs);
        continue;
      }
      var lineSplits := Split(lines[i], "\t");
      var hpo := lineSplits[0];
      var gene := At(lineSplits, 2);
      if gene.Err? {
        LoadFails(lines, i, pairs);
        return Err(gene.error);
      }
      LoadRead(lines, i, pairs);
      AddGeneSteps(hpo2gene, hpo, gene.value);
      if hpo !in hpo2gene {
        hpo2gene := hpo2gene[hpo := []];
      }
      if gene.value !in hpo2gene[hpo] {
        hpo2gene := hpo2gene[hpo := hpo2gene[hpo] + [gene.value]];
      }
      assert HpoGenePair(lines[i]) == Ok((hpo, gene.value));
      assert (pairs + [(hpo, gene.value)])[..|pairs|] == pairs;
      pairs := pairs + [(hpo, gene.value)];
    }
    assert lines[..|lines|] == lines;
    r := Ok(hpo2gene);
  }

  /**
    Read without error, the table's phenotypes are those of the data lines, and
    each maps to its genes in file order, each gene once, never an empty list.
  */
  lemma LoadTableContents(lines: seq<string>, hpo: string)
    requires LoadTable(lines).Ok?
    ensures var pairs := Collect(DataLines(lines), HpoGenePair).value;
            var table := LoadTable(lines).value;
            && (hpo in table <==> exists j :: 0 <= j < |pairs| && pairs[j].0 == hpo)
            && (hpo in table ==> table[hpo] == Dedup(GenesOf(pairs, hpo)) && NoDup(table[hpo]) && table[hpo] != [])
  {
    var pairs := Collect(DataLines(lines), HpoGenePair).value;
    assert LoadTable(lines).value == Grouped(pairs);
    GroupedKeysOfPairs(pairs, hpo);
    GroupedLists(pairs, hpo);
    if hpo in Grouped(pairs) {
      GroupedListProperties(pairs, hpo);
    }
  }

  // ---------------------------------------------------------------------------
  // __process_input_case

  /** Python's `<=` on strings: code point by code point, a proper prefix first. */
  predicate LessEq(a: string, b: string)
    decreases |a|
  {
    a == [] || (b != [] && (a[0] < b[0] || (a[0] == b[0] && LessEq(a[1..], b[1..]))))
  }

  lemma {:induction false} LessEqReflexive(a: string)
    ensures LessEq(a, a)
    decreases |a|
  {
    if a != [] {
      LessEqReflexive(a[1..]);
    }
  }

  lemma {:induction false} LessEqTotal(a: string, b: string)
    ensures LessEq(a, b) || LessEq(b, a)
    decreases |a|
  {
    if a != [] && b != [] && a[0] == b[0] {
      LessEqTotal(a[1..], b[1..]);
    }
  }

  lemma {:induction false} LessEqTransitive(a: string, b: string, c: string)
    requires LessEq(a, b) && LessEq(b, c)
    ensures LessEq(a, c)
    decreases |a|
  {
    if a != [] && a[0] == b[0] && b[0] == c[0] {
      LessEqTransitive(a[1..], b[1..], c[1..]);
    }
  }

  lemma {:induction false} LessEqAntisymmetric(a: string, b: string)
    requires LessEq(a, b) && LessEq(b, a)
    ensures a == b
    decreases |a|
  {
    if a != [] {
      LessEqAntisymmetric(a[1..], b[1..]);
      assert a == [a[0]] + a[1..] && b == [b[0]] + b[1..];
    }
  }

  /** In ascending order, as `list.sort()` leaves a list of strings. */
  predicate Sorted(s: seq<string>) {
    forall i, j :: 0 <= i < j < |s| ==> LessEq(s[i], s[j])
  }

  /** Two sorted arrangements of one multiset start with the same string. */
  lemma SortedHeads(s: seq<string>, t: seq<string>)
    requires s != [] && Sorted(s) && Sorted(t) && multiset(s) == multiset(t)
    ensures t != [] && s[0] == t[0]
  {
    assert s[0] in multiset(t);
    var i :| 0 <= i < |t| && t[i] == s[0];
    assert t[0] in multiset(s);
    var j :| 0 <= j < |s| && s[j] == t[0];
    if i > 0 { assert LessEq(t[0], t[i]); } else { LessEqReflexive(t[0]); }
    if j > 0 { assert LessEq(s[0], s[j]); } else { LessEqReflexive(s[0]); }
    LessEqAntisymmetric(s[0], t[0]);
  }

  /** Removing a common first element leaves equal multisets. */
  lemma TailMultisets(s: seq<string>, t: seq<string>)
    requires s != [] && t != [] && s[0] == t[0] && multiset(s) == multiset(t)
    ensures multiset(s[1..]) == multiset(t[1..])
  {
    assert s == [s[0]] + s[1..];
    assert t == [t[0]] + t[1..];
    var a, b := multiset(s[1..]), multiset(t[1..]);
    assert multiset(s) == multiset{s[0]} + a;
    assert multiset(t) == multiset{s[0]} + b;
    forall x
      ensures a[x] == b[x]
    {
      assert (multiset{s[0]} + a)[x] == (multiset{s[0]} + b)[x];
    }
  }

  /** There is one sorted arrangement of a multiset of strings: sorting forgets the input order. */
  lemma {:induction false} SortedUnique(s: seq<string>, t: seq<string>)
    requires Sorted(s) && Sorted(t) && multiset(s) == multiset(t)
    ensures s == t
    decreases |s|
  {
    if s == [] {
      assert |t| == |multiset(t)| == 0;
    } else {
      SortedHeads(s, t);
      TailMultisets(s, t);
      assert Sorted(s[1..]) && Sorted(t[1..]);
      SortedUnique(s[1..], t[1..]);
      assert s == [s[0]] + s[1..] && t == [t[0]] + t[1..];
    }
  }

  /** Selection sort: the index of a least element of `a[from..]`. */
  method MinIndex(a: array<string>, from: nat) returns (m: nat)
    requires from < a.Length
    ensures from <= m < a.Length
    ensures forall y :: from <= y < a.Length ==> LessEq(a[m], a[y])
  {
    m := from;
    LessEqReflexive(a[from]);
    for j := from + 1 to a.Length
      invariant from <= m < a.Length
      invariant forall y :: from <= y < j ==> LessEq(a[m], a[y])
    {
      if !LessEq(a[m], a[j]) {
        LessEqTotal(a[m], a[j]);
        forall y | from <= y < j
          ensures LessEq(a[j], a[y])
        {
          LessEqTransitive(a[j], a[m], a[y]);
        }
        LessEqReflexive(a[j]);
        m := j;
      }
    }
  }

  /** The first `i` elements are in ascending order. */
  predicate SortedBelow(s: seq<string>, i: nat) {
    forall x, y :: 0 <= x < y < i && y < |s| ==> LessEq(s[x], s[y])
  }

  /** No element among the first `i` exceeds one after them. */
  predicate Partitioned(s: seq<string>, i: nat) {
    forall x, y :: 0 <= x < i <= y < |s| ==> LessEq(s[x], s[y])
  }

  /** Swapping a least element of `s[i..]` into place `i` extends the sorted, partitioned prefix by one. */
  lemma SelectionSwap(s: seq<string>, i: nat, m: nat)
    requires i <= m < |s|
    requires SortedBelow(s, i) && Partitioned(s, i)
    requires forall y :: i <= y < |s| ==> LessEq(s[m], s[y])
    ensures SortedBelow(s[i := s[m]][m := s[i]], i + 1)
    ensures Partitioned(s[i := s[m]][m := s[i]], i + 1)
    ensures multiset(s[i := s[m]][m := s[i]]) == multiset(s)
  {
    var t := s[i := s[m]][m := s[i]];
    forall x, y | 0 <= x < i + 1 <= y < |t|
      ensures LessEq(t[x], t[y])
    {
      if x == i {
        assert t[x] == s[m];
      }
    }
  }

  /** `phenotypes.sort()`: sorts the array in place. */
  method SortPhenotypes(a: array<string>)
    modifies a
    ensures Sorted(a[..])
    ensures multiset(a[..]) == multiset(old(a[..]))
  {
    for i := 0 to a.Length
      invariant multiset(a[..]) == multiset(old(a[..]))
      invariant SortedBelow(a[..], i) && Partitioned(a[..], i)
    {
      var m := MinIndex(a, i);
      ghost var s := a[..];
      SelectionSwap(s, i, m);
      a[i], a[m] := a[m], a[i];
      assert a[..] == s[i := s[m]][m := s[i]];
    }
  }

  /** The gene lists of the phenotypes in order; a phenotype not in the table contributes nothing. */
  function GenesFor(phenotypes: seq<string>, hpo2gene: map<string, seq<string>>): seq<string>
    decreases |phenotypes|
  {
    if phenotypes == [] then []
    else
      var last := phenotypes[|phenotypes| - 1];
      GenesFor(phenotypes[..|phenotypes| - 1], hpo2gene) + (if last in hpo2gene then hpo2gene[last] else [])
  }

  /** The genes `__process_input_case` finds for phenotypes already in the order it reads them. */
  function CaseGenes(phenotypes: seq<string>, hpo2gene: map<string, seq<string>>): seq<string> {
    Dedup(GenesFor(phenotypes, hpo2gene))
  }

  /** Recording one more gene of the current phenotype. */
  lemma DedupNext(xs: seq<string>, genes: seq<string>, k: nat)
    requires k < |genes|
    ensures Dedup(xs + genes[..k + 1])
            == if genes[k] in Dedup(xs + genes[..k]) then Dedup(xs + genes[..k]) else Dedup(xs + genes[..k]) + [genes[k]]
  {
    assert (xs + genes[..k + 1])[..|xs + genes[..k + 1]| - 1] == xs + genes[..k];
  }

  /** `__process_input_case` for a list: sorts it in place, then collects the genes of its phenotypes. */
  method ProcessInputCase(phenotypes: array<string>, hpo2gene: map<string, seq<string>>) returns (foundGenes: seq<string>)
    modifies phenotypes
    ensures Sorted(phenotypes[..]) && multiset(phenotypes[..]) == multiset(old(phenotypes[..]))
    ensures foundGenes == CaseGenes(phenotypes[..], hpo2gene)
  {
    SortPhenotypes(phenotypes);
    ghost var sorted := phenotypes[..];
    foundGenes := [];
    for i := 0 to phenotypes.Length
      modifies {}
      invariant phenotypes[..] == sorted
      invariant foundGenes == Dedup(GenesFor(sorted[..i], hpo2gene))
    {
      var phenotype := phenotypes[i];
      GenesForNext(sorted, i, hpo2gene);
      ghost var before := GenesFor(sorted[..i], hpo2gene);
      if phenotype in hpo2gene {
        var hpoGenes := hpo2gene[phenotype];
        assert before + hpoGenes[..0] == before;
        for k := 0 to |hpoGenes|
          invariant foundGenes == Dedup(before + hpoGenes[..k])
        {
          DedupNext(before, hpoGenes, k);
          if hpoGenes[k] !in foundGenes {
            foundGenes := foundGenes + [hpoGenes[k]];
          }
        }
        assert hpoGenes[..|hpoGenes|] == hpoGenes;
      } else {
        assert before + [] == before;
      }
    }
    assert sorted[..phenotypes.Length] == sorted;
  }

  /** The genes of one more phenotype. */
  lemma GenesForNext(phenotypes: seq<string>, i: nat, hpo2gene: map<string, seq<string>>)
    requires i < |phenotypes|
    ensures GenesFor(phenotypes[..i + 1], hpo2gene)
            == GenesFor(phenotypes[..i], hpo2gene) + (if phenotypes[i] in hpo2gene then hpo2gene[phenotypes[i]] else [])
  {
    assert phenotypes[..i + 1][..i] == phenotypes[..i];
  }

  /** The genes of the phenotypes in order are the genes of their lists. */
  lemma {:induction false} GenesForMembers(phenotypes: seq<string>, hpo2gene: map<string, seq<string>>, g: string)
    ensures g in GenesFor(phenotypes, hpo2gene) <==> exists p :: p in phenotypes && p in hpo2gene && g in hpo2gene[p]
    decreases |phenotypes|
  {
    if phenotypes != [] {
      var init := phenotypes[..|phenotypes| - 1];
      var last := phenotypes[|phenotypes| - 1];
      GenesForMembers(init, hpo2gene, g);
      assert phenotypes == init + [last];
      if exists p :: p in phenotypes && p in hpo2gene && g in hpo2gene[p] {
        var p :| p in phenotypes && p in hpo2gene && g in hpo2gene[p];
        if p != last {
          assert p in init;
        }
      }
    }
  }

  /**
    The genes found for a case: no gene twice, and a gene is found exactly when
    it is listed for one of the case's phenotypes; unknown phenotypes add nothing.
  */
  lemma CaseGenesContents(phenotypes: seq<string>, hpo2gene: map<string, seq<string>>, g: string)
    ensures NoDup(CaseGenes(phenotypes, hpo2gene))
    ensures g in CaseGenes(phenotypes, hpo2gene) <==> exists p :: p in phenotypes && p in hpo2gene && g in hpo2gene[p]
  {
    DedupNoDup(GenesFor(phenotypes, hpo2gene));
    DedupMembers(GenesFor(phenotypes, hpo2gene));
    GenesForMembers(phenotypes, hpo2gene, g);
  }

  /** Two orderings of the same phenotypes give the same genes once sorted, as the method sorts them. */
  lemma CaseOrderIndependent(s: seq<string>, t: seq<string>, hpo2gene: map<string, seq<string>>)
    requires Sorted(s) && Sorted(t) && multiset(s) == multiset(t)
    ensures CaseGenes(s, hpo2gene) == CaseGenes(t, hpo2gene)
  {
    SortedUnique(s, t);
  }

  /** A sequence without duplicates is its own deduplication. */
  lemma {:induction false} DedupOfNoDup(xs: seq<string>)
    requires NoDup(xs)
    ensures Dedup(xs) == xs
    decreases |xs|
  {
    if xs != [] {
      var init := xs[..|xs| - 1];
      assert NoDup(init);
      DedupOfNoDup(init);
      DedupMembers(init);
      assert xs[|xs| - 1] !in init;
      assert xs == init + [xs[|xs| - 1]];
    }
  }

  /** Two known phenotypes whose gene lists share no gene: their lists, one after the other. */
  lemma TwoPhenotypeGenes(p: string, q: string, hpo2gene: map<string, seq<string>>)
    requires p in hpo2gene && q in hpo2gene && NoDup(hpo2gene[p] + hpo2gene[q])
    ensures CaseGenes([p, q], hpo2gene) == hpo2gene[p] + hpo2gene[q]
  {
    assert [p, q][..1] == [p] && [p][..0] == [];
    assert GenesFor([p], hpo2gene) == hpo2gene[p];
    DedupOfNoDup(hpo2gene[p] + hpo2gene[q]);
  }

  /** A common prefix does not change the order of two strings. */
  lemma {:induction false} LessEqAfterPrefix(c: string, a: string, b: string)
    requires LessEq(a, b)
    ensures LessEq(c + a, c + b)
    decreases |c|
  {
    if c != [] {
      LessEqAfterPrefix(c[1..], a, b);
      assert (c + a)[1..] == c[1..] + a && (c + b)[1..] == c[1..] + b;
      assert (c + a)[0] == c[0] == (c + b)[0];
    } else {
      assert c + a == a && c + b == b;
    }
  }

  /** The table of the case-digestion example. */
  function ExampleTable(): map<string, seq<string>> {
    map["HP:0000002" := ["100151683", "2304", "7227"],
        "HP:0001647" := ["4313", "4089"],
        "HP:0001648" := ["51776", "7169"]]
  }

  lemma ExampleOrder()
    ensures LessEq("HP:0000002", "HP:0001648")
  {
    assert LessEq("0002", "1648");
    LessEqAfterPrefix("HP:000", "0002", "1648");
    assert "HP:000" + "0002" == "HP:0000002" && "HP:000" + "1648" == "HP:0001648";
  }

  /**
    The case-digestion example: the phenotypes HP:0001648 and HP:0000002, once
    sorted as `__process_input_case` sorts them, give the genes of HP:0000002
    followed by those of HP:0001648.
  */
  lemma CaseDigestionExample(sorted: seq<string>)
    requires Sorted(sorted) && multiset(sorted) == multiset(["HP:0001648", "HP:0000002"])
    ensures CaseGenes(sorted, ExampleTable()) == ["100151683", "2304", "7227", "51776", "7169"]
  {
    ExampleOrder();
    var s := ["HP:0000002", "HP:0001648"];
    assert multiset(s) == multiset(["HP:0001648", "HP:0000002"]);
    SortedUnique(sorted, s);
    ExampleGenes();
    TwoPhenotypeGenes("HP:0000002", "HP:0001648", ExampleTable());
  }

  lemma ExampleGenes()
    ensures ExampleTable()["HP:0000002"] + ExampleTable()["HP:0001648"] == ["100151683", "2304", "7227", "51776", "7169"]
    ensures NoDup(["100151683", "2304", "7227", "51776", "7169"])
  {
  }
}
