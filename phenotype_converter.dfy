/**
  `PhenotypeConverter`: reads an HPO ontology file in OBO flat-file format and
  converts between phenotype ids and names.

  Reading keeps three pieces of state besides the two tables: the id and the
  name seen so far in the current `[Term]` block, and whether that block's pair
  has already been recorded. A `[Term]` line clears them; once a block has both
  an id and a name, the pair goes into both tables and the rest of the block is
  ignored. A `data-version:` line sets the ontology version from its second
  `/`-separated part, and raises an IndexError when the line has no `/`.
*/
module PhenotypeConversion {
  import opened Results
  import opened PyStr
  import opened Converters

  const MatchVersion: string := "data-version:"
  const MatchTerm: string := "[Term]"
  const MatchId: string := "id: "
  const MatchName: string := "name: "

  /** The characters of a string: the set `str.lstrip` removes when given that string. */
  function CharSet(s: string): set<char> {
    set i | 0 <= i < |s| :: s[i]
  }

  /**
    The value of an `id: ` or `name: ` line, `line.lstrip(match).strip()`.
    `lstrip` removes leading characters that belong to `prefix`, not the prefix itself.
  */
  function FieldValue(line: string, prefix: string): string {
    Strip(LStripChars(line, CharSet(prefix)))
  }

  /** The version on a `data-version:` line, `line.split('/')[1].rstrip()`. */
  function VersionValue(line: string): Result<string, PyError> {
    match At(Split(line, "/"), 1)
    case Ok(part) => Ok(RStrip(part))
    case Err(e) => Err(e)
  }

  /**
    The reader's state: the version, the current block's id and name, whether the
    block's pair was recorded, and the pairs recorded so far in order.
  */
  datatype OboState = OboState(
    version: string,
    hpoId: Option<string>,
    hpoName: Option<string>,
    added: bool,
    commits: seq<(string, string)>)

  /** The state before the first line, the version being the converter's current one. */
  function Start(version: string): OboState {
    OboState(version, None, None, false, [])
  }

  /** One line of the file. */
  function OboStep(st: OboState, line: string): Result<OboState, PyError> {
    var version := if StartsWith(line, MatchVersion) then VersionValue(line) else Ok(st.version);
    if version.Err? then Err(version.error)
    else if StartsWith(line, MatchTerm) then
      Ok(OboState(version.value, None, None, false, st.commits))
    else if st.added then
      Ok(st.(version := version.value))
    else
      var hpoId := if StartsWith(line, MatchId) then Some(FieldValue(line, MatchId)) else st.hpoId;
      var hpoName :=
        if !StartsWith(line, MatchId) && StartsWith(line, MatchName) then Some(FieldValue(line, MatchName))
        else st.hpoName;
      if hpoId.Some? && hpoName.Some? then
        Ok(OboState(version.value, hpoId, hpoName, true, st.commits + [(hpoId.value, hpoName.value)]))
      else
        Ok(OboState(version.value, hpoId, hpoName, false, st.commits))
  }

  /** The state after a run of lines, and the error that stopped it, if one did. */
  datatype OboOutcome = OboOutcome(state: OboState, error: Option<PyError>)

  /** Reading lines in order; the first error stops the reading. */
  function ReadObo(start: OboState, lines: seq<string>): OboOutcome
    decreases |lines|
  {
    if lines == [] then OboOutcome(start, None)
    else
      var before := ReadObo(start, lines[..|lines| - 1]);
      if before.error.Some? then before
      else
        match OboStep(before.state, lines[|lines| - 1])
        case Ok(st) => OboOutcome(st, None)
        case Err(e) => OboOutcome(before.state, Some(e))
  }

  /** Once an error has stopped the reading, later lines change nothing. */
  lemma {:induction false} ReadOboStopsAtError(start: OboState, lines: seq<string>, k: nat)
    requires k <= |lines|
    requires ReadObo(start, lines[..k]).error.Some?
    ensures ReadObo(start, lines) == ReadObo(start, lines[..k])
    decreases |lines|
  {
    if k < |lines| {
      assert lines[..|lines| - 1][..k] == lines[..k];
      ReadOboStopsAtError(start, lines[..|lines| - 1], k);
    } else {
      assert lines[..k] == lines;
    }
  }

  /** Reading one more line is one more step, unless an error already stopped the reading. */
  lemma ReadOboNext(start: OboState, lines: seq<string>, i: nat, st: OboState)
    requires i < |lines|
    requires ReadObo(start, lines[..i]) == OboOutcome(st, None)
    ensures ReadObo(start, lines[..i + 1]) ==
              match OboStep(st, lines[i])
              case Ok(next) => OboOutcome(next, None)
              case Err(e) => OboOutcome(st, Some(e))
  {
    assert lines[..i + 1][..i] == lines[..i];
  }

  /** Recording one more pair extends both tables. */
  lemma SwappedAppend(commits: seq<(string, string)>, p: (string, string))
    ensures Swapped(commits + [p]) == Swapped(commits) + [(p.1, p.0)]
  {
  }


  /** No line of the block starts a new term. */
  predicate NoTermLine(block: seq<string>) {
    forall j :: 0 <= j < |block| ==> !StartsWith(block[j], MatchTerm)
  }

  /**
    Within one term block (no `[Term]` line) at most one pair is recorded, and none
    once the block's pair has been recorded: from then on only the version can change.
  */
  lemma {:induction false} AtMostOneCommitPerTerm(st: OboState, block: seq<string>)
    requires NoTermLine(block)
    ensures var out := ReadObo(st, block).state;
            && |st.commits| <= |out.commits| <= |st.commits| + (if st.added then 0 else 1)
            && out.commits[..|st.commits|] == st.commits
            && (!out.added ==> out.commits == st.commits)
            && (st.added ==> out == st.(version := out.version))
    decreases |block|
  {
    if block != [] {
      var init := block[..|block| - 1];
      assert NoTermLine(init) by {
        forall j | 0 <= j < |init| ensures !StartsWith(init[j], MatchTerm) {
          assert init[j] == block[j];
        }
      }
      AtMostOneCommitPerTerm(st, init);
      assert !StartsWith(block[|block| - 1], MatchTerm);
    }
  }

  /** A `[Term]` line forgets the previous block's id and name, whatever state it finds. */
  lemma {:induction false} TermLineStartsAfresh(st: OboState, line: string)
    requires StartsWith(line, MatchTerm)
    ensures OboStep(st, line).Ok?
    ensures var next := OboStep(st, line).value;
            next.hpoId.None? && next.hpoName.None? && !next.added && next.commits == st.commits
  {
    assert line[0] == '[' by {
      assert line[..|MatchTerm|][0] == line[0];
    }
    assert !StartsWith(line, MatchVersion);
  }

  /** For an `id: ` or `name: ` line whose value starts outside the prefix's characters, the value is the rest of the line, trimmed. */
  lemma FieldValueOfPlainLine(prefix: string, value: string, trailing: string)
    requires value != [] && value[0] !in CharSet(prefix)
    requires !IsSpace(value[0]) && !IsSpace(value[|value| - 1])
    requires forall i :: 0 <= i < |trailing| ==> IsSpace(trailing[i])
    ensures FieldValue(prefix + value + trailing, prefix) == value
  {
    assert prefix + value + trailing == prefix + (value + trailing);
    assert forall i :: 0 <= i < |prefix| ==> prefix[i] in CharSet(prefix);
    LStripCharsRun(prefix, value + trailing, CharSet(prefix));
    StripPadded([], value, trailing);
    assert [] + value + trailing == value + trailing;
  }

  /**
    `lstrip(prefix)` removes characters, not the prefix: when the value itself starts
    with characters of the prefix (for `name: `, any of `n`, `a`, `m`, `e`, `:` and
    space), they are removed as well.
  */
  lemma FieldValueLosesLeadingPrefixChars(prefix: string, run: string, rest: string, trailing: string)
    requires forall i :: 0 <= i < |run| ==> run[i] in CharSet(prefix)
    requires rest != [] && rest[0] !in CharSet(prefix)
    requires !IsSpace(rest[0]) && !IsSpace(rest[|rest| - 1])
    requires forall i :: 0 <= i < |trailing| ==> IsSpace(trailing[i])
    ensures FieldValue(prefix + run + rest + trailing, prefix) == rest
  {
    assert prefix + run + rest + trailing == (prefix + run) + (rest + trailing);
    forall i | 0 <= i < |prefix + run| ensures (prefix + run)[i] in CharSet(prefix) {
      if i >= |prefix| { assert (prefix + run)[i] == run[i - |prefix|]; }
    }
    LStripCharsRun(prefix + run, rest + trailing, CharSet(prefix));
    StripPadded([], rest, trailing);
    assert [] + rest + trailing == rest + trailing;
  }

  /** The name "anemia" is read as "ia". */
  lemma NameValueStripsCharacterSet()
    ensures FieldValue("name: anemia\n", MatchName) == "ia"
  {
    assert "name: anemia\n" == MatchName + "anem" + "ia" + "\n";
    assert MatchName[0] == 'n' && MatchName[1] == 'a' && MatchName[2] == 'm' && MatchName[3] == 'e';
    FieldValueLosesLeadingPrefixChars(MatchName, "anem", "ia", "\n");
  }

  /** The version on a `data-version:` line is the text after its first `/`, right-stripped, when there is one `/`. */
  lemma VersionOfLine(head: string, version: string, trailing: string)
    requires '/' !in head && '/' !in version && '/' !in trailing
    requires version == [] || !IsSpace(version[|version| - 1])
    requires forall i :: 0 <= i < |trailing| ==> IsSpace(trailing[i])
    ensures VersionValue(head + "/" + (version + trailing)) == Ok(version)
  {
    assert '/' !in version + trailing;
    SplitWithoutSeparator(version + trailing, '/');
    SplitAtFirst(head, version + trailing, '/');
    RStripRun(version, trailing);
  }

  /** The version line of the converter's test data, cut at its slash. */
  lemma ReleaseLineParts()
    ensures "data-version: releases/2018-03-08\n" == "data-version: releases" + "/" + ("2018-03-08" + "\n")
  {
  }

  /** converters_test: `data-version: releases/2018-03-08` gives the version `2018-03-08`. */
  lemma VersionOfReleaseLine()
    ensures VersionValue("data-version: releases/2018-03-08\n") == Ok("2018-03-08")
  {
    VersionOfLine("data-version: releases", "2018-03-08", "\n");
    ReleaseLineParts();
  }

  /** A `data-version:` line without `/` is an IndexError. */
  lemma VersionWithoutSlashFails(line: string)
    requires '/' !in line
    ensures VersionValue(line) == Err(IndexError)
  {
    SplitWithoutSeparator(line, '/');
  }

  /**
    Converting an id to its name and the name back gives the id, when no other
    recorded id has that name (reading from empty tables, as `__init__` does).
  */
  lemma IdNameIdRoundTrip(lines: seq<string>, id: string)
    requires var commits := ReadObo(Start(""), lines).state.commits;
             && id in Record(map[], commits)
             && forall j :: 0 <= j < |commits| && commits[j].1 == Record(map[], commits)[id] ==> commits[j].0 == id
    ensures var commits := ReadObo(Start(""), lines).state.commits;
            var name := Conversion(Single(id), Record(map[], commits), false).found;
            && name.Some?
            && Conversion(Single(name.value), Record(map[], Swapped(commits)), false) == Value(Some(id))
  {
    RoundTrip(ReadObo(Start(""), lines).state.commits, id);
  }

  /** Reading `a + b` is reading `b` from the state reading `a` left, when `a` raised nothing. */
  lemma {:induction false} ReadOboAppend(st: OboState, a: seq<string>, b: seq<string>)
    requires ReadObo(st, a).error.None?
    ensures ReadObo(st, a + b) == ReadObo(ReadObo(st, a).state, b)
    decreases |b|
  {
    if b == [] {
      assert a + b == a;
    } else {
      var init := b[..|b| - 1];
      ReadOboAppend(st, a, init);
      assert (a + b)[..|a + b| - 1] == a + init;
      assert (a + b)[|a + b| - 1] == b[|b| - 1];
    }
  }

  /** A line that neither starts a term nor sets the version: the other lines of a term block. */
  predicate InTermBody(line: string) {
    !StartsWith(line, MatchTerm) && !StartsWith(line, MatchVersion)
  }

  /** Once a block's pair is recorded, the block's other lines leave the state as it is. */
  lemma {:induction false} SettledBlockUnchanged(st: OboState, rest: seq<string>)
    requires st.added
    requires forall j :: 0 <= j < |rest| ==> InTermBody(rest[j])
    ensures ReadObo(st, rest) == OboOutcome(st, None)
    decreases |rest|
  {
    if rest != [] {
      var init := rest[..|rest| - 1];
      forall j | 0 <= j < |init| ensures InTermBody(init[j]) {
        assert init[j] == rest[j];
      }
      SettledBlockUnchanged(st, init);
      assert InTermBody(rest[|rest| - 1]);
    }
  }

  /** A line whose first character differs from the prefix's does not start with it. */
  lemma FirstCharDiffers(line: string, prefix: string)
    requires line != [] && prefix != [] && line[0] != prefix[0]
    ensures !StartsWith(line, prefix)
  {
    if |prefix| <= |line| {
      assert line[..|prefix|][0] == line[0];
    }
  }

  /** The first character of a line that starts with a prefix. */
  lemma FirstCharOf(line: string, prefix: string)
    requires prefix != [] && StartsWith(line, prefix)
    ensures line != [] && line[0] == prefix[0]
  {
    assert line[..|prefix|][0] == line[0];
  }

  /** Reading a single line that raises nothing is one step. */
  lemma ReadOboOne(st: OboState, line: string)
    requires OboStep(st, line).Ok?
    ensures ReadObo(st, [line]) == OboOutcome(OboStep(st, line).value, None)
  {
    assert [line][..0] == [];
  }

  /** The state after a `[Term]` line, an `id: ` line and a `name: ` line. */
  lemma TermIdNameLines(st: OboState, term: string, idLine: string, nameLine: string)
    requires StartsWith(term, MatchTerm) && StartsWith(idLine, MatchId) && StartsWith(nameLine, MatchName)
    ensures var hpoId := FieldValue(idLine, MatchId);
            var hpoName := FieldValue(nameLine, MatchName);
            ReadObo(st, [term, idLine, nameLine])
              == OboOutcome(OboState(st.version, Some(hpoId), Some(hpoName), true, st.commits + [(hpoId, hpoName)]), None)
  {
    FirstCharOf(term, MatchTerm);
    FirstCharOf(idLine, MatchId);
    FirstCharOf(nameLine, MatchName);
    FirstCharDiffers(term, MatchVersion);
    FirstCharDiffers(idLine, MatchVersion);
    FirstCharDiffers(idLine, MatchTerm);
    FirstCharDiffers(nameLine, MatchVersion);
    FirstCharDiffers(nameLine, MatchTerm);
    FirstCharDiffers(nameLine, MatchId);
    var s1 := OboState(st.version, None, None, false, st.commits);
    var s2 := OboState(st.version, Some(FieldValue(idLine, MatchId)), None, false, st.commits);
    assert OboStep(st, term) == Ok(s1);
    assert OboStep(s1, idLine) == Ok(s2);
    ReadOboOne(st, term);
    ReadOboAppend(st, [term], [idLine]);
    ReadOboOne(s1, idLine);
    assert [term] + [idLine] == [term, idLine];
    ReadOboAppend(st, [term, idLine], [nameLine]);
    ReadOboOne(s2, nameLine);
    assert [term, idLine] + [nameLine] == [term, idLine, nameLine];
  }

  /**
    What a term block records: a `[Term]` line, its `id: ` line and its `name: ` line
    record the pair (id value, name value), whatever state the block starts from;
    the block's other lines change nothing after that.
  */
  lemma TermRecordsIdAndName(st: OboState, term: string, idLine: string, nameLine: string, rest: seq<string>)
    requires StartsWith(term, MatchTerm) && StartsWith(idLine, MatchId) && StartsWith(nameLine, MatchName)
    requires forall j :: 0 <= j < |rest| ==> InTermBody(rest[j])
    ensures var hpoId := FieldValue(idLine, MatchId);
            var hpoName := FieldValue(nameLine, MatchName);
            ReadObo(st, [term, idLine, nameLine] + rest)
              == OboOutcome(OboState(st.version, Some(hpoId), Some(hpoName), true, st.commits + [(hpoId, hpoName)]), None)
  {
    TermIdNameLines(st, term, idLine, nameLine);
    ReadOboAppend(st, [term, idLine, nameLine], rest);
    SettledBlockUnchanged(ReadObo(st, [term, idLine, nameLine]).state, rest);
  }

  /** A line is in a term's body when its first characters rule out `[Term]` and `data-version:`. */
  lemma InTermBodyByFirstChars(line: string)
    requires line != [] && line[0] != '['
    requires line[0] != 'd' || (|line| > 1 && line[1] != 'a')
    ensures InTermBody(line)
  {
    FirstCharDiffers(line, MatchTerm);
    if |MatchVersion| <= |line| {
      assert line[..|MatchVersion|][0] == line[0];
      assert line[..|MatchVersion|][1] == line[1];
    }
  }

  /** A line starts with a prefix it is built from. */
  lemma StartsWithPrefix(prefix: string, rest: string)
    ensures StartsWith(prefix + rest, prefix)
  {
    assert (prefix + rest)[..|prefix|] == prefix;
  }

  /** A line built from a prefix and two more parts starts with the prefix. */
  lemma StartsWithPrefixOfThree(prefix: string, a: string, b: string)
    ensures StartsWith(prefix + a + b, prefix)
  {
    assert (prefix + a + b)[..|prefix|] == prefix;
  }

  /** The header lines of the converter's test file, before the first term. */
  function TestHeaderLines(): seq<string> {
    ["format-version: 1.2\n", "data-version: releases" + "/" + ("2018-03-08" + "\n"), "\n"]
  }

  /** The lines after the `[Term]`, `id: ` and `name: ` lines of the test file's first term. */
  function TestFirstTermRest(): seq<string> {
    ["def: " + "\"An abnormality of " + "the female internal " + "genitalia.\" [HPO:probinson]\n",
     "xref: " + "UMLS:C4025900\n",
     "is_a: " + "HP:0000812 ! Abnormal " + "internal genitalia\n",
     "is_a: " + "HP:0010460 ! Abnormality " + "of the female genitalia\n",
     "\n"]
  }

  /** The test file's first term block. */
  function TestFirstTermLines(): seq<string> {
    ["[Term]" + "\n", "id: " + "HP:0000008" + "\n", "name: " + "Abnormality of female internal genitalia" + "\n"] + TestFirstTermRest()
  }

  /** The lines after the `[Term]`, `id: ` and `name: ` lines of the test file's second term. */
  function TestSecondTermRest(): seq<string> {
    ["def: " + "\"Diverticulum (sac " + "or pouch) in the wall " + "of the urinary bladder.\" " + "[HPO:probinson]\n",
     "synonym: " + "\"Bladder diverticula\" " + "EXACT [HPO:skoehler]\n",
     "xref: " + "MSH:C562406\n",
     "xref: " + "SNOMEDCT_US:197866008\n",
     "xref: " + "UMLS:C0156273\n",
     "is_a: " + "HP:0025487 ! Abnormality " + "of bladder morphology\n",
     "\n"]
  }

  /** The test file's second term block. */
  function TestSecondTermLines(): seq<string> {
    ["[Term]" + "\n", "id: " + "HP:0000015" + "\n", "name: " + "Bladder diverticulum" + "\n"] + TestSecondTermRest()
  }

  /** A line that starts no field and no term leaves a state without id and name as it is. */
  lemma NoFieldStep(st: OboState, line: string)
    requires st == Start(st.version)
    requires InTermBody(line) && !StartsWith(line, MatchId) && !StartsWith(line, MatchName)
    ensures OboStep(st, line) == Ok(st)
  {
  }

  /** A `data-version:` line sets the version of a state without id and name. */
  lemma VersionStep(st: OboState, line: string, version: string)
    requires st == Start(st.version)
    requires StartsWith(line, MatchVersion) && VersionValue(line) == Ok(version)
    ensures OboStep(st, line) == Ok(Start(version))
  {
    FirstCharOf(line, MatchVersion);
    FirstCharDiffers(line, MatchTerm);
    FirstCharDiffers(line, MatchId);
    FirstCharDiffers(line, MatchName);
  }

  /** A header of a line starting no field, a version line and another line starting no field. */
  lemma HeaderLinesRead(previous: string, format: string, versionLine: string, blank: string, version: string)
    requires InTermBody(format) && !StartsWith(format, MatchId) && !StartsWith(format, MatchName)
    requires StartsWith(versionLine, MatchVersion) && VersionValue(versionLine) == Ok(version)
    requires InTermBody(blank) && !StartsWith(blank, MatchId) && !StartsWith(blank, MatchName)
    ensures ReadObo(Start(previous), [format, versionLine, blank]) == OboOutcome(Start(version), None)
  {
    NoFieldStep(Start(previous), format);
    VersionStep(Start(previous), versionLine, version);
    NoFieldStep(Start(version), blank);
    ReadOboOne(Start(previous), format);
    ReadOboAppend(Start(previous), [format], [versionLine]);
    ReadOboOne(Start(previous), versionLine);
    assert [format] + [versionLine] == [format, versionLine];
    ReadOboAppend(Start(previous), [format, versionLine], [blank]);
    ReadOboOne(Start(version), blank);
    assert [format, versionLine] + [blank] == [format, versionLine, blank];
  }

  /** A line that starts with a prefix still does once more text follows it. */
  lemma StartsWithExtended(s: string, prefix: string, more: string)
    requires StartsWith(s, prefix)
    ensures StartsWith(s + more, prefix)
  {
    assert (s + more)[..|prefix|] == s[..|prefix|];
  }

  /** The header sets the version, whatever the version before, and records nothing. */
  lemma TestHeaderRead(previous: string)
    ensures ReadObo(Start(previous), TestHeaderLines()) == OboOutcome(Start("2018-03-08"), None)
  {
    var format, blank := "format-version: 1.2\n", "\n";
    FirstCharDiffers(format, MatchVersion);
    FirstCharDiffers(format, MatchTerm);
    FirstCharDiffers(format, MatchId);
    FirstCharDiffers(format, MatchName);
    FirstCharDiffers(blank, MatchVersion);
    FirstCharDiffers(blank, MatchTerm);
    FirstCharDiffers(blank, MatchId);
    FirstCharDiffers(blank, MatchName);
    var head, tail := "data-version: releases", "2018-03-08" + "\n";
    VersionOfLine(head, "2018-03-08", "\n");
    assert StartsWith(head, MatchVersion);
    StartsWithExtended(head, MatchVersion, "/");
    StartsWithExtended(head + "/", MatchVersion, tail);
    HeaderLinesRead(previous, format, head + "/" + tail, blank, "2018-03-08");
  }

  /** The other lines of the first term block are all in its body. */
  lemma TestFirstTermRestInBody()
    ensures forall j :: 0 <= j < |TestFirstTermRest()| ==> InTermBody(TestFirstTermRest()[j])
  {
    var rest := TestFirstTermRest();
    forall j | 0 <= j < |rest| ensures InTermBody(rest[j]) {
      if j == 0 { InTermBodyByFirstChars(rest[0]); }
      else if j == 1 { InTermBodyByFirstChars(rest[1]); }
      else if j == 2 { InTermBodyByFirstChars(rest[2]); }
      else if j == 3 { InTermBodyByFirstChars(rest[3]); }
      else { InTermBodyByFirstChars(rest[4]); }
    }
  }

  /** The other lines of the second term block are all in its body. */
  lemma TestSecondTermRestInBody()
    ensures forall j :: 0 <= j < |TestSecondTermRest()| ==> InTermBody(TestSecondTermRest()[j])
  {
    var rest := TestSecondTermRest();
    forall j | 0 <= j < |rest| ensures InTermBody(rest[j]) {
      if j == 0 { InTermBodyByFirstChars(rest[0]); }
      else if j == 1 { InTermBodyByFirstChars(rest[1]); }
      else if j == 2 { InTermBodyByFirstChars(rest[2]); }
      else if j == 3 { InTermBodyByFirstChars(rest[3]); }
      else if j == 4 { InTermBodyByFirstChars(rest[4]); }
      else if j == 5 { InTermBodyByFirstChars(rest[5]); }
      else { InTermBodyByFirstChars(rest[6]); }
    }
  }

  /**
    A block of `[Term]`, `id: <id>` and `name: <name>` lines, each ending in a newline,
    then lines in its body, records (id, name) when neither value starts with a
    character of its prefix or ends in whitespace.
  */
  lemma PlainBlockRecords(st: OboState, idValue: string, nameValue: string, rest: seq<string>)
    requires idValue != [] && idValue[0] !in CharSet(MatchId) && !IsSpace(idValue[0]) && !IsSpace(idValue[|idValue| - 1])
    requires nameValue != [] && nameValue[0] !in CharSet(MatchName) && !IsSpace(nameValue[0]) && !IsSpace(nameValue[|nameValue| - 1])
    requires forall j :: 0 <= j < |rest| ==> InTermBody(rest[j])
    ensures var out := ReadObo(st, [MatchTerm + "\n", MatchId + idValue + "\n", MatchName + nameValue + "\n"] + rest);
            out.error.None? && out.state.version == st.version && out.state.commits == st.commits + [(idValue, nameValue)]
  {
    FieldValueOfPlainLine(MatchId, idValue, "\n");
    FieldValueOfPlainLine(MatchName, nameValue, "\n");
    StartsWithPrefix(MatchTerm, "\n");
    StartsWithPrefixOfThree(MatchId, idValue, "\n");
    StartsWithPrefixOfThree(MatchName, nameValue, "\n");
    TermRecordsIdAndName(st, MatchTerm + "\n", MatchId + idValue + "\n", MatchName + nameValue + "\n", rest);
  }

  /** The first term block records `HP:0000008`. */
  lemma TestFirstTermRead(st: OboState)
    ensures ReadObo(st, TestFirstTermLines()).error.None? && ReadObo(st, TestFirstTermLines()).state.version == st.version
    ensures ReadObo(st, TestFirstTermLines()).state.commits
              == st.commits + [("HP:0000008", "Abnormality of female internal genitalia")]
  {
    TestFirstTermRestInBody();
    assert "HP:0000008"[0] !in CharSet(MatchId);
    assert "Abnormality of female internal genitalia"[0] !in CharSet(MatchName);
    PlainBlockRecords(st, "HP:0000008", "Abnormality of female internal genitalia", TestFirstTermRest());
  }

  /** The second term block records `HP:0000015`. */
  lemma TestSecondTermRead(st: OboState)
    ensures ReadObo(st, TestSecondTermLines()).error.None? && ReadObo(st, TestSecondTermLines()).state.version == st.version
    ensures ReadObo(st, TestSecondTermLines()).state.commits
              == st.commits + [("HP:0000015", "Bladder diverticulum")]
  {
    TestSecondTermRestInBody();
    assert "HP:0000015"[0] !in CharSet(MatchId);
    assert "Bladder diverticulum"[0] !in CharSet(MatchName);
    PlainBlockRecords(st, "HP:0000015", "Bladder diverticulum", TestSecondTermRest());
  }

  /**
    converters_test: reading the test file gives the version `2018-03-08`, whatever
    the version before, and the two terms' pairs in file order.
  */
  lemma TestFileRead(previous: string)
    ensures var out := ReadObo(Start(previous), TestHeaderLines() + TestFirstTermLines() + TestSecondTermLines());
            && out.error.None?
            && out.state.version == "2018-03-08"
            && out.state.commits == [("HP:0000008", "Abnormality of female internal genitalia"),
                                     ("HP:0000015", "Bladder diverticulum")]
  {
    var h, a, b := TestHeaderLines(), TestFirstTermLines(), TestSecondTermLines();
    var p := ("HP:0000008", "Abnormality of female internal genitalia");
    var q := ("HP:0000015", "Bladder diverticulum");
    TestHeaderRead(previous);
    ReadOboAppend(Start(previous), h, a);
    TestFirstTermRead(Start("2018-03-08"));
    var afterFirst := ReadObo(Start(previous), h + a);
    assert afterFirst.error.None? && afterFirst.state.version == "2018-03-08" && afterFirst.state.commits == [p];
    ReadOboAppend(Start(previous), h + a, b);
    TestSecondTermRead(afterFirst.state);
    assert [p] + [q] == [p, q];
  }

  /**
    converters_test: `id_to_name` and `name_to_id` over the tables read from the test
    file convert both terms, in order, with nothing missing.
  */
  lemma TestFileConversions(previous: string)
    ensures var commits := ReadObo(Start(previous), TestHeaderLines() + TestFirstTermLines() + TestSecondTermLines()).state.commits;
            && Conversion(Batch(["HP:0000008", "HP:0000015"]), Record(map[], commits), false)
                 == Values(["Abnormality of female internal genitalia", "Bladder diverticulum"], {})
            && Conversion(Batch(["Abnormality of female internal genitalia", "Bladder diverticulum"]), Record(map[], Swapped(commits)), false)
                 == Values(["HP:0000008", "HP:0000015"], {})
  {
    TestFileRead(previous);
    var p := ("HP:0000008", "Abnormality of female internal genitalia");
    var q := ("HP:0000015", "Bladder diverticulum");
    RecordTwo(map[], p, q);
    assert Swapped([p, q]) == [(p.1, p.0), (q.1, q.0)];
    RecordTwo(map[], (p.1, p.0), (q.1, q.0));
    TwoKeysFound(p.0, q.0, Record(map[], [p, q]));
    TwoKeysFound(p.1, q.1, Record(map[], Swapped([p, q])));
  }

  class PhenotypeConverter {
    var namesById: map<string, string>
    var idByNames: map<string, string>
    var hpoOboVersion: string

    /** Empty tables and version, as `__init__` sets them before reading the file. */
    constructor ()
      ensures namesById == map[] && idByNames == map[] && hpoOboVersion == ""
    {
      namesById := map[];
      idByNames := map[];
      hpoOboVersion := "";
    }

    /**
      `read_hpo_obo`: reads the lines of an OBO file into the tables. Each recorded
      (id, name) pair sets `names_by_id[id] = name` and `id_by_names[name] = id`. On an
      error the tables hold what the lines before the failing one recorded.
    */
    method ReadHpoObo(lines: seq<string>) returns (err: Option<PyError>)
      modifies this
      ensures var out := ReadObo(Start(old(hpoOboVersion)), lines);
              && err == out.error
              && hpoOboVersion == out.state.version
              && namesById == Record(old(namesById), out.state.commits)
              && idByNames == Record(old(idByNames), Swapped(out.state.commits))
    {
      var hpoId: Option<string> := None;
      var hpoName: Option<string> := None;
      var added := false;
      ghost var commits: seq<(string, string)> := [];
      ghost var start := Start(hpoOboVersion);
      ghost var names0, ids0 := namesById, idByNames;
      var i := 0;
      while i < |lines|
        invariant 0 <= i <= |lines|
        invariant ReadObo(start, lines[..i]) == OboOutcome(OboState(hpoOboVersion, hpoId, hpoName, added, commits), None)
        invariant namesById == Record(names0, commits)
        invariant idByNames == Record(ids0, Swapped(commits))
      {
        var line := lines[i];
        ghost var before := OboState(hpoOboVersion, hpoId, hpoName, added, commits);
        ReadOboNext(start, lines, i, before);
        i := i + 1;
        if StartsWith(line, MatchVersion) {
          var parts := Split(line, "/");
          if |parts| < 2 {
            ReadOboStopsAtError(start, lines, i);
            return Some(IndexError);
          }
          hpoOboVersion := RStrip(parts[1]);
        }
        if StartsWith(line, MatchTerm) {
          hpoId := None;
          hpoName := None;
          added := false;
        } else if added {
          continue;
        } else if StartsWith(line, MatchId) {
          hpoId := Some(FieldValue(line, MatchId));
        } else if StartsWith(line, MatchName) {
          hpoName := Some(FieldValue(line, MatchName));
        }
        if hpoId.Some? && hpoName.Some? {
          namesById := namesById[hpoId.value := hpoName.value];
          idByNames := idByNames[hpoName.value := hpoId.value];
          added := true;
          SwappedAppend(commits, (hpoId.value, hpoName.value));
          commits := commits + [(hpoId.value, hpoName.value)];
        }
      }
      assert lines[..i] == lines;
      err := None;
    }

    /** `id_to_name`: converts phenotype ids with the id -> name table. */
    method IdToName(hpoIds: Keys, includeNa: bool) returns (r: Converted)
      ensures r == Conversion(hpoIds, namesById, includeNa)
    {
      r := KeyToValue(hpoIds, namesById, includeNa);
    }

    /** `name_to_id`: converts phenotype names with the name -> id table. */
    method NameToId(hpoNames: Keys, includeNa: bool) returns (r: Converted)
      ensures r == Conversion(hpoNames, idByNames, includeNa)
    {
      r := KeyToValue(hpoNames, idByNames, includeNa);
    }
  }

  /** `PhenotypeConverter(hpo_obo)`: empty tables, then the file's lines read into them. */
  method NewPhenotypeConverter(lines: seq<string>) returns (c: PhenotypeConverter, err: Option<PyError>)
    ensures fresh(c)
    ensures var out := ReadObo(Start(""), lines);
            && err == out.error
            && c.hpoOboVersion == out.state.version
            && c.namesById == Record(map[], out.state.commits)
            && c.idByNames == Record(map[], Swapped(out.state.commits))
  {
    c := new PhenotypeConverter();
    err := c.ReadHpoObo(lines);
  }
}
