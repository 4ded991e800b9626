/**
  The parts of Python's `str` and `list` behaviour the modelled code relies on:
  `startswith`, `split`, `join`, `strip`, `rstrip`, `lstrip(chars)` and indexing
  (negative indices included). Strings are sequences of Unicode code points.
*/
module PyStr {
  import opened Results

  /** `s.startswith(prefix)` */
  predicate StartsWith(s: string, prefix: string) {
    |prefix| <= |s| && s[..|prefix|] == prefix
  }

  /** The characters Python's `str.isspace` accepts, hence what `strip()` removes. */
  predicate IsSpace(c: char) {
    || c == '\t' || c == '\n' || c == '\U{0B}' || c == '\U{0C}' || c == '\r'
    || ('\U{1C}' <= c <= '\U{1F}') || c == ' ' || c == '\U{85}' || c == '\U{A0}'
    || c == '\U{1680}' || ('\U{2000}' <= c <= '\U{200A}') || c == '\U{2028}' || c == '\U{2029}'
    || c == '\U{202F}' || c == '\U{205F}' || c == '\U{3000}'
  }

  /** `s.lstrip(chars)`: drops the longest prefix made of characters of `chars`. */
  function LStripChars(s: string, chars: set<char>): (r: string)
    ensures |r| <= |s| && r == s[|s| - |r|..]
    ensures forall i :: 0 <= i < |s| - |r| ==> s[i] in chars
    ensures r == [] || r[0] !in chars
    decreases |s|
  {
    if |s| > 0 && s[0] in chars then LStripChars(s[1..], chars) else s
  }

  /** `s.rstrip()`: drops trailing whitespace. */
  function RStrip(s: string): (r: string)
    ensures |r| <= |s| && r == s[..|r|]
    ensures forall i :: |r| <= i < |s| ==> IsSpace(s[i])
    ensures r == [] || !IsSpace(r[|r| - 1])
    decreases |s|
  {
    if |s| > 0 && IsSpace(s[|s| - 1]) then RStrip(s[..|s| - 1]) else s
  }

  /** The characters `strip()` removes, as a set. */
  function Spaces(): set<char> {
    set c: char | IsSpace(c)
  }

  /** How many whitespace characters `s.strip()` removes at the front. */
  function LeadingSpaces(s: string): (n: nat)
    ensures n <= |s|
    ensures forall i :: 0 <= i < n ==> IsSpace(s[i])
    ensures n == |s| || !IsSpace(s[n])
  {
    |s| - |LStripChars(s, Spaces())|
  }

  /** `s.strip()`: drops leading and trailing whitespace. */
  function Strip(s: string): (r: string)
    ensures LeadingSpaces(s) + |r| <= |s|
    ensures r == s[LeadingSpaces(s)..LeadingSpaces(s) + |r|]
    ensures forall i :: LeadingSpaces(s) + |r| <= i < |s| ==> IsSpace(s[i])
    ensures r == [] || (!IsSpace(r[0]) && !IsSpace(r[|r| - 1]))
  {
    RStrip(LStripChars(s, Spaces()))
  }

  /** `sep.join(parts)` */
  function Join(parts: seq<string>, sep: string): string {
    if |parts| == 0 then []
    else if |parts| == 1 then parts[0]
    else parts[0] + sep + Join(parts[1..], sep)
  }

  /**
    `s.split(sep)` for a non-empty separator: cuts at every occurrence of `sep`,
    scanning left to right without overlaps; joining the pieces gives back `s`.
  */
  function Split(s: string, sep: string): (r: seq<string>)
    requires sep != []
    ensures |r| >= 1
    ensures Join(r, sep) == s
    decreases |s|
  {
    if |s| < |sep| then [s]
    else if s[..|sep|] == sep then
      var rest := Split(s[|sep|..], sep);
      assert s == sep + s[|sep|..];
      [[]] + rest
    else
      var rest := Split(s[1..], sep);
      assert s == [s[0]] + s[1..];
      [[s[0]] + rest[0]] + rest[1..]
  }

  /** `xs[i]` for a Python list: negative indices count from the end; out of range is an IndexError. */
  function At<T>(xs: seq<T>, i: int): (r: Result<T, PyError>)
    ensures r.Ok? <==> -|xs| <= i < |xs|
    ensures 0 <= i < |xs| ==> r == Ok(xs[i])
    ensures -|xs| <= i < 0 ==> r == Ok(xs[|xs| + i])
  {
    if 0 <= i < |xs| then Ok(xs[i])
    else if -|xs| <= i < 0 then Ok(xs[|xs| + i])
    else Err(IndexError)
  }

  /** A separator that does not occur in `s` leaves it whole. */
  lemma {:induction false} SplitWithoutSeparator(s: string, sep: char)
    requires sep !in s
    ensures Split(s, [sep]) == [s]
    decreases |s|
  {
    if |s| >= 1 {
      SplitWithoutSeparator(s[1..], sep);
    }
  }

  /** Splitting on one character: the pieces are the maximal runs free of it. */
  lemma {:induction false} SplitPiecesAvoidSeparator(s: string, sep: char)
    ensures forall k :: 0 <= k < |Split(s, [sep])| ==> sep !in Split(s, [sep])[k]
    decreases |s|
  {
    if |s| >= 1 {
      SplitPiecesAvoidSeparator(s[1..], sep);
    }
  }

  /** Splitting on one character gives a single piece exactly when the character does not occur. */
  lemma SplitSinglePiece(s: string, sep: char)
    ensures |Split(s, [sep])| == 1 <==> sep !in s
  {
    if sep !in s {
      SplitWithoutSeparator(s, sep);
    } else {
      SplitPiecesAvoidSeparator(s, sep);
    }
  }

  /** Splitting at the first occurrence of a one-character separator. */
  lemma {:induction false} SplitAtFirst(a: string, b: string, sep: char)
    requires sep !in a
    ensures Split(a + [sep] + b, [sep]) == [a] + Split(b, [sep])
    decreases |a|
  {
    if a == [] {
      assert (a + [sep] + b)[..1] == [sep];
      assert (a + [sep] + b)[1..] == b;
    } else {
      assert (a + [sep] + b)[1..] == a[1..] + [sep] + b;
      SplitAtFirst(a[1..], b, sep);
      assert [a[0]] + a[1..] == a;
    }
  }

  /** `lstrip(chars)` removes exactly a leading run of `chars` that is followed by another character. */
  lemma {:induction false} LStripCharsRun(run: string, rest: string, chars: set<char>)
    requires forall i :: 0 <= i < |run| ==> run[i] in chars
    requires rest == [] || rest[0] !in chars
    ensures LStripChars(run + rest, chars) == rest
    decreases |run|
  {
    if run != [] {
      assert (run + rest)[1..] == run[1..] + rest;
      LStripCharsRun(run[1..], rest, chars);
    }
  }

  /** `rstrip()` removes exactly a trailing run of whitespace preceded by another character. */
  lemma {:induction false} RStripRun(body: string, run: string)
    requires forall i :: 0 <= i < |run| ==> IsSpace(run[i])
    requires body == [] || !IsSpace(body[|body| - 1])
    ensures RStrip(body + run) == body
    decreases |run|
  {
    if run != [] {
      assert (body + run)[..|body + run| - 1] == body + run[..|run| - 1];
      RStripRun(body, run[..|run| - 1]);
    }
  }

  /** `strip()` of a string padded with whitespace on both sides gives the unpadded string back. */
  lemma StripPadded(front: string, body: string, back: string)
    requires forall i :: 0 <= i < |front| ==> IsSpace(front[i])
    requires forall i :: 0 <= i < |back| ==> IsSpace(back[i])
    requires body == [] || (!IsSpace(body[0]) && !IsSpace(body[|body| - 1]))
    ensures Strip(front + body + back) == body
  {
    if body == [] {
      assert front + body + back == front + back;
      forall i | 0 <= i < |front + back| ensures (front + back)[i] in Spaces() {
        if i < |front| { assert (front + back)[i] == front[i]; } else { assert (front + back)[i] == back[i - |front|]; }
      }
      LStripCharsRun(front + back, [], Spaces());
      assert front + back + [] == front + back;
    } else {
      assert front + body + back == front + (body + back);
      LStripCharsRun(front, body + back, Spaces());
      RStripRun(body, back);
    }
  }

  /** `strip()` leaves a string without surrounding whitespace as it is. */
  lemma StripUnpadded(s: string)
    requires s == [] || (!IsSpace(s[0]) && !IsSpace(s[|s| - 1]))
    ensures Strip(s) == s
  {
    StripPadded("", s, "");
    assert "" + s + "" == s;
  }

  /** `strip()` removes a line's newline. */
  lemma StripNewline(s: string)
    requires s == [] || (!IsSpace(s[0]) && !IsSpace(s[|s| - 1]))
    ensures Strip(s + "\n") == s
  {
    StripPadded("", s, "\n");
    assert "" + s + "\n" == s + "\n";
  }

  /** Cutting a tab-separated line at its first tab. */
  lemma TabCut(column: string, rest: string)
    requires '\t' !in column
    ensures Split(column + "\t" + rest, "\t") == [column] + Split(rest, "\t")
  {
    assert column + "\t" + rest == column + ['\t'] + rest;
    SplitAtFirst(column, rest, '\t');
  }

  /** Splitting a join on a one-character separator the parts avoid gives the parts back. */
  lemma {:induction false} SplitJoin(parts: seq<string>, sep: char)
    requires |parts| >= 1
    requires forall k :: 0 <= k < |parts| ==> sep !in parts[k]
    ensures Split(Join(parts, [sep]), [sep]) == parts
    decreases |parts|
  {
    if |parts| == 1 {
      SplitWithoutSeparator(parts[0], sep);
    } else {
      SplitJoin(parts[1..], sep);
      SplitAtFirst(parts[0], Join(parts[1..], [sep]), sep);
      assert [parts[0]] + parts[1..] == parts;
    }
  }

  /**
    The lines that do not start with `marker`, in order: the lines a loop reaches
    when it skips those that do with `if line.startswith(marker): continue`.
  */
  function Uncommented(lines: seq<string>, marker: string): (r: seq<string>)
    ensures |r| <= |lines|
    decreases |lines|
  {
    if lines == [] then []
    else
      var last := lines[|lines| - 1];
      Uncommented(lines[..|lines| - 1], marker) + (if StartsWith(last, marker) then [] else [last])
  }

  /** The uncommented lines of a concatenation are those of its parts. */
  lemma {:induction false} UncommentedAppend(a: seq<string>, b: seq<string>, marker: string)
    ensures Uncommented(a + b, marker) == Uncommented(a, marker) + Uncommented(b, marker)
    decreases |b|
  {
    if b == [] {
      assert a + b == a;
    } else {
      var init := b[..|b| - 1];
      UncommentedAppend(a, init, marker);
      assert (a + b)[..|a + b| - 1] == a + init;
    }
  }

  /** One more line: it is kept unless it starts with the marker. */
  lemma UncommentedNext(lines: seq<string>, i: nat, marker: string)
    requires i < |lines|
    ensures Uncommented(lines[..i + 1], marker)
              == Uncommented(lines[..i], marker) + (if StartsWith(lines[i], marker) then [] else [lines[i]])
  {
    assert lines[..i + 1][..i] == lines[..i];
  }
}
