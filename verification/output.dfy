/**
 * `parseOutput`: the standard output of `VBoxManage` read line by line, each
 * line matched against the regular expression `(.*): *(.*)` and the two
 * submatches stored as key and value in a map, a later line overwriting an
 * earlier one with the same key.
 */
module OutputParser {
  import opened Wrappers
  import opened Text
  import opened Scanner

  datatype Entry = Entry(key: string, value: string)

  /**
   * `(.*): *(.*)` matches `line` from its first character with `key` as the
   * first submatch, `n` spaces after the colon and `value` as the second
   * submatch. Go's `.` matches any character but '\n'.
   */
  ghost predicate IsMatchAt0(line: string, key: string, n: nat, value: string) {
    var colon, start := |key|, |key| + 1 + n;
    && start + |value| <= |line|
    && line[..colon] == key
    && line[colon] == ':'
    && (forall i :: colon < i < start ==> line[i] == ' ')
    && line[start..start + |value|] == value
    && '\n' !in key && '\n' !in value
  }

  /**
   * The submatches `FindStringSubmatch` reports for `(.*): *(.*)` on `line`:
   * see `MatchLineKey`, `MatchLineValue` and `MatchLinePreferred`.
   */
  function MatchLine(line: string): Option<Entry> {
    var colon := LastIndexOf(line, ':');
    if colon.None? then None
    else Some(Entry(line[..colon.value], line[SkipSpaces(line, colon.value + 1)..]))
  }

  /**
   * A line matches exactly when it holds a colon, and the key is everything
   * before its last colon.
   */
  lemma MatchLineKey(line: string)
    ensures MatchLine(line).None? <==> ':' !in line
    ensures MatchLine(line).Some? ==>
      var k := MatchLine(line).value.key;
      && |k| < |line| && line[..|k|] == k && line[|k|] == ':'
      && forall j :: |k| < j < |line| ==> line[j] != ':'
  {
    var colon := LastIndexOf(line, ':');
    if colon.Some? {
      assert MatchLine(line).value.key == line[..colon.value];
    }
  }

  /**
   * The value is the text after the key's colon with its leading spaces
   * skipped; trailing text, spaces included, is kept.
   */
  lemma MatchLineValue(line: string)
    requires MatchLine(line).Some?
    ensures var k, v := MatchLine(line).value.key, MatchLine(line).value.value;
      && |k| + 1 + |v| <= |line| && v == line[|line| - |v|..]
      && (forall i :: |k| < i < |line| - |v| ==> line[i] == ' ')
      && (v == [] || v[0] != ' ')
  {
    var i := LastIndexOf(line, ':').value;
    var j := SkipSpaces(line, i + 1);
    assert MatchLine(line).value == Entry(line[..i], line[j..]);
  }

  /** The key `line` stores under, if it matches at all. */
  function KeyOf(line: string): Option<string> {
    match MatchLine(line)
    case Some(e) => Some(e.key)
    case None => None
  }

  /** One step of `parseOutput`: the map after `line` has been read. */
  function Store(info: map<string, string>, line: string): map<string, string> {
    match MatchLine(line)
    case Some(e) => info[e.key := e.value]
    case None => info
  }

  /** The map after reading `lines` in order, starting from the empty map. */
  function Parsed(lines: seq<string>): map<string, string>
    decreases |lines|
  {
    if lines == [] then map[] else Store(Parsed(lines[..|lines| - 1]), lines[|lines| - 1])
  }

  /** Reading one more line is one more `Store`. */
  lemma ParsedPrefix(lines: seq<string>, i: nat)
    requires i < |lines|
    ensures Parsed(lines[..i + 1]) == Store(Parsed(lines[..i]), lines[i])
  {
    assert lines[..i + 1][..i] == lines[..i];
  }

  /** `parseOutput(out)`. */
  method ParseOutput(out: string) returns (info: map<string, string>)
    ensures info == Parsed(ScanLines(out))
  {
    var lines := ScanLines(out);
    info := map[];
    var i := 0;
    while i < |lines|
      invariant 0 <= i <= |lines|
      invariant info == Parsed(lines[..i])
    {
      var line := lines[i];
      ParsedPrefix(lines, i);
      var m := MatchLine(line);
      if m.Some? {
        info := info[m.value.key := m.value.value];
      }
      i := i + 1;
    }
    assert lines[..|lines|] == lines;
  }

  /**
   * Among all the ways `(.*): *(.*)` can match `line` from its first
   * character, `MatchLine` reports the one Go's leftmost-first matcher
   * prefers: the longest key, then the most spaces, then the longest value.
   */
  lemma MatchLinePreferred(line: string, key: string, n: nat, value: string)
    requires '\n' !in line
    requires IsMatchAt0(line, key, n, value)
    ensures MatchLine(line).Some?
    ensures var e := MatchLine(line).value;
      var spaces := |line| - |e.key| - 1 - |e.value|;
      && spaces >= 0
      && IsMatchAt0(line, e.key, spaces, e.value)
      && |key| <= |e.key|
      && (|key| == |e.key| ==> n <= spaces)
      && (|key| == |e.key| && n == spaces ==> |value| <= |e.value|)
  {
    assert line[|key|] == ':';
    MatchLineKey(line);
    MatchLineValue(line);
    var e := MatchLine(line).value;
    var i := |e.key|;
    var start := |line| - |e.value|;
    assert |key| <= i;
    assert line[start..start + |e.value|] == e.value;
    assert '\n' !in e.key by {
      forall c | c in e.key ensures c != '\n' { assert c in line; }
    }
    assert '\n' !in e.value by {
      forall c | c in e.value ensures c != '\n' { assert c in line; }
    }
  }

  /** Reading `a` then `b` gives the map for `a` overridden by the map for `b`. */
  lemma {:induction false} ParsedAppend(a: seq<string>, b: seq<string>)
    ensures Parsed(a + b) == Parsed(a) + Parsed(b)
    decreases |b|
  {
    if b == [] {
      assert a + b == a;
    } else {
      var b' := b[..|b| - 1];
      var last := b[|b| - 1];
      ParsedAppend(a, b');
      assert (a + b)[..|a + b| - 1] == a + b';
      assert (a + b)[|a + b| - 1] == last;
      StoreUnion(Parsed(a), Parsed(b'), last);
    }
  }

  lemma StoreUnion(m1: map<string, string>, m2: map<string, string>, line: string)
    ensures Store(m1 + m2, line) == m1 + Store(m2, line)
  {
    match MatchLine(line)
    case None =>
    case Some(e) =>
      UnionUpdate(m1, m2, e.key, e.value);
  }

  lemma UnionUpdate(m1: map<string, string>, m2: map<string, string>, k: string, v: string)
    ensures (m1 + m2)[k := v] == m1 + m2[k := v]
  {
  }

  /** A line without a colon changes nothing, wherever it stands. */
  lemma ParsedSkipsColonless(a: seq<string>, line: string, b: seq<string>)
    requires ':' !in line
    ensures Parsed(a + [line] + b) == Parsed(a + b)
  {
    ParsedAppend(a + [line], b);
    ParsedAppend(a, b);
    assert (a + [line])[..|a|] == a;
  }

  /**
   * Reading a line sets the key it matches, if any, to its value and leaves
   * every other key as it was.
   */
  lemma StoreEffect(info: map<string, string>, line: string, k: string)
    ensures k in Store(info, line) <==> k in info || KeyOf(line) == Some(k)
    ensures KeyOf(line) == Some(k) ==> Store(info, line)[k] == MatchLine(line).value.value
    ensures KeyOf(line) != Some(k) && k in info ==> Store(info, line)[k] == info[k]
  {
  }

  /** A key no line matches is not in the map. */
  lemma {:induction false} ParsedNoKey(lines: seq<string>, k: string)
    requires forall j :: 0 <= j < |lines| ==> KeyOf(lines[j]) != Some(k)
    ensures k !in Parsed(lines)
    decreases |lines|
  {
    if lines != [] {
      var n := |lines| - 1;
      ParsedPrefix(lines, n);
      assert lines[..n + 1] == lines;
      ParsedNoKey(lines[..n], k);
      StoreEffect(Parsed(lines[..n]), lines[n], k);
    }
  }

  /** Every key of a matching line ends up in the map. */
  lemma ParsedHasKey(lines: seq<string>, i: nat)
    requires i < |lines| && KeyOf(lines[i]).Some?
    ensures KeyOf(lines[i]).value in Parsed(lines)
  {
    var k := KeyOf(lines[i]).value;
    assert lines == lines[..i + 1] + lines[i + 1..];
    ParsedAppend(lines[..i + 1], lines[i + 1..]);
    ParsedPrefix(lines, i);
    StoreEffect(Parsed(lines[..i]), lines[i], k);
  }

  /** Line `i` is the last of `lines` that matches with key `k`. */
  ghost predicate IsLastWithKey(lines: seq<string>, i: int, k: string) {
    && 0 <= i < |lines|
    && KeyOf(lines[i]) == Some(k)
    && forall j :: i < j < |lines| ==> KeyOf(lines[j]) != Some(k)
  }

  /** The map for `lines` is line `i`'s step on the map before it, overridden by the map after it. */
  lemma ParsedSplitAt(lines: seq<string>, i: nat)
    requires i < |lines|
    ensures Parsed(lines) == Store(Parsed(lines[..i]), lines[i]) + Parsed(lines[i + 1..])
  {
    assert lines == lines[..i + 1] + lines[i + 1..];
    ParsedAppend(lines[..i + 1], lines[i + 1..]);
    ParsedPrefix(lines, i);
  }

  /**
   * When a key occurs on several lines, the map holds the value from the last
   * of them.
   */
  lemma ParsedLastWins(lines: seq<string>, i: nat, k: string)
    requires IsLastWithKey(lines, i, k)
    ensures k in Parsed(lines) && Parsed(lines)[k] == MatchLine(lines[i]).value.value
  {
    var later := lines[i + 1..];
    forall j | 0 <= j < |later| ensures KeyOf(later[j]) != Some(k) {
      assert later[j] == lines[i + 1 + j];
    }
    ParsedNoKey(later, k);
    ParsedSplitAt(lines, i);
    StoreEffect(Parsed(lines[..i]), lines[i], k);
  }

  /**
   * Every key in the map comes from a matching line, and its value is the one
   * on the last line with that key.
   */
  lemma {:induction false} ParsedSound(lines: seq<string>, k: string)
    requires k in Parsed(lines)
    ensures exists i :: IsLastWithKey(lines, i, k) && MatchLine(lines[i]).value.value == Parsed(lines)[k]
    decreases |lines|
  {
    var n := |lines| - 1;
    var init := lines[..n];
    ParsedPrefix(lines, n);
    assert lines[..n + 1] == lines;
    StoreEffect(Parsed(init), lines[n], k);
    if KeyOf(lines[n]) == Some(k) {
      assert IsLastWithKey(lines, n, k);
    } else {
      ParsedSound(init, k);
      var i :| IsLastWithKey(init, i, k) && MatchLine(init[i]).value.value == Parsed(init)[k];
      assert lines[i] == init[i];
      forall j | i < j < |lines| ensures KeyOf(lines[j]) != Some(k) {
        if j < n { assert lines[j] == init[j]; }
      }
      assert IsLastWithKey(lines, i, k);
    }
  }

  /** A value that itself holds a colon is split at that colon, not at the first one. */
  lemma ColonInValueExample()
    ensures MatchLine("Time: 12:30") == Some(Entry("Time: 12", "30"))
  {
    var line := "Time: 12:30";
    MatchLineKey(line);
    MatchLineValue(line);
    assert line[8] == ':' && line[9] != ' ';
    var e := MatchLine(line).value;
    assert |e.key| == 8;
    assert e.key == line[..8] == "Time: 12";
    assert |e.value| == 2;
    assert e.value == line[9..] == "30";
  }

  /** Spaces after the colon are skipped; trailing spaces stay in the value. */
  lemma TrailingSpaceExample()
    ensures MatchLine("Name:   vm1 ") == Some(Entry("Name", "vm1 "))
  {
    var line := "Name:   vm1 ";
    assert line[4] == ':' && line[5] == line[6] == line[7] == ' ' && line[8] == 'v';
    assert forall j :: 4 < j < |line| ==> line[j] != ':';
    MatchLineKey(line);
    MatchLineValue(line);
    var e := MatchLine(line).value;
    assert |e.key| == 4;
    assert e.key == line[..4] == "Name";
    assert |e.value| == 4;
    assert e.value == line[8..] == "vm1 ";
  }
}
