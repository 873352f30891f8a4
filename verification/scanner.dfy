/**
 * Line tokenisation as done by Go's `bufio.Scanner` with its default split
 * function `ScanLines`: tokens are separated by '\n', one trailing '\r' is
 * dropped from each token, and text after the last '\n' is a final token only
 * when it is non-empty.
 */
module Scanner {

  /** The pieces of `s` between '\n' characters (always at least one). */
  function Split(s: string): (pieces: seq<string>)
    ensures |pieces| >= 1
    ensures forall i :: 0 <= i < |pieces| ==> '\n' !in pieces[i]
    decreases |s|
  {
    if s == [] then [""]
    else
      var rest := Split(s[1..]);
      if s[0] == '\n' then [""] + rest
      else [[s[0]] + rest[0]] + rest[1..]
  }

  /** The pieces glued back together with '\n' between consecutive ones. */
  function Join(pieces: seq<string>): string
    requires |pieces| >= 1
  {
    if |pieces| == 1 then pieces[0] else pieces[0] + "\n" + Join(pieces[1..])
  }

  /** `s` without one trailing carriage return, if it has one. */
  function DropCR(s: string): (r: string)
    ensures |r| <= |s| && r == s[..|r|]
    ensures r == s <==> (s == [] || s[|s| - 1] != '\r')
    ensures r != s ==> |r| == |s| - 1
  {
    if s != [] && s[|s| - 1] == '\r' then s[..|s| - 1] else s
  }

  /** The tokens a `bufio.Scanner` with `ScanLines` yields for the text `s`, in order. */
  function ScanLines(s: string): (lines: seq<string>)
    ensures forall i :: 0 <= i < |lines| ==> '\n' !in lines[i]
  {
    var pieces := Split(s);
    var kept := if pieces[|pieces| - 1] == "" then pieces[..|pieces| - 1] else pieces;
    DropCRs(kept)
  }

  /** `DropCR` applied to every token. */
  function DropCRs(tokens: seq<string>): (r: seq<string>)
    ensures |r| == |tokens|
    ensures forall i :: 0 <= i < |tokens| ==> r[i] == DropCR(tokens[i])
  {
    if tokens == [] then [] else [DropCR(tokens[0])] + DropCRs(tokens[1..])
  }

  /** Splitting undoes joining: no text is lost or invented by `Split`. */
  lemma {:induction false} JoinSplit(s: string)
    ensures Join(Split(s)) == s
    decreases |s|
  {
    if s != [] {
      JoinSplit(s[1..]);
      var rest := Split(s[1..]);
      if s[0] == '\n' {
        assert ([""] + rest)[1..] == rest;
        assert s == "\n" + s[1..];
      } else if |rest| == 1 {
        assert s == [s[0]] + s[1..];
      } else {
        var head := [s[0]] + rest[0];
        assert ([head] + rest[1..])[1..] == rest[1..];
        assert Join(rest) == rest[0] + "\n" + Join(rest[1..]);
        assert s == [s[0]] + s[1..];
      }
    }
  }

  /** A newline-free prefix sticks to the first piece of what follows it. */
  lemma {:induction false} SplitPrefix(x: string, t: string)
    requires '\n' !in x
    ensures Split(x + t) == [x + Split(t)[0]] + Split(t)[1..]
    decreases |x|
  {
    if x == [] {
      var st := Split(t);
      assert x + t == t && x + st[0] == st[0];
      assert st == [st[0]] + st[1..];
    } else {
      var x' := x[1..];
      assert '\n' !in x' by {
        forall c | c in x' ensures c != '\n' {
          assert c in x;
        }
      }
      SplitPrefix(x', t);
      var st := Split(t);
      var rest := Split(x' + t);
      assert rest == [x' + st[0]] + st[1..];
      assert rest[0] == x' + st[0] && rest[1..] == st[1..];
      assert (x + t)[0] == x[0] && x[0] in x;
      assert (x + t)[1..] == x' + t;
      assert Split(x + t) == [[x[0]] + rest[0]] + rest[1..];
      assert x == [x[0]] + x';
      assert [x[0]] + (x' + st[0]) == x + st[0];
    }
  }

  /** Joining undoes splitting for pieces that hold no '\n'. */
  lemma {:induction false} SplitJoin(pieces: seq<string>)
    requires |pieces| >= 1
    requires forall i :: 0 <= i < |pieces| ==> '\n' !in pieces[i]
    ensures Split(Join(pieces)) == pieces
    decreases |pieces|
  {
    if |pieces| == 1 {
      SplitPrefix(pieces[0], "");
      assert pieces[0] + "" == pieces[0];
    } else {
      var tail := Join(pieces[1..]);
      SplitJoin(pieces[1..]);
      SplitPrefix(pieces[0], "\n" + tail);
      assert ("\n" + tail)[0] == '\n' && ("\n" + tail)[1..] == tail;
      var sn := Split("\n" + tail);
      assert sn == [""] + pieces[1..];
      assert sn[0] == "" && sn[1..] == pieces[1..];
      assert Join(pieces) == pieces[0] + ("\n" + tail);
      assert pieces[0] + "" == pieces[0];
      assert pieces == [pieces[0]] + pieces[1..];
    }
  }

  /**
   * Text made of lines each terminated by '\n' (and holding no '\n' or
   * trailing '\r' of their own) scans back into exactly those lines.
   */
  lemma ScanLinesTerminated(lines: seq<string>)
    requires forall i :: 0 <= i < |lines| ==> '\n' !in lines[i]
    requires forall i :: 0 <= i < |lines| ==> lines[i] == [] || lines[i][|lines[i]| - 1] != '\r'
    ensures ScanLines(Join(lines + [""])) == lines
  {
    var pieces := lines + [""];
    assert forall i :: 0 <= i < |pieces| ==> '\n' !in pieces[i] by {
      forall i | 0 <= i < |pieces| ensures '\n' !in pieces[i] {
        if i < |lines| { assert pieces[i] == lines[i]; }
      }
    }
    SplitJoin(pieces);
    assert pieces[..|pieces| - 1] == lines;
    DropCRsUnchanged(lines);
  }

  /** Tokens without a trailing '\r' are left as they are. */
  lemma DropCRsUnchanged(tokens: seq<string>)
    requires forall i :: 0 <= i < |tokens| ==> tokens[i] == [] || tokens[i][|tokens[i]| - 1] != '\r'
    ensures DropCRs(tokens) == tokens
  {
    var r := DropCRs(tokens);
    forall i | 0 <= i < |tokens| ensures r[i] == tokens[i] {
      assert DropCR(tokens[i]) == tokens[i];
    }
  }
}
