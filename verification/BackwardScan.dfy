/**
 LastModel (internal/crewcli/model.go): the newest recognised line of a file,
 found by reading the file backward in bounded chunks.
 */
module BackwardScan {

  const NEWLINE: char := '\n'

  /** The lines of a text, as bytes.Split on a newline gives them: never empty. */
  function Lines(s: string): (r: seq<string>)
    ensures |r| >= 1
  {
    if s == [] then [[]] else Before(s[0], Lines(s[1..]))
  }

  /** The lines of a text with one more character in front. */
  function Before(c: char, lines: seq<string>): (r: seq<string>)
    requires |lines| >= 1
    ensures |r| >= 1
  {
    if c == NEWLINE then [[]] + lines else [[c] + lines[0]] + lines[1..]
  }

  lemma BeforeAppend(c: char, xs: seq<string>, ys: seq<string>)
    requires |xs| >= 1
    ensures Before(c, xs + ys) == Before(c, xs) + ys
  {
    assert (xs + ys)[1..] == xs[1..] + ys;
  }

  /** Lines put back together with newlines between them. */
  function Join(lines: seq<string>): string
    requires |lines| >= 1
  {
    if |lines| == 1 then lines[0] else lines[0] + [NEWLINE] + Join(lines[1..])
  }

  lemma {:induction false} JoinBefore(c: char, lines: seq<string>)
    requires |lines| >= 1
    ensures Join(Before(c, lines)) == [c] + Join(lines)
  {
    if c == NEWLINE {
      assert ([[]] + lines)[1..] == lines;
    } else {
      var r := Before(c, lines);
      assert r[0] == [c] + lines[0] && r[1..] == lines[1..];
      if |lines| > 1 {
        var tail := [NEWLINE] + Join(lines[1..]);
        assert Join(r) == r[0] + tail by { assert r[0] + [NEWLINE] + Join(r[1..]) == r[0] + tail; }
        assert Join(lines) == lines[0] + tail by { assert lines[0] + [NEWLINE] + Join(lines[1..]) == lines[0] + tail; }
        assert [c] + lines[0] + tail == [c] + (lines[0] + tail);
      }
    }
  }

  /** Lines is splitting: no line holds a newline, and joining gives the text back. */
  lemma {:induction false} LinesAreTheText(s: string)
    ensures Join(Lines(s)) == s
    ensures forall i :: 0 <= i < |Lines(s)| ==> NEWLINE !in Lines(s)[i]
  {
    if s != [] {
      LinesAreTheText(s[1..]);
      JoinBefore(s[0], Lines(s[1..]));
      assert s == [s[0]] + s[1..];
    }
  }

  /** The extractor's value on the last line where it is not empty, or "". */
  function LastOf(extract: string -> string, lines: seq<string>): string {
    if lines == [] then ""
    else if extract(lines[|lines| - 1]) != "" then extract(lines[|lines| - 1])
    else LastOf(extract, lines[..|lines| - 1])
  }

  // Prepending text only changes the first line of what follows it.
  lemma {:induction false} LinesPrepend(a: string, b: string)
    ensures Lines(a + b) == Lines(a + Lines(b)[0]) + Lines(b)[1..]
  {
    if a == [] {
      assert a + b == b && a + Lines(b)[0] == Lines(b)[0];
      FirstLineIsOne(b);
    } else {
      var first, rest := Lines(b)[0], Lines(b)[1..];
      calc {
        Lines(a + b);
        { assert (a + b)[1..] == a[1..] + b; }
        Before(a[0], Lines(a[1..] + b));
        { LinesPrepend(a[1..], b); }
        Before(a[0], Lines(a[1..] + first) + rest);
        { BeforeAppend(a[0], Lines(a[1..] + first), rest); }
        Before(a[0], Lines(a[1..] + first)) + rest;
        { assert (a + first)[1..] == a[1..] + first; }
        Lines(a + first) + rest;
      }
    }
  }

  lemma {:induction false} FirstLineIsOne(b: string)
    ensures Lines(Lines(b)[0]) == [Lines(b)[0]]
  {
    if b != [] && b[0] != NEWLINE {
      FirstLineIsOne(b[1..]);
      var first := Lines(b)[0];
      assert first[1..] == Lines(b[1..])[0];
    }
  }

  lemma {:induction false} LastOfAppend(extract: string -> string, xs: seq<string>, ys: seq<string>)
    ensures LastOf(extract, xs + ys) == if LastOf(extract, ys) != "" then LastOf(extract, ys) else LastOf(extract, xs)
  {
    if ys == [] {
      assert xs + ys == xs;
    } else {
      assert (xs + ys)[..|xs + ys| - 1] == xs + ys[..|ys| - 1];
      LastOfAppend(extract, xs, ys[..|ys| - 1]);
    }
  }

  lemma LastAt(extract: string -> string, xs: seq<string>, k: nat)
    requires k < |xs| && extract(xs[k]) != "" && LastOf(extract, xs[k + 1..]) == ""
    ensures LastOf(extract, xs) == extract(xs[k])
  {
    assert xs == xs[..k + 1] + xs[k + 1..];
    LastOfAppend(extract, xs[..k + 1], xs[k + 1..]);
  }

  // A line found in a suffix is the file's last, unless it may continue to the left.
  lemma FoundInSuffix(extract: string -> string, file: string, start: nat, all: seq<string>, k: nat)
    requires start <= |file| && all == Lines(file[start..]) && k < |all| && (start > 0 ==> k > 0)
    requires extract(all[k]) != "" && LastOf(extract, all[k + 1..]) == ""
    ensures LastOf(extract, Lines(file)) == extract(all[k])
  {
    if start == 0 {
      assert file[start..] == file;
      LastAt(extract, all, k);
    } else {
      assert file == file[..start] + file[start..];
      LinesPrepend(file[..start], file[start..]);
      var left := Lines(file[..start] + all[0]);
      LastAt(extract, all[1..], k - 1) by {
        assert all[1..][k..] == all[k + 1..];
      }
      LastOfAppend(extract, left, all[1..]);
    }
  }

  /**
   The chunked backward read. The file's bytes, the chunk size and the line
   extractor are arbitrary; the source fixes the chunk at 1 MiB.
   */
  method LastModel(file: string, chunk: nat, extract: string -> string) returns (model: string)
    requires chunk > 0
    ensures file != [] ==> model == LastOf(extract, Lines(file))
    ensures file == [] ==> model == ""
  {
    var carry: string := "";
    var end := |file|;
    while end > 0
      invariant 0 <= end <= |file|
      invariant end == 0 && file != [] ==> LastOf(extract, Lines(file)) == ""
      invariant end > 0 ==> carry == Lines(file[end..])[0] && LastOf(extract, Lines(file[end..])[1..]) == ""
    {
      var start := if end > chunk then end - chunk else 0;
      var lines := Lines(file[start..end] + carry);
      ghost var all := Lines(file[start..]);
      ghost var seen := Lines(file[end..])[1..];
      assert all == lines + seen by {
        assert file[start..] == file[start..end] + file[end..];
        LinesPrepend(file[start..end], file[end..]);
      }
      var first := 0;
      if start > 0 {
        first := 1;
        carry := lines[0];
      }
      var i := |lines|;
      assert all[i..] == seen;
      while i > first
        invariant first <= i <= |lines|
        invariant LastOf(extract, all[i..]) == ""
      {
        i := i - 1;
        model := extract(lines[i]);
        if model != "" {
          FoundInSuffix(extract, file, start, all, i);
          return;
        }
        assert all[i..] == [lines[i]] + all[i + 1..];
        LastOfAppend(extract, [lines[i]], all[i + 1..]);
      }
      end := start;
      assert start == 0 ==> file[start..] == file && all[0..] == all;
    }
    model := "";
  }

  /**
   The one file the reading above does not speak for: an empty one has a single
   empty line, which is never offered to the extractor.
   */
  lemma EmptyFileHasOneUnreadLine(extract: string -> string)
    ensures LastOf(extract, Lines("")) == extract("")
  {
    var e: string := "";
    assert Lines(e) == [e];
    assert [e][..0] == [];
    assert LastOf(extract, []) == "";
  }
}
