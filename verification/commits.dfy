/** The revision list: what a revision identifier is, and how the list is
    built from the output of the listing script (`create_commit_list`). */
module Commits {

  /** A revision identifier, a git commit hash kept as text. */
  type Hash = string

  /** No revision occurs twice in the list. */
  predicate Distinct(commits: seq<Hash>) {
    forall i, j :: 0 <= i < j < |commits| ==> commits[i] != commits[j]
  }

  /** True when `s` holds no line feed. */
  predicate OneLine(s: string) {
    forall k :: 0 <= k < |s| ==> s[k] != '\n'
  }

  /** The pieces of `s` between line feeds, first to last, empty ones
      included: a string with `n` line feeds has `n + 1` pieces. */
  function Pieces(s: string): (p: seq<string>)
    ensures |p| >= 1
    decreases |s|
  {
    if |s| == 0 then [""] else Prepend(s[0], Pieces(s[1..]))
  }

  /** The pieces of `[c] + t` from the pieces `rest` of `t`: a line feed
      opens a new empty first piece, any other character joins the first. */
  function Prepend(c: char, rest: seq<string>): (p: seq<string>)
    requires |rest| >= 1
    ensures |p| >= 1
  {
    if c == '\n' then [""] + rest else [[c] + rest[0]] + rest[1..]
  }

  /** No piece holds a line feed. */
  lemma {:induction false} PiecesAreLines(s: string)
    ensures forall i :: 0 <= i < |Pieces(s)| ==> OneLine(Pieces(s)[i])
    decreases |s|
  {
    if |s| > 0 {
      PiecesAreLines(s[1..]);
      var rest := Pieces(s[1..]);
      if s[0] != '\n' {
        assert OneLine([s[0]] + rest[0]) by {
          assert OneLine(rest[0]);
        }
      }
    }
  }

  lemma PrependAppend(c: char, a: seq<string>, b: seq<string>)
    requires |a| >= 1
    ensures Prepend(c, a + b) == Prepend(c, a) + b
  {
    assert (a + b)[0] == a[0];
    assert (a + b)[1..] == a[1..] + b;
  }

  /** Pieces glued back together with one line feed between neighbours. */
  function Join(p: seq<string>): string
    requires |p| >= 1
    decreases |p|
  {
    if |p| == 1 then p[0] else p[0] + "\n" + Join(p[1..])
  }

  /** The elements of `xs`, last first. */
  function Reverse<T>(xs: seq<T>): (r: seq<T>)
    ensures |r| == |xs|
    ensures forall i :: 0 <= i < |xs| ==> r[i] == xs[|xs| - 1 - i]
  {
    if |xs| == 0 then [] else Reverse(xs[1..]) + [xs[0]]
  }

  /** Reversing a list with one more element at its end puts that element first. */
  lemma {:induction false} ReverseSnoc<T>(xs: seq<T>, x: T)
    ensures Reverse(xs + [x]) == [x] + Reverse(xs)
    decreases |xs|
  {
    if |xs| > 0 {
      assert (xs + [x])[1..] == xs[1..] + [x];
      ReverseSnoc(xs[1..], x);
    }
  }

  /** The non-empty strings of `xs`, in their order. */
  function NonEmpty(xs: seq<string>): (r: seq<string>)
    ensures forall i :: 0 <= i < |r| ==> r[i] != ""
    ensures forall x :: x in r <==> x in xs && x != ""
  {
    if |xs| == 0 then []
    else
      var last := xs[|xs| - 1];
      assert xs == xs[..|xs| - 1] + [last];
      NonEmpty(xs[..|xs| - 1]) + (if last == "" then [] else [last])
  }

  /** A string without line feeds is a single piece. */
  lemma {:induction false} OneLineIsOnePiece(t: string)
    requires OneLine(t)
    ensures Pieces(t) == [t]
    decreases |t|
  {
    if |t| > 0 {
      assert OneLine(t[1..]) by {
        forall k | 0 <= k < |t[1..]| ensures t[1..][k] != '\n' {
          assert t[1..][k] == t[k + 1];
        }
      }
      OneLineIsOnePiece(t[1..]);
      assert [t[0]] + t[1..] == t;
    }
  }

  /** Splitting at a line feed: the pieces of `s` are the pieces before the
      line feed followed by the pieces after it. */
  lemma {:induction false} SplitAtLineFeed(s: string, k: nat)
    requires k < |s| && s[k] == '\n'
    ensures Pieces(s) == Pieces(s[..k]) + Pieces(s[k + 1..])
    decreases k
  {
    if k == 0 {
      assert s[..0] == "";
      assert s[1..] == s[k + 1..];
    } else {
      var t := s[1..];
      SplitAtLineFeed(t, k - 1);
      var a := Pieces(t[..k - 1]);
      var b := Pieces(t[k..]);
      assert t[k..] == s[k + 1..];
      assert s[..k][1..] == t[..k - 1];
      assert Pieces(s[..k]) == Prepend(s[0], a);
      PrependAppend(s[0], a, b);
    }
  }

  /** Peels the last line off `s`: what follows its last line feed. */
  lemma CutLastLine(s: string, k: nat)
    requires k < |s| && s[k] == '\n' && OneLine(s[k + 1..])
    ensures Pieces(s) == Pieces(s[..k]) + [s[k + 1..]]
  {
    SplitAtLineFeed(s, k);
    OneLineIsOnePiece(s[k + 1..]);
  }

  /** Joining the pieces of a string gives the string back. */
  lemma {:induction false} JoinPieces(s: string)
    ensures Join(Pieces(s)) == s
    decreases |s|
  {
    if |s| > 0 {
      JoinPieces(s[1..]);
      var rest := Pieces(s[1..]);
      assert Pieces(s) == Prepend(s[0], rest);
      if s[0] == '\n' {
        assert ([""] + rest)[1..] == rest;
        assert s == "\n" + s[1..];
      } else {
        var p := [[s[0]] + rest[0]] + rest[1..];
        if |rest| > 1 {
          assert p[1..] == rest[1..];
        }
        assert s == [s[0]] + s[1..];
      }
    }
  }

  /** Splitting a join of line-free strings gives those strings back. */
  lemma {:induction false} PiecesOfJoin(lines: seq<string>)
    requires |lines| >= 1
    requires forall i :: 0 <= i < |lines| ==> OneLine(lines[i])
    ensures Pieces(Join(lines)) == lines
    decreases |lines|
  {
    OneLineIsOnePiece(lines[0]);
    if |lines| > 1 {
      PiecesOfJoin(lines[1..]);
      JoinFirst(lines);
      SplitAtLineFeed(Join(lines), |lines[0]|);
      assert lines == [lines[0]] + lines[1..];
    }
  }

  /** A join of several pieces is the first piece, a line feed, and the join of the rest. */
  lemma JoinFirst(lines: seq<string>)
    requires |lines| > 1
    ensures var s := Join(lines); var k := |lines[0]|;
      && k < |s| && s[k] == '\n' && s[..k] == lines[0] && s[k + 1..] == Join(lines[1..])
  {
    var s := Join(lines);
    var k := |lines[0]|;
    assert s == lines[0] + "\n" + Join(lines[1..]);
    assert s[..k] == lines[0];
    assert s[k + 1..] == Join(lines[1..]);
  }

  /** Filtering distributes over concatenation. */
  lemma {:induction false} NonEmptyAppend(xs: seq<string>, ys: seq<string>)
    ensures NonEmpty(xs + ys) == NonEmpty(xs) + NonEmpty(ys)
    decreases |ys|
  {
    if |ys| == 0 {
      assert xs + ys == xs;
    } else {
      var n := |ys| - 1;
      assert (xs + ys)[..|xs + ys| - 1] == xs + ys[..n];
      NonEmptyAppend(xs, ys[..n]);
    }
  }

  /** Filtering a list with no empty string keeps all of it. */
  lemma {:induction false} NonEmptyKeepsAll(xs: seq<string>)
    requires forall i :: 0 <= i < |xs| ==> xs[i] != ""
    ensures NonEmpty(xs) == xs
    decreases |xs|
  {
    if |xs| > 0 {
      NonEmptyKeepsAll(xs[..|xs| - 1]);
      assert xs == xs[..|xs| - 1] + [xs[|xs| - 1]];
    }
  }

  /** The list built from the listing script's output (src/main.rs
      `create_commit_list`): the output is cut at line feeds scanning from
      its end, as `rsplit('\n')` does, and the empty pieces are dropped. */
  method CreateCommitList(stdout: string) returns (commits: seq<Hash>)
    ensures commits == NonEmpty(Reverse(Pieces(stdout)))
    ensures forall k :: 0 <= k < |commits| ==> commits[k] != "" && OneLine(commits[k])
  {
    commits := [];
    ghost var later: seq<string> := [];
    var i, j := |stdout|, |stdout|;
    assert stdout[..j] == stdout;
    assert Pieces(stdout) == Pieces(stdout[..j]) + later;
    while i > 0
      invariant 0 <= i <= j <= |stdout|
      invariant OneLine(stdout[i..j])
      invariant Pieces(stdout) == Pieces(stdout[..j]) + later
      invariant commits == NonEmpty(Reverse(later))
      decreases i
    {
      if stdout[i - 1] == '\n' {
        var piece := stdout[i..j];
        PeelLine(stdout, i - 1, j, later);
        ListOneMore(later, piece);
        if |piece| != 0 {
          commits := commits + [piece];
        }
        later := [piece] + later;
        j := i - 1;
        assert stdout[i - 1..j] == "";
      } else {
        assert stdout[i - 1..j] == [stdout[i - 1]] + stdout[i..j];
      }
      i := i - 1;
    }
    var piece := stdout[..j];
    assert stdout[0..j] == piece;
    OneLineIsOnePiece(piece);
    ListOneMore(later, piece);
    if |piece| != 0 {
      commits := commits + [piece];
    }
    later := [piece] + later;
    ListedAreLines(stdout);
  }

  /** One loop step of `CreateCommitList` on the pieces: the line after the
      line feed at `k` becomes the first of the pieces already taken. */
  lemma PeelLine(stdout: string, k: nat, j: nat, later: seq<string>)
    requires k < j <= |stdout| && stdout[k] == '\n' && OneLine(stdout[k + 1..j])
    requires Pieces(stdout) == Pieces(stdout[..j]) + later
    ensures Pieces(stdout) == Pieces(stdout[..k]) + ([stdout[k + 1..j]] + later)
  {
    var t := stdout[..j];
    assert t[..k] == stdout[..k];
    assert t[k + 1..] == stdout[k + 1..j];
    CutLastLine(t, k);
    AppendAssociates(Pieces(stdout[..k]), [stdout[k + 1..j]], later);
  }

  lemma AppendAssociates<T>(a: seq<T>, b: seq<T>, c: seq<T>)
    ensures (a + b) + c == a + (b + c)
  {
  }

  /** One loop step of `CreateCommitList` on the list: taking a piece in
      front of the pieces already taken adds it, when non-empty, at the end. */
  lemma ListOneMore(later: seq<string>, piece: string)
    ensures NonEmpty(Reverse([piece] + later)) == NonEmpty(Reverse(later)) + (if piece == "" then [] else [piece])
  {
    assert ([piece] + later)[1..] == later;
    NonEmptyAppend(Reverse(later), [piece]);
    assert [piece][..0] == [];
  }

  /** Every listed revision is a non-empty line of the output. */
  lemma ListedAreLines(stdout: string)
    ensures var listed := NonEmpty(Reverse(Pieces(stdout)));
      forall k :: 0 <= k < |listed| ==> listed[k] != "" && OneLine(listed[k])
  {
    var pieces := Pieces(stdout);
    PiecesAreLines(stdout);
    var listed := NonEmpty(Reverse(pieces));
    forall k | 0 <= k < |listed| ensures listed[k] != "" && OneLine(listed[k]) {
      assert listed[k] in Reverse(pieces);
      var i :| 0 <= i < |pieces| && Reverse(pieces)[i] == listed[k];
      assert listed[k] == pieces[|pieces| - 1 - i];
    }
  }

  /** Output holding one revision per line, each line ended by a line feed,
      yields those revisions in reverse order. */
  lemma ListingRoundTrip(hashes: seq<Hash>)
    requires forall i :: 0 <= i < |hashes| ==> hashes[i] != "" && OneLine(hashes[i])
    ensures NonEmpty(Reverse(Pieces(Join(hashes + [""])))) == Reverse(hashes)
  {
    TerminatedLines(hashes);
    PiecesOfJoin(hashes + [""]);
    ReverseSnoc(hashes, "");
    DropLeadingEmpty(Reverse(hashes));
  }

  /** Line-free revisions followed by the empty piece after the last line feed are all line-free. */
  lemma TerminatedLines(hashes: seq<Hash>)
    requires forall i :: 0 <= i < |hashes| ==> OneLine(hashes[i])
    ensures forall i :: 0 <= i < |hashes + [""]| ==> OneLine((hashes + [""])[i])
  {
    var lines := hashes + [""];
    forall i | 0 <= i < |lines| ensures OneLine(lines[i]) {
      if i < |hashes| { assert lines[i] == hashes[i]; }
    }
  }

  /** Filtering drops a leading empty string and keeps a list with no empty string. */
  lemma DropLeadingEmpty(xs: seq<string>)
    requires forall i :: 0 <= i < |xs| ==> xs[i] != ""
    ensures NonEmpty([""] + xs) == xs
  {
    NonEmptyAppend([""], xs);
    assert NonEmpty([""]) == [] by {
      assert [""][..0] == [];
    }
    NonEmptyKeepsAll(xs);
  }
}
