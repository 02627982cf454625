/** Splitting text into `\n`-separated lines, as `text.split('\n')` does, and the split of a
    stream's text into the lines it has terminated and the unterminated tail. */
module Lines {

  predicate NoNewline(s: string) {
    forall i :: 0 <= i < |s| ==> s[i] != '\n'
  }

  /** `s.split('\n')`: the pieces between newlines; there is always one more piece than
      there are newlines. */
  function Split(s: string): (r: seq<string>)
    ensures |r| >= 1
    ensures forall k :: 0 <= k < |r| ==> NoNewline(r[k])
  {
    if s == [] then [[]]
    else
      var rest := Split(s[1..]);
      if s[0] == '\n' then [[]] + rest else [[s[0]] + rest[0]] + rest[1..]
  }

  /** `pieces.join('\n')`. */
  function Join(pieces: seq<string>): string
    requires |pieces| >= 1
  {
    if |pieces| == 1 then pieces[0] else pieces[0] + "\n" + Join(pieces[1..])
  }

  /** Joining the pieces again gives back the text. */
  lemma {:induction false} JoinSplit(s: string)
    ensures Join(Split(s)) == s
  {
    if s != [] {
      JoinSplit(s[1..]);
      var rest := Split(s[1..]);
      if s[0] == '\n' {
        assert ([[]] + rest)[1..] == rest;
        assert s == [s[0]] + s[1..];
      } else if |rest| == 1 {
        assert s == [s[0]] + s[1..];
      } else {
        var r := [[s[0]] + rest[0]] + rest[1..];
        assert r[1..] == rest[1..];
        assert Join(rest) == rest[0] + "\n" + Join(rest[1..]);
        assert s == [s[0]] + s[1..];
      }
    }
  }

  /** Text without a newline is a single piece. */
  lemma SplitNoNewline(s: string)
    requires NoNewline(s)
    ensures Split(s) == [s]
  {
    if s != [] {
      SplitNoNewline(s[1..]);
      assert [s[0]] + s[1..] == s;
    }
  }

  /** The pieces of `[c] + s`, given the pieces `r` of `s`. */
  function ConsPieces(c: char, r: seq<string>): seq<string>
    requires |r| >= 1
  {
    if c == '\n' then [[]] + r else [[c] + r[0]] + r[1..]
  }

  lemma SplitCons(c: char, s: string)
    ensures Split([c] + s) == ConsPieces(c, Split(s))
  {
    assert ([c] + s)[1..] == s;
  }

  /** The pieces of a text made of two parts whose pieces are `x` and `y`: the last piece
      of `x` and the first of `y` become one. */
  function Glue(x: seq<string>, y: seq<string>): (r: seq<string>)
    requires |x| >= 1 && |y| >= 1
    ensures |r| >= 1
  {
    x[..|x| - 1] + [x[|x| - 1] + y[0]] + y[1..]
  }

  lemma GlueCons(c: char, x: seq<string>, y: seq<string>)
    requires |x| >= 1 && |y| >= 1
    ensures ConsPieces(c, Glue(x, y)) == Glue(ConsPieces(c, x), y)
  {
    if c != '\n' {
      if |x| == 1 {
        assert [c] + (x[0] + y[0]) == ([c] + x[0]) + y[0];
      } else {
        var g := Glue(x, y);
        assert g[0] == x[0];
        assert g[1..] == x[1..|x| - 1] + [x[|x| - 1] + y[0]] + y[1..];
        var cx := ConsPieces(c, x);
        assert cx[..|cx| - 1] == [[c] + x[0]] + x[1..|x| - 1];
      }
    } else {
      var cx := ConsPieces(c, x);
      assert cx[..|cx| - 1] == [[]] + x[..|x| - 1];
    }
  }

  /** The pieces of `a + b` glue those of `a` to those of `b`. */
  lemma {:induction false} SplitAppend(a: string, b: string)
    ensures Split(a + b) == Glue(Split(a), Split(b))
  {
    if a == [] {
      var sb := Split(b);
      assert a + b == b;
      assert [] + sb[0] == sb[0];
      assert Glue([[]], sb) == [sb[0]] + sb[1..] == sb;
    } else {
      var c, a' := a[0], a[1..];
      assert a == [c] + a';
      assert a + b == [c] + (a' + b);
      SplitAppend(a', b);
      SplitCons(c, a' + b);
      SplitCons(c, a');
      GlueCons(c, Split(a'), Split(b));
    }
  }

  /** The lines of `s` that a newline terminates, in order. */
  function CompleteLines(s: string): seq<string> {
    Split(s)[..|Split(s)| - 1]
  }

  /** The text after the last newline of `s`: a line not yet terminated. */
  function Tail(s: string): (r: string)
    ensures NoNewline(r)
  {
    Split(s)[|Split(s)| - 1]
  }

  /** Every complete line and the tail, joined again, are the text: nothing is lost or
      reordered. */
  lemma LinesCoverText(s: string)
    ensures Join(CompleteLines(s) + [Tail(s)]) == s
  {
    var sp := Split(s);
    JoinSplit(s);
    assert sp[..|sp| - 1] + [sp[|sp| - 1]] == sp;
  }

  /** Appending text `b` after `a` only adds the lines completed in `Tail(a) + b`, and the
      new tail depends only on `Tail(a)` and `b`. This is what lets a reader that keeps just
      the tail between chunks see the same lines as one that reads all text at once. */
  lemma {:induction false} AppendLines(a: string, b: string)
    ensures CompleteLines(a + b) == CompleteLines(a) + CompleteLines(Tail(a) + b)
    ensures Tail(a + b) == Tail(Tail(a) + b)
  {
    var sa, sb := Split(a), Split(b);
    var t := Tail(a);
    SplitAppend(a, b);
    SplitAppend(t, b);
    SplitNoNewline(t);
    GlueLast(sa, sb);
    var p, q := sa[..|sa| - 1], Split(t + b);
    DropLast(p, q);
  }

  /** Gluing touches only the last piece of the left part. */
  lemma GlueLast(x: seq<string>, y: seq<string>)
    requires |x| >= 1 && |y| >= 1
    ensures Glue(x, y) == x[..|x| - 1] + Glue([x[|x| - 1]], y)
  {
  }

  lemma DropLast(p: seq<string>, q: seq<string>)
    requires |q| >= 1
    ensures (p + q)[..|p + q| - 1] == p + q[..|q| - 1]
    ensures (p + q)[|p + q| - 1] == q[|q| - 1]
  {
  }

  /** A fragment without a newline completes no line. */
  lemma FragmentAddsNoLine(a: string, t: string)
    requires NoNewline(t)
    ensures CompleteLines(a + t) == CompleteLines(a)
  {
    AppendLines(a, t);
    assert NoNewline(Tail(a) + t) by {
      forall i | 0 <= i < |Tail(a) + t| ensures (Tail(a) + t)[i] != '\n' {
        if i >= |Tail(a)| { assert (Tail(a) + t)[i] == t[i - |Tail(a)|]; }
      }
    }
    SplitNoNewline(Tail(a) + t);
  }

  /** The concatenation of a sequence of chunks. */
  function Concat(chunks: seq<string>): string {
    if chunks == [] then "" else Concat(chunks[..|chunks| - 1]) + chunks[|chunks| - 1]
  }

  /** Concatenation distributes over splitting the chunk sequence. */
  lemma {:induction false} ConcatAppend(xs: seq<string>, ys: seq<string>)
    ensures Concat(xs + ys) == Concat(xs) + Concat(ys)
  {
    if ys != [] {
      ConcatAppend(xs, ys[..|ys| - 1]);
      assert (xs + ys)[..|xs + ys| - 1] == xs + ys[..|ys| - 1];
    } else {
      assert xs + ys == xs;
    }
  }
}
