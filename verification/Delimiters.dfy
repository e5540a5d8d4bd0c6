/** Searching a byte string for delimiters, and when the answer does not depend on how much of the stream has been
    read. */
module Delimiters {
  import opened Waiters

  predicate OccursAt(s: string, d: string, i: nat) {
    i + |d| <= |s| && s[i..i + |d|] == d
  }

  /** The first occurrence from `i` on, as `std::string::find` reports it. */
  function FindFrom(s: string, d: string, i: nat): (r: Option<nat>)
    requires i <= |s|
    ensures r.Some? ==> i <= r.value && OccursAt(s, d, r.value)
    ensures r.Some? ==> forall j: nat :: i <= j < r.value ==> !OccursAt(s, d, j)
    ensures r.None? ==> forall j: nat :: i <= j ==> !OccursAt(s, d, j)
    decreases |s| - i
  {
    if OccursAt(s, d, i) then Some(i) else if i == |s| then None else FindFrom(s, d, i + 1)
  }

  datatype Match = Match(start: nat, end: nat, index: nat)

  /** Among the first `n` delimiters, `m` is the one that starts first, the longest of those, the first listed. */
  ghost predicate IsBest(s: string, ds: seq<string>, n: nat, m: Match) {
    && m.index < n <= |ds| && OccursAt(s, ds[m.index], m.start) && m.end == m.start + |ds[m.index]|
    && forall k: nat, i: nat :: k < n && OccursAt(s, ds[k], i) ==> NoBetter(ds, m, k, i)
  }

  predicate NoBetter(ds: seq<string>, m: Match, k: nat, i: nat)
    requires k < |ds| && m.index < |ds|
  {
    m.start < i || (m.start == i &&
      (|ds[k]| < |ds[m.index]| || (|ds[k]| == |ds[m.index]| && m.index <= k)))
  }

  ghost predicate NoneOccurs(s: string, ds: seq<string>, n: nat)
    requires n <= |ds|
  {
    forall k: nat, i: nat :: k < n ==> !OccursAt(s, ds[k], i)
  }

  /** `find_any_delimiter`: one pass over the delimiters, keeping the best first occurrence. */
  method FindAny(pending: string, ds: seq<string>) returns (best: Option<Match>)
    ensures best.Some? ==> IsBest(pending, ds, |ds|, best.value)
    ensures best.None? ==> NoneOccurs(pending, ds, |ds|)
  {
    best := None;
    for index := 0 to |ds|
      invariant best.Some? ==> IsBest(pending, ds, index, best.value)
      invariant best.None? ==> NoneOccurs(pending, ds, index)
    {
      var pos := FindFrom(pending, ds[index], 0);
      if pos.Some? {
        var length := |ds[index]|;
        if best.None? || pos.value < best.value.start
           || (pos.value == best.value.start && length > best.value.end - best.value.start) {
          best := Some(Match(pos.value, pos.value + length, index));
        }
      }
    }
  }

  lemma {:induction false} BestExists(s: string, ds: seq<string>, n: nat) returns (m: Match)
    requires n <= |ds| && !NoneOccurs(s, ds, n)
    ensures IsBest(s, ds, n, m)
  {
    var pos := FindFrom(s, ds[n - 1], 0);
    if NoneOccurs(s, ds, n - 1) {
      m := Match(pos.value, pos.value + |ds[n - 1]|, n - 1);
    } else {
      m := BestExists(s, ds, n - 1);
      if pos.Some? && !NoBetter(ds, m, n - 1, pos.value) {
        m := Match(pos.value, pos.value + |ds[n - 1]|, n - 1);
      }
    }
  }

  // ---------------------------------------------------------------- independence of chunking

  /** An occurrence of one delimiter inside another can only be at its end. */
  ghost predicate OnlySuffixes(ds: seq<string>) {
    forall j: nat, k: nat, i: nat :: j < |ds| && k < |ds| && OccursAt(ds[k], ds[j], i) ==> i + |ds[j]| == |ds[k]|
  }

  /** The reference: `m` ends first in the whole stream, the longest that ends there, the first listed. */
  ghost predicate EndsFirst(w: string, ds: seq<string>, m: Match) {
    && m.index < |ds| && OccursAt(w, ds[m.index], m.start) && m.end == m.start + |ds[m.index]|
    && forall k: nat, i: nat :: k < |ds| && OccursAt(w, ds[k], i) ==> NotEarlier(ds, m, k, i)
  }

  predicate NotEarlier(ds: seq<string>, m: Match, k: nat, i: nat)
    requires k < |ds| && m.index < |ds|
  {
    m.end < i + |ds[k]| || (m.end == i + |ds[k]| &&
      (|ds[k]| < |ds[m.index]| || (|ds[k]| == |ds[m.index]| && m.index <= k)))
  }

  lemma OccursInPrefix(w: string, n: nat, d: string, i: nat)
    requires n <= |w|
    ensures OccursAt(w[..n], d, i) <==> OccursAt(w, d, i) && i + |d| <= n
  {
    if i + |d| <= n {
      assert w[..n][i..i + |d|] == w[i..i + |d|];
    }
  }

  /** Two occurrences, the second inside the first. */
  lemma OccursInside(w: string, d: string, a: nat, e: string, i: nat)
    requires OccursAt(w, d, a) && OccursAt(w, e, i) && a <= i && i + |e| <= a + |d|
    ensures OccursAt(d, e, i - a)
  {
    forall x | 0 <= x < |e| ensures d[i - a + x] == e[x] {
      assert w[a..a + |d|][i - a + x] == w[i + x] == w[i..i + |e|][x];
    }
    assert d[i - a..i - a + |e|] == e;
  }

  /** What the search finds in any part of the stream read so far is the delimiter that ends first in all of it. */
  lemma BestEndsFirst(w: string, n: nat, ds: seq<string>, m: Match)
    requires n <= |w| && OnlySuffixes(ds) && IsBest(w[..n], ds, |ds|, m)
    ensures EndsFirst(w, ds, m)
  {
    var d := ds[m.index];
    OccursInPrefix(w, n, d, m.start);
    forall k: nat, i: nat | k < |ds| && OccursAt(w, ds[k], i) ensures NotEarlier(ds, m, k, i) {
      if i + |ds[k]| <= m.end {
        OccursInPrefix(w, n, ds[k], i);
        assert NoBetter(ds, m, k, i);
        OccursInside(w, d, m.start, ds[k], i);
      }
    }
  }

  lemma EndsFirstUnique(w: string, ds: seq<string>, m: Match, m': Match)
    requires EndsFirst(w, ds, m) && EndsFirst(w, ds, m')
    ensures m == m'
  {
    assert NotEarlier(ds, m, m'.index, m'.start) && NotEarlier(ds, m', m.index, m.start);
  }

  /** Whatever two readers of the same stream have read when they first see a delimiter, they cut alike. */
  ghost predicate ChunkingIsInvisible(ds: seq<string>) {
    forall w: string, n: nat, n': nat, m: Match, m': Match ::
      n <= |w| && n' <= |w| && IsBest(w[..n], ds, |ds|, m) && IsBest(w[..n'], ds, |ds|, m') ==> m == m'
  }

  /** Chunking is invisible exactly for delimiter lists in which one occurs in another only as a suffix. */
  lemma ChunkingIsInvisibleIff(ds: seq<string>)
    ensures ChunkingIsInvisible(ds) <==> OnlySuffixes(ds)
  {
    if OnlySuffixes(ds) {
      forall w: string, n: nat, n': nat, m: Match, m': Match |
        n <= |w| && n' <= |w| && IsBest(w[..n], ds, |ds|, m) && IsBest(w[..n'], ds, |ds|, m')
        ensures m == m' {
        BestEndsFirst(w, n, ds, m);
        BestEndsFirst(w, n', ds, m');
        EndsFirstUnique(w, ds, m, m');
      }
    } else {
      var j: nat, k: nat, i: nat :| j < |ds| && k < |ds| && OccursAt(ds[k], ds[j], i) && i + |ds[j]| != |ds[k]|;
      InnerDelimiterShows(ds, j, k, i);
    }
  }

  /** The stream that is just the outer delimiter is cut at its end if read at once, and earlier if read in pieces. */
  lemma InnerDelimiterShows(ds: seq<string>, j: nat, k: nat, i: nat)
    requires j < |ds| && k < |ds| && OccursAt(ds[k], ds[j], i) && i + |ds[j]| < |ds[k]|
    ensures !ChunkingIsInvisible(ds)
  {
    var w := ds[k];
    var n, n' := |w|, i + |ds[j]|;
    assert w[..n] == w && OccursAt(w, w, 0);
    OccursInPrefix(w, n', ds[j], i);
    assert !NoneOccurs(w, ds, |ds|) && !NoneOccurs(w[..n'], ds, |ds|);
    var m := BestExists(w, ds, |ds|);
    var m' := BestExists(w[..n'], ds, |ds|);
    assert NoBetter(ds, m, k, 0);
    assert m.end == |w| && m'.end <= n';
  }

  lemma CrLfIsSafe()
    ensures OnlySuffixes(["\r\n", "\n"])
  {
    var ds := ["\r\n", "\n"];
    assert ds[0][0..1] == "\r" && "\r" != "\n";
  }

  // ---------------------------------------------------------------- one delimiter

  /** Everything up to and including the first delimiter, or all of the stream. */
  function Cut(w: string, d: string): string {
    match FindFrom(w, d, 0)
    case Some(i) => w[..i + |d|]
    case None => w
  }

  /** For a single delimiter the first occurrence read is the first of the stream. */
  lemma CutOfPrefix(w: string, n: nat, d: string, m: Match)
    requires n <= |w| && IsBest(w[..n], [d], 1, m)
    ensures Cut(w, d) == w[..m.end] == w[..n][..m.end] && m.end <= n
  {
    OccursInPrefix(w, n, d, m.start);
    forall j: nat | j < m.start ensures !OccursAt(w, d, j) {
      OccursInPrefix(w, n, d, j);
      assert OccursAt(w[..n], [d][0], j) == OccursAt(w[..n], d, j);
    }
  }

  // ---------------------------------------------------------------- lines

  /** What `read_line` makes of a line as it was cut. */
  function StripEol(line: string): string {
    var l := if line != "" && line[|line| - 1] == '\n' then line[..|line| - 1] else line;
    if l != "" && l[|l| - 1] == '\r' then l[..|l| - 1] else l
  }

  function Line(w: string): string {
    StripEol(Cut(w, "\n"))
  }

  function AfterLine(w: string): string {
    w[|Cut(w, "\n")|..]
  }

  /** `n` calls of `read_line` on a stream. */
  function ReadLines(w: string, n: nat): (seq<string>, string) {
    if n == 0 then ([], w)
    else var (ls, rest) := ReadLines(AfterLine(w), n - 1); ([Line(w)] + ls, rest)
  }

  /** The end of a stream without a final newline is a line too, without the carriage return it may end in. */
  lemma LastLine(t: string)
    requires '\n' !in t
    ensures AfterLine(t) == ""
    ensures Line(t) == if t != "" && t[|t| - 1] == '\r' then t[..|t| - 1] else t
  {
    forall j: nat ensures !OccursAt(t, "\n", j) {
      if j + 1 <= |t| {
        assert t[j..j + 1][0] == t[j];
      }
    }
    assert Cut(t, "\n") == t;
  }

  /** One line more, read last. */
  lemma {:induction false} ReadOneMore(w: string, n: nat)
    ensures var (ls, rest) := ReadLines(w, n); ReadLines(w, n + 1) == (ls + [Line(rest)], AfterLine(rest))
    decreases n
  {
    hide Line, AfterLine;
    var rest := AfterLine(w);
    assert ReadLines(w, n + 1) == ([Line(w)] + ReadLines(rest, n).0, ReadLines(rest, n).1);
    if n == 0 {
      assert ReadLines(w, 0) == ([], w) && ReadLines(rest, 0) == ([], rest);
      assert [] + [Line(w)] == [Line(w)] + [];
    } else {
      ReadOneMore(rest, n - 1);
      var (ls, last) := ReadLines(rest, n - 1);
      assert [Line(w)] + (ls + [Line(last)]) == ([Line(w)] + ls) + [Line(last)];
      assert ReadLines(w, n) == ([Line(w)] + ReadLines(rest, n - 1).0, ReadLines(rest, n - 1).1);
    }
  }

  /** Fewer calls read the first of the lines that more calls read. */
  lemma {:induction false} FewerLines(w: string, k: nat, n: nat)
    requires k <= n
    ensures |ReadLines(w, n).0| == n && ReadLines(w, k).0 == ReadLines(w, n).0[..k]
    decreases n
  {
    LinesRead(w, n);
    if k == n {
    } else {
      FewerLines(w, k, n - 1);
      ReadOneMore(w, n - 1);
    }
  }

  lemma {:induction false} LinesRead(w: string, n: nat)
    ensures |ReadLines(w, n).0| == n
  {
    if n == 0 {
    } else {
      LinesRead(AfterLine(w), n - 1);
    }
  }

  datatype Written = Written(text: string, crlf: bool)

  function Encode(lines: seq<Written>): string {
    if lines == [] then ""
    else lines[0].text + (if lines[0].crlf then "\r\n" else "\n") + Encode(lines[1..])
  }

  function Texts(lines: seq<Written>): seq<string> {
    seq(|lines|, i requires 0 <= i < |lines| => lines[i].text)
  }

  predicate PlainLine(t: string) {
    '\n' !in t && (t != "" ==> t[|t| - 1] != '\r')
  }

  lemma CutFirstLine(head: string, rest: string)
    requires '\n' !in head
    ensures Cut(head + "\n" + rest, "\n") == head + "\n"
  {
    var w := head + "\n" + rest;
    assert w[|head|..|head| + 1] == "\n" && OccursAt(w, "\n", |head|);
    assert w[..|head| + 1] == head + "\n";
    forall j: nat | j < |head| ensures !OccursAt(w, "\n", j) {
      assert w[j] == head[j] && w[j..j + 1][0] == w[j];
    }
  }

  lemma StripWritten(text: string, crlf: bool)
    requires PlainLine(text)
    ensures StripEol(text + (if crlf then "\r" else "") + "\n") == text
  {
    var head := text + (if crlf then "\r" else "");
    assert (head + "\n")[..|head|] == head;
    if crlf {
      assert head[..|head| - 1] == text;
    }
  }

  /** Reading one line undoes writing it. */
  lemma FirstLine(l: Written, rest: string)
    requires PlainLine(l.text)
    ensures var w := l.text + (if l.crlf then "\r\n" else "\n") + rest; Line(w) == l.text && AfterLine(w) == rest
  {
    var head := l.text + (if l.crlf then "\r" else "");
    var w := l.text + (if l.crlf then "\r\n" else "\n") + rest;
    assert w == head + "\n" + rest;
    CutFirstLine(head, rest);
    StripWritten(l.text, l.crlf);
  }

  /** Lines written with either ending are read back exactly, and what follows them is left. */
  lemma {:induction false} LineRoundTrip(lines: seq<Written>, tail: string)
    requires forall l :: l in lines ==> PlainLine(l.text)
    ensures ReadLines(Encode(lines) + tail, |lines|) == (Texts(lines), tail)
  {
    hide Line, AfterLine, PlainLine;
    if lines == [] {
      assert Encode(lines) + tail == tail;
    } else {
      var l, rest := lines[0], Encode(lines[1..]) + tail;
      assert Encode(lines) + tail == l.text + (if l.crlf then "\r\n" else "\n") + rest;
      FirstLine(l, rest);
      LineRoundTrip(lines[1..], tail);
      assert Texts(lines) == [l.text] + Texts(lines[1..]);
    }
  }

  /** The same with a last line that was not ended. */
  lemma UnendedRoundTrip(lines: seq<Written>, last: string)
    requires forall l :: l in lines ==> PlainLine(l.text)
    requires PlainLine(last)
    ensures ReadLines(Encode(lines) + last, |lines| + 1) == (Texts(lines) + [last], "")
  {
    LineRoundTrip(lines, last);
    ReadOneMore(Encode(lines) + last, |lines|);
    LastLine(last);
  }
}
