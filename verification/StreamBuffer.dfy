/** `stream_buffer`: framing over a stream that hands out its bytes in pieces of any size. */
module StreamBuffer {
  import opened Waiters
  import opened Delimiters
  import opened Counting

  datatype Failure = Cancelled | StreamError | InvalidArgument

  datatype Outcome<+T> = Ok(value: T) | Err(failure: Failure)

  /** What one call on a stream meets: a failure, or a piece of about this size. */
  datatype Answer = Fails(failure: Failure) | Gives(size: nat)

  /** One read of at most `max` bytes, and what is left.  Empty means the end, or that nothing was asked for. */
  function Serve(a: Answer, unread: string, max: nat): (r: (Outcome<string>, string))
    ensures r.0.Err? <==> a.Fails?
    ensures r.0.Err? ==> r.1 == unread
    ensures r.0.Ok? ==> r.0.value + r.1 == unread && |r.0.value| <= max
    ensures r.0.Ok? ==> (r.0.value == "" <==> max == 0 || unread == "")
  {
    match a
    case Fails(f) => (Err(f), unread)
    case Gives(size) =>
      var n := Min(if size == 0 then 1 else size, Min(max, |unread|));
      (Ok(unread[..n]), unread[n..])
  }

  /** A byte stream: what it has yet to deliver, and what its calls meet, whatever that is. */
  class Stream {
    const answer: nat -> Answer
    var unread: string
    var calls: nat

    constructor (bytes: string, answer: nat -> Answer)
      ensures unread == bytes && calls == 0 && this.answer == answer
    {
      this.answer := answer;
      unread, calls := bytes, 0;
    }

    method ReadSome(max: nat) returns (r: Outcome<string>)
      modifies this
      ensures (r, unread) == Serve(answer(old(calls)), old(unread), max) && calls == old(calls) + 1
    {
      var (result, rest) := Serve(answer(calls), unread, max);
      r, unread, calls := result, rest, calls + 1;
    }
  }

  datatype UntilAny = UntilAny(data: string, found: Option<Match>)

  /** What a reader depends on: bytes read ahead and bytes to come, and how many calls and stop checks it has made. */
  datatype Supply = Supply(pending: string, unread: string, calls: nat, checks: nat)

  function Left(p: Supply): string {
    p.pending + p.unread
  }

  /** One turn of the loop of `read_exact` that takes bytes read ahead. */
  function TakePending(p: Supply, n: nat): Supply
    requires n <= |p.pending|
  {
    p.(pending := p.pending[n..], checks := p.checks + 1)
  }

  /** One turn that calls the stream. */
  function CallStream(p: Supply, max: nat, answer: nat -> Answer): Supply {
    p.(unread := Serve(answer(p.calls), p.unread, max).1, calls := p.calls + 1, checks := p.checks + 1)
  }

  function Piece(p: Supply, max: nat, answer: nat -> Answer): Outcome<string> {
    Serve(answer(p.calls), p.unread, max).0
  }

  /** The loop of `read_exact`: its result, and the bytes that a failing call had already taken. */
  function Exact(p: Supply, total: nat, out: string, answer: nat -> Answer, stop: nat -> bool)
    : (Outcome<string>, string, Supply)
    decreases total - |out|
  {
    if |out| >= total then (Ok(out), "", p)
    else if stop(p.checks) then (Err(Cancelled), out, p.(checks := p.checks + 1))
    else if p.pending != "" then
      var n := Min(|p.pending|, total - |out|);
      Exact(TakePending(p, n), total, out + p.pending[..n], answer, stop)
    else
      var piece, q := Piece(p, total - |out|, answer), CallStream(p, total - |out|, answer);
      if piece.Err? then (piece, out, q)
      else if piece.value == "" then (Ok(out), "", q)
      else Exact(q, total, out + piece.value, answer, stop)
  }

  lemma ExactTakes(p: Supply, total: nat, out: string, answer: nat -> Answer, stop: nat -> bool)
    requires |out| < total && !stop(p.checks) && p.pending != ""
    ensures var n := Min(|p.pending|, total - |out|);
            Exact(p, total, out, answer, stop) == Exact(TakePending(p, n), total, out + p.pending[..n], answer, stop)
  {
  }

  lemma ExactStops(p: Supply, total: nat, out: string, answer: nat -> Answer, stop: nat -> bool)
    requires |out| < total && stop(p.checks)
    ensures Exact(p, total, out, answer, stop) == (Err(Cancelled), out, p.(checks := p.checks + 1))
  {
  }

  lemma ExactCalls(p: Supply, total: nat, out: string, answer: nat -> Answer, stop: nat -> bool)
    requires |out| < total && !stop(p.checks) && p.pending == ""
    ensures var piece, q := Piece(p, total - |out|, answer), CallStream(p, total - |out|, answer);
            Exact(p, total, out, answer, stop) ==
            if piece.Err? then (piece, out, q)
            else if piece.value == "" then (Ok(out), "", q)
            else Exact(q, total, out + piece.value, answer, stop)
  {
  }

  lemma ExactDone(p: Supply, total: nat, out: string, answer: nat -> Answer, stop: nat -> bool)
    requires |out| >= total
    ensures Exact(p, total, out, answer, stop) == (Ok(out), "", p)
  {
  }

  lemma PendingMoves(p: Supply, out: string, n: nat)
    requires n <= |p.pending|
    ensures (out + p.pending[..n]) + Left(TakePending(p, n)) == out + Left(p)
  {
    assert p.pending == p.pending[..n] + p.pending[n..];
  }

  lemma LeftOf(p: Supply, rest: string)
    requires p.pending == "" && p.unread == rest
    ensures Left(p) == rest
  {
  }

  lemma PieceMoves(p: Supply, out: string, max: nat, answer: nat -> Answer)
    requires p.pending == ""
    ensures var piece, q := Piece(p, max, answer), CallStream(p, max, answer);
            && q.pending == ""
            && (piece.Err? ==> Left(q) == Left(p))
            && (piece.Ok? ==> (out + piece.value) + Left(q) == out + Left(p) && |piece.value| <= max)
            && (piece.Ok? && max > 0 && piece.value == "" ==> Left(p) == "" && Left(q) == "")
  {
    var (piece, rest) := Serve(answer(p.calls), p.unread, max);
    hide Serve;
    LeftOf(p, p.unread);
    LeftOf(CallStream(p, max, answer), rest);
    if piece.Ok? {
      assert (out + piece.value) + rest == out + (piece.value + rest);
    }
  }

  /** The bytes taken and those left make up the stream; a call that returns has all it wanted, or all there was. */
  lemma {:induction false} ExactConserves(p: Supply, total: nat, out: string, answer: nat -> Answer, stop: nat -> bool)
    requires |out| <= total
    ensures var (r, lost, q) := Exact(p, total, out, answer, stop);
            && (r.Ok? ==> lost == "" && r.value + Left(q) == out + Left(p))
            && (r.Ok? ==> |r.value| == Min(total, |out + Left(p)|))
            && (r.Err? ==> lost + Left(q) == out + Left(p) && |lost| < total)
    decreases total - |out|
  {
    assert Left(p.(checks := p.checks + 1)) == Left(p);
    hide Left, Piece, CallStream, TakePending;
    if |out| == total || stop(p.checks) {
    } else if p.pending != "" {
      var n := Min(|p.pending|, total - |out|);
      PendingMoves(p, out, n);
      ExactConserves(TakePending(p, n), total, out + p.pending[..n], answer, stop);
    } else {
      PieceMoves(p, out, total - |out|, answer);
      var piece := Piece(p, total - |out|, answer);
      if piece.Ok? && piece.value != "" {
        ExactConserves(CallStream(p, total - |out|, answer), total, out + piece.value, answer, stop);
      }
    }
  }

  /** A call that has taken something and then fails loses it. */
  lemma {:induction false} TakenIsLost(p: Supply, total: nat, out: string, answer: nat -> Answer, stop: nat -> bool)
    ensures var (r, lost, _) := Exact(p, total, out, answer, stop); r.Err? ==> out <= lost
    decreases total - |out|
  {
    hide Serve, CallStream, TakePending;
    if |out| >= total || stop(p.checks) {
    } else if p.pending != "" {
      var n := Min(|p.pending|, total - |out|);
      TakenIsLost(TakePending(p, n), total, out + p.pending[..n], answer, stop);
    } else {
      var piece := Piece(p, total - |out|, answer);
      if piece.Ok? && piece.value != "" {
        TakenIsLost(CallStream(p, total - |out|, answer), total, out + piece.value, answer, stop);
      }
    }
  }

  /** A failing `read_exact` loses nothing if and only if the stop is requested when it is called, or nothing was read
      ahead and the first call on the stream fails. */
  lemma ExactLosesNothingIff(p: Supply, total: nat, answer: nat -> Answer, stop: nat -> bool)
    ensures var (r, lost, _) := Exact(p, total, "", answer, stop);
            r.Err? ==> (lost == "" <==> stop(p.checks) || (p.pending == "" && answer(p.calls).Fails?))
  {
    hide Serve, CallStream, TakePending;
    FailingPiece(p, total, answer);
    if total > 0 && !stop(p.checks) {
      if p.pending != "" {
        var n := Min(|p.pending|, total);
        TakenIsLost(TakePending(p, n), total, "" + p.pending[..n], answer, stop);
      } else {
        var piece := Piece(p, total, answer);
        if piece.Ok? && piece.value != "" {
          TakenIsLost(CallStream(p, total, answer), total, "" + piece.value, answer, stop);
        }
      }
    }
  }

  lemma FailingPiece(p: Supply, max: nat, answer: nat -> Answer)
    ensures Piece(p, max, answer).Err? <==> answer(p.calls).Fails?
  {
  }

  /** One byte read ahead, two wanted, and a stream that fails: the byte is gone. */
  lemma ExactLosesExample()
    ensures Exact(Supply("a", "bc", 0, 0), 2, "", (_: nat) => Fails(StreamError), (_: nat) => false)
         == (Err(StreamError), "a", Supply("", "bc", 1, 2))
  {
    var answer: nat -> Answer := (_: nat) => Fails(StreamError);
    var stop: nat -> bool := (_: nat) => false;
    assert "" + "a"[..1] == "a" && "a"[1..] == "";
    assert Exact(Supply("", "bc", 0, 1), 2, "a", answer, stop) == (Err(StreamError), "a", Supply("", "bc", 1, 2));
  }

  /** Reading a piece ahead changes neither the whole nor, if it is empty, what was read ahead. */
  lemma MoveAhead(pending: string, piece: string, rest: string)
    ensures (pending + piece) + rest == pending + (piece + rest)
    ensures piece == "" <==> pending + piece == pending
    ensures piece + rest == "" ==> pending + (piece + rest) == pending
    ensures piece + rest != "" ==> pending + (piece + rest) != pending
  {
    assert |pending + piece| == |pending| + |piece|;
  }

  class StreamBuffer {
    const stream: Stream
    const stop: nat -> bool         // what the k-th check of the stop token finds
    var pending: string
    var checks: nat

    constructor (stream: Stream, stop: nat -> bool)
      ensures this.stream == stream && this.stop == stop && pending == "" && checks == 0
    {
      this.stream, this.stop := stream, stop;
      pending, checks := "", 0;
    }

    ghost function State(): Supply
      reads this, stream
    {
      Supply(pending, stream.unread, stream.calls, checks)
    }

    /** Of the stop checks from number `check` on and the calls on the stream from number `call` on, none has found a
        stop or failed so far. */
    ghost predicate Undisturbed(check: nat, call: nat)
      reads this, stream
    {
      && (forall k :: check <= k < checks ==> !stop(k))
      && (forall k :: call <= k < stream.calls ==> stream.answer(k).Gives?)
    }

    /** Nothing is stopped and no call on the stream fails. */
    ghost predicate Quiet() {
      (forall k :: !stop(k)) && (forall k :: stream.answer(k).Gives?)
    }

    /** Everything still to be returned. */
    ghost function Whole(): string
      reads this, stream
    {
      pending + stream.unread
    }

    /** What a read with this chunk size can ever see: a chunk size of zero looks like the end of the stream. */
    ghost function Visible(chunkSize: nat): string
      reads this, stream
    {
      if chunkSize == 0 then pending else Whole()
    }

    method StopRequested() returns (b: bool)
      modifies `checks
      ensures b == stop(old(checks)) && checks == old(checks) + 1
    {
      b := stop(checks);
      checks := checks + 1;
    }

    method ReadSome(max: nat) returns (r: Outcome<string>)
      modifies this, stream
      ensures r.Err? <==> max > 0 && old(pending) == "" && stream.answer(old(stream.calls)).Fails?
      ensures old(pending) != "" ==> r == Ok(old(pending)[..Min(max, |old(pending)|)]) && stream.calls == old(stream.calls)
      ensures max > 0 && old(pending) == "" ==> r == Serve(stream.answer(old(stream.calls)), old(stream.unread), max).0
      ensures r.Err? ==> Whole() == old(Whole())
      ensures r.Ok? ==> r.value + Whole() == old(Whole()) && |r.value| <= max
      ensures r.Ok? ==> (r.value == "" <==> max == 0 || old(Whole()) == "")
    {
      if max == 0 {
        return Ok("");
      }
      if pending != "" {
        var count := if |pending| < max then |pending| else max;
        r := Ok(pending[..count]);
        pending := pending[count..];
        assert r.value + Whole() == old(Whole());
        return;
      }
      r := stream.ReadSome(max);
    }

    /** `lost`: the bytes a failing call had already taken, which no later read returns. */
    method ReadExact(total: nat) returns (r: Outcome<string>, ghost lost: string)
      modifies this, stream
      ensures (r, lost, State()) == Exact(old(State()), total, "", stream.answer, stop)
      ensures r.Ok? ==> lost == "" && r.value + Whole() == old(Whole())
      ensures r.Ok? ==> |r.value| == Min(total, |old(Whole())|)
      ensures r.Err? ==> lost + Whole() == old(Whole()) && |lost| < total
      ensures r.Ok? <==> Undisturbed(old(checks), old(stream.calls))
    {
      hide Exact, Serve;
      ghost var start, answer := State(), stream.answer;
      ExactConserves(start, total, "", answer, stop);
      assert "" + Left(start) == old(Whole());
      var out := "";
      while |out| < total
        invariant |out| <= total && old(checks) <= checks && old(stream.calls) <= stream.calls
        invariant Undisturbed(old(checks), old(stream.calls))
        invariant Exact(State(), total, out, answer, stop) == Exact(start, total, "", answer, stop)
        decreases total - |out|
      {
        ghost var p := State();
        var stopped := StopRequested();
        if stopped {
          ExactStops(p, total, out, answer, stop);
          return Err(Cancelled), out;
        }
        if pending != "" {
          ExactTakes(p, total, out, answer, stop);
          var count := if |pending| < total - |out| then |pending| else total - |out|;
          out := out + pending[..count];
          pending := pending[count..];
          continue;
        }
        ExactCalls(p, total, out, answer, stop);
        PieceMoves(p, out, total - |out|, answer);
        var chunk := stream.ReadSome(total - |out|);
        if chunk.Err? {
          return chunk, out;
        }
        if chunk.value == "" {
          return Ok(out), "";
        }
        out := out + chunk.value;
      }
      ExactDone(State(), total, out, answer, stop);
      return Ok(out), "";
    }

    method TakeFront(end: nat) returns (data: string)
      requires end <= |pending|
      modifies `pending
      ensures data == old(pending)[..end] && pending == old(pending)[end..]
      ensures data + Whole() == old(Whole())
    {
      data := pending[..end];
      pending := pending[end..];
      assert old(pending) == data + pending;
    }

    /** Reads one more piece ahead; an empty piece means that nothing more will be seen. */
    method ReadAhead(chunkSize: nat) returns (r: Outcome<string>)
      modifies `pending, stream
      ensures Whole() == old(Whole()) && Visible(chunkSize) == old(Visible(chunkSize))
      ensures stream.calls == old(stream.calls) + 1 && (r.Ok? <==> stream.answer(old(stream.calls)).Gives?)
      ensures r.Ok? ==> (r.value == "" <==> pending == Visible(chunkSize) == old(pending))
      ensures r.Ok? && r.value != "" ==> |stream.unread| < |old(stream.unread)|
    {
      hide Serve;
      r := stream.ReadSome(chunkSize);
      if r.Ok? {
        MoveAhead(pending, r.value, stream.unread);
        pending := pending + r.value;
      }
    }

    /** Checks for a stop, then reads ahead. */
    method Fetch(chunkSize: nat) returns (r: Outcome<string>)
      modifies `checks, `pending, stream
      ensures Whole() == old(Whole()) && Visible(chunkSize) == old(Visible(chunkSize))
      ensures r.Ok? <==> Undisturbed(old(checks), old(stream.calls))
      ensures checks == old(checks) + 1 && old(stream.calls) <= stream.calls <= old(stream.calls) + 1
      ensures r.Ok? ==> (r.value == "" <==> pending == Visible(chunkSize) == old(pending))
      ensures r.Ok? && r.value != "" ==> |stream.unread| < |old(stream.unread)|
    {
      var stopped := StopRequested();
      if stopped {
        return Err(Cancelled);
      }
      r := ReadAhead(chunkSize);
    }

    /** Cuts the stream after the first delimiter in all of it; a failing call loses nothing. */
    method ReadUntil(delimiter: string, chunkSize: nat) returns (r: Outcome<string>)
      modifies this, stream
      ensures delimiter == "" ==> r == Err(InvalidArgument)
      ensures r.Err? ==> Whole() == old(Whole())
      ensures r.Ok? <==> delimiter != "" && Undisturbed(old(checks), old(stream.calls))
      ensures r.Ok? ==> r.value == Cut(old(Visible(chunkSize)), delimiter) && r.value + Whole() == old(Whole())
    {
      if delimiter == "" {
        return Err(InvalidArgument);
      }
      ghost var w := Visible(chunkSize);
      while true
        invariant Whole() == old(Whole()) && Visible(chunkSize) == w
        invariant old(checks) <= checks && old(stream.calls) <= stream.calls
        invariant Undisturbed(old(checks), old(stream.calls))
        decreases |stream.unread|
      {
        var found := FindAny(pending, [delimiter]);
        assert pending == w[..|pending|];
        if found.Some? {
          CutOfPrefix(w, |pending|, delimiter, found.value);
          var data := TakeFront(found.value.end);
          return Ok(data);
        }
        var chunk := Fetch(chunkSize);
        if chunk.Err? {
          return chunk;
        }
        if chunk.value == "" {
          NothingToCut(w, delimiter);
          var data := TakeFront(|pending|);
          return Ok(data);
        }
      }
    }

    /** Cuts the stream at a delimiter of a part of it; if delimiters overlap only as suffixes, at the one that ends
        first in all of it, whatever the pieces were. */
    method ReadUntilAny(delimiters: seq<string>, chunkSize: nat) returns (r: Outcome<UntilAny>)
      modifies this, stream
      ensures delimiters == [] || "" in delimiters ==> r == Err(InvalidArgument)
      ensures r.Ok? <==> delimiters != [] && "" !in delimiters && Undisturbed(old(checks), old(stream.calls))
      ensures r.Err? ==> Whole() == old(Whole())
      ensures r.Ok? ==> r.value.data + Whole() == old(Whole())
      ensures r.Ok? && r.value.found.None? ==>
                r.value.data == old(Visible(chunkSize)) && NoneOccurs(r.value.data, delimiters, |delimiters|)
      ensures r.Ok? && r.value.found.Some? ==>
                var m, w := r.value.found.value, old(Visible(chunkSize));
                && m.end <= |w| && r.value.data == w[..m.end]
                && (exists n :: 0 <= n <= |w| && IsBest(w[..n], delimiters, |delimiters|, m))
                && (OnlySuffixes(delimiters) ==> EndsFirst(w, delimiters, m))
    {
      if delimiters == [] || "" in delimiters {
        return Err(InvalidArgument);
      }
      ghost var w := Visible(chunkSize);
      while true
        invariant Whole() == old(Whole()) && Visible(chunkSize) == w
        invariant old(checks) <= checks && old(stream.calls) <= stream.calls
        invariant Undisturbed(old(checks), old(stream.calls))
        decreases |stream.unread|
      {
        var found := FindAny(pending, delimiters);
        ghost var n := |pending|;
        assert pending == w[..n];
        if found.Some? {
          var m := found.value;
          assert IsBest(w[..n], delimiters, |delimiters|, m) && m.end <= n;
          if OnlySuffixes(delimiters) {
            BestEndsFirst(w, n, delimiters, m);
          }
          var data := TakeFront(m.end);
          return Ok(UntilAny(data, found));
        }
        var chunk := Fetch(chunkSize);
        if chunk.Err? {
          return Err(chunk.failure);
        }
        if chunk.value == "" {
          var data := TakeFront(|pending|);
          return Ok(UntilAny(data, None));
        }
      }
    }

    /** One line, as `Line` takes it off the whole stream. */
    method ReadLine(keepEndOfLine: bool) returns (r: Outcome<string>)
      modifies this, stream
      ensures r.Err? ==> Whole() == old(Whole())
      ensures r.Ok? <==> Undisturbed(old(checks), old(stream.calls))
      ensures r.Ok? ==> Whole() == AfterLine(old(Whole()))
      ensures r.Ok? ==> r.value == if keepEndOfLine then Cut(old(Whole()), "\n") else Line(old(Whole()))
    {
      ghost var w := Whole();
      r := ReadUntil("\n", 4096);
      if r.Err? {
        return;
      }
      assert w[|r.value|..] == Whole();
      if !keepEndOfLine {
        var line := r.value;
        if line != "" && line[|line| - 1] == '\n' {
          line := line[..|line| - 1];
        }
        if line != "" && line[|line| - 1] == '\r' {
          line := line[..|line| - 1];
        }
        r := Ok(line);
      }
    }

    /** `n` calls of `read_line`, up to the first that fails: for every chunking, the lines of the whole stream. */
    method ReadSomeLines(n: nat) returns (lines: seq<string>)
      modifies this, stream
      ensures |lines| <= n && (Quiet() ==> |lines| == n)
      ensures (lines, Whole()) == ReadLines(old(Whole()), |lines|)
    {
      lines := [];
      while |lines| < n
        invariant |lines| <= n
        invariant (lines, Whole()) == ReadLines(old(Whole()), |lines|)
        decreases n - |lines|
      {
        ReadOneMore(old(Whole()), |lines|);
        var r := ReadLine(false);
        if r.Err? {
          return;
        }
        lines := lines + [r.value];
      }
    }

    /** What was written as lines, with either ending, is read back line by line, and what follows them is left. */
    method ReadBack(ghost written: seq<Written>, ghost tail: string, n: nat) returns (lines: seq<string>)
      requires Whole() == Encode(written) + tail && n == |written|
      requires forall l :: l in written ==> PlainLine(l.text)
      modifies this, stream
      ensures lines <= Texts(written) && (Quiet() ==> lines == Texts(written))
      ensures lines == Texts(written) ==> Whole() == tail
    {
      LineRoundTrip(written, tail);
      lines := ReadSomeLines(n);
      FewerLines(Encode(written) + tail, |lines|, n);
    }

    /** Any sequence of reads, whether they succeed or not. */
    method RunReads(ops: seq<ReadOp>) returns (results: seq<Outcome<string>>, ghost lost: seq<string>)
      modifies this, stream
      ensures |results| == |lost| == |ops|
      ensures Concat(Returned(results, lost)) + Whole() == old(Whole())
      ensures forall i :: 0 <= i < |ops| && lost[i] != "" ==> ops[i].Exactly? && results[i].Err?
      ensures Quiet() ==> forall i :: 0 <= i < |ops| ==> (results[i].Err? <==> Invalid(ops[i]))
    {
      results, lost := [], [];
      for i := 0 to |ops|
        invariant |results| == |lost| == i
        invariant Concat(Returned(results, lost)) + Whole() == old(Whole())
        invariant forall j :: 0 <= j < i && lost[j] != "" ==> ops[j].Exactly? && results[j].Err?
        invariant Quiet() ==> forall j :: 0 <= j < i ==> (results[j].Err? <==> Invalid(ops[j]))
      {
        ghost var before := Whole();
        var r, gone := RunRead(ops[i]);
        ReturnedOneMore(results, lost, r, gone, before, Whole());
        results, lost := results + [r], lost + [gone];
      }
    }

    method RunRead(op: ReadOp) returns (r: Outcome<string>, ghost lost: string)
      modifies this, stream
      ensures (if r.Ok? then r.value else lost) + Whole() == old(Whole())
      ensures lost != "" ==> op.Exactly? && r.Err?
      ensures Quiet() ==> (r.Err? <==> Invalid(op))
    {
      lost := "";
      match op {
        case AtMost(max) => r := ReadSome(max);
        case Exactly(total) => r, lost := ReadExact(total);
        case Until(delimiter, chunkSize) => r := ReadUntil(delimiter, chunkSize);
        case UntilFirst(delimiters, chunkSize) =>
          var result := ReadUntilAny(delimiters, chunkSize);
          r := if result.Ok? then Ok(result.value.data) else Err(result.failure);
      }
    }
  }

  lemma NothingToCut(w: string, d: string)
    requires NoneOccurs(w, [d], 1)
    ensures Cut(w, d) == w
  {
    forall i: nat ensures !OccursAt(w, d, i) {
      assert OccursAt(w, [d][0], i) == OccursAt(w, d, i);
    }
  }

  function Concat(parts: seq<string>): string {
    if parts == [] then "" else parts[0] + Concat(parts[1..])
  }

  lemma {:induction false} ConcatOneMore(parts: seq<string>, x: string)
    ensures Concat(parts + [x]) == Concat(parts) + x
  {
    if parts == [] {
      assert parts + [x] == [x];
    } else {
      assert (parts + [x])[0] == parts[0] && (parts + [x])[1..] == parts[1..] + [x];
      ConcatOneMore(parts[1..], x);
    }
  }

  datatype ReadOp =
    | AtMost(max: nat)
    | Exactly(total: nat)
    | Until(delimiter: string, chunkSize: nat)
    | UntilFirst(delimiters: seq<string>, chunkSize: nat)

  /** An argument that the source rejects. */
  predicate Invalid(op: ReadOp) {
    match op
    case Until(delimiter, _) => delimiter == ""
    case UntilFirst(delimiters, _) => delimiters == [] || "" in delimiters
    case _ => false
  }

  /** What each read took off the stream: its result, or what a failing one lost. */
  ghost function Returned(results: seq<Outcome<string>>, lost: seq<string>): seq<string>
    requires |results| == |lost|
  {
    seq(|results|, i requires 0 <= i < |results| => if results[i].Ok? then results[i].value else lost[i])
  }

  lemma ReturnedOneMore(results: seq<Outcome<string>>, lost: seq<string>, r: Outcome<string>, gone: string,
                        before: string, after: string)
    requires |results| == |lost| && (if r.Ok? then r.value else gone) + after == before
    ensures Concat(Returned(results + [r], lost + [gone])) + after == Concat(Returned(results, lost)) + before
  {
    var piece := if r.Ok? then r.value else gone;
    ConcatOneMore(Returned(results, lost), piece);
    assert Returned(results + [r], lost + [gone]) == Returned(results, lost) + [piece];
    assert Concat(Returned(results, lost)) + (piece + after) == (Concat(Returned(results, lost)) + piece) + after;
  }
}
