/** The log shipper (changes_lxc_wrapper/log_reporter.py): writers append
    text fragments to a buffer, one drain loop regroups the buffered text into
    chunks that preferably end at a newline and ships every chunk, in order, to
    the job service's log-append endpoint.

    The threads are sequentialised: the drain loop `Process` holds the
    reporter's condition variable except while it waits, so the writes and
    the close made by other threads are modelled as batches of events applied
    at each wait. */
module LogReporting {
  import opened Wrappers
  import opened Text

  /** The default `chunk_size` of `chunked`, which `process` uses. */
  const ChunkSize: nat := 4096

  /** The class attribute `LogReporter.source`. */
  const DefaultSource := "console"

  function Min(a: nat, b: nat): nat { if a <= b then a else b }

  /** `s.rfind('\n', 0, end)` with `end <= |s|`: the last newline before `end`. */
  function LastNewline(s: string, end: nat): (r: Option<nat>)
    requires end <= |s|
    ensures r.None? <==> '\n' !in s[..end]
    ensures r.Some? ==> r.value < end && s[r.value] == '\n' && '\n' !in s[r.value + 1..end]
  {
    if end == 0 then None
    else if s[end - 1] == '\n' then Some(end - 1)
    else
      var r := LastNewline(s, end - 1);
      assert s[..end] == s[..end - 1] + [s[end - 1]];
      assert r.Some? ==> s[r.value + 1..end] == s[r.value + 1..end - 1] + [s[end - 1]];
      r
  }

  /** Where one pass of the inner loop of `chunked` cuts `result`, which holds
      a newline: `rfind('\n', 0, chunk_size) + 1`, or `chunk_size` when the
      search finds nothing. */
  function CutPoint(result: string, chunkSize: nat): (n: nat)
    requires chunkSize >= 1 && '\n' in result
    ensures 1 <= n <= |result| && n <= chunkSize
  {
    var w := Min(chunkSize, |result|);
    match LastNewline(result, w)
    case Some(p) => p + 1
    case None =>
      assert result[..|result|] == result;
      chunkSize
  }

  /** How an inner-loop chunk ends: if a newline is among the first
      `chunkSize` characters, just after the last such newline; otherwise
      after exactly `chunkSize` characters, none of them a newline. */
  lemma CutShape(result: string, chunkSize: nat)
    requires chunkSize >= 1 && '\n' in result
    ensures var w, n := Min(chunkSize, |result|), CutPoint(result, chunkSize);
      && n <= w
      && ('\n' in result[..w] ==> result[n - 1] == '\n' && '\n' !in result[n..w])
      && ('\n' !in result[..w] ==> n == chunkSize < |result| && '\n' !in result[..n])
  {
    var w := Min(chunkSize, |result|);
    assert result[..|result|] == result;
  }

  /** A chunk cut by the inner loop: non-empty, at most `chunkSize` long, and
      either ending in a newline or exactly `chunkSize` long without one. */
  predicate InnerChunk(c: string, chunkSize: nat)
  {
    1 <= |c| <= chunkSize && (c[|c| - 1] == '\n' || (|c| == chunkSize && '\n' !in c))
  }

  /** Chunk `i` of `cs` is an inner-loop chunk, or it is the trailing chunk:
      the last one, non-empty, without a newline and of any length. */
  predicate ChunkAt(cs: seq<string>, i: nat, chunkSize: nat)
    requires i < |cs|
  {
    InnerChunk(cs[i], chunkSize) || (i == |cs| - 1 && cs[i] != "" && '\n' !in cs[i])
  }

  lemma CutIsInnerChunk(result: string, chunkSize: nat)
    requires chunkSize >= 1 && '\n' in result
    ensures InnerChunk(result[..CutPoint(result, chunkSize)], chunkSize)
  {
    var n := CutPoint(result, chunkSize);
    var w := Min(chunkSize, |result|);
    CutShape(result, chunkSize);
    var c := result[..n];
    if '\n' in result[..w] {
      assert c[|c| - 1] == result[n - 1];
    } else {
      assert c == result[..w];
    }
  }

  /** Putting one more inner-loop chunk in front of a flush keeps the text
      in order. */
  lemma FlushConcat(result: string, n: nat, cs: seq<string>, rest: string)
    requires n <= |result|
    requires Concat(cs) + rest == result[n..]
    ensures Concat([result[..n]] + cs) + rest == result
  {
    var all := [result[..n]] + cs;
    assert all[0] == result[..n] && all[1..] == cs;
    calc {
      Concat(all) + rest;
      (result[..n] + Concat(cs)) + rest;
      result[..n] + (Concat(cs) + rest);
      result[..n] + result[n..];
    }
    assert result == result[..n] + result[n..];
  }

  /** One more inner-loop chunk in front of inner-loop chunks. */
  lemma FlushChunks(c: string, chunkSize: nat, cs: seq<string>)
    requires InnerChunk(c, chunkSize)
    requires forall i :: 0 <= i < |cs| ==> InnerChunk(cs[i], chunkSize)
    ensures forall i :: 0 <= i < |cs| + 1 ==> InnerChunk(([c] + cs)[i], chunkSize)
  {
    var all := [c] + cs;
    forall i | 0 <= i < |all| ensures InnerChunk(all[i], chunkSize) {
      if i > 0 {
        assert all[i] == cs[i - 1];
      }
    }
  }

  /** The inner `while '\n' in result` loop of `chunked`: the chunks it yields
      from `result` and what is left of `result` afterwards. */
  function FlushLines(result: string, chunkSize: nat): (r: (seq<string>, string))
    requires chunkSize >= 1
    ensures '\n' !in r.1
    decreases |result|
  {
    if '\n' !in result then ([], result)
    else
      var n := CutPoint(result, chunkSize);
      var rest := FlushLines(result[n..], chunkSize);
      ([result[..n]] + rest.0, rest.1)
  }

  /** The inner loop loses and reorders nothing, and every chunk it yields is
      an inner-loop chunk. */
  lemma {:induction false} FlushLinesSpec(result: string, chunkSize: nat)
    requires chunkSize >= 1
    ensures var r := FlushLines(result, chunkSize);
      && Concat(r.0) + r.1 == result
      && forall i :: 0 <= i < |r.0| ==> InnerChunk(r.0[i], chunkSize)
    decreases |result|
  {
    if '\n' in result {
      var n := CutPoint(result, chunkSize);
      var rest := FlushLines(result[n..], chunkSize);
      FlushLinesSpec(result[n..], chunkSize);
      CutIsInnerChunk(result, chunkSize);
      FlushConcat(result, n, rest.0, rest.1);
      FlushChunks(result[..n], chunkSize, rest.0);
    }
  }

  /** Putting the chunks of one flush in front of the later ones keeps the
      text in order. */
  lemma DrainConcat(result: string, q0: string, qs: string,
                    lines: seq<string>, rest: string, later: seq<string>)
    requires Concat(lines) + rest == result + q0
    requires Concat(later) == rest + qs
    ensures Concat(lines + later) == result + (q0 + qs)
  {
    ConcatAppend(lines, later);
    calc {
      Concat(lines + later);
      Concat(lines) + (rest + qs);
      (Concat(lines) + rest) + qs;
      (result + q0) + qs;
    }
  }

  /** Inner-loop chunks in front of well-formed chunks are well formed. */
  lemma ChunksJoin(chunkSize: nat, lines: seq<string>, later: seq<string>)
    requires forall i :: 0 <= i < |lines| ==> InnerChunk(lines[i], chunkSize)
    requires forall i :: 0 <= i < |later| ==> ChunkAt(later, i, chunkSize)
    ensures forall i :: 0 <= i < |lines + later| ==> ChunkAt(lines + later, i, chunkSize)
  {
    var all := lines + later;
    forall i | 0 <= i < |all| ensures ChunkAt(all, i, chunkSize) {
      if i < |lines| {
        assert all[i] == lines[i];
        assert InnerChunk(lines[i], chunkSize);
      } else {
        assert all[i] == later[i - |lines|];
        assert ChunkAt(later, i - |lines|, chunkSize);
      }
    }
  }

  /** The last step of a drain: the held-back rest, if non-empty. */
  lemma DrainEnd(chunkSize: nat, result: string)
    requires '\n' !in result
    ensures var r := if result == "" then [] else [result];
      && Concat(r) == result + Concat([])
      && forall i :: 0 <= i < |r| ==> ChunkAt(r, i, chunkSize)
  {
    if result != "" {
      assert Concat([result]) == result + Concat([]);
    }
  }

  /** The chunks `chunked` still yields when `result` is the text held back
      so far and `queue` is what is left in the deque. */
  function Drain(result: string, queue: seq<string>, chunkSize: nat): seq<string>
    requires chunkSize >= 1 && '\n' !in result
    decreases |queue|
  {
    if queue == [] then (if result == "" then [] else [result])
    else
      var lines := FlushLines(result + queue[0], chunkSize);
      lines.0 + Drain(lines.1, queue[1..], chunkSize)
  }

  /** A drain yields the held-back text followed by the rest of the deque,
      cut into inner-loop chunks and at most one trailing chunk at the end. */
  lemma {:induction false} DrainSpec(result: string, queue: seq<string>, chunkSize: nat)
    requires chunkSize >= 1 && '\n' !in result
    ensures var r := Drain(result, queue, chunkSize);
      && Concat(r) == result + Concat(queue)
      && forall i :: 0 <= i < |r| ==> ChunkAt(r, i, chunkSize)
    decreases |queue|
  {
    if queue == [] {
      DrainEnd(chunkSize, result);
    } else {
      var lines := FlushLines(result + queue[0], chunkSize);
      var later := Drain(lines.1, queue[1..], chunkSize);
      FlushLinesSpec(result + queue[0], chunkSize);
      DrainSpec(lines.1, queue[1..], chunkSize);
      DrainConcat(result, queue[0], Concat(queue[1..]), lines.0, lines.1, later);
      ChunksJoin(chunkSize, lines.0, later);
    }
  }

  /** Every chunk `chunked(buffer, chunkSize)` yields, in order. */
  function Chunks(buffer: seq<string>, chunkSize: nat): seq<string>
    requires chunkSize >= 1
  {
    Drain("", buffer, chunkSize)
  }

  /** One pass of the inner loop of `chunked` keeps what is still to come. */
  lemma InnerStep(lines: seq<string>, result: string, chunkSize: nat)
    requires chunkSize >= 1 && '\n' in result
    ensures var n := CutPoint(result, chunkSize);
      && lines + FlushLines(result, chunkSize).0 == (lines + [result[..n]]) + FlushLines(result[n..], chunkSize).0
      && FlushLines(result, chunkSize).1 == FlushLines(result[n..], chunkSize).1
  {
    var n := CutPoint(result, chunkSize);
    var after := FlushLines(result[n..], chunkSize);
    assert FlushLines(result, chunkSize) == ([result[..n]] + after.0, after.1);
    Associative(lines, [result[..n]], after.0);
  }

  /** Popping the next fragment of the deque keeps what is still to come. */
  lemma OuterStep(chunks: seq<string>, result: string, queue: seq<string>, chunkSize: nat, total: seq<string>)
    requires chunkSize >= 1 && '\n' !in result && queue != []
    requires chunks + Drain(result, queue, chunkSize) == total
    ensures chunks + FlushLines(result + queue[0], chunkSize).0
            + Drain(FlushLines(result + queue[0], chunkSize).1, queue[1..], chunkSize) == total
  {
    var lines := FlushLines(result + queue[0], chunkSize);
    var later := Drain(lines.1, queue[1..], chunkSize);
    assert Drain(result, queue, chunkSize) == lines.0 + later;
    assert chunks + (lines.0 + later) == chunks + lines.0 + later;
  }

  /** Once the held-back text has no newline, the inner loop has nothing left to do. */
  lemma InnerDone(result: string, chunkSize: nat)
    requires chunkSize >= 1 && '\n' !in result
    ensures FlushLines(result, chunkSize) == ([], result)
  {
  }

  /** The inner `while '\n' in result` loop of `chunked`: cuts chunks off
      the held-back text while it holds a newline. */
  method Flush(result: string, chunkSize: nat) returns (lines: seq<string>, rest: string)
    requires chunkSize >= 1
    ensures (lines, rest) == FlushLines(result, chunkSize)
  {
    lines := [];
    rest := result;
    while '\n' in rest
      invariant lines + FlushLines(rest, chunkSize).0 == FlushLines(result, chunkSize).0
      invariant FlushLines(rest, chunkSize).1 == FlushLines(result, chunkSize).1
      decreases |rest|
    {
      var n := CutPoint(rest, chunkSize);
      InnerStep(lines, rest, chunkSize);
      lines := lines + [rest[..n]];
      rest := rest[n..];
    }
    InnerDone(rest, chunkSize);
    assert lines + [] == lines;
  }

  /** `chunked`: pops the deque from the front until it is empty, appending
      each fragment to the held-back text and cutting chunks off it while it
      holds a newline; the held-back rest is yielded last if non-empty.
      `chunkSize` 0 would loop forever on the first newline, hence the
      precondition. The deque is passed as its contents; the caller empties
      its own buffer, as the generator does. */
  method Chunked(buffer: seq<string>, chunkSize: nat) returns (chunks: seq<string>)
    requires chunkSize >= 1
    ensures chunks == Chunks(buffer, chunkSize)
    ensures Concat(chunks) == Concat(buffer)
    ensures forall i :: 0 <= i < |chunks| ==> ChunkAt(chunks, i, chunkSize)
  {
    ghost var total := Chunks(buffer, chunkSize);
    chunks := [];
    var result := "";
    var queue := buffer;
    while queue != []
      invariant '\n' !in result
      invariant chunks + Drain(result, queue, chunkSize) == total
      decreases |queue|
    {
      OuterStep(chunks, result, queue, chunkSize, total);
      result := result + queue[0];
      queue := queue[1..];
      var lines;
      lines, result := Flush(result, chunkSize);
      chunks := chunks + lines;
    }
    if result != "" {
      chunks := chunks + [result];
    }
    DrainSpec("", buffer, chunkSize);
    assert Concat(buffer) == "" + Concat(buffer);
  }

  /** One call `api.append_log(jobstep_id, {'text': text, 'source': source})`. */
  datatype LogAppend = LogAppend(jobstepId: string, text: string, source: string)

  function Appends(jobstepId: string, source: string, chunks: seq<string>): seq<LogAppend>
  {
    seq(|chunks|, i requires 0 <= i < |chunks| => LogAppend(jobstepId, chunks[i], source))
  }

  lemma AppendsAppend(jobstepId: string, source: string, a: seq<string>, b: seq<string>)
    ensures Appends(jobstepId, source, a + b) == Appends(jobstepId, source, a) + Appends(jobstepId, source, b)
  {
  }

  /** What another thread does while the drain loop waits. */
  datatype Event = WriteEvent(text: string) | CloseEvent

  /** The fragments a batch of events writes, in order. */
  function WritesOf(batch: seq<Event>): seq<string>
  {
    if batch == [] then []
    else WritesOf(batch[..|batch| - 1])
         + (match batch[|batch| - 1] case WriteEvent(t) => [t] case CloseEvent => [])
  }

  /** Whether a batch of events holds a close. */
  predicate CloseIn(batch: seq<Event>)
  {
    exists i :: 0 <= i < |batch| && batch[i].CloseEvent?
  }

  /** Every chunk `process` ships, in order, when its buffer holds `buffer`
      and the i-th later wait sees the events of `schedule[i]`; the loop ends
      after the first batch that holds a close. */
  function Shipped(buffer: seq<string>, schedule: seq<seq<Event>>): seq<string>
    decreases |schedule|, 1
  {
    Chunks(buffer, ChunkSize) + After(schedule)
  }

  /** The chunks `process` ships after its current drain. */
  function After(schedule: seq<seq<Event>>): seq<string>
    decreases |schedule|, 0
  {
    if schedule == [] then []
    else if CloseIn(schedule[0]) then Chunks(WritesOf(schedule[0]), ChunkSize)
    else Shipped(WritesOf(schedule[0]), schedule[1..])
  }

  /** What the wait that sees `batch` leads to: the drain of its writes,
      and then nothing more if it holds a close. */
  lemma AfterWait(rest: seq<seq<Event>>, batch: seq<Event>, tail: seq<seq<Event>>)
    requires rest != [] && rest[0] == batch && rest[1..] == tail
    ensures After(rest) == if CloseIn(batch) then Chunks(WritesOf(batch), ChunkSize)
                           else Shipped(WritesOf(batch), tail)
  {
  }

  /** The fragments written while `process` runs, up to the batch where it
      sees the close (all of them when there is no close). */
  function WrittenUntilClose(schedule: seq<seq<Event>>): seq<string>
  {
    if schedule == [] then []
    else if CloseIn(schedule[0]) then WritesOf(schedule[0])
    else WritesOf(schedule[0]) + WrittenUntilClose(schedule[1..])
  }

  /** No text is lost, duplicated or reordered: what is shipped, joined,
      is the buffered text followed by every fragment written until the
      wake-up in which `process` sees the close, including writes made after
      `close()` during that wait. */
  lemma {:induction false} NothingLost(buffer: seq<string>, schedule: seq<seq<Event>>)
    ensures Concat(Shipped(buffer, schedule)) == Concat(buffer + WrittenUntilClose(schedule))
    decreases |schedule|
  {
    var first := Chunks(buffer, ChunkSize);
    DrainSpec("", buffer, ChunkSize);
    assert Concat(first) == Concat(buffer);
    ConcatAppend(first, After(schedule));
    ConcatAppend(buffer, WrittenUntilClose(schedule));
    if schedule == [] {
      assert WrittenUntilClose(schedule) == [];
    } else if CloseIn(schedule[0]) {
      DrainSpec("", WritesOf(schedule[0]), ChunkSize);
    } else {
      var w := WritesOf(schedule[0]);
      NothingLost(w, schedule[1..]);
      ConcatAppend(w, WrittenUntilClose(schedule[1..]));
    }
  }

  /** The chunks of one drain are non-empty, and one longer than `ChunkSize`
      holds no newline. */
  lemma ChunksBounded(buffer: seq<string>)
    ensures forall c :: c in Chunks(buffer, ChunkSize) ==> c != "" && (|c| <= ChunkSize || '\n' !in c)
  {
    var cs := Chunks(buffer, ChunkSize);
    DrainSpec("", buffer, ChunkSize);
    forall c | c in cs ensures c != "" && (|c| <= ChunkSize || '\n' !in c) {
      var i :| 0 <= i < |cs| && cs[i] == c;
      assert ChunkAt(cs, i, ChunkSize);
    }
  }

  /** Every chunk shipped is non-empty, and one longer than `ChunkSize` holds
      no newline (it is the trailing piece of one drain). */
  lemma {:induction false} ShippedChunksBounded(buffer: seq<string>, schedule: seq<seq<Event>>)
    ensures forall c :: c in Shipped(buffer, schedule) ==> c != "" && (|c| <= ChunkSize || '\n' !in c)
    decreases |schedule|
  {
    ChunksBounded(buffer);
    if schedule != [] {
      var w := WritesOf(schedule[0]);
      if CloseIn(schedule[0]) {
        ChunksBounded(w);
      } else {
        ShippedChunksBounded(w, schedule[1..]);
      }
    }
  }

  /** `LogReporter`: the buffer, the `done` flag, and the log-append calls
      made so far (the API is replaced by this record of calls). */
  class LogReporter {
    const jobstepId: string
    const source: string
    var buffer: seq<string>
    var done: bool
    var sent: seq<LogAppend>

    /** `source` defaults to `'console'` unless a source is given. */
    constructor (jobstepId: string, source: Option<string>)
      ensures this.jobstepId == jobstepId
      ensures this.source == (if source.Some? then source.value else DefaultSource)
      ensures buffer == [] && !done && sent == []
    {
      this.jobstepId := jobstepId;
      this.source := if source.Some? then source.value else DefaultSource;
      buffer := [];
      done := false;
      sent := [];
    }

    /** `write`: appends one fragment at the back of the buffer. */
    method Write(chunk: string)
      modifies this
      ensures buffer == old(buffer) + [chunk]
      ensures done == old(done) && sent == old(sent)
    {
      buffer := buffer + [chunk];
    }

    /** `close`: sets `done`; calling it again changes nothing. */
    method Close()
      modifies this
      ensures done
      ensures buffer == old(buffer) && sent == old(sent)
      ensures old(done) ==> done == old(done)
    {
      done := true;
    }

    /** The writes and closes other threads make during one `cv.wait`. */
    method Interleave(batch: seq<Event>)
      modifies this
      ensures buffer == old(buffer) + WritesOf(batch)
      ensures done == (old(done) || CloseIn(batch))
      ensures sent == old(sent)
    {
      var j := 0;
      while j < |batch|
        invariant 0 <= j <= |batch|
        invariant buffer == old(buffer) + WritesOf(batch[..j])
        invariant done == (old(done) || CloseIn(batch[..j]))
        invariant sent == old(sent)
        decreases |batch| - j
      {
        assert batch[..j + 1][..j] == batch[..j];
        match batch[j] {
          case WriteEvent(t) => Write(t);
          case CloseEvent => Close();
        }
        assert CloseIn(batch[..j + 1]) == (CloseIn(batch[..j]) || batch[j].CloseEvent?) by {
          if CloseIn(batch[..j + 1]) && !batch[j].CloseEvent? {
            var i :| 0 <= i < j + 1 && batch[..j + 1][i].CloseEvent?;
            assert batch[..j][i].CloseEvent?;
          }
          if batch[j].CloseEvent? {
            assert batch[..j + 1][j].CloseEvent?;
          }
        }
        j := j + 1;
      }
      assert batch[..j] == batch;
    }

    /** One pass of `for chunk in chunked(self.buffer)`: ships the chunks
        of the buffer, in order, until the call at position `refused` among
        them, if any, raises; `raised` says whether one did. The buffer is
        left empty; `calls` is how many calls it made that returned. */
    method Ship(refused: Option<nat>) returns (raised: bool, calls: nat)
      modifies this
      ensures buffer == [] && done == old(done)
      ensures raised <==> refused.Some? && refused.value < |Chunks(old(buffer), ChunkSize)|
      ensures raised ==> sent == old(sent) + Appends(jobstepId, source, Chunks(old(buffer), ChunkSize)[..refused.value])
      ensures !raised ==> sent == old(sent) + Appends(jobstepId, source, Chunks(old(buffer), ChunkSize))
      ensures calls == if raised then refused.value else |Chunks(old(buffer), ChunkSize)|
    {
      var chunks := Chunked(buffer, ChunkSize);
      buffer := [];
      for i := 0 to |chunks|
        invariant buffer == [] && done == old(done)
        invariant refused.Some? ==> i <= refused.value
        invariant sent == old(sent) + Appends(jobstepId, source, chunks[..i])
      {
        if refused == Some(i) {
          return true, i;
        }
        AppendsAppend(jobstepId, source, chunks[..i], [chunks[i]]);
        assert chunks[..i + 1] == chunks[..i] + [chunks[i]];
        sent := sent + [LogAppend(jobstepId, chunks[i], source)];
      }
      assert chunks[..|chunks|] == chunks;
      return false, |chunks|;
    }

    /** `process`: clears `done`, then drains the whole buffer and ships its
        chunks, and waits (seeing the next batch of `schedule`) while `done`
        is not set; it ends only once `done` is set and the buffer is empty.
        `refusedAt` is the position, among all its log-append calls, of the
        first that raises, if one does: the thread then ends with the calls
        before it made. `exited` is false when the schedule runs out before
        a close, where the source would go on waiting, or when a call
        raised. */
    method Process(schedule: seq<seq<Event>>, refusedAt: Option<nat>) returns (exited: bool, raised: bool)
      modifies this
      ensures raised <==> refusedAt.Some? && refusedAt.value < |Shipped(old(buffer), schedule)|
      ensures raised ==> !exited
      ensures raised ==> sent == old(sent) + Appends(jobstepId, source, Shipped(old(buffer), schedule)[..refusedAt.value])
      ensures !raised ==> (exited <==> exists i :: 0 <= i < |schedule| && CloseIn(schedule[i])) && done == exited
      ensures !raised ==> sent == old(sent) + Appends(jobstepId, source, Shipped(old(buffer), schedule))
      ensures buffer == [] && (done ==> exists i :: 0 <= i < |schedule| && CloseIn(schedule[i]))
    {
      ghost var shipped: seq<string> := [];
      ghost var full := Shipped(buffer, schedule);
      done := false;
      exited, raised := true, false;
      var calls := 0;
      var next := 0;
      assert schedule[0..] == schedule;
      while !done || buffer != []
        invariant Progress(schedule, refusedAt, old(sent), full, shipped, calls, next)
        decreases |schedule| - next, if done && buffer == [] then 0 else 1
      {
        var failed, stop;
        failed, stop, calls, next, shipped := Round(schedule, refusedAt, old(sent), full, shipped, calls, next);
        if failed {
          return false, true;
        }
        if stop {
          QuietNone(schedule);
          return false, false;
        }
      }
      assert Chunks([], ChunkSize) == [];
    }

    /** `process` without its `self.done.clear()`: a close made before the
        thread takes the lock is kept, so the buffer is drained once and the
        thread ends; otherwise it runs as `process` does. */
    method ProcessKeepingClose(schedule: seq<seq<Event>>, refusedAt: Option<nat>) returns (exited: bool, raised: bool)
      modifies this
      ensures old(done) ==> (raised <==> refusedAt.Some? && refusedAt.value < |Chunks(old(buffer), ChunkSize)|)
      ensures old(done) ==> exited == !raised && done
      ensures old(done) && raised ==>
        sent == old(sent) + Appends(jobstepId, source, Chunks(old(buffer), ChunkSize)[..refusedAt.value])
      ensures old(done) && !raised ==> sent == old(sent) + Appends(jobstepId, source, Chunks(old(buffer), ChunkSize))
      ensures !old(done) ==> (raised <==> refusedAt.Some? && refusedAt.value < |Shipped(old(buffer), schedule)|)
      ensures !old(done) && !raised ==>
        && (exited <==> exists i :: 0 <= i < |schedule| && CloseIn(schedule[i]))
        && sent == old(sent) + Appends(jobstepId, source, Shipped(old(buffer), schedule))
      ensures buffer == []
    {
      if done {
        var calls;
        raised, calls := Ship(refusedAt);
        exited := !raised;
      } else {
        exited, raised := Process(schedule, refusedAt);
      }
    }

    /** How far `process` has got: `shipped` is what its `next` waits so
        far led it to ship, out of `full`, in `calls` log-append calls made
        on top of `base`; `done` is set only by the last batch seen. */
    ghost predicate Progress(schedule: seq<seq<Event>>, refusedAt: Option<nat>, base: seq<LogAppend>,
                             full: seq<string>, shipped: seq<string>, calls: nat, next: nat)
      reads this
    {
      && next <= |schedule| && calls == |shipped|
      && (refusedAt.Some? ==> calls <= refusedAt.value)
      && (done ==> 0 < next && CloseIn(schedule[next - 1]))
      && Quiet(schedule, if done then next - 1 else next)
      && sent == base + Appends(jobstepId, source, shipped)
      && (done ==> shipped + Chunks(buffer, ChunkSize) == full)
      && (!done ==> shipped + Shipped(buffer, schedule[next..]) == full)
    }

    /** One pass of the loop of `process`: the drain and its shipping, then,
        while `done` is not set, the wait. `failed` is a refused call, `stop`
        a schedule that ran out before a close. */
    method Round(schedule: seq<seq<Event>>, refusedAt: Option<nat>, ghost base: seq<LogAppend>,
                 ghost full: seq<string>, ghost shipped: seq<string>, calls: nat, next: nat)
      returns (failed: bool, stop: bool, calls': nat, next': nat, ghost shipped': seq<string>)
      modifies this
      requires Progress(schedule, refusedAt, base, full, shipped, calls, next) && (!done || buffer != [])
      ensures failed ==> refusedAt.Some? && refusedAt.value < |full| && sent == base + Appends(jobstepId, source, full[..refusedAt.value])
      ensures failed ==> buffer == [] && (done ==> exists i :: 0 <= i < |schedule| && CloseIn(schedule[i]))
      ensures !failed && stop ==>
        && shipped' == full && sent == base + Appends(jobstepId, source, full)
        && (refusedAt.Some? ==> |full| <= refusedAt.value)
        && !done && buffer == [] && Quiet(schedule, |schedule|)
      ensures !failed && !stop ==>
        && Progress(schedule, refusedAt, base, full, shipped', calls', next')
        && (next' > next || (next' == next && done && buffer == []))
    {
      ghost var chunks := Chunks(buffer, ChunkSize);
      ghost var later: seq<string> := if done then [] else After(schedule[next..]);
      assert shipped + chunks + later == full by {
        Associative(shipped, chunks, later);
      }
      var refused := if refusedAt.Some? then Some(refusedAt.value - calls) else None;
      var made;
      failed, made := Ship(refused);
      stop, calls', next', shipped' := false, calls, next, shipped;
      if failed {
        RefusedSent(base, jobstepId, source, shipped, chunks, later, refusedAt.value);
        if done {
          assert CloseIn(schedule[next - 1]);
        }
        return;
      }
      ShippedSent(base, jobstepId, source, shipped, chunks);
      shipped' := shipped + chunks;
      calls' := calls + made;
      if !done {
        if next == |schedule| {
          assert later == [];
          stop := true;
          return;
        }
        var batch := schedule[next];
        WaitStep(schedule, next, shipped', full);
        QuietStep(schedule, next);
        Interleave(batch);
        assert buffer == WritesOf(batch) by {
          assert [] + WritesOf(batch) == WritesOf(batch);
        }
        next' := next + 1;
      } else {
        assert Chunks([], ChunkSize) == [];
      }
    }
  }

  /** What has been sent when the call for the `k`-th chunk of all those
      to be shipped raises. */
  lemma RefusedSent(base: seq<LogAppend>, jobstepId: string, source: string,
                    shipped: seq<string>, chunks: seq<string>, later: seq<string>, k: nat)
    requires |shipped| <= k < |shipped| + |chunks|
    ensures k < |shipped + chunks + later|
    ensures base + Appends(jobstepId, source, shipped) + Appends(jobstepId, source, chunks[..k - |shipped|])
            == base + Appends(jobstepId, source, (shipped + chunks + later)[..k])
  {
    RefusedWithin(shipped, chunks, later, k);
    AppendsAppend(jobstepId, source, shipped, chunks[..k - |shipped|]);
    Associative(base, Appends(jobstepId, source, shipped), Appends(jobstepId, source, chunks[..k - |shipped|]));
  }

  /** What has been sent after a drain that raised nothing. */
  lemma ShippedSent(base: seq<LogAppend>, jobstepId: string, source: string, shipped: seq<string>, chunks: seq<string>)
    ensures base + Appends(jobstepId, source, shipped) + Appends(jobstepId, source, chunks)
            == base + Appends(jobstepId, source, shipped + chunks)
  {
    AppendsAppend(jobstepId, source, shipped, chunks);
    Associative(base, Appends(jobstepId, source, shipped), Appends(jobstepId, source, chunks));
  }

  /** No batch before the `n`-th holds a close. */
  predicate Quiet(schedule: seq<seq<Event>>, n: int)
  {
    forall i :: 0 <= i < n && i < |schedule| ==> !CloseIn(schedule[i])
  }

  lemma QuietStep(schedule: seq<seq<Event>>, n: nat)
    requires n < |schedule| && Quiet(schedule, n)
    ensures !CloseIn(schedule[n]) ==> Quiet(schedule, n + 1)
    ensures CloseIn(schedule[n]) ==> exists i :: 0 <= i < |schedule| && CloseIn(schedule[i])
  {
  }

  lemma QuietNone(schedule: seq<seq<Event>>)
    requires Quiet(schedule, |schedule|)
    ensures !exists i :: 0 <= i < |schedule| && CloseIn(schedule[i])
  {
  }

  /** The chunks still to come after a wait that sees `schedule[next]`. */
  lemma WaitStep(schedule: seq<seq<Event>>, next: nat, shipped: seq<string>, full: seq<string>)
    requires next < |schedule| && shipped + After(schedule[next..]) == full
    ensures CloseIn(schedule[next]) ==> shipped + Chunks(WritesOf(schedule[next]), ChunkSize) == full
    ensures !CloseIn(schedule[next]) ==> shipped + Shipped(WritesOf(schedule[next]), schedule[next + 1..]) == full
  {
    assert schedule[next..][0] == schedule[next] && schedule[next..][1..] == schedule[next + 1..];
    AfterWait(schedule[next..], schedule[next], schedule[next + 1..]);
  }

  /** The call refused inside one drain: those before it in the whole run
      are the ones shipped earlier and the drain's first ones. */
  lemma RefusedWithin(shipped: seq<string>, chunks: seq<string>, later: seq<string>, k: nat)
    requires |shipped| <= k < |shipped| + |chunks|
    ensures k < |shipped + chunks + later|
    ensures (shipped + chunks + later)[..k] == shipped + chunks[..k - |shipped|]
  {
  }

  /** The recorded test: fragments `'hello '`, `'world\n'`, `'foo bar'` ship
      as exactly `'hello world\n'` and `'foo bar'`. */
  lemma LineBufferingExample()
    ensures Chunks(["hello ", "world\n", "foo bar"], ChunkSize) == ["hello world\n", "foo bar"]
  {
    var hw := "hello world\n";
    assert "" + "hello " == "hello ";
    assert '\n' !in "hello ";
    assert FlushLines("hello ", ChunkSize) == ([], "hello ");
    assert "hello " + "world\n" == hw;
    assert hw[11] == '\n' && |hw| == 12;
    assert Min(ChunkSize, |hw|) == 12;
    assert LastNewline(hw, 12) == Some(11);
    assert CutPoint(hw, ChunkSize) == 12;
    assert hw[..12] == hw && hw[12..] == "";
    assert FlushLines("", ChunkSize) == ([], "");
    assert '\n' in hw;
    assert FlushLines(hw, ChunkSize).0 == [hw[..12]] + FlushLines(hw[12..], ChunkSize).0;
    assert FlushLines(hw, ChunkSize).1 == FlushLines(hw[12..], ChunkSize).1;
    assert [hw[..12]] + [] == [hw];
    assert FlushLines(hw, ChunkSize) == ([hw], "");
    assert "" + "foo bar" == "foo bar";
    assert '\n' !in "foo bar";
    assert FlushLines("foo bar", ChunkSize) == ([], "foo bar");
    assert Drain("foo bar", [], ChunkSize) == ["foo bar"];
    assert Drain("", ["foo bar"], ChunkSize) == ["foo bar"];
    assert Drain("hello ", ["world\n", "foo bar"], ChunkSize) == [hw, "foo bar"];
  }
  /** The writes of a batch of three writes and a close. */
  lemma WritesOfThree(a: string, b: string, c: string)
    ensures WritesOf([WriteEvent(a), WriteEvent(b), WriteEvent(c), CloseEvent]) == [a, b, c]
    ensures CloseIn([WriteEvent(a), WriteEvent(b), WriteEvent(c), CloseEvent])
  {
    var batch := [WriteEvent(a), WriteEvent(b), WriteEvent(c), CloseEvent];
    var one, two, three := [WriteEvent(a)], [WriteEvent(a), WriteEvent(b)], [WriteEvent(a), WriteEvent(b), WriteEvent(c)];
    assert one[..0] == [] && two[..1] == one && three[..2] == two && batch[..3] == three;
    assert WritesOf(one) == [] + [a];
    assert WritesOf(two) == [a] + [b];
    assert WritesOf(three) == [a, b] + [c];
    assert WritesOf(batch) == [a, b, c] + [];
    assert batch[3].CloseEvent?;
  }

  /** The recorded test, as the API sees it: when the three writes and the
      close all happen during the first wait, `append_log` is called twice,
      with `'hello world\n'` and then `'foo bar'`, each from `'console'`. */
  lemma LineBufferingCalls(jobstepId: string)
    ensures Appends(jobstepId, DefaultSource,
                    Shipped([], [[WriteEvent("hello "), WriteEvent("world\n"), WriteEvent("foo bar"), CloseEvent]]))
         == [LogAppend(jobstepId, "hello world\n", "console"), LogAppend(jobstepId, "foo bar", "console")]
  {
    var schedule := [[WriteEvent("hello "), WriteEvent("world\n"), WriteEvent("foo bar"), CloseEvent]];
    WritesOfThree("hello ", "world\n", "foo bar");
    LineBufferingExample();
    assert Chunks([], ChunkSize) == [];
    assert After(schedule) == ["hello world\n", "foo bar"];
  }

  /** The test's outcome depends on the threads' timing: when the first
      wait ends after `'hello '` alone, that fragment is shipped by itself,
      and the API sees three calls. */
  lemma LineBufferingSplit()
    ensures Shipped([], [[WriteEvent("hello ")], [WriteEvent("world\n"), WriteEvent("foo bar"), CloseEvent]])
         == ["hello ", "world\n", "foo bar"]
  {
    var first := [WriteEvent("hello ")];
    var second := [WriteEvent("world\n"), WriteEvent("foo bar"), CloseEvent];
    var schedule := [first, second];
    assert first[..0] == [] && WritesOf(first) == ["hello "];
    assert !CloseIn(first);
    var two := [WriteEvent("world\n"), WriteEvent("foo bar")];
    assert second[..2] == two && two[..1] == [WriteEvent("world\n")] && two[..1][..0] == [];
    assert WritesOf(two[..1]) == [] + ["world\n"];
    assert WritesOf(two) == ["world\n"] + ["foo bar"];
    assert WritesOf(second) == ["world\n", "foo bar"] + [];
    assert ["world\n", "foo bar"] + [] == ["world\n", "foo bar"];
    assert CloseIn(second) by { assert second[2].CloseEvent?; }
    assert schedule[1..] == [second] && [second][1..] == [];
    ChunksHello();
    ChunksWorldFoo();
    assert Chunks([], ChunkSize) == [];
    assert [second][0] == second;
    assert After([second]) == Chunks(WritesOf(second), ChunkSize) == ["world\n", "foo bar"];
    assert Shipped(["hello "], [second]) == ["hello "] + ["world\n", "foo bar"];
  }

  /** The recorded test when `close()` takes the lock before the reporter
      thread does: `process` clears `done`, ships the three fragments and
      then waits for a close that never comes, so `join()` does not return. */
  method CloseFirstHangs(jobstepId: string, schedule: seq<seq<Event>>) returns (exited: bool, done: bool)
    requires forall i :: 0 <= i < |schedule| ==> !CloseIn(schedule[i])
    ensures !exited && !done
  {
    var reporter := new LogReporter(jobstepId, None);
    reporter.Write("hello ");
    reporter.Write("world\n");
    reporter.Write("foo bar");
    reporter.Close();
    var raised;
    exited, raised := reporter.Process(schedule, None);
    done := reporter.done;
  }

  /** The same race with the close kept: the thread ends, and `append_log`
      is called exactly as the test expects, whatever would follow. */
  method CloseFirstShips(jobstepId: string, schedule: seq<seq<Event>>) returns (exited: bool, sent: seq<LogAppend>)
    ensures exited
    ensures sent == [LogAppend(jobstepId, "hello world\n", "console"), LogAppend(jobstepId, "foo bar", "console")]
  {
    var reporter := new LogReporter(jobstepId, None);
    reporter.Write("hello ");
    reporter.Write("world\n");
    reporter.Write("foo bar");
    reporter.Close();
    assert reporter.buffer == ["hello ", "world\n", "foo bar"];
    LineBufferingExample();
    var raised;
    exited, raised := reporter.ProcessKeepingClose(schedule, None);
    sent := reporter.sent;
    assert Appends(jobstepId, DefaultSource, ["hello world\n", "foo bar"])
        == [LogAppend(jobstepId, "hello world\n", "console"), LogAppend(jobstepId, "foo bar", "console")];
  }

  /** A fragment with no newline is shipped as it is when nothing follows. */
  lemma ChunksHello()
    ensures Chunks(["hello "], ChunkSize) == ["hello "]
  {
    assert "" + "hello " == "hello " && ["hello "][1..] == [];
    assert '\n' !in "hello ";
    assert FlushLines("hello ", ChunkSize) == ([], "hello ");
    assert Drain("hello ", [], ChunkSize) == ["hello "];
  }

  /** A line and then a fragment with no newline are shipped as they are. */
  lemma ChunksWorldFoo()
    ensures Chunks(["world\n", "foo bar"], ChunkSize) == ["world\n", "foo bar"]
  {
    var w := "world\n";
    WorldLine();
    assert "" + "foo bar" == "foo bar";
    assert '\n' !in "foo bar";
    assert FlushLines("foo bar", ChunkSize) == ([], "foo bar");
    assert Drain("foo bar", [], ChunkSize) == ["foo bar"];
    assert Drain("", ["foo bar"], ChunkSize) == ["foo bar"];
    assert "" + w == w;
    assert Drain("", [w, "foo bar"], ChunkSize) == [w, "foo bar"];
  }

  /** A whole line is flushed as one chunk. */
  lemma WorldLine()
    ensures FlushLines("world\n", ChunkSize) == (["world\n"], "")
  {
    var w := "world\n";
    assert w[5] == '\n' && |w| == 6;
    assert Min(ChunkSize, |w|) == 6;
    assert LastNewline(w, 6) == Some(5);
    assert CutPoint(w, ChunkSize) == 6;
    assert w[..6] == w && w[6..] == "";
    assert FlushLines("", ChunkSize) == ([], "");
    assert '\n' in w;
    assert FlushLines(w, ChunkSize).0 == [w[..6]] + FlushLines(w[6..], ChunkSize).0;
    assert FlushLines(w, ChunkSize).1 == FlushLines(w[6..], ChunkSize).1;
    assert [w[..6]] + [] == [w];
  }
}
