/** The multi-resolution window schedule of `predictChunk` and the padding of
    `stop`, as functions of the sample buffer and the two window counters. */
module Windows {

  /** Window sizes in samples: `cache_size_80ms`, `cache_size_480ms`,
      `cache_size_1040ms`. */
  const Short: int := 2559
  const Medium: int := 8959
  const Long: int := 17919

  datatype Scale = ShortWindow | MediumWindow | LongWindow

  function Size(s: Scale): int
  {
    match s
    case ShortWindow => Short
    case MediumWindow => Medium
    case LongWindow => Long
  }

  /** Where the next 80 ms window starts: after `count480` medium windows and
      `count80` short ones. */
  function Offset(count480: int, count80: int): int
  {
    count480 * Medium + count80 * Short
  }

  /** The fixed priority: a long window as soon as one fits, then the next
      medium window, otherwise a short one. */
  function NextScale(length: int, count480: int, count80: int): Scale
  {
    if length >= Long then LongWindow
    else if length >= (count480 + 1) * Medium then MediumWindow
    else ShortWindow
  }

  /** The priority of the three windows: a long window exactly when a long
      window's worth is buffered; a medium one exactly when not, but the next
      medium window ends inside the buffer; a short one otherwise. The number
      of short windows taken plays no part. */
  lemma ScalePriority(length: int, count480: int, count80: int)
    ensures NextScale(length, count480, count80) == LongWindow <==> length >= Long
    ensures NextScale(length, count480, count80) == MediumWindow <==>
              length < Long && length >= (count480 + 1) * Medium
    ensures NextScale(length, count480, count80) == ShortWindow <==>
              length < Long && length < (count480 + 1) * Medium
    ensures forall other :: NextScale(length, count480, other) == NextScale(length, count480, count80)
  {
  }

  /** The short slice `buffer[start..<start + 2559]` is in bounds whenever the
      short window is the one chosen; the source never checks this. */
  predicate ChunkFits(buffer: seq<real>, count480: int, count80: int)
  {
    count480 >= 0 && count80 >= 0 &&
    (NextScale(|buffer|, count480, count80) == ShortWindow ==> Offset(count480, count80) + Short <= |buffer|)
  }

  /** The window taken and the buffer and counters left behind. */
  datatype Window = Window(scale: Scale, chunk: seq<real>, buffer: seq<real>, count480: int, count80: int)

  /** One window selection on the buffer after `rawChunk` was appended. */
  function NextWindow(buffer: seq<real>, count480: int, count80: int): (w: Window)
    requires ChunkFits(buffer, count480, count80)
    ensures w.scale == NextScale(|buffer|, count480, count80)
    ensures |w.chunk| == Size(w.scale)
    ensures w.count480 >= 0 && w.count80 >= 0
    ensures Offset(w.count480, w.count80) <= |w.buffer|
    ensures w.scale == LongWindow ==> buffer == w.chunk + w.buffer
    ensures w.scale != LongWindow ==> Size(w.scale) <= Offset(w.count480, w.count80)
    ensures w.scale != LongWindow ==>
              && w.buffer == buffer
              && w.chunk == buffer[Offset(w.count480, w.count80) - Size(w.scale) .. Offset(w.count480, w.count80)]
  {
    match NextScale(|buffer|, count480, count80)
    case LongWindow =>
      Window(LongWindow, buffer[..Long], buffer[Long..], 0, 0)
    case MediumWindow =>
      var start := count480 * Medium;
      Window(MediumWindow, buffer[start..start + Medium], buffer, count480 + 1, 0)
    case ShortWindow =>
      var start := Offset(count480, count80);
      Window(ShortWindow, buffer[start..start + Short], buffer, count480, count80 + 1)
  }

  /** The branch-by-branch, statement-by-statement form of `NextWindow`: the
      window selection of `predictChunk` as the source performs it, slicing
      and updating the counters in place, proved to take exactly the window
      `NextWindow` describes. `OtosakuStreamingASR.PredictChunk` runs it on its
      own fields. */
  method TakeWindow(buffer: seq<real>, count480: int, count80: int) returns (w: Window)
    requires ChunkFits(buffer, count480, count80)
    ensures w == NextWindow(buffer, count480, count80)
  {
    var rest, chunk, c480, c80 := buffer, [], count480, count80;
    if |rest| >= Long {
      chunk := rest[..Long];
      rest := rest[Long..];
      c80 := 0;
      c480 := 0;
      w := Window(LongWindow, chunk, rest, c480, c80);
    } else if |rest| >= (c480 + 1) * Medium {
      var start := c480 * Medium;
      var end := start + Medium;
      chunk := rest[start..end];
      c480 := c480 + 1;
      c80 := 0;
      w := Window(MediumWindow, chunk, rest, c480, c80);
    } else {
      var start := c480 * Medium + c80 * Short;
      var end := start + Short;
      chunk := rest[start..end];
      c80 := c80 + 1;
      w := Window(ShortWindow, chunk, rest, c480, c80);
    }
  }

  /** Counter updates: a long window zeroes both counters, a medium window
      bumps `count480` and zeroes `count80`, a short one bumps `count80`. */
  lemma CounterUpdates(buffer: seq<real>, count480: int, count80: int)
    requires ChunkFits(buffer, count480, count80)
    ensures var w := NextWindow(buffer, count480, count80);
            && (w.scale == LongWindow ==> w.count480 == 0 && w.count80 == 0)
            && (w.scale == MediumWindow ==> w.count480 == count480 + 1 && w.count80 == 0)
            && (w.scale == ShortWindow ==> w.count480 == count480 && w.count80 == count80 + 1)
  {
  }

  /** The medium window is the `count480`-th block of 8959 samples and the short
      window starts at the old offset. */
  lemma WindowStarts(buffer: seq<real>, count480: int, count80: int)
    requires ChunkFits(buffer, count480, count80)
    ensures var w := NextWindow(buffer, count480, count80);
            && (w.scale == LongWindow ==> w.chunk == buffer[..Long])
            && (w.scale == MediumWindow ==> w.chunk == buffer[count480 * Medium .. (count480 + 1) * Medium])
            && (w.scale == ShortWindow ==> w.chunk == buffer[Offset(count480, count80) .. Offset(count480, count80) + Short])
  {
  }

  /** The in-bounds invariant: with the read offset inside the buffer, a raw
      chunk of at least 2559 samples makes every slice of the next call fit. */
  lemma ChunkFitsAfterAppend(buffer: seq<real>, count480: int, count80: int, rawChunk: seq<real>)
    requires count480 >= 0 && count80 >= 0 && Offset(count480, count80) <= |buffer|
    requires |rawChunk| >= Short
    ensures ChunkFits(buffer + rawChunk, count480, count80)
  {
  }

  /** Without a long window nothing is dropped; with one, a buffer below 17919
      samples stays below it when chunks are at most that long. */
  lemma BufferStaysBelowLong(buffer: seq<real>, count480: int, count80: int, rawChunk: seq<real>)
    requires |buffer| < Long && |rawChunk| <= Long
    requires ChunkFits(buffer + rawChunk, count480, count80)
    ensures |NextWindow(buffer + rawChunk, count480, count80).buffer| < Long
  {
  }

  /** The scheduler's state between calls. */
  datatype Scheduler = Scheduler(buffer: seq<real>, count480: int, count80: int)

  predicate OffsetInBuffer(s: Scheduler)
  {
    s.count480 >= 0 && s.count80 >= 0 && Offset(s.count480, s.count80) <= |s.buffer|
  }

  /** One `predictChunk` call on the scheduler state. */
  function Feed(s: Scheduler, rawChunk: seq<real>): (r: (Scale, Scheduler))
    requires OffsetInBuffer(s) && |rawChunk| >= Short
    ensures OffsetInBuffer(r.1)
  {
    ChunkFitsAfterAppend(s.buffer, s.count480, s.count80, rawChunk);
    var w := NextWindow(s.buffer + rawChunk, s.count480, s.count80);
    (w.scale, Scheduler(w.buffer, w.count480, w.count80))
  }

  /** A run of `predictChunk` calls whose raw chunks are each at least 2559
      samples long: every call's slice is in bounds (the recursion needs
      `ChunkFits` at each call) and the scales taken are returned. */
  function Schedule(s: Scheduler, chunks: seq<seq<real>>): (r: (seq<Scale>, Scheduler))
    requires OffsetInBuffer(s)
    requires forall j :: 0 <= j < |chunks| ==> |chunks[j]| >= Short
    ensures |r.0| == |chunks| && OffsetInBuffer(r.1)
    decreases |chunks|
  {
    if chunks == [] then ([], s)
    else
      var (scale, t) := Feed(s, chunks[0]);
      var rest := Schedule(t, chunks[1..]);
      ([scale] + rest.0, rest.1)
  }

  /** A single call with exactly one long window's worth of samples on an
      empty buffer takes all of it as a long window, leaving nothing behind
      and both counters at zero. */
  lemma OneLongBlock(rawChunk: seq<real>)
    requires |rawChunk| == Long
    ensures ChunkFits([] + rawChunk, 0, 0)
    ensures var w := NextWindow([] + rawChunk, 0, 0);
            w.scale == LongWindow && w.chunk == rawChunk && w.buffer == [] && w.count480 == 0 && w.count80 == 0
  {
    assert [] + rawChunk == rawChunk;
  }

  /** Samples submitted by a run of calls. */
  function TotalLength(chunks: seq<seq<real>>): nat
  {
    if chunks == [] then 0 else |chunks[0]| + TotalLength(chunks[1..])
  }

  /** While no medium window has been taken and the buffer stays below one
      medium window, every call takes a short window. */
  lemma {:induction false} SmallInputOnlyShort(s: Scheduler, chunks: seq<seq<real>>)
    requires OffsetInBuffer(s) && s.count480 == 0
    requires forall j :: 0 <= j < |chunks| ==> |chunks[j]| >= Short
    requires |s.buffer| + TotalLength(chunks) < Medium
    ensures forall k :: 0 <= k < |chunks| ==> Schedule(s, chunks).0[k] == ShortWindow
    decreases |chunks|
  {
    if chunks != [] {
      var (scale, t) := Feed(s, chunks[0]);
      CounterUpdates(s.buffer + chunks[0], s.count480, s.count80);
      assert scale == ShortWindow && t.buffer == s.buffer + chunks[0] && t.count480 == 0;
      SmallInputOnlyShort(t, chunks[1..]);
      var rest := Schedule(t, chunks[1..]).0;
      assert Schedule(s, chunks).0 == [scale] + rest;
    }
  }

  /** The zero padding of `stop`: to exactly 8959 samples when the buffer holds
      at most that many, otherwise to 17919. */
  function Padded(buffer: seq<real>): (p: seq<real>)
    requires |buffer| <= Long
    ensures |p| == if |buffer| <= Medium then Medium else Long
    ensures p[..|buffer|] == buffer
    ensures forall k :: |buffer| <= k < |p| ==> p[k] == 0.0
  {
    var target := if |buffer| <= Medium then Medium else Long;
    buffer + seq(target - |buffer|, _ => 0.0)
  }

  /** Padding a padded buffer changes nothing. */
  lemma PaddedIdempotent(buffer: seq<real>)
    requires |buffer| <= Long
    ensures Padded(Padded(buffer)) == Padded(buffer)
  {
    var p := Padded(buffer);
    assert p + seq(0, _ => 0.0) == p;
  }

  /** Feeding exactly 2559 samples: the scale chosen, the buffer length and
      the counters left behind depend only on the old length and counters. */
  lemma FeedShort(s: Scheduler, rawChunk: seq<real>)
    requires OffsetInBuffer(s) && |rawChunk| == Short
    ensures var (scale, t) := Feed(s, rawChunk);
            var n := |s.buffer| + Short;
            && scale == NextScale(n, s.count480, s.count80)
            && |t.buffer| == (if scale == LongWindow then n - Long else n)
            && (scale == LongWindow ==> t.count480 == 0 && t.count80 == 0)
            && (scale == MediumWindow ==> t.count480 == s.count480 + 1 && t.count80 == 0)
            && (scale == ShortWindow ==> t.count480 == s.count480 && t.count80 == s.count80 + 1)
  {
    ChunkFitsAfterAppend(s.buffer, s.count480, s.count80, rawChunk);
    CounterUpdates(s.buffer + rawChunk, s.count480, s.count80);
  }

  /** From an empty buffer, eight 2559-sample chunks give three short windows,
      a medium one, three more short ones and then a long one, which leaves
      2553 samples and both counters at zero. */
  lemma EmptyStartSchedule(c: seq<seq<real>>)
    requires |c| == 8 && forall j :: 0 <= j < 8 ==> |c[j]| == Short
    ensures var s1 := Feed(Scheduler([], 0, 0), c[0]);
            var s2 := Feed(s1.1, c[1]);
            var s3 := Feed(s2.1, c[2]);
            var s4 := Feed(s3.1, c[3]);
            var s5 := Feed(s4.1, c[4]);
            var s6 := Feed(s5.1, c[5]);
            var s7 := Feed(s6.1, c[6]);
            var s8 := Feed(s7.1, c[7]);
            && [s1.0, s2.0, s3.0, s4.0, s5.0, s6.0, s7.0, s8.0] ==
               [ShortWindow, ShortWindow, ShortWindow, MediumWindow, ShortWindow, ShortWindow, ShortWindow, LongWindow]
            && |s8.1.buffer| == 8 * Short - Long && s8.1.count480 == 0 && s8.1.count80 == 0
  {
    var s1 := Feed(Scheduler([], 0, 0), c[0]);
    FeedShort(Scheduler([], 0, 0), c[0]);
    var s2 := Feed(s1.1, c[1]);
    FeedShort(s1.1, c[1]);
    var s3 := Feed(s2.1, c[2]);
    FeedShort(s2.1, c[2]);
    var s4 := Feed(s3.1, c[3]);
    FeedShort(s3.1, c[3]);
    var s5 := Feed(s4.1, c[4]);
    FeedShort(s4.1, c[4]);
    var s6 := Feed(s5.1, c[5]);
    FeedShort(s5.1, c[5]);
    var s7 := Feed(s6.1, c[6]);
    FeedShort(s6.1, c[6]);
    FeedShort(s7.1, c[7]);
  }
}
