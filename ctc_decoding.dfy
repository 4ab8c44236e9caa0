/** `ModelDecoder`: incremental greedy CTC decoding with a committed transcript
    (grown by 1040 ms windows) and a provisional suffix recomputed from the
    480 ms / 80 ms path histories. */
module CtcDecoding {
  import opened MultiArrays
  import opened SubModels

  const BlankIdx: int := 1024
  /** Encoder time steps of the 80 ms, 480 ms and 1040 ms windows. */
  const Steps80: int := 2
  const Steps480: int := 7
  const Steps1040: int := 14
  /** The word-boundary marker of the vocabulary, rendered as a space. */
  const WordMarker: char := '▁'

  /** `token.replacingOccurrences(of: "▁", with: " ")`. */
  function Render(token: string): (r: string)
    ensures |r| == |token|
    ensures forall k :: 0 <= k < |r| ==> r[k] == (if token[k] == WordMarker then ' ' else token[k])
  {
    if token == [] then [] else [if token[0] == WordMarker then ' ' else token[0]] + Render(token[1..])
  }

  /** Every index is the blank or a valid position in the vocabulary, so that
      `tokens[i]` cannot trap. */
  predicate InVocabulary(tokens: seq<string>, path: seq<int>)
  {
    forall k :: 0 <= k < |path| ==> path[k] == BlankIdx || 0 <= path[k] < |tokens|
  }

  /** The effect of one index of the path on the (text, cursor) pair. */
  function Emit(tokens: seq<string>, prev: (string, int), i: int): (r: (string, int))
    requires i == BlankIdx || 0 <= i < |tokens|
    ensures r.1 == i
    ensures prev.0 <= r.0
  {
    if i == prev.1 then prev
    else if i == BlankIdx then (prev.0, i)
    else (prev.0 + Render(tokens[i]), i)
  }

  /** CTC collapse of `path` against `cursor` (the last index seen): an index
      equal to the cursor is skipped, the blank only moves the cursor, any
      other index appends its rendered token and becomes the cursor. Returns
      the emitted text and the final cursor. */
  function Collapse(tokens: seq<string>, path: seq<int>, cursor: int): (r: (string, int))
    requires InVocabulary(tokens, path)
    ensures r.1 == if path == [] then cursor else path[|path| - 1]
    decreases |path|
  {
    if path == [] then ("", cursor)
    else Emit(tokens, Collapse(tokens, path[..|path| - 1], cursor), path[|path| - 1])
  }

  /** Concatenating two paths that fit the vocabulary gives one that does. */
  lemma AppendInVocabulary(tokens: seq<string>, a: seq<int>, b: seq<int>)
    requires InVocabulary(tokens, a) && InVocabulary(tokens, b)
    ensures InVocabulary(tokens, a + b)
  {
    forall k | 0 <= k < |a + b|
      ensures (a + b)[k] == BlankIdx || 0 <= (a + b)[k] < |tokens|
    {
      if k >= |a| { assert (a + b)[k] == b[k - |a|]; }
    }
  }

  /** Collapsing a concatenation is collapsing the second part from the cursor
      the first part left: this is why a persistent cursor makes collapse work
      across successive calls. */
  lemma {:induction false} CollapseAppend(tokens: seq<string>, a: seq<int>, b: seq<int>, cursor: int)
    requires InVocabulary(tokens, a) && InVocabulary(tokens, b)
    ensures InVocabulary(tokens, a + b)
    ensures var first := Collapse(tokens, a, cursor);
            var second := Collapse(tokens, b, first.1);
            Collapse(tokens, a + b, cursor) == (first.0 + second.0, second.1)
    decreases |b|
  {
    AppendInVocabulary(tokens, a, b);
    if b == [] {
      assert a + b == a;
      assert Collapse(tokens, a, cursor).0 + "" == Collapse(tokens, a, cursor).0;
    } else {
      var b', i := b[..|b| - 1], b[|b| - 1];
      assert b == b' + [i];
      assert InVocabulary(tokens, b');
      CollapseAppend(tokens, a, b', cursor);
      CollapseAppendLast(tokens, a, b', i, cursor);
    }
  }

  /** `Collapse` of a path extended by one index is `Emit` of that index
      after the path. */
  lemma CollapseSnoc(tokens: seq<string>, p: seq<int>, i: int, cursor: int)
    requires InVocabulary(tokens, p) && (i == BlankIdx || 0 <= i < |tokens|)
    ensures InVocabulary(tokens, p + [i])
    ensures Collapse(tokens, p + [i], cursor) == Emit(tokens, Collapse(tokens, p, cursor), i)
  {
    assert (p + [i])[..|p|] == p;
    assert InVocabulary(tokens, p + [i]) by {
      forall k | 0 <= k < |p + [i]| ensures (p + [i])[k] == BlankIdx || 0 <= (p + [i])[k] < |tokens| {
        if k < |p| { assert (p + [i])[k] == p[k]; }
      }
    }
  }

  /** Text emitted earlier is carried through `Emit` unchanged. */
  lemma EmitAfterPrefix(tokens: seq<string>, x: string, m: (string, int), i: int)
    requires i == BlankIdx || 0 <= i < |tokens|
    ensures Emit(tokens, (x + m.0, m.1), i) == (x + Emit(tokens, m, i).0, Emit(tokens, m, i).1)
  {
    if i != m.1 && i != BlankIdx {
      assert x + m.0 + Render(tokens[i]) == x + (m.0 + Render(tokens[i]));
    }
  }

  /** The inductive step of `CollapseAppend`: the claim for `b` gives the
      claim for `b + [i]`. */
  lemma CollapseAppendLast(tokens: seq<string>, a: seq<int>, b: seq<int>, i: int, cursor: int)
    requires InVocabulary(tokens, a) && InVocabulary(tokens, b) && InVocabulary(tokens, a + b)
    requires i == BlankIdx || 0 <= i < |tokens|
    requires var first := Collapse(tokens, a, cursor);
             var mid := Collapse(tokens, b, first.1);
             Collapse(tokens, a + b, cursor) == (first.0 + mid.0, mid.1)
    ensures InVocabulary(tokens, a + (b + [i])) && InVocabulary(tokens, b + [i])
    ensures var first := Collapse(tokens, a, cursor);
            var second := Collapse(tokens, b + [i], first.1);
            Collapse(tokens, a + (b + [i]), cursor) == (first.0 + second.0, second.1)
  {
    var first := Collapse(tokens, a, cursor);
    assert a + (b + [i]) == (a + b) + [i];
    CollapseSnoc(tokens, a + b, i, cursor);
    CollapseSnoc(tokens, b, i, first.1);
    EmitAfterPrefix(tokens, first.0, Collapse(tokens, b, first.1), i);
  }

  /** A path of blanks emits nothing. */
  lemma {:induction false} CollapseAllBlank(tokens: seq<string>, path: seq<int>, cursor: int)
    requires forall k :: 0 <= k < |path| ==> path[k] == BlankIdx
    ensures InVocabulary(tokens, path)
    ensures Collapse(tokens, path, cursor).0 == ""
    decreases |path|
  {
    if path != [] {
      CollapseAllBlank(tokens, path[..|path| - 1], cursor);
    }
  }

  /** A run of one non-blank index emits its token once, and not at all when
      the cursor already holds that index. */
  lemma {:induction false} CollapseRun(tokens: seq<string>, i: int, n: nat, cursor: int)
    requires 0 <= i < |tokens| && i != BlankIdx
    ensures InVocabulary(tokens, seq(n, _ => i))
    ensures Collapse(tokens, seq(n, _ => i), cursor) ==
            (if n == 0 || cursor == i then "" else Render(tokens[i]), if n == 0 then cursor else i)
  {
    if n > 0 {
      var shorter := seq(n - 1, _ => i);
      assert seq(n, _ => i) == shorter + [i];
      CollapseRun(tokens, i, n - 1, cursor);
      CollapseSnoc(tokens, shorter, i, cursor);
      if n - 1 == 0 && cursor != i {
        assert "" + Render(tokens[i]) == Render(tokens[i]);
      }
    }
  }

  /** The decoder's persistent state. */
  datatype DecoderState = DecoderState(
    lastIdx: int,
    tmpLastIdx: int,
    fixedWholeText: string,
    tokensSequence80: seq<int>,
    tokensSequence480: seq<int>)

  /** The state after `init` and after `reset()`. */
  const Initial: DecoderState := DecoderState(-1, -1, "", [], [])

  predicate HistoriesInVocabulary(tokens: seq<string>, d: DecoderState)
  {
    InVocabulary(tokens, d.tokensSequence80) && InVocabulary(tokens, d.tokensSequence480)
  }

  /** The history update at the start of `decode_ctc`: it touches neither
      cursor nor the committed text, and a step count other than 2, 7 or 14
      leaves the state as it is. */
  function UpdateHistories(d: DecoderState, steps: int, path: seq<int>): (r: DecoderState)
    ensures r.lastIdx == d.lastIdx && r.tmpLastIdx == d.tmpLastIdx && r.fixedWholeText == d.fixedWholeText
    ensures steps != Steps80 && steps != Steps480 && steps != Steps1040 ==> r == d
    ensures |r.tokensSequence80| + |r.tokensSequence480| <= |d.tokensSequence80| + |d.tokensSequence480| + |path|
  {
    if steps == Steps1040 then d.(tokensSequence80 := [], tokensSequence480 := [])
    else if steps == Steps480 then d.(tokensSequence480 := d.tokensSequence480 + path, tokensSequence80 := [])
    else if steps == Steps80 then d.(tokensSequence80 := d.tokensSequence80 + path)
    else d
  }

  /** One `decode_ctc` call on a window of `steps` encoder steps whose best path
      is `path`: the new state and the returned transcript. */
  function DecodeStep(tokens: seq<string>, d: DecoderState, steps: int, path: seq<int>): (r: (DecoderState, string))
    requires HistoriesInVocabulary(tokens, d) && InVocabulary(tokens, path)
    ensures HistoriesInVocabulary(tokens, r.0)
  {
    var h := UpdateHistories(d, steps, path);
    assert HistoriesInVocabulary(tokens, h) by {
      CollapseAppend(tokens, d.tokensSequence480, path, 0);
      CollapseAppend(tokens, d.tokensSequence80, path, 0);
    }
    if steps == Steps1040 then
      var c := Collapse(tokens, path, h.lastIdx);
      var d' := h.(lastIdx := c.1, tmpLastIdx := c.1, fixedWholeText := h.fixedWholeText + c.0);
      (d', d'.fixedWholeText)
    else
      CollapseAppend(tokens, h.tokensSequence480, h.tokensSequence80, h.tmpLastIdx);
      var c := Collapse(tokens, h.tokensSequence480 + h.tokensSequence80, h.tmpLastIdx);
      (h.(tmpLastIdx := c.1), h.fixedWholeText + c.0)
  }

  /** History updates by window: 14 steps clear both histories, 7 steps append
      the path to the 480 ms history and clear the 80 ms one, 2 steps append
      the path to the 80 ms history only. */
  lemma HistoriesByWindow(tokens: seq<string>, d: DecoderState, steps: int, path: seq<int>)
    requires HistoriesInVocabulary(tokens, d) && InVocabulary(tokens, path)
    ensures var d' := DecodeStep(tokens, d, steps, path).0;
            && (steps == Steps1040 ==> d'.tokensSequence480 == [] && d'.tokensSequence80 == [])
            && (steps == Steps480 ==> d'.tokensSequence480 == d.tokensSequence480 + path && d'.tokensSequence80 == [])
            && (steps == Steps80 ==> d'.tokensSequence480 == d.tokensSequence480 && d'.tokensSequence80 == d.tokensSequence80 + path)
  {
  }

  /** The committed text only grows; any call but a 14-step one leaves it and
      the committed cursor alone. */
  lemma CommittedOnlyGrows(tokens: seq<string>, d: DecoderState, steps: int, path: seq<int>)
    requires HistoriesInVocabulary(tokens, d) && InVocabulary(tokens, path)
    ensures var d' := DecodeStep(tokens, d, steps, path).0;
            && d.fixedWholeText <= d'.fixedWholeText
            && (steps != Steps1040 ==> d'.fixedWholeText == d.fixedWholeText && d'.lastIdx == d.lastIdx)
  {
  }

  /** A 14-step call commits the collapse of its path against `lastIdx`, syncs
      the provisional cursor to the committed one, and returns exactly the
      committed text. */
  lemma LongWindowCommits(tokens: seq<string>, d: DecoderState, path: seq<int>)
    requires HistoriesInVocabulary(tokens, d) && InVocabulary(tokens, path)
    ensures var (d', out) := DecodeStep(tokens, d, Steps1040, path);
            && d'.fixedWholeText == d.fixedWholeText + Collapse(tokens, path, d.lastIdx).0
            && d'.lastIdx == Collapse(tokens, path, d.lastIdx).1
            && d'.tmpLastIdx == d'.lastIdx
            && out == d'.fixedWholeText
  {
  }

  /** Any other call returns the committed text followed by the collapse of the
      concatenated histories against the provisional cursor, which is left
      wherever that pass ends; blank paths add no text. */
  lemma ProvisionalWindow(tokens: seq<string>, d: DecoderState, steps: int, path: seq<int>)
    requires HistoriesInVocabulary(tokens, d) && InVocabulary(tokens, path)
    requires steps != Steps1040
    ensures var (d', out) := DecodeStep(tokens, d, steps, path);
            var history := d'.tokensSequence480 + d'.tokensSequence80;
            InVocabulary(tokens, history)
            && out == d.fixedWholeText + Collapse(tokens, history, d.tmpLastIdx).0
            && d'.tmpLastIdx == Collapse(tokens, history, d.tmpLastIdx).1
  {
    var h := UpdateHistories(d, steps, path);
    CollapseAppend(tokens, h.tokensSequence480, h.tokensSequence80, d.tmpLastIdx);
  }

  /** A call on an all-blank path leaves the committed text as it was. */
  lemma BlankPathCommitsNothing(tokens: seq<string>, d: DecoderState, steps: int, path: seq<int>)
    requires HistoriesInVocabulary(tokens, d)
    requires forall k :: 0 <= k < |path| ==> path[k] == BlankIdx
    ensures InVocabulary(tokens, path)
    ensures DecodeStep(tokens, d, steps, path).0.fixedWholeText == d.fixedWholeText
  {
    CollapseAllBlank(tokens, path, d.lastIdx);
  }

  /** One `decode_ctc` call of a session: the window's step count and best path. */
  datatype Call = Call(steps: int, path: seq<int>)

  predicate CallsInVocabulary(tokens: seq<string>, calls: seq<Call>)
  {
    forall j :: 0 <= j < |calls| ==> InVocabulary(tokens, calls[j].path)
  }

  /** The state after a sequence of calls. */
  function RunCalls(tokens: seq<string>, d: DecoderState, calls: seq<Call>): (r: DecoderState)
    requires HistoriesInVocabulary(tokens, d) && CallsInVocabulary(tokens, calls)
    ensures HistoriesInVocabulary(tokens, r)
    decreases |calls|
  {
    if calls == [] then d
    else RunCalls(tokens, DecodeStep(tokens, d, calls[0].steps, calls[0].path).0, calls[1..])
  }

  /** The transcript the last of a non-empty sequence of calls returns. */
  function LastOutput(tokens: seq<string>, d: DecoderState, calls: seq<Call>): string
    requires HistoriesInVocabulary(tokens, d) && CallsInVocabulary(tokens, calls) && calls != []
  {
    var d' := RunCalls(tokens, d, calls[..|calls| - 1]);
    DecodeStep(tokens, d', calls[|calls| - 1].steps, calls[|calls| - 1].path).1
  }

  /** The concatenated paths of the 14-step calls, in call order. */
  function LongPaths(calls: seq<Call>): seq<int>
    decreases |calls|
  {
    if calls == [] then []
    else CommittedPart(calls[0]) + LongPaths(calls[1..])
  }

  /** The part of one call's path that reaches the committed text: the whole
      path for a 14-step call, nothing otherwise. */
  function CommittedPart(c: Call): seq<int>
  {
    if c.steps == Steps1040 then c.path else []
  }

  /** One call commits exactly the collapse of its committed part. */
  lemma CallCommits(tokens: seq<string>, d: DecoderState, c: Call)
    requires HistoriesInVocabulary(tokens, d) && InVocabulary(tokens, c.path)
    ensures InVocabulary(tokens, CommittedPart(c))
    ensures var d' := DecodeStep(tokens, d, c.steps, c.path).0;
            var k := Collapse(tokens, CommittedPart(c), d.lastIdx);
            d'.fixedWholeText == d.fixedWholeText + k.0 && d'.lastIdx == k.1
  {
    if c.steps == Steps1040 {
      LongWindowCommits(tokens, d, c.path);
    } else {
      CommittedOnlyGrows(tokens, d, c.steps, c.path);
      assert d.fixedWholeText + "" == d.fixedWholeText;
    }
  }

  /** Over a whole session the committed text grows by exactly the collapse of
      the concatenated 14-step paths against the initial committed cursor;
      provisional windows interleaved anywhere have no effect on it. */
  lemma {:induction false} SessionCommits(tokens: seq<string>, d: DecoderState, calls: seq<Call>)
    requires HistoriesInVocabulary(tokens, d) && CallsInVocabulary(tokens, calls)
    ensures InVocabulary(tokens, LongPaths(calls))
    ensures var c := Collapse(tokens, LongPaths(calls), d.lastIdx);
            var d' := RunCalls(tokens, d, calls);
            d'.fixedWholeText == d.fixedWholeText + c.0 && d'.lastIdx == c.1
    decreases |calls|
  {
    if calls != [] {
      var first, rest := calls[0], calls[1..];
      var d1 := DecodeStep(tokens, d, first.steps, first.path).0;
      assert CallsInVocabulary(tokens, rest) by {
        forall j | 0 <= j < |rest| ensures InVocabulary(tokens, rest[j].path) {
          assert rest[j] == calls[j + 1];
        }
      }
      assert RunCalls(tokens, d, calls) == RunCalls(tokens, d1, rest);
      CallCommits(tokens, d, first);
      SessionCommits(tokens, d1, rest);
      assert LongPaths(calls) == CommittedPart(first) + LongPaths(rest);
      CommitsCompose(tokens, d, d1, RunCalls(tokens, d1, rest), CommittedPart(first), LongPaths(rest));
    }
  }

  /** Committing `a` and then `b` is committing `a + b`. */
  lemma CommitsCompose(tokens: seq<string>, d0: DecoderState, d1: DecoderState, d2: DecoderState,
                       a: seq<int>, b: seq<int>)
    requires InVocabulary(tokens, a) && InVocabulary(tokens, b)
    requires d1.fixedWholeText == d0.fixedWholeText + Collapse(tokens, a, d0.lastIdx).0
    requires d1.lastIdx == Collapse(tokens, a, d0.lastIdx).1
    requires d2.fixedWholeText == d1.fixedWholeText + Collapse(tokens, b, d1.lastIdx).0
    requires d2.lastIdx == Collapse(tokens, b, d1.lastIdx).1
    ensures InVocabulary(tokens, a + b)
    ensures d2.fixedWholeText == d0.fixedWholeText + Collapse(tokens, a + b, d0.lastIdx).0
    ensures d2.lastIdx == Collapse(tokens, a + b, d0.lastIdx).1
  {
    CollapseAppend(tokens, a, b, d0.lastIdx);
    var c1 := Collapse(tokens, a, d0.lastIdx);
    var c2 := Collapse(tokens, b, c1.1);
    assert d0.fixedWholeText + c1.0 + c2.0 == d0.fixedWholeText + (c1.0 + c2.0);
  }

  /** The first call of both sessions below: seven steps on index 5. */
  lemma OpeningCall(tokens: seq<string>)
    requires |tokens| > 5
    ensures InVocabulary(tokens, seq(Steps480, _ => 5))
    ensures DecodeStep(tokens, Initial, Steps480, seq(Steps480, _ => 5)) ==
            (DecoderState(-1, 5, "", [], seq(Steps480, _ => 5)), Render(tokens[5]))
  {
    var fives := seq(Steps480, _ => 5);
    CollapseRun(tokens, 5, Steps480, -1);
    var h := UpdateHistories(Initial, Steps480, fives);
    assert [] + fives == fives;
    assert h == DecoderState(-1, -1, "", [], fives);
    assert h.tokensSequence480 + h.tokensSequence80 == fives;
    assert "" + Render(tokens[5]) == Render(tokens[5]);
  }

  /** An 80 ms call on index 3 after the opening call moves the provisional
      cursor to 3. */
  lemma ShortCallAfterOpening(tokens: seq<string>)
    requires |tokens| > 5
    ensures InVocabulary(tokens, seq(Steps480, _ => 5))
    ensures DecodeStep(tokens, DecoderState(-1, 5, "", [], seq(Steps480, _ => 5)), Steps80, [3, 3]).0 ==
            DecoderState(-1, 3, "", [3, 3], seq(Steps480, _ => 5))
  {
    var fives := seq(Steps480, _ => 5);
    CollapseRun(tokens, 5, Steps480, 5);
    assert [3, 3] == seq(2, _ => 3);
    CollapseRun(tokens, 3, 2, 5);
    CollapseAppend(tokens, fives, [3, 3], 5);
  }

  /** A 480 ms blank call after the given provisional cursor re-emits index 5
      unless the cursor already sits on it. */
  lemma BlankCallAfter(tokens: seq<string>, tmp: int, seq80: seq<int>)
    requires |tokens| > 5 && InVocabulary(tokens, seq80)
    ensures InVocabulary(tokens, seq(Steps480, _ => 5))
    ensures InVocabulary(tokens, seq(Steps480, _ => BlankIdx))
    ensures var fives := seq(Steps480, _ => 5);
            var blanks := seq(Steps480, _ => BlankIdx);
            DecodeStep(tokens, DecoderState(-1, tmp, "", seq80, fives), Steps480, blanks) ==
            (DecoderState(-1, BlankIdx, "", [], fives + blanks), if tmp == 5 then "" else Render(tokens[5]))
  {
    var fives := seq(Steps480, _ => 5);
    var blanks := seq(Steps480, _ => BlankIdx);
    CollapseRun(tokens, 5, Steps480, tmp);
    CollapseAllBlank(tokens, blanks, 5);
    CollapseAppend(tokens, fives, blanks, tmp);
    assert fives + blanks + [] == fives + blanks;
    var first := Collapse(tokens, fives, tmp).0;
    assert Collapse(tokens, fives + blanks, tmp) == (first + "", BlankIdx);
    assert "" + (first + "") == first;
  }

  /** `RunCalls` and `LastOutput` of two calls, one call at a time. */
  lemma TwoCalls(tokens: seq<string>, d: DecoderState, x: Call, y: Call)
    requires HistoriesInVocabulary(tokens, d) && InVocabulary(tokens, x.path) && InVocabulary(tokens, y.path)
    ensures CallsInVocabulary(tokens, [x, y])
    ensures var d1 := DecodeStep(tokens, d, x.steps, x.path).0;
            && RunCalls(tokens, d, [x, y]) == DecodeStep(tokens, d1, y.steps, y.path).0
            && LastOutput(tokens, d, [x, y]) == DecodeStep(tokens, d1, y.steps, y.path).1
  {
    var d1 := DecodeStep(tokens, d, x.steps, x.path).0;
    var d2 := DecodeStep(tokens, d1, y.steps, y.path).0;
    assert RunCalls(tokens, d1, [y]) == d2 by { assert [y][1..] == []; }
    assert [x, y][1..] == [y];
    assert RunCalls(tokens, d, [x]) == d1 by { assert [x][1..] == []; }
    assert [x, y][..1] == [x];
  }

  /** `RunCalls` and `LastOutput` of three calls, one call at a time. */
  lemma ThreeCalls(tokens: seq<string>, d: DecoderState, x: Call, y: Call, z: Call)
    requires HistoriesInVocabulary(tokens, d)
    requires InVocabulary(tokens, x.path) && InVocabulary(tokens, y.path) && InVocabulary(tokens, z.path)
    ensures CallsInVocabulary(tokens, [x, y, z])
    ensures var d1 := DecodeStep(tokens, d, x.steps, x.path).0;
            var d2 := DecodeStep(tokens, d1, y.steps, y.path).0;
            && RunCalls(tokens, d, [x, y, z]) == DecodeStep(tokens, d2, z.steps, z.path).0
            && LastOutput(tokens, d, [x, y, z]) == DecodeStep(tokens, d2, z.steps, z.path).1
  {
    var d1 := DecodeStep(tokens, d, x.steps, x.path).0;
    TwoCalls(tokens, d1, y, z);
    TwoCalls(tokens, d, x, y);
    assert [x, y, z][1..] == [y, z];
    assert [x, y, z][..2] == [x, y];
  }

  /** Session A: the opening call, an 80 ms call on index 3, a blank 480 ms call. */
  lemma SessionWithShortCall(tokens: seq<string>)
    requires |tokens| > 5
    ensures var c1 := Call(Steps480, seq(Steps480, _ => 5));
            var c2 := Call(Steps80, [3, 3]);
            var c3 := Call(Steps480, seq(Steps480, _ => BlankIdx));
            var a := [c1, c2, c3];
            && CallsInVocabulary(tokens, a)
            && RunCalls(tokens, Initial, a) == DecoderState(-1, BlankIdx, "", [], c1.path + c3.path)
            && LastOutput(tokens, Initial, a) == Render(tokens[5])
  {
    var fives := seq(Steps480, _ => 5);
    var blanks := seq(Steps480, _ => BlankIdx);
    OpeningCall(tokens);
    ShortCallAfterOpening(tokens);
    BlankCallAfter(tokens, 3, [3, 3]);
    ThreeCalls(tokens, Initial, Call(Steps480, fives), Call(Steps80, [3, 3]), Call(Steps480, blanks));
  }

  /** Session B: the opening call followed directly by a blank 480 ms call. */
  lemma SessionWithoutShortCall(tokens: seq<string>)
    requires |tokens| > 5
    ensures var c1 := Call(Steps480, seq(Steps480, _ => 5));
            var c3 := Call(Steps480, seq(Steps480, _ => BlankIdx));
            var b := [c1, c3];
            && CallsInVocabulary(tokens, b)
            && RunCalls(tokens, Initial, b) == DecoderState(-1, BlankIdx, "", [], c1.path + c3.path)
            && LastOutput(tokens, Initial, b) == ""
  {
    var fives := seq(Steps480, _ => 5);
    var blanks := seq(Steps480, _ => BlankIdx);
    OpeningCall(tokens);
    BlankCallAfter(tokens, 5, []);
    TwoCalls(tokens, Initial, Call(Steps480, fives), Call(Steps480, blanks));
  }

  /** The provisional text is not a function of the two histories alone: two
      sessions from the initial state reach the same histories, yet their last
      calls return different text, because `tmpLastIdx` carries over between
      provisional passes. */
  lemma ProvisionalDependsOnCarriedCursor(tokens: seq<string>)
    requires |tokens| > 5 && tokens[5] != ""
    ensures var fives := seq(Steps480, _ => 5);
            var blanks := seq(Steps480, _ => BlankIdx);
            var a := [Call(Steps480, fives), Call(Steps80, [3, 3]), Call(Steps480, blanks)];
            var b := [Call(Steps480, fives), Call(Steps480, blanks)];
            && CallsInVocabulary(tokens, a) && CallsInVocabulary(tokens, b)
            && RunCalls(tokens, Initial, a).tokensSequence480 == RunCalls(tokens, Initial, b).tokensSequence480
            && RunCalls(tokens, Initial, a).tokensSequence80 == RunCalls(tokens, Initial, b).tokensSequence80
            && LastOutput(tokens, Initial, a) != LastOutput(tokens, Initial, b)
  {
    SessionWithShortCall(tokens);
    SessionWithoutShortCall(tokens);
    assert |Render(tokens[5])| > 0;
  }

  class ModelDecoder {
    const ctcDecoder: CtcDecoder
    const tokens: seq<string>
    var lastIdx: int
    var tmpLastIdx: int
    var fixedWholeText: string
    var tokensSequence80: seq<int>
    var tokensSequence480: seq<int>

    function State(): DecoderState
      reads this
    {
      DecoderState(lastIdx, tmpLastIdx, fixedWholeText, tokensSequence80, tokensSequence480)
    }

    ghost predicate Valid()
      reads this
    {
      HistoriesInVocabulary(tokens, State())
    }

    /** Every best path the CTC sub-model can produce fits the vocabulary. */
    ghost predicate CoversEveryPath()
    {
      forall t :: InVocabulary(tokens, ctcDecoder(t))
    }

    /** The CTC sub-model and the vocabulary are given already loaded. */
    constructor (ctcDecoder: CtcDecoder, tokens: seq<string>)
      ensures Valid() && State() == Initial
      ensures this.ctcDecoder == ctcDecoder && this.tokens == tokens
    {
      this.ctcDecoder := ctcDecoder;
      this.tokens := tokens;
      lastIdx, tmpLastIdx := -1, -1;
      fixedWholeText := "";
      tokensSequence80, tokensSequence480 := [], [];
    }

    /** `decode_ctc(encoded:)`. */
    method DecodeCtc(encoded: Tensor) returns (result: string)
      requires Valid() && |encoded.shape| >= 2
      requires InVocabulary(tokens, ctcDecoder(encoded))
      modifies this
      ensures Valid()
      ensures (State(), result) == DecodeStep(tokens, old(State()), encoded.shape[1], ctcDecoder(encoded))
    {
      ghost var d := State();
      var path := ctcDecoder(encoded);
      var steps := encoded.shape[1];

      if steps == Steps1040 {
        tokensSequence80 := [];
        tokensSequence480 := [];
      } else if steps == Steps480 {
        CollapseAppend(tokens, tokensSequence480, path, 0);
        tokensSequence480 := tokensSequence480 + path;
        tokensSequence80 := [];
      } else if steps == Steps80 {
        CollapseAppend(tokens, tokensSequence80, path, 0);
        tokensSequence80 := tokensSequence80 + path;
      }
      assert State() == UpdateHistories(d, steps, path);

      if steps == Steps1040 {
        CommitPath(path);
        tmpLastIdx := lastIdx;
        result := fixedWholeText;
      } else {
        CollapseAppend(tokens, tokensSequence480, tokensSequence80, 0);
        var text := CollapseHistories();
        result := fixedWholeText + text;
      }
    }

    /** The committing loop of a 1040 ms window: collapse `path` against
        `lastIdx`, appending to the committed text. */
    method CommitPath(path: seq<int>)
      requires InVocabulary(tokens, path)
      modifies this
      ensures var c := Collapse(tokens, path, old(lastIdx));
              State() == old(State()).(lastIdx := c.1, fixedWholeText := old(fixedWholeText) + c.0)
    {
      ghost var h := State();
      for k := 0 to |path|
        invariant State() == h.(lastIdx := Collapse(tokens, path[..k], h.lastIdx).1,
                                fixedWholeText := h.fixedWholeText + Collapse(tokens, path[..k], h.lastIdx).0)
      {
        var i := path[k];
        assert path[..k + 1][..k] == path[..k];
        if i == lastIdx {
          continue;
        }
        if i == BlankIdx {
          lastIdx := i;
          continue;
        }
        var token := Render(tokens[i]);
        fixedWholeText := fixedWholeText + token;
        lastIdx := i;
      }
      assert path[..|path|] == path;
    }

    /** The provisional loop: collapse the 480 ms history followed by the 80 ms
        history against `tmpLastIdx`, returning the text. */
    method CollapseHistories() returns (text: string)
      requires InVocabulary(tokens, tokensSequence480 + tokensSequence80)
      modifies this
      ensures var c := Collapse(tokens, old(tokensSequence480 + tokensSequence80), old(tmpLastIdx));
              State() == old(State()).(tmpLastIdx := c.1) && text == c.0
    {
      ghost var h := State();
      var history := tokensSequence480 + tokensSequence80;
      text := "";
      for k := 0 to |history|
        invariant lastIdx == h.lastIdx && fixedWholeText == h.fixedWholeText
        invariant tokensSequence80 == h.tokensSequence80 && tokensSequence480 == h.tokensSequence480
        invariant tmpLastIdx == Collapse(tokens, history[..k], h.tmpLastIdx).1
        invariant text == Collapse(tokens, history[..k], h.tmpLastIdx).0
      {
        var i := history[k];
        assert history[..k + 1][..k] == history[..k];
        if i == tmpLastIdx {
          continue;
        }
        if i == BlankIdx {
          tmpLastIdx := i;
          continue;
        }
        var token := Render(tokens[i]);
        text := text + token;
        tmpLastIdx := i;
      }
      assert history[..|history|] == history;
    }

    /** `reset()`: both cursors back to -1, empty committed text and histories. */
    method Reset()
      modifies this
      ensures Valid() && State() == Initial
    {
      lastIdx := -1;
      tmpLastIdx := -1;
      fixedWholeText := "";
      tokensSequence80 := [];
      tokensSequence480 := [];
    }
  }
}
