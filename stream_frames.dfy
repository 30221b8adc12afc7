/** How `LlmSdk::chat_stream` (src/lib.rs) cuts one decoded chunk of the
    response body into SSE payloads: split on a blank line, keep the
    segments that start with `data: `, drop the prefix, and drop empty
    remainders and the `[DONE]` sentinel. Each chunk is cut on its own. */
module StreamFrames {
  import opened Wrappers

  const Delimiter: string := "\n\n"
  const DataPrefix: string := "data: "
  const Sentinel: string := "[DONE]"

  /** A blank line (the delimiter) starts at index `i` of `s`. */
  predicate GapAt(s: string, i: int) {
    0 <= i < |s| - 1 && s[i] == '\n' && s[i + 1] == '\n'
  }

  /** `t` contains no blank line. */
  predicate NoDelimiter(t: string) {
    forall k :: 0 <= k < |t| - 1 ==> !GapAt(t, k)
  }

  /** The leftmost delimiter at or after `from`, as `str::find` reports it. */
  function FindGap(s: string, from: nat): (r: Option<nat>)
    requires from <= |s|
    ensures r.Some? ==> from <= r.value && GapAt(s, r.value)
    ensures forall k :: from <= k && (r.None? || k < r.value) ==> !GapAt(s, k)
    decreases |s| - from
  {
    if from + 1 >= |s| then None
    else if GapAt(s, from) then Some(from)
    else FindGap(s, from + 1)
  }

  /** The leftmost delimiter is the one with no delimiter before it. */
  lemma FindGapIs(s: string, i: nat)
    requires GapAt(s, i)
    requires forall k :: 0 <= k < i ==> !GapAt(s, k)
    ensures FindGap(s, 0) == Some(i)
  {
  }

  /** `s.split("\n\n")`: cut at the leftmost delimiter, then split what
      follows it; a text without a delimiter is one piece. */
  function SplitFrames(s: string): (segs: seq<string>)
    ensures |segs| >= 1
    decreases |s|
  {
    var g := FindGap(s, 0);
    if g.None? then [s]
    else [s[..g.value]] + SplitFrames(s[g.value + 2..])
  }

  /** The pieces glued back together with the delimiter between them. */
  function JoinFrames(segs: seq<string>): string {
    if |segs| == 0 then ""
    else if |segs| == 1 then segs[0]
    else segs[0] + Delimiter + JoinFrames(segs[1..])
  }

  /** Splitting loses nothing: the pieces and the delimiters between them
      make up the text again. */
  lemma {:induction false} SplitFramesJoin(s: string)
    ensures JoinFrames(SplitFrames(s)) == s
    decreases |s|
  {
    var g := FindGap(s, 0);
    if g.Some? {
      var i := g.value;
      var rest := SplitFrames(s[i + 2..]);
      SplitFramesJoin(s[i + 2..]);
      var segs := SplitFrames(s);
      assert segs == [s[..i]] + rest;
      assert segs[1..] == rest;
      assert s[i..i + 2] == Delimiter;
      assert s == s[..i] + s[i..i + 2] + s[i + 2..];
    }
  }

  /** The pieces are the ones a left-to-right scan finds: none contains the
      delimiter, and none but the last ends in a newline (otherwise the
      delimiter would have matched one character earlier). */
  lemma {:induction false} SplitFramesLeftmost(s: string)
    ensures forall i :: 0 <= i < |SplitFrames(s)| ==> NoDelimiter(SplitFrames(s)[i])
    ensures forall i :: 0 <= i < |SplitFrames(s)| - 1 ==>
              SplitFrames(s)[i] == "" || SplitFrames(s)[i][|SplitFrames(s)[i]| - 1] != '\n'
    decreases |s|
  {
    var g := FindGap(s, 0);
    if g.Some? {
      var i := g.value;
      var head := s[..i];
      var rest := SplitFrames(s[i + 2..]);
      SplitFramesLeftmost(s[i + 2..]);
      var segs := SplitFrames(s);
      assert segs == [head] + rest;
      assert forall j :: 1 <= j < |segs| ==> segs[j] == rest[j - 1];
      assert NoDelimiter(head) by {
        forall k | 0 <= k < |head| - 1 ensures !GapAt(head, k) {
          assert !GapAt(s, k);
        }
      }
      if i > 0 {
        assert !GapAt(s, i - 1);
        assert head[i - 1] == s[i - 1];
      }
    }
  }

  /** In `a + Delimiter + b`, a delimiter inside `a` is found where it is in `a`. */
  lemma GapInLeft(a: string, b: string, i: nat)
    requires FindGap(a, 0) == Some(i)
    ensures FindGap(a + Delimiter + b, 0) == Some(i)
  {
    var s := a + Delimiter + b;
    assert forall k :: 0 <= k < |a| - 1 ==> (GapAt(s, k) <==> GapAt(a, k));
    FindGapIs(s, i);
  }

  /** When `a` has no delimiter and does not end in a newline, the joining
      delimiter is the first one. */
  lemma GapAtJoin(a: string, b: string)
    requires FindGap(a, 0).None?
    requires a == [] || a[|a| - 1] != '\n'
    ensures FindGap(a + Delimiter + b, 0) == Some(|a|)
  {
    var s := a + Delimiter + b;
    assert GapAt(s, |a|);
    forall k | 0 <= k < |a| ensures !GapAt(s, k) {
      if k == |a| - 1 { assert s[k] == a[k]; } else { assert !GapAt(a, k); }
    }
    FindGapIs(s, |a|);
  }

  /** Splitting distributes over a delimiter that the left part does not
      run into: a left part ending in a newline would make the delimiter
      match one character earlier. */
  lemma {:induction false} SplitFramesAppend(a: string, b: string)
    requires a == [] || a[|a| - 1] != '\n'
    ensures SplitFrames(a + Delimiter + b) == SplitFrames(a) + SplitFrames(b)
    decreases |a|
  {
    var s := a + Delimiter + b;
    var ga := FindGap(a, 0);
    if ga.Some? {
      var i := ga.value;
      GapInLeft(a, b, i);
      assert s[..i] == a[..i];
      assert s[i + 2..] == a[i + 2..] + Delimiter + b;
      SplitFramesAppend(a[i + 2..], b);
    } else {
      GapAtJoin(a, b);
      assert s[..|a|] == a;
      assert s[|a| + 2..] == b;
    }
  }

  /** Text without a blank line is a single segment. */
  lemma SplitFramesNoDelimiter(s: string)
    requires NoDelimiter(s)
    ensures SplitFrames(s) == [s]
  {
  }

  /** `s.strip_prefix(p)`. */
  function StripPrefix(s: string, p: string): (r: Option<string>)
    ensures r.Some? <==> p <= s
    ensures r.Some? ==> s == p + r.value
  {
    if p <= s then Some(s[|p|..]) else None
  }

  /** A remainder the filter keeps: neither empty nor the sentinel. */
  predicate IsPayload(p: string) {
    p != "" && p != Sentinel
  }

  /** The payload a segment yields, if any. */
  function SegmentPayload(seg: string): (r: Option<string>)
    ensures r.Some? ==> seg == DataPrefix + r.value && IsPayload(r.value)
  {
    var stripped := StripPrefix(seg, DataPrefix);
    if stripped.Some? && IsPayload(stripped.value) then stripped else None
  }

  /** A segment `data: p` yields exactly `p` when `p` is kept, and nothing otherwise. */
  lemma SegmentPayloadOf(p: string)
    ensures SegmentPayload(DataPrefix + p) == if IsPayload(p) then Some(p) else None
  {
  }

  /** A segment that does not start with `data: ` yields nothing. */
  lemma SegmentPayloadUnprefixed(seg: string)
    requires !(DataPrefix <= seg)
    ensures SegmentPayload(seg) == None
  {
  }

  /** The `strip_prefix` / `filter` stage over a chunk's segments, in order. */
  function Payloads(segs: seq<string>): (ps: seq<string>)
    ensures |ps| <= |segs|
    ensures forall i :: 0 <= i < |ps| ==> IsPayload(ps[i])
  {
    if segs == [] then []
    else
      var here := SegmentPayload(segs[0]);
      (if here.Some? then [here.value] else []) + Payloads(segs[1..])
  }

  /** Everything a chunk contributes: its payload strings, in segment order. */
  function Frames(chunk: string): (ps: seq<string>)
    ensures |ps| <= |SplitFrames(chunk)|
  {
    Payloads(SplitFrames(chunk))
  }

  /** A string is among the payloads exactly when some segment is `data: `
      followed by it and it is neither empty nor the sentinel. */
  lemma {:induction false} PayloadsMembership(segs: seq<string>, p: string)
    ensures p in Payloads(segs) <==> IsPayload(p) && DataPrefix + p in segs
  {
    if segs != [] {
      PayloadsMembership(segs[1..], p);
      assert segs == [segs[0]] + segs[1..];
      var here := SegmentPayload(segs[0]);
      if segs[0] == DataPrefix + p {
        SegmentPayloadOf(p);
      } else if here.Some? {
        assert here.value != p;
      }
    }
  }

  lemma FramesMembership(chunk: string, p: string)
    ensures p in Frames(chunk) <==> IsPayload(p) && DataPrefix + p in SplitFrames(chunk)
  {
    PayloadsMembership(SplitFrames(chunk), p);
  }

  /** The filter works segment by segment, so it keeps segment order. */
  lemma {:induction false} PayloadsAppend(a: seq<string>, b: seq<string>)
    ensures Payloads(a + b) == Payloads(a) + Payloads(b)
  {
    if a == [] {
      assert a + b == b;
    } else {
      assert (a + b)[0] == a[0] && (a + b)[1..] == a[1..] + b;
      PayloadsAppend(a[1..], b);
    }
  }

  /** Two chunk texts joined by a delimiter yield the payloads of each, in order. */
  lemma FramesAppend(a: string, b: string)
    requires a == [] || a[|a| - 1] != '\n'
    ensures Frames(a + Delimiter + b) == Frames(a) + Frames(b)
  {
    SplitFramesAppend(a, b);
    PayloadsAppend(SplitFrames(a), SplitFrames(b));
  }

  /** A single `data: ` frame whose payload holds no blank line yields that payload. */
  lemma SingleFrame(p: string)
    requires IsPayload(p) && NoDelimiter(p)
    ensures Frames(DataPrefix + p) == [p]
  {
    var seg := DataPrefix + p;
    assert NoDelimiter(seg) by {
      forall k | 0 <= k < |seg| - 1 ensures !GapAt(seg, k) {
        if k >= |DataPrefix| {
          assert seg[k] == p[k - |DataPrefix|] && seg[k + 1] == p[k + 1 - |DataPrefix|];
          assert !GapAt(p, k - |DataPrefix|);
        }
      }
    }
    SplitFramesNoDelimiter(seg);
    assert [seg][1..] == [];
  }

  /** The sentinel frame yields nothing. */
  lemma SentinelFrame()
    ensures Frames(DataPrefix + Sentinel) == []
  {
  }

  /** `[DONE]` does not end the chunk: whatever follows it in the same chunk
      is still extracted. */
  lemma SentinelDoesNotStop(rest: string)
    ensures Frames(DataPrefix + Sentinel + Delimiter + rest) == Frames(rest)
  {
    var done := DataPrefix + Sentinel;
    assert done[|done| - 1] == ']';
    FramesAppend(done, rest);
    SentinelFrame();
  }

  /** Chunks are not buffered: when a frame's bytes arrive in two chunks,
      the first chunk yields the truncated fragment and the second chunk,
      which does not start with `data: `, yields nothing for the rest of it. */
  lemma SplitFrameNotReassembled(x: string, y: string)
    requires x != [] && x != Sentinel && y != []
    requires forall k :: 0 <= k < |x| ==> x[k] != '\n'
    requires forall k :: 0 <= k < |y| ==> y[k] != '\n'
    requires !(DataPrefix <= y)
    ensures Frames(DataPrefix + x + y) == [x + y] || x + y == Sentinel
    ensures Frames(DataPrefix + x) == [x]
    ensures Frames(y + Delimiter) == []
  {
    SingleFrame(x);
    var xy := x + y;
    assert forall k :: 0 <= k < |xy| ==> xy[k] != '\n' by {
      forall k | 0 <= k < |xy| ensures xy[k] != '\n' {
        if k >= |x| { assert xy[k] == y[k - |x|]; }
      }
    }
    if xy != Sentinel {
      SingleFrame(xy);
      assert DataPrefix + x + y == DataPrefix + xy;
    }
    FramesAppend(y, "");
    assert y[|y| - 1] != '\n';
    assert NoDelimiter(y);
    SplitFramesNoDelimiter(y);
    SegmentPayloadUnprefixed(y);
    assert Payloads([y]) == [] by { assert [y][1..] == []; }
    assert Frames("") == [] by { assert !(DataPrefix <= ""); }
    assert y + Delimiter + "" == y + Delimiter;
  }

  /** One instance: `data: {"id":1}` arriving as `data: {"id"` and `:1}`. */
  lemma SplitFrameExample()
    ensures Frames("data: {\"id\"") == ["{\"id\""]
    ensures Frames(":1}\n\n") == []
  {
    var x := "{\"id\"";
    var y := ":1}";
    assert y[0] != DataPrefix[0];
    SplitFrameNotReassembled(x, y);
    assert DataPrefix + x == "data: {\"id\"";
    assert y + Delimiter == ":1}\n\n";
  }
}
