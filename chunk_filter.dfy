/** The per-chunk filter of src/index.ts:95-104: a `TransformStream` whose
    `transform` callback cleans each upstream chunk with `stripThink` on its
    own and enqueues the result only when it is non-empty. The callback keeps
    no state from one chunk to the next. Chunks are taken as already decoded
    text. */
module ChunkFilter {
  import opened Text
  import opened ThinkStrip

  /** What `transform` enqueues for one chunk: its cleaned text, or nothing
      when the cleaned text is empty (the empty string is falsy). */
  function Emitted(chunk: string): (r: seq<string>)
    ensures |r| <= 1
    ensures r == [] <==> StripThink(chunk) == []
    ensures r != [] ==> r[0] == StripThink(chunk)
  {
    var clean := StripThink(chunk);
    if clean != [] then [clean] else []
  }

  /** Everything enqueued after the chunks `chunks`, in order. */
  function Filtered(chunks: seq<string>): (r: seq<string>)
    ensures |r| <= |chunks|
    ensures forall k :: 0 <= k < |r| ==> r[k] != [] && Trimmed(r[k])
  {
    if chunks == [] then []
    else Filtered(chunks[..|chunks| - 1]) + Emitted(chunks[|chunks| - 1])
  }

  /** Reference definition: each chunk cleaned on its own ... */
  function Cleaned(chunks: seq<string>): (r: seq<string>)
    ensures |r| == |chunks|
    ensures forall i :: 0 <= i < |chunks| ==> r[i] == StripThink(chunks[i])
  {
    seq(|chunks|, i requires 0 <= i < |chunks| => StripThink(chunks[i]))
  }

  /** ... and the empty results left out. */
  function WithoutEmpty(texts: seq<string>): (r: seq<string>)
  {
    if texts == [] then []
    else (if texts[0] == [] then [] else [texts[0]]) + WithoutEmpty(texts[1..])
  }

  lemma {:induction false} WithoutEmptyAppend(a: seq<string>, b: seq<string>)
    ensures WithoutEmpty(a + b) == WithoutEmpty(a) + WithoutEmpty(b)
    decreases |a|
  {
    if a != [] {
      assert (a + b)[1..] == a[1..] + b;
      WithoutEmptyAppend(a[1..], b);
    } else {
      assert a + b == b;
    }
  }

  lemma CleanedSnoc(init: seq<string>, last: string)
    ensures Cleaned(init + [last]) == Cleaned(init) + [StripThink(last)]
  {
  }

  /** The filter emits, in input order, exactly the non-empty cleaned chunks. */
  lemma {:induction false} FilteredIsCleanedWithoutEmpty(chunks: seq<string>)
    ensures Filtered(chunks) == WithoutEmpty(Cleaned(chunks))
    decreases |chunks|
  {
    if chunks != [] {
      var n := |chunks| - 1;
      var init, last := chunks[..n], chunks[n];
      assert chunks == init + [last];
      FilteredIsCleanedWithoutEmpty(init);
      CleanedSnoc(init, last);
      var clean := StripThink(last);
      WithoutEmptyAppend(Cleaned(init), [clean]);
      assert WithoutEmpty([clean]) == Emitted(last);
    }
  }

  /** `t` is one of the chunks cleaned, and arises from it by deleting characters. */
  ghost predicate FromSomeChunk(t: string, chunks: seq<string>)
  {
    exists i :: 0 <= i < |chunks| && t == StripThink(chunks[i]) && IsSubsequence(t, chunks[i])
  }

  lemma FromSomeChunkExtend(t: string, init: seq<string>, last: string)
    requires FromSomeChunk(t, init)
    ensures FromSomeChunk(t, init + [last])
  {
    var i :| 0 <= i < |init| && t == StripThink(init[i]) && IsSubsequence(t, init[i]);
    assert (init + [last])[i] == init[i];
  }

  lemma FromLastChunk(init: seq<string>, last: string)
    ensures FromSomeChunk(StripThink(last), init + [last])
  {
    StripThinkOnlyDeletes(last);
    assert (init + [last])[|init|] == last;
  }

  /** Each emitted chunk is one of the input chunks, cleaned: it arises
      from that chunk by deleting characters. */
  lemma {:induction false} FilteredComesFromChunks(chunks: seq<string>)
    ensures forall k :: 0 <= k < |Filtered(chunks)| ==> FromSomeChunk(Filtered(chunks)[k], chunks)
    decreases |chunks|
  {
    if chunks != [] {
      var n := |chunks| - 1;
      var init, last := chunks[..n], chunks[n];
      assert chunks == init + [last];
      FilteredComesFromChunks(init);
      var f := Filtered(init);
      assert Filtered(chunks) == f + Emitted(last);
      forall k | 0 <= k < |Filtered(chunks)|
        ensures FromSomeChunk(Filtered(chunks)[k], chunks)
      {
        if k < |f| {
          FromSomeChunkExtend(f[k], init, last);
        } else {
          FromLastChunk(init, last);
        }
      }
    } else {
      assert Filtered(chunks) == [];
    }
  }

  lemma ConcatAssociative<T>(p: seq<T>, q: seq<T>, r: seq<T>)
    ensures (p + q) + r == p + (q + r)
  {
  }

  /** Nothing is carried from one chunk to the next: filtering two runs of
      chunks one after the other gives the two outputs one after the other. */
  lemma {:induction false} FilteredAppend(a: seq<string>, b: seq<string>)
    ensures Filtered(a + b) == Filtered(a) + Filtered(b)
    decreases |b|
  {
    if b == [] {
      assert a + b == a;
    } else {
      var n := |b| - 1;
      var ab := a + b;
      assert ab[..|ab| - 1] == a + b[..n];
      assert ab[|ab| - 1] == b[n];
      assert Filtered(ab) == Filtered(a + b[..n]) + Emitted(b[n]);
      FilteredAppend(a, b[..n]);
      assert Filtered(b) == Filtered(b[..n]) + Emitted(b[n]);
      ConcatAssociative(Filtered(a), Filtered(b[..n]), Emitted(b[n]));
    }
  }

  /** The output queue of the stream controller. */
  class Controller {
    var queue: seq<string>

    constructor ()
      ensures queue == []
    {
      queue := [];
    }

    /** `controller.enqueue`. */
    method Enqueue(chunk: string)
      modifies this
      ensures queue == old(queue) + [chunk]
    {
      queue := queue + [chunk];
    }
  }

  /** The `transform` callback (src/index.ts:96-103). */
  method Transform(chunk: string, controller: Controller)
    modifies controller
    ensures controller.queue == old(controller.queue) + Emitted(chunk)
  {
    var clean := StripThink(chunk);
    if clean != [] {
      controller.Enqueue(clean);
    }
  }

  /** `aiStream.pipeThrough(filteredStream)` (src/index.ts:106): one
      controller per stream, `transform` called once per chunk in order. */
  method PipeThrough(chunks: seq<string>) returns (out: seq<string>)
    ensures out == Filtered(chunks)
  {
    var controller := new Controller();
    var i := 0;
    while i < |chunks|
      invariant 0 <= i <= |chunks|
      invariant controller.queue == Filtered(chunks[..i])
    {
      Transform(chunks[i], controller);
      assert chunks[..i + 1][..i] == chunks[..i];
      i := i + 1;
    }
    assert chunks[..|chunks|] == chunks;
    out := controller.queue;
  }

  /** A run of one chunk gives what `transform` enqueues for it. */
  lemma FilteredSingle(chunk: string)
    ensures Filtered([chunk]) == Emitted(chunk)
  {
    assert [chunk][..0] == [];
  }

  /** A four-element display is the concatenation of its singletons; stated
      on its own, over an arbitrary element type, so that the proof below
      need not compare texts element by element. */
  lemma FourInARow<T>(a: T, b: T, c: T, d: T)
    ensures [a, b, c, d] == [a] + [b] + [c] + [d]
  {
  }

  /** A think block split over chunks is not caught: with the opener, the
      body and the closer in chunks of their own, the markers are dropped
      one by one and the body reaches the client, followed by the answer. */
  lemma {:induction false} SplitBlockLeaksBody(opener: string, body: string, closer: string, answer: string)
    requires IsOpenMarker(opener) && IsCloseMarker(closer)
    requires PlainText(body) && body != [] && Trimmed(body)
    requires PlainText(answer) && answer != [] && Trimmed(answer)
    ensures Filtered([opener, body, closer, answer]) == [body, answer]
  {
    var front := [opener] + [body];
    var three := front + [closer];
    assert Filtered(front) == [body] by {
      LoneMarkerVanishes(opener);
      PlainTrimmedKept(body);
      FilteredSingle(opener);
      FilteredSingle(body);
      FilteredAppend([opener], [body]);
    }
    assert Filtered(three) == [body] by {
      LoneMarkerVanishes(closer);
      FilteredSingle(closer);
      FilteredAppend(front, [closer]);
    }
    assert Filtered(three + [answer]) == [body, answer] by {
      PlainTrimmedKept(answer);
      FilteredSingle(answer);
      FilteredAppend(three, [answer]);
    }
    FourInARow(opener, body, closer, answer);
  }

  /** A marker split between two chunks is not recognised in either: the
      chunk `<thi` passes unchanged, and the next chunk `nk>x</think>y` loses
      only its own closer, so the opener everything after it belongs to
      reaches the client in two pieces, together with the would-be hidden
      text `x`. */
  lemma {:induction false} SplitMarkerPassesThrough(head: string, tail: string, x: string, y: string)
    requires head == "<thi" && tail == "nk>"
    requires PlainText(x) && PlainText(y)
    ensures Filtered([head, tail + x + CLOSE + y]) == [head, Trim(tail + x + y)]
  {
    var second := tail + x + CLOSE + y;
    assert StripThink(head) == head by {
      MarkerShapes();
      ShortHasNoOccurrence(head, OPEN);
      ShortHasNoOccurrence(head, CLOSE);
      StripThinkWithoutMarkers(head);
      assert Trimmed(head);
      TrimFixedPoint(head);
    }
    assert StripThink(second) == Trim(tail + x + y) by {
      MarkersMatchThemselves();
      assert PlainText(tail + x);
      assert second == (tail + x) + CLOSE + y;
      assert (tail + x) + y == tail + x + y;
      StripThinkStrayMarker(tail + x, CLOSE, y);
    }
    assert Trim(tail + x + y) != [] by {
      TrimKeepsLeadingNonWhitespace(tail + x + y);
    }
    assert [head, second] == [head] + [second];
    FilteredSingle(head);
    FilteredSingle(second);
    FilteredAppend([head], [second]);
  }
}
