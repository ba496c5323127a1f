/** `stripThink` of src/index.ts: two global, case-insensitive regex
    replacements followed by `trim`, written as left-to-right scans.
    A global replace tries a match at each index in turn; after a match it
    resumes right behind it, after a failure it keeps that one character and
    moves on by one. Neither pass looks back, so each is a function of the
    remaining suffix. */
module ThinkStrip {
  import opened Wrappers
  import opened Text

  const OPEN: string := "<think>"
  const CLOSE: string := "</think>"

  /** `m` is `<think>` in some mix of cases. */
  predicate IsOpenMarker(m: string)
  {
    |m| == |OPEN| && MatchesAt(m, 0, OPEN)
  }

  /** `m` is `</think>` in some mix of cases. */
  predicate IsCloseMarker(m: string)
  {
    |m| == |CLOSE| && MatchesAt(m, 0, CLOSE)
  }

  lemma MarkerShapes()
    ensures |OPEN| == 7 && |CLOSE| == 8
    ensures LtOnlyFirst(OPEN) && LtOnlyFirst(CLOSE)
  {
  }

  /** The first case-insensitive `</think>` at or after index `k`. */
  function FindClose(s: string, k: nat): (r: Option<nat>)
    decreases |s| - k
    ensures r.Some? ==> k <= r.value && MatchesAt(s, r.value, CLOSE)
    ensures r.Some? ==> forall j :: k <= j < r.value ==> !MatchesAt(s, j, CLOSE)
    ensures r.None? ==> forall j :: k <= j < |s| ==> !MatchesAt(s, j, CLOSE)
  {
    if k + |CLOSE| > |s| then None
    else if MatchesAt(s, k, CLOSE) then Some(k)
    else FindClose(s, k + 1)
  }

  /** Where a match of `/<think>[\s\S]*?<\/think>/i` that starts at index 0
      of `s` ends: the opener must be there, and the lazy body stops at the
      first closer after it. */
  function RegionAt(s: string): (r: Option<nat>)
    ensures r.Some? <==> MatchesAt(s, 0, OPEN) && exists j :: |OPEN| <= j < |s| && MatchesAt(s, j, CLOSE)
    ensures r.Some? ==> |OPEN| + |CLOSE| <= r.value <= |s| && MatchesAt(s, r.value - |CLOSE|, CLOSE)
    ensures r.Some? ==> forall j :: |OPEN| <= j < r.value - |CLOSE| ==> !MatchesAt(s, j, CLOSE)
  {
    if !MatchesAt(s, 0, OPEN) then None
    else match FindClose(s, |OPEN|)
      case None => None
      case Some(j) => Some(j + |CLOSE|)
  }

  /** First replacement (src/index.ts:34): every `<think>…</think>` region,
      contents included, is deleted. */
  function RemoveRegions(s: string): (r: string)
    decreases |s|
    ensures |r| <= |s|
  {
    if s == [] then []
    else match RegionAt(s)
      case Some(e) => RemoveRegions(s[e..])
      case None => [s[0]] + RemoveRegions(s[1..])
  }

  /** Second replacement (src/index.ts:35): every `<think>` or `</think>`
      left over is deleted, the text around it is kept. */
  function RemoveMarkers(s: string): (r: string)
    decreases |s|
    ensures |r| <= |s|
  {
    if s == [] then []
    else if MatchesAt(s, 0, OPEN) then RemoveMarkers(s[|OPEN|..])
    else if MatchesAt(s, 0, CLOSE) then RemoveMarkers(s[|CLOSE|..])
    else [s[0]] + RemoveMarkers(s[1..])
  }

  /** `stripThink` (src/index.ts:32-37). */
  function StripThink(s: string): (r: string)
    ensures Trimmed(r)
    ensures |r| <= |s|
  {
    Trim(RemoveMarkers(RemoveRegions(s)))
  }

  // ---------------------------------------------------------------------
  // Every pass only deletes characters

  lemma {:induction false} RemoveRegionsOnlyDeletes(s: string)
    ensures IsSubsequence(RemoveRegions(s), s)
    decreases |s|
  {
    if s != [] {
      match RegionAt(s)
      case Some(e) =>
        RemoveRegionsOnlyDeletes(s[e..]);
        SubsequenceOfSuffix(RemoveRegions(s), s, e);
      case None =>
        RemoveRegionsOnlyDeletes(s[1..]);
        SubsequenceCons(s[0], RemoveRegions(s[1..]), s);
    }
  }

  lemma {:induction false} RemoveMarkersOnlyDeletes(s: string)
    ensures IsSubsequence(RemoveMarkers(s), s)
    decreases |s|
  {
    if s != [] {
      if MatchesAt(s, 0, OPEN) {
        RemoveMarkersOnlyDeletes(s[|OPEN|..]);
        SubsequenceOfSuffix(RemoveMarkers(s), s, |OPEN|);
      } else if MatchesAt(s, 0, CLOSE) {
        RemoveMarkersOnlyDeletes(s[|CLOSE|..]);
        SubsequenceOfSuffix(RemoveMarkers(s), s, |CLOSE|);
      } else {
        RemoveMarkersOnlyDeletes(s[1..]);
        SubsequenceCons(s[0], RemoveMarkers(s[1..]), s);
      }
    }
  }

  /** The result is the input with characters deleted: it is never longer,
      and every character it keeps is kept in order and in its own case. */
  lemma StripThinkOnlyDeletes(s: string)
    ensures IsSubsequence(StripThink(s), s)
    ensures |StripThink(s)| <= |s|
  {
    var r1 := RemoveRegions(s);
    var r2 := RemoveMarkers(r1);
    RemoveRegionsOnlyDeletes(s);
    RemoveMarkersOnlyDeletes(r1);
    TrimIsSubsequence(r2);
    SubsequenceTransitive(r2, r1, s);
    SubsequenceTransitive(StripThink(s), r2, s);
    SubsequenceLength(StripThink(s), s);
  }

  // ---------------------------------------------------------------------
  // Text without markers passes through

  /** Without a closer there is no region to delete, even after an opener. */
  lemma {:induction false} RemoveRegionsWithoutClose(s: string)
    requires NoOccurrence(s, CLOSE)
    ensures RemoveRegions(s) == s
    decreases |s|
  {
    if s != [] {
      assert RegionAt(s).None?;
      NoOccurrenceTail(s, CLOSE);
      RemoveRegionsWithoutClose(s[1..]);
    }
  }

  lemma {:induction false} RemoveMarkersWithoutMarkers(s: string)
    requires NoOccurrence(s, OPEN) && NoOccurrence(s, CLOSE)
    ensures RemoveMarkers(s) == s
    decreases |s|
  {
    if s != [] {
      NoOccurrenceTail(s, OPEN);
      NoOccurrenceTail(s, CLOSE);
      RemoveMarkersWithoutMarkers(s[1..]);
    }
  }

  /** A text with no marker in any case comes back as its trim. */
  lemma StripThinkWithoutMarkers(s: string)
    requires NoOccurrence(s, OPEN) && NoOccurrence(s, CLOSE)
    ensures StripThink(s) == Trim(s)
  {
    RemoveRegionsWithoutClose(s);
    RemoveMarkersWithoutMarkers(s);
  }

  // ---------------------------------------------------------------------
  // How markers are removed

  /** A lazy match at the front of `o + x + c + b` ends right behind `c`
      when `x` has no closer: the nearest closer after the opener wins. */
  lemma {:induction false} RegionAtFront(o: string, x: string, c: string, b: string)
    requires IsOpenMarker(o) && NoOccurrence(x, CLOSE) && IsCloseMarker(c)
    ensures RegionAt(o + x + c + b) == Some(|o| + |x| + |c|)
  {
    var s := o + x + c + b;
    MarkerShapes();
    FoldIsLt(c[0]);
    assert s == o + (x + c + b);
    forall k | 0 <= k < |OPEN| ensures Fold(s[k]) == OPEN[k] {
      assert s[k] == o[k];
    }
    var e := |OPEN| + |x|;
    assert s == (o + x) + (c + b);
    MatchesAtExtend(c, b, 0, CLOSE);
    MatchesAtShift(o + x, c + b, 0, CLOSE);
    forall j | |OPEN| <= j < e ensures !MatchesAt(s, j, CLOSE) {
      if MatchesAt(s, j, CLOSE) {
        MatchesAtShift(o, x + c + b, j - |OPEN|, CLOSE);
        assert x + c + b == x + (c + b);
        MatchInPrefix(x, c + b, CLOSE, j - |OPEN|);
        assert false;
      }
    }
    assert FindClose(s, |OPEN|) == Some(e);
  }

  /** Where no region starts at the front, the first pass keeps the first
      character and goes on with the next. */
  lemma RemoveRegionsStep(s: string)
    requires s != [] && RegionAt(s).None?
    ensures RemoveRegions(s) == [s[0]] + RemoveRegions(s[1..])
  {
  }

  /** Where no marker starts at the front, the second pass keeps the first
      character and goes on with the next. */
  lemma RemoveMarkersStep(s: string)
    requires s != [] && !MatchesAt(s, 0, OPEN) && !MatchesAt(s, 0, CLOSE)
    ensures RemoveMarkers(s) == [s[0]] + RemoveMarkers(s[1..])
  {
  }

  /** Opener-free text in front of a '<' is kept as it is by the first pass:
      no match can start inside it. */
  lemma {:induction false} RemoveRegionsKeepsPrefix(a: string, t: string)
    requires NoOccurrence(a, OPEN)
    requires t != [] && t[0] == '<'
    ensures RemoveRegions(a + t) == a + RemoveRegions(t)
    decreases |a|
  {
    if a != [] {
      var s := a + t;
      MarkerShapes();
      if MatchesAt(s, 0, OPEN) {
        MatchInPrefix(a, t, OPEN, 0);
        assert false;
      }
      RemoveRegionsStep(s);
      assert s[1..] == a[1..] + t;
      NoOccurrenceTail(a, OPEN);
      RemoveRegionsKeepsPrefix(a[1..], t);
      HeadThenRest(a, RemoveRegions(s), RemoveRegions(s[1..]), RemoveRegions(t));
    } else {
      assert a + t == t;
    }
  }

  /** An opener followed by a closer-free body and a closer is deleted with
      its body; the opener-free text in front of it is kept as it is. The
      markers may be in any case. */
  lemma {:induction false} RemoveRegionsSplice(a: string, o: string, x: string, c: string, b: string)
    requires NoOccurrence(a, OPEN)
    requires IsOpenMarker(o) && NoOccurrence(x, CLOSE) && IsCloseMarker(c)
    ensures RemoveRegions(a + o + x + c + b) == a + RemoveRegions(b)
  {
    var t := o + x + c + b;
    assert Fold(o[0]) == OPEN[0];
    FoldIsLt(o[0]);
    RemoveRegionsKeepsPrefix(a, t);
    assert a + o + x + c + b == a + t;
    RegionAtFront(o, x, c, b);
    assert t[|o| + |x| + |c|..] == b;
  }

  /** Marker-free text in front of a '<' is kept as it is by the second pass. */
  lemma {:induction false} RemoveMarkersKeepsPrefix(a: string, t: string)
    requires NoOccurrence(a, OPEN) && NoOccurrence(a, CLOSE)
    requires t != [] && t[0] == '<'
    ensures RemoveMarkers(a + t) == a + RemoveMarkers(t)
    decreases |a|
  {
    if a != [] {
      var s := a + t;
      MarkerShapes();
      if MatchesAt(s, 0, OPEN) {
        MatchInPrefix(a, t, OPEN, 0);
        assert false;
      }
      if MatchesAt(s, 0, CLOSE) {
        MatchInPrefix(a, t, CLOSE, 0);
        assert false;
      }
      RemoveMarkersStep(s);
      assert s[1..] == a[1..] + t;
      NoOccurrenceTail(a, OPEN);
      NoOccurrenceTail(a, CLOSE);
      RemoveMarkersKeepsPrefix(a[1..], t);
      HeadThenRest(a, RemoveMarkers(s), RemoveMarkers(s[1..]), RemoveMarkers(t));
    } else {
      assert a + t == t;
    }
  }

  /** A leftover marker, in any case, is deleted; the marker-free text in
      front of it is kept as it is. */
  lemma {:induction false} RemoveMarkersSplice(a: string, m: string, b: string)
    requires NoOccurrence(a, OPEN) && NoOccurrence(a, CLOSE)
    requires IsOpenMarker(m) || IsCloseMarker(m)
    ensures RemoveMarkers(a + m + b) == a + RemoveMarkers(b)
  {
    var t := m + b;
    if IsOpenMarker(m) {
      assert Fold(m[0]) == OPEN[0];
    } else {
      assert Fold(m[0]) == CLOSE[0];
    }
    FoldIsLt(m[0]);
    MarkerShapes();
    RemoveMarkersKeepsPrefix(a, t);
    assert a + m + b == a + t;
    forall k | 0 <= k < |m| ensures t[k] == m[k] {
    }
    if IsOpenMarker(m) {
      assert MatchesAt(t, 0, OPEN);
      assert t[|OPEN|..] == b;
    } else {
      assert t[1] == m[1] && Fold(m[0 + 1]) == CLOSE[1];
      assert Fold(t[0 + 1]) != OPEN[1];
      assert !MatchesAt(t, 0, OPEN);
      assert MatchesAt(t, 0, CLOSE);
      assert t[|CLOSE|..] == b;
    }
  }

  // ---------------------------------------------------------------------
  // Markers on their own

  /** Text without any '<' cannot hold a marker. */
  predicate PlainText(s: string)
  {
    forall i :: 0 <= i < |s| ==> s[i] != '<'
  }

  lemma PlainTextHasNoMarker(s: string, lit: string)
    requires PlainText(s) && LtOnlyFirst(lit)
    ensures NoOccurrence(s, lit)
  {
    forall i: nat | i < |s| ensures !MatchesAt(s, i, lit) {
      if MatchesAt(s, i, lit) {
        assert Fold(s[i + 0]) == lit[0];
        FoldIsLt(s[i]);
      }
    }
  }

  /** A marker has '<' only in front. */
  lemma MarkerInnerNotLt(m: string)
    requires IsOpenMarker(m) || IsCloseMarker(m)
    ensures forall k :: 1 <= k < |m| ==> m[k] != '<'
    ensures m[0] == '<'
  {
    MarkerShapes();
    forall k | 0 <= k < |m| ensures Fold(m[k]) == '<' <==> k == 0 {
      if IsOpenMarker(m) {
        assert Fold(m[0 + k]) == OPEN[k];
      } else {
        assert Fold(m[0 + k]) == CLOSE[k];
      }
    }
    forall k | 0 <= k < |m| ensures m[k] == '<' <==> k == 0 {
      FoldIsLt(m[k]);
    }
  }

  /** In `p + m + q` with `p` and `q` plain and `m` a marker, the only '<'
      is the marker's first character. */
  lemma LoneMarkerLt(p: string, m: string, q: string, i: nat)
    requires PlainText(p) && PlainText(q) && (IsOpenMarker(m) || IsCloseMarker(m))
    requires i < |p + m + q| && (p + m + q)[i] == '<'
    ensures i == |p|
  {
    var s := p + m + q;
    MarkerInnerNotLt(m);
  }

  /** A lone opener between plain texts is followed by no closer. */
  lemma {:induction false} LoneOpenerHasNoCloser(p: string, m: string, q: string)
    requires PlainText(p) && PlainText(q) && IsOpenMarker(m)
    ensures NoOccurrence(p + m + q, CLOSE)
  {
    var s := p + m + q;
    assert s[|p| + 1] == m[1];
    assert Fold(m[0 + 1]) == OPEN[1];
    forall i: nat | i < |s| ensures !MatchesAt(s, i, CLOSE) {
      FoldIsLt(s[i]);
      if s[i] != '<' {
        assert Fold(s[i + 0]) != CLOSE[0];
      } else {
        LoneMarkerLt(p, m, q, i);
        if i + 1 < |s| {
          assert Fold(s[i + 1]) != CLOSE[1];
        }
      }
    }
  }

  /** A lone closer between plain texts is preceded by no opener. */
  lemma {:induction false} LoneCloserHasNoOpener(p: string, m: string, q: string)
    requires PlainText(p) && PlainText(q) && IsCloseMarker(m)
    ensures NoOccurrence(p + m + q, OPEN)
  {
    var s := p + m + q;
    assert s[|p| + 1] == m[1];
    assert Fold(m[0 + 1]) == CLOSE[1];
    forall i: nat | i < |s| ensures !MatchesAt(s, i, OPEN) {
      FoldIsLt(s[i]);
      if s[i] != '<' {
        assert Fold(s[i + 0]) != OPEN[0];
      } else {
        LoneMarkerLt(p, m, q, i);
        if i + 1 < |s| {
          assert Fold(s[i + 1]) != OPEN[1];
        }
      }
    }
  }

  /** Without an opener there is no region to delete, even before a closer. */
  lemma {:induction false} RemoveRegionsWithoutOpen(s: string)
    requires NoOccurrence(s, OPEN)
    ensures RemoveRegions(s) == s
    decreases |s|
  {
    if s != [] {
      RemoveRegionsStep(s);
      NoOccurrenceTail(s, OPEN);
      RemoveRegionsWithoutOpen(s[1..]);
    }
  }

  /** The marker pass leaves plain text alone. */
  lemma PlainTextKeptByRemoveMarkers(s: string)
    requires PlainText(s)
    ensures RemoveMarkers(s) == s
  {
    MarkerShapes();
    PlainTextHasNoMarker(s, OPEN);
    PlainTextHasNoMarker(s, CLOSE);
    RemoveMarkersWithoutMarkers(s);
  }

  /** A region between plain texts is deleted with its contents, and the
      texts around it are joined and trimmed. */
  lemma {:induction false} StripThinkRegion(a: string, o: string, x: string, c: string, b: string)
    requires PlainText(a) && PlainText(b)
    requires IsOpenMarker(o) && NoOccurrence(x, CLOSE) && IsCloseMarker(c)
    ensures StripThink(a + o + x + c + b) == Trim(a + b)
  {
    MarkerShapes();
    PlainTextHasNoMarker(a, OPEN);
    RemoveRegionsSplice(a, o, x, c, b);
    PlainTextHasNoMarker(b, OPEN);
    RemoveRegionsWithoutOpen(b);
    assert PlainText(a + b);
    PlainTextKeptByRemoveMarkers(a + b);
  }

  /** A marker without its partner is deleted on its own; the plain texts
      around it are kept, joined and trimmed. This covers an unterminated
      `<think>x` and a stray `</think>`. */
  lemma {:induction false} StripThinkStrayMarker(a: string, m: string, b: string)
    requires PlainText(a) && PlainText(b)
    requires IsOpenMarker(m) || IsCloseMarker(m)
    ensures StripThink(a + m + b) == Trim(a + b)
  {
    MarkerShapes();
    if IsOpenMarker(m) {
      LoneOpenerHasNoCloser(a, m, b);
      RemoveRegionsWithoutClose(a + m + b);
    } else {
      LoneCloserHasNoOpener(a, m, b);
      RemoveRegionsWithoutOpen(a + m + b);
    }
    PlainTextHasNoMarker(a, OPEN);
    PlainTextHasNoMarker(a, CLOSE);
    RemoveMarkersSplice(a, m, b);
    PlainTextKeptByRemoveMarkers(b);
  }

  /** A chunk that is one marker and nothing else is cleaned to nothing. */
  lemma LoneMarkerVanishes(m: string)
    requires IsOpenMarker(m) || IsCloseMarker(m)
    ensures StripThink(m) == []
  {
    assert m == [] + m + [];
    StripThinkStrayMarker([], m, []);
  }

  /** Plain text that is already trimmed is kept as it is. */
  lemma PlainTrimmedKept(s: string)
    requires PlainText(s) && Trimmed(s)
    ensures StripThink(s) == s
  {
    MarkerShapes();
    PlainTextHasNoMarker(s, OPEN);
    PlainTextHasNoMarker(s, CLOSE);
    StripThinkWithoutMarkers(s);
    TrimFixedPoint(s);
  }

  // ---------------------------------------------------------------------
  // Worked cases

  lemma MarkersMatchThemselves()
    ensures IsOpenMarker(OPEN) && IsCloseMarker(CLOSE)
  {
  }

  /** Case does not matter to the markers. */
  lemma UpperCaseMarkers()
    ensures IsOpenMarker("<THINK>") && IsOpenMarker("<Think>")
    ensures IsCloseMarker("</THINK>") && IsCloseMarker("</Think>")
  {
  }

  /** Each opener pairs with the first closer after it, and the scan goes
      on behind that closer: both regions go, `a<think>x</think>b<think>y</think>c`
      becomes `abc`. */
  lemma {:induction false} TwoRegionsRemoved(a: string, x: string, b: string, y: string, c: string)
    requires PlainText(a) && PlainText(b) && PlainText(c)
    requires NoOccurrence(x, CLOSE) && NoOccurrence(y, CLOSE)
    ensures StripThink(a + OPEN + x + CLOSE + b + OPEN + y + CLOSE + c) == Trim(a + b + c)
  {
    MarkersMatchThemselves();
    MarkerShapes();
    var tail := b + OPEN + y + CLOSE + c;
    assert a + OPEN + x + CLOSE + b + OPEN + y + CLOSE + c == a + OPEN + x + CLOSE + tail;
    PlainTextHasNoMarker(a, OPEN);
    RemoveRegionsSplice(a, OPEN, x, CLOSE, tail);
    PlainTextHasNoMarker(b, OPEN);
    RemoveRegionsSplice(b, OPEN, y, CLOSE, c);
    PlainTextHasNoMarker(c, OPEN);
    RemoveRegionsWithoutOpen(c);
    assert a + (b + c) == a + b + c;
    assert PlainText(a + b + c);
    PlainTextKeptByRemoveMarkers(a + b + c);
  }

  /** An empty region is still a region. */
  lemma {:induction false} EmptyRegionRemoved(s: string)
    requires s == "a<think></think>b"
    ensures StripThink(s) == "ab"
  {
    assert StripThink(s) == Trim("a" + "b") by {
      MarkersMatchThemselves();
      assert s == "a" + "<think>" + "" + "</think>" + "b";
      StripThinkRegion("a", "<think>", "", "</think>", "b");
    }
    assert "a" + "b" == "ab";
    assert Trim("ab") == "ab" by {
      TrimFixedPoint("ab");
    }
  }

  /** An opener without a closer is deleted on its own and its text stays. */
  lemma {:induction false} UnterminatedOpenerKeepsText(s: string)
    requires s == "<think>x"
    ensures StripThink(s) == "x"
  {
    assert StripThink(s) == Trim("" + "x") by {
      MarkersMatchThemselves();
      assert s == "" + "<think>" + "x";
      StripThinkStrayMarker("", "<think>", "x");
    }
    assert "" + "x" == "x";
    assert Trim("x") == "x" by {
      TrimFixedPoint("x");
    }
  }

  /** A stray closer is deleted, the spaces on both sides of it stay:
      `hello </think> world` becomes `hello  world`. */
  lemma {:induction false} StrayCloserRemoved(a: string, b: string)
    requires a == "hello " && b == " world"
    ensures StripThink(a + CLOSE + b) == a + b
  {
    assert PlainText(a) && PlainText(b);
    MarkersMatchThemselves();
    StripThinkStrayMarker(a, CLOSE, b);
    assert Trimmed(a + b) by {
      assert (a + b)[0] == 'h' && (a + b)[|a + b| - 1] == 'd';
    }
    TrimFixedPoint(a + b);
  }

  /** The lazy body stops at the first closer: a later closer is stray,
      so `<think>x</think>b</think>c` becomes `bc`. */
  lemma {:induction false} FirstCloserEndsRegion(x: string, b: string, c: string)
    requires NoOccurrence(x, CLOSE) && PlainText(b) && PlainText(c)
    ensures StripThink(OPEN + x + CLOSE + b + CLOSE + c) == Trim(b + c)
  {
    var tail := b + CLOSE + c;
    var whole := OPEN + x + CLOSE + b + CLOSE + c;
    assert RemoveRegions(whole) == RemoveRegions(tail) by {
      MarkersMatchThemselves();
      assert whole == [] + OPEN + x + CLOSE + tail;
      RemoveRegionsSplice([], OPEN, x, CLOSE, tail);
    }
    assert StripThink(tail) == Trim(b + c) by {
      MarkersMatchThemselves();
      StripThinkStrayMarker(b, CLOSE, c);
    }
  }

  /** Openers do not nest: an inner opener is part of the region, and the
      region ends at the first closer, leaving the outer closer stray, so
      `<think>a<think>b</think>c</think>d` becomes `cd`. */
  lemma {:induction false} OpenersDoNotNest(a: string, b: string, c: string, d: string)
    requires PlainText(a) && PlainText(b) && PlainText(c) && PlainText(d)
    ensures StripThink(OPEN + a + OPEN + b + CLOSE + c + CLOSE + d) == Trim(c + d)
  {
    MarkersMatchThemselves();
    MarkerShapes();
    var x := a + OPEN + b;
    LoneOpenerHasNoCloser(a, OPEN, b);
    assert OPEN + a + OPEN + b + CLOSE + c + CLOSE + d == OPEN + x + CLOSE + c + CLOSE + d;
    FirstCloserEndsRegion(x, c, d);
  }

  /** The first pass leaves `<thi<think>nk>` alone: it has no closer. */
  lemma {:induction false} FormingInputHasNoRegion(m: string)
    requires IsOpenMarker(m)
    ensures RemoveRegions("<thi" + m + "nk>") == "<thi" + m + "nk>"
  {
    MarkerShapes();
    var t := m + "nk>";
    assert RemoveRegions("<thi" + t) == "<thi" + RemoveRegions(t) by {
      MarkerInnerNotLt(m);
      ShortHasNoOccurrence("<thi", OPEN);
      RemoveRegionsKeepsPrefix("<thi", t);
    }
    assert RemoveRegions(t) == t by {
      assert t == [] + m + "nk>";
      LoneOpenerHasNoCloser([], m, "nk>");
      RemoveRegionsWithoutClose(t);
    }
    assert "<thi" + t == "<thi" + m + "nk>";
  }

  /** The second pass deletes the inner marker of `<thi<think>nk>` and joins
      the two sides into `<think>`. */
  lemma {:induction false} FormingInputJoinsMarker(m: string)
    requires IsOpenMarker(m)
    ensures RemoveMarkers("<thi" + m + "nk>") == OPEN
  {
    assert RemoveMarkers("<thi" + m + "nk>") == "<thi" + RemoveMarkers("nk>") by {
      MarkerShapes();
      ShortHasNoOccurrence("<thi", OPEN);
      ShortHasNoOccurrence("<thi", CLOSE);
      RemoveMarkersSplice("<thi", m, "nk>");
    }
    assert RemoveMarkers("nk>") == "nk>" by {
      PlainTextKeptByRemoveMarkers("nk>");
    }
    assert "<thi" + "nk>" == OPEN;
  }

  /** One pass does not rescan its own output: deleting the inner marker of
      `<thi<think>nk>` joins its two sides into a new `<think>`, which is
      returned; the inner marker may be in any case. So the result may
      still contain a marker. */
  lemma RemovalCanFormMarker(m: string)
    requires IsOpenMarker(m)
    ensures StripThink("<thi" + m + "nk>") == OPEN
  {
    FormingInputHasNoRegion(m);
    FormingInputJoinsMarker(m);
    TrimFixedPoint(OPEN);
  }
}
