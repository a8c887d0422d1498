/** The sync-owned region of a card body, which every refresh replaces whole. */
module SyncContext {
  import opened Prelude

  /** The two comment lines around the sync-owned region. */
  datatype Markers = Markers(begin: string, end: string)

  const SYNC := Markers("<!-- BEGIN GITHUB SYNC CONTEXT -->", "<!-- END GITHUB SYNC CONTEXT -->")
  const PROVENANCE_END := "## Canonical Issue body"

  predicate OccursAt(text: string, pattern: string, i: int) {
    0 <= i && i + |pattern| <= |text| && forall k :: 0 <= k < |pattern| ==> pattern[k] == text[i + k]
  }

  /** The first position of `pattern` in `text`, from position `from` on. */
  function FindFrom(text: string, pattern: string, from: nat): (at: Option<nat>)
    ensures at.None? ==> forall i :: from <= i ==> !OccursAt(text, pattern, i)
    ensures at.Some? ==> from <= at.value && OccursAt(text, pattern, at.value)
    ensures at.Some? ==> forall i :: from <= i < at.value ==> !OccursAt(text, pattern, i)
    decreases |text| - from
  {
    if from + |pattern| > |text| then None
    else if OccursAt(text, pattern, from) then Some(from)
    else if from == |text| then None
    else FindFrom(text, pattern, from + 1)
  }

  function Find(text: string, pattern: string): (at: Option<nat>)
    ensures at.None? <==> forall i :: !OccursAt(text, pattern, i)
    ensures at.Some? ==> OccursAt(text, pattern, at.value) && forall i :: i < at.value ==> !OccursAt(text, pattern, i)
  {
    FindFrom(text, pattern, 0)
  }

  lemma OccursInSlice(text: string, pattern: string, lo: int, hi: int, i: int)
    requires 0 <= lo <= hi <= |text| && lo <= i && i + |pattern| <= hi
    ensures OccursAt(text, pattern, i) <==> OccursAt(text[lo..hi], pattern, i - lo)
  {
    var slice := text[lo..hi];
    assert forall k :: 0 <= k < |slice| ==> slice[k] == text[lo + k];
  }

  lemma CharOfOccurrence(text: string, pattern: string, i: int, k: int)
    requires OccursAt(text, pattern, i) && 0 <= k < |pattern|
    ensures text[i + k] == pattern[k]
  {
  }

  lemma FindIs(text: string, pattern: string, at: nat)
    requires OccursAt(text, pattern, at) && forall i :: i < at ==> !OccursAt(text, pattern, i)
    ensures Find(text, pattern) == Some(at)
  {}

  /** A comment line: its only `<` comes first, and it does not break the line. */
  ghost predicate IsMarker(m: string) {
    && |m| > 1
    && m[0] == '<'
    && m[|m| - 1] != '\n'
    && forall i :: 0 < i < |m| ==> m[i] != '<'
  }

  predicate Has(text: string, pattern: string) {
    Find(text, pattern).Some?
  }

  predicate EndsWithNewline(s: string) { s != "" && s[|s| - 1] == '\n' }

  function OpenLine(s: string): (r: string)
    ensures s <= r
  {
    if s != "" && !EndsWithNewline(s) then s + "\n" else s
  }

  function CloseLine(s: string): (r: string) {
    if s != "" && s[0] != '\n' then "\n" + s else s
  }

  /** The text a refresh keeps on the two sides of its block. */
  datatype Cut = Unpackable | Cut(head: string, tail: string)

  /** The body is split at the first begin marker, and what follows at the first
      end marker; a second split without marker cannot be unpacked.  A body
      without both markers is kept whole, before the block. */
  function CutOf(m: Markers, text: string): (cut: Cut) {
    if Has(text, m.begin) && Has(text, m.end) then
      var b := Find(text, m.begin).value;
      var e := FindFrom(text, m.end, b + |m.begin|);
      if e.None? then Unpackable else Cut(text[..b], text[e.value + |m.end|..])
    else Cut(text, "")
  }

  /** The kept text and the block, each on lines of its own. */
  function Join(head: string, block: string, tail: string): (body: string) {
    OpenLine(head) + block + CloseLine(tail)
  }

  /** `replace_sync_context`; `None` is its `ValueError`. */
  function Replace(m: Markers, text: string, block: string): (r: Option<string>) {
    match CutOf(m, text)
    case Unpackable => None
    case Cut(head, tail) => Some(Join(head, block, tail))
  }

  ghost predicate FirstAt(text: string, pattern: string, lo: int, at: int) {
    lo <= at && OccursAt(text, pattern, at) && forall i :: lo <= i < at ==> !OccursAt(text, pattern, i)
  }

  /** What a refresh makes of a body: where the first begin marker is followed by an
      end marker, the text up to the next one is replaced, and what stands before
      and after it is kept, on lines of its own. */
  lemma ReplaceWhen(m: Markers, text: string, block: string, b: int, e: int)
    requires FirstAt(text, m.begin, 0, b) && FirstAt(text, m.end, b + |m.begin|, e)
    ensures var head, tail := text[..b], text[e + |m.end|..];
            Replace(m, text, block) ==
              Some((if b == 0 || text[b - 1] == '\n' then head else head + "\n") + block
                   + (if tail == "" || tail[0] == '\n' then tail else "\n" + tail))
  {
    FindFirst(text, m.begin, b);
    FindFromFirst(text, m.end, b + |m.begin|, e);
    hide OccursAt, FindFrom, Find;
    assert CutOf(m, text) == Cut(text[..b], text[e + |m.end|..]);
    hide CutOf;
    assert text[..b] != "" ==> text[..b][|text[..b]| - 1] == text[b - 1];
  }

  lemma FindFirst(text: string, pattern: string, at: int)
    requires FirstAt(text, pattern, 0, at)
    ensures at >= 0 && at + |pattern| <= |text| && Find(text, pattern) == Some(at)
  {
    FindIs(text, pattern, at);
  }

  lemma FindFromFirst(text: string, pattern: string, lo: nat, at: int)
    requires FirstAt(text, pattern, lo, at)
    ensures at >= lo && at + |pattern| <= |text| && FindFrom(text, pattern, lo) == Some(at) && Has(text, pattern)
  {
    var found := FindFrom(text, pattern, lo);
    assert found.Some?;
    assert !(found.value < at) && !(at < found.value);
  }

  /** A body without one of the markers gets the block at its end; one whose only
      end markers stand before the first begin marker cannot be refreshed. */
  lemma ReplaceElse(m: Markers, text: string, block: string)
    ensures (forall i :: !OccursAt(text, m.begin, i)) || (forall i :: !OccursAt(text, m.end, i)) ==>
              Replace(m, text, block) == Some((if text == "" || text[|text| - 1] == '\n' then text else text + "\n") + block)
    ensures forall b :: FirstAt(text, m.begin, 0, b) && (exists i :: OccursAt(text, m.end, i))
                        && (forall i :: OccursAt(text, m.end, i) ==> i < b + |m.begin|) ==>
              Replace(m, text, block).None?
  {
    forall b | FirstAt(text, m.begin, 0, b) ensures Find(text, m.begin) == Some(b) && b >= 0 { FindFirst(text, m.begin, b); }
    hide FirstAt;
    if !Has(text, m.begin) || !Has(text, m.end) {
      assert CloseLine("") == "";
      assert OpenLine(text) + block + "" == OpenLine(text) + block;
    }
  }

  /** The part of a body that `parse_task_ref` reads. */
  function Header(heading: string, text: string): (h: string) {
    var at := Find(text, heading);
    if at.None? then text else text[..at.value]
  }

  /** The markers of a rendered block stand at its two ends and nowhere else. */
  ghost predicate WellFormedBlock(m: Markers, block: string) {
    && |block| >= |m.begin| + |m.end|
    && (forall i :: OccursAt(block, m.begin, i) <==> i == 0)
    && (forall i :: OccursAt(block, m.end, i) <==> i == |block| - |m.end|)
  }

  /** No marker begins in `left` when none occurs there and `right` opens with an angle. */
  lemma NoStraddle(left: string, right: string, marker: string, i: int)
    requires IsMarker(marker) && right != "" && right[0] == '<'
    requires i < |left| && !OccursAt(left, marker, i)
    ensures !OccursAt(left + right, marker, i)
  {
    var whole := left + right;
    if OccursAt(whole, marker, i) {
      if i + |marker| <= |left| {
        assert whole[0..|left|] == left;
        OccursInSlice(whole, marker, 0, |left|, i);
      } else {
        CharOfOccurrence(whole, marker, i, |left| - i);
      }
    }
  }

  /** Completing the last line brings no marker in. */
  lemma OpenLineAddsNoMarker(s: string, marker: string, i: int)
    requires IsMarker(marker)
    ensures OccursAt(OpenLine(s), marker, i) <==> OccursAt(s, marker, i)
  {
    var o := OpenLine(s);
    if 0 <= i && i + |marker| <= |s| {
      OccursInSlice(o, marker, 0, |s|, i);
      assert o[0..|s|] == s;
    } else if OccursAt(o, marker, i) {
      CharOfOccurrence(o, marker, i, |marker| - 1);
    }
  }

  ghost predicate AreMarkers(m: Markers) {
    IsMarker(m.begin) && IsMarker(m.end)
  }

  lemma BlockOpensWithAngle(m: Markers, block: string)
    requires AreMarkers(m) && WellFormedBlock(m, block)
    ensures block[0] == '<'
  {
    assert OccursAt(block, m.begin, 0);
    CharOfOccurrence(block, m.begin, 0, 0);
  }

  /** A well-formed block opens the first region of the body it stands in. */
  lemma FirstBeginIsBlock(m: Markers, head: string, block: string, after: string)
    requires AreMarkers(m) && WellFormedBlock(m, block)
    requires forall j :: !OccursAt(head, m.begin, j)
    ensures Find(head + (block + after), m.begin) == Some(|head|)
  {
    var text := head + (block + after);
    BlockOpensWithAngle(m, block);
    assert OccursAt(block, m.begin, 0);
    forall i | i < |head| ensures !OccursAt(text, m.begin, i) {
      NoStraddle(head, block + after, m.begin, i);
    }
    OccursInSlice(text, m.begin, |head|, |head| + |block|, |head|);
    assert text[|head|..|head| + |block|] == block;
    FindIs(text, m.begin, |head|);
  }

  lemma FindFromIs(text: string, pattern: string, from: nat, at: nat)
    requires from <= at && OccursAt(text, pattern, at)
    requires forall i :: from <= i < at ==> !OccursAt(text, pattern, i)
    ensures FindFrom(text, pattern, from) == Some(at)
  {
    var f := FindFrom(text, pattern, from);
    assert f.Some?;
  }

  /** Behind text without end marker comes a well-formed block: its own end
      marker is the first from `from` on. */
  lemma FirstEndIsBlocks(m: Markers, before: string, block: string, after: string, from: nat)
    requires AreMarkers(m) && WellFormedBlock(m, block)
    requires from <= |before| + |block| - |m.end|
    requires forall j :: from <= j ==> !OccursAt(before, m.end, j)
    ensures FindFrom(before + (block + after), m.end, from) == Some(|before| + |block| - |m.end|)
  {
    var text := before + (block + after);
    var e := |before| + |block| - |m.end|;
    BlockOpensWithAngle(m, block);
    assert OccursAt(block, m.end, |block| - |m.end|);
    assert text[|before|..|before| + |block|] == block;
    OccursInSlice(text, m.end, |before|, |before| + |block|, e);
    forall i | from <= i < e ensures !OccursAt(text, m.end, i) {
      if i < |before| {
        NoStraddle(before, block + after, m.end, i);
      } else {
        OccursInSlice(text, m.end, |before|, |before| + |block|, i);
      }
    }
    FindFromIs(text, m.end, from, e);
  }

  lemma CutIs(m: Markers, text: string, b: nat, e: nat)
    requires Find(text, m.begin) == Some(b) && FindFrom(text, m.end, b + |m.begin|) == Some(e)
    ensures CutOf(m, text) == Cut(text[..b], text[e + |m.end|..])
  {
    assert OccursAt(text, m.end, e);
  }

  /** A refreshed body is cut around exactly its block. */
  lemma CutOfJoin(m: Markers, head: string, block: string, tail: string)
    requires AreMarkers(m) && WellFormedBlock(m, block)
    requires forall i :: !OccursAt(head, m.begin, i)
    ensures CutOf(m, Join(head, block, tail)) == Cut(OpenLine(head), CloseLine(tail))
  {
    hide CutOf, Find, FindFrom;
    var h, t := OpenLine(head), CloseLine(tail);
    var text := h + (block + t);
    assert Join(head, block, tail) == text;
    hide Join;
    forall j ensures !OccursAt(h, m.begin, j) { OpenLineAddsNoMarker(head, m.begin, j); }
    FirstBeginIsBlock(m, h, block, t);
    FirstEndIsBlocks(m, h, block, t, |h| + |m.begin|);
    var e := |h| + |block| - |m.end|;
    CutIs(m, text, |h|, e);
    assert text[e + |m.end|..] == t && text[..|h|] == h;
  }

  lemma JoinOnLines(head: string, block: string, tail: string)
    ensures Join(OpenLine(head), block, CloseLine(tail)) == Join(head, block, tail)
  {
    assert OpenLine(OpenLine(head)) == OpenLine(head) && CloseLine(CloseLine(tail)) == CloseLine(tail);
  }

  function Then(m: Markers, first: Option<string>, block: string): Option<string> {
    if first.None? then None else Replace(m, first.value, block)
  }

  lemma PrefixBeforeFirst(text: string, pattern: string)
    requires pattern != "" && Find(text, pattern).Some?
    ensures forall i :: !OccursAt(text[..Find(text, pattern).value], pattern, i)
  {
    var at := Find(text, pattern).value;
    assert text[0..at] == text[..at];
    forall i ensures !OccursAt(text[..at], pattern, i) {
      if 0 <= i && i + |pattern| <= at && i < at {
        OccursInSlice(text, pattern, 0, at, i);
      }
    }
  }

  /** Unless a begin marker stands alone, what is kept before the block holds none. */
  lemma HeadHoldsNoBegin(m: Markers, text: string)
    requires AreMarkers(m) && !(Has(text, m.begin) && !Has(text, m.end)) && CutOf(m, text).Cut?
    ensures forall i :: !OccursAt(CutOf(m, text).head, m.begin, i)
  {
    if Has(text, m.begin) {
      PrefixBeforeFirst(text, m.begin);
    }
  }

  /** Refreshing with a well-formed block and then again is refreshing once with
      the last block; the bodies for which this fails hold a begin marker and
      no end marker. */
  lemma RefreshTwiceWith(m: Markers, text: string, b1: string, b2: string)
    requires AreMarkers(m) && WellFormedBlock(m, b1)
    ensures Then(m, Replace(m, text, b1), b2) == Replace(m, text, b2)
            <==> !(Has(text, m.begin) && !Has(text, m.end))
  {
    var cut := CutOf(m, text);
    if Has(text, m.begin) && !Has(text, m.end) {
      StrayBeginLosesText(m, text, b1, b2);
    } else if cut.Cut? {
      HeadHoldsNoBegin(m, text);
      CutOfJoin(m, cut.head, b1, cut.tail);
      JoinOnLines(cut.head, b2, cut.tail);
    }
  }

  /** What is found in a text is found at the same place in any longer text. */
  lemma FindInPrefix(text: string, more: string, pattern: string)
    requires pattern != "" && Find(text, pattern).Some? && text <= more
    ensures Find(more, pattern) == Find(text, pattern)
  {
    var at := Find(text, pattern).value;
    assert more[0..|text|] == text;
    OccursInSlice(more, pattern, 0, |text|, at);
    forall i | 0 <= i < at ensures !OccursAt(more, pattern, i) {
      OccursInSlice(more, pattern, 0, |text|, i);
    }
    FindIs(more, pattern, at);
  }

  lemma OpenLineLacks(s: string, marker: string)
    requires IsMarker(marker) && !Has(s, marker)
    ensures forall j :: !OccursAt(OpenLine(s), marker, j)
  {
    forall j ensures !OccursAt(OpenLine(s), marker, j) {
      OpenLineAddsNoMarker(s, marker, j);
    }
  }

  /** The first begin marker of `open + block` stands alone in `open`; the first
      end marker is the block's. */
  lemma StrayBeginMarkers(m: Markers, open: string, block: string, at: nat)
    requires AreMarkers(m) && WellFormedBlock(m, block)
    requires Find(open, m.begin) == Some(at) && forall j :: !OccursAt(open, m.end, j)
    ensures Find(open + block, m.begin) == Some(at)
    ensures FindFrom(open + block, m.end, at + |m.begin|) == Some(|open + block| - |m.end|)
  {
    FindInPrefix(open, open + block, m.begin);
    assert block + "" == block;
    FirstEndIsBlocks(m, open, block, "", at + |m.begin|);
  }

  lemma CutAtStrayBegin(m: Markers, open: string, block: string, at: nat)
    requires AreMarkers(m) && WellFormedBlock(m, block)
    requires Find(open, m.begin) == Some(at) && forall j :: !OccursAt(open, m.end, j)
    ensures CutOf(m, open + block) == Cut((open + block)[..at], "")
  {
    StrayBeginMarkers(m, open, block, at);
    var once := open + block;
    CutIs(m, once, at, |once| - |m.end|);
    assert once[|once|..] == "";
  }

  /** After a stray begin marker the second refresh swallows what follows it. */
  lemma StrayBeginLosesText(m: Markers, text: string, b1: string, b2: string)
    requires AreMarkers(m) && WellFormedBlock(m, b1) && Has(text, m.begin) && !Has(text, m.end)
    ensures Replace(m, text, b1).Some? && Replace(m, text, b2).Some?
    ensures var twice := Then(m, Replace(m, text, b1), b2);
            twice.Some? && |twice.value| < |Replace(m, text, b2).value|
  {
    var at := Find(text, m.begin).value;
    var o := OpenLine(text);
    OpenLineLacks(text, m.end);
    FindInPrefix(text, o, m.begin);
    CutAtStrayBegin(m, o, b1, at);
    assert Join(text, b1, "") == o + b1;
    assert |Join((o + b1)[..at], b2, "")| <= at + 1 + |b2|;
    assert |Join(text, b2, "")| >= |text| + |b2|;
  }

  lemma SyncMarkersAreMarkers()
    ensures AreMarkers(SYNC)
  {}

  /** The same for the markers the edge writes. */
  lemma RefreshTwice(text: string, b1: string, b2: string)
    requires WellFormedBlock(SYNC, b1)
    ensures Then(SYNC, Replace(SYNC, text, b1), b2) == Replace(SYNC, text, b2)
            <==> !(Has(text, SYNC.begin) && !Has(text, SYNC.end))
  {
    SyncMarkersAreMarkers();
    RefreshTwiceWith(SYNC, text, b1, b2);
  }

  lemma SamePrefixSameHeader(heading: string, text: string, after: string)
    requires heading != "" && Has(text, heading)
    requires var upto := Find(text, heading).value + |heading|;
             upto <= |after| && after[..upto] == text[..upto]
    ensures Header(heading, after) == Header(heading, text)
  {
    var at := Find(text, heading).value;
    var upto := at + |heading|;
    var shared := text[..upto];
    assert text[0..upto] == shared && after[0..upto] == shared;
    forall i | 0 <= i <= at ensures OccursAt(after, heading, i) <==> OccursAt(text, heading, i) {
      OccursInSlice(after, heading, 0, upto, i);
      OccursInSlice(text, heading, 0, upto, i);
    }
    FindIs(after, heading, at);
    assert after[..at] == shared[..at] && text[..at] == shared[..at];
  }

  /** A refresh keeps what `parse_task_ref` reads, when the canonical-body
      heading comes before the region. */
  lemma RefreshKeepsHeader(m: Markers, heading: string, text: string, block: string)
    requires heading != "" && Has(text, heading) && Replace(m, text, block).Some?
    requires Has(text, m.begin) ==> Find(text, heading).value + |heading| <= Find(text, m.begin).value
    ensures Header(heading, Replace(m, text, block).value) == Header(heading, text)
  {
    var upto := Find(text, heading).value + |heading|;
    var kept := CutOf(m, text).head;
    var after := Replace(m, text, block).value;
    assert kept[..upto] == text[..upto];
    assert OpenLine(kept) <= after;
    assert after[..upto] == kept[..upto];
    SamePrefixSameHeader(heading, text, after);
  }
}
