/**
 Laying a long identifier out over lines: cut into chunks after separators, fold stray
 separators back, pack greedily against a measured width, and join as markup.
 */
module Identifier {
  import opened Strings

  predicate Separator(c: char) { c == '/' || c == ':' || c == '.' }

  /** A place between two characters where a line may end. */
  predicate BreakAt(s: string, k: int) { 0 < k < |s| && Separator(s[k - 1]) && !Separator(s[k]) }

  predicate Unbroken(s: string) { forall k :: 0 < k < |s| ==> !BreakAt(s, k) }

  function Concat(parts: seq<string>): string { if parts == [] then "" else parts[0] + Concat(parts[1..]) }

  predicate NonEmpty(parts: seq<string>) { forall i :: 0 <= i < |parts| ==> parts[i] != "" }

  predicate Meet(a: string, b: string) { a != "" && b != "" && Separator(a[|a| - 1]) && !Separator(b[0]) }

  /** Consecutive parts meet where a break is allowed. */
  predicate BreaksAllowed(parts: seq<string>) { forall i :: 0 < i < |parts| ==> Meet(parts[i - 1], parts[i]) }

  /** The value cut at every place where a break is allowed, and nowhere else. */
  predicate Chunks(parts: seq<string>) {
    NonEmpty(parts) && BreaksAllowed(parts) && forall i :: 0 <= i < |parts| ==> Unbroken(parts[i])
  }

  // ---------------------------------------------------------------- flattening

  /** What Python's `str.strip` removes. */
  predicate IsSpace(c: char) {
    var n := c as int;
    || 0x09 <= n <= 0x0d || 0x1c <= n <= 0x20 || n == 0x85 || n == 0xa0 || n == 0x1680
    || 0x2000 <= n <= 0x200a || n == 0x2028 || n == 0x2029 || n == 0x202f || n == 0x205f || n == 0x3000
  }

  function OneLine(s: string): (flat: string)
    ensures |flat| == |s|
    ensures forall i :: 0 <= i < |s| ==> flat[i] == if s[i] == '\r' || s[i] == '\n' then ' ' else s[i]
  {
    if s == "" then "" else [if s[0] == '\r' || s[0] == '\n' then ' ' else s[0]] + OneLine(s[1..])
  }

  function StripLeft(s: string): string { if s != "" && IsSpace(s[0]) then StripLeft(s[1..]) else s }

  function StripRight(s: string): string {
    if s != "" && IsSpace(s[|s| - 1]) then StripRight(s[..|s| - 1]) else s
  }

  function Flattened(value: string): string { StripRight(StripLeft(OneLine(value))) }

  lemma {:induction false} StripLeftTrims(s: string)
    ensures var rest := StripLeft(s);
            && |rest| <= |s| && rest == s[|s| - |rest|..] && (rest != "" ==> !IsSpace(rest[0]))
            && forall i :: 0 <= i < |s| - |rest| ==> IsSpace(s[i])
  {
    if s != "" && IsSpace(s[0]) {
      StripLeftTrims(s[1..]);
      var rest := StripLeft(s);
      assert forall i :: 1 <= i < |s| - |rest| ==> s[i] == s[1..][i - 1];
    }
  }

  lemma {:induction false} StripRightTrims(s: string)
    ensures var rest := StripRight(s);
            && |rest| <= |s| && rest == s[..|rest|] && (rest != "" ==> !IsSpace(rest[|rest| - 1]))
            && forall i :: |rest| <= i < |s| ==> IsSpace(s[i])
  {
    if s != "" && IsSpace(s[|s| - 1]) {
      var init := s[..|s| - 1];
      StripRightTrims(init);
      assert forall i :: 0 <= i < |init| ==> s[i] == init[i];
    }
  }

  lemma {:induction false} StrippingTrims(line: string) returns (from: nat)
    ensures var flat := StripRight(StripLeft(line));
            && from + |flat| <= |line| && flat == line[from..from + |flat|]
            && (forall i :: 0 <= i < from || from + |flat| <= i < |line| ==> IsSpace(line[i]))
            && (flat != "" ==> !IsSpace(flat[0]) && !IsSpace(flat[|flat| - 1]))
  {
    var left := StripLeft(line);
    StripLeftTrims(line);
    StripRightTrims(left);
    from := |line| - |left|;
    DroppedAround(line, from, |StripRight(left)|);
  }

  /** Blanks before and after a part are all the blanks there are around it. */
  lemma {:induction false} DroppedAround(line: string, from: nat, length: nat)
    requires from + length <= |line|
    requires forall i :: 0 <= i < from ==> IsSpace(line[i])
    requires forall i :: length <= i < |line| - from ==> IsSpace(line[from..][i])
    ensures line[from..][..length] == line[from..from + length]
    ensures forall i :: 0 <= i < from || from + length <= i < |line| ==> IsSpace(line[i])
  {
    forall i | from + length <= i < |line|
      ensures IsSpace(line[i])
    {
      assert line[from..][i - from] == line[i];
    }
  }

  /** Flattening keeps the text on one line and drops nothing but blanks around it. */
  lemma {:induction false} FlatteningTrims(value: string) returns (from: nat)
    ensures var flat, line := Flattened(value), OneLine(value);
            && from + |flat| <= |line| && flat == line[from..from + |flat|]
            && (forall i :: 0 <= i < from || from + |flat| <= i < |line| ==> IsSpace(line[i]))
            && (flat != "" ==> !IsSpace(flat[0]) && !IsSpace(flat[|flat| - 1]))
            && (flat != "" ==> flat[0] !in {' ', '\t'} && flat[|flat| - 1] !in {' ', '\t'})
            && forall i :: 0 <= i < |line| ==> line[i] != '\r' && line[i] != '\n'
  {
    from := StrippingTrims(OneLine(value));
  }

  // ---------------------------------------------------------------- cutting and folding

  lemma {:induction false} ConcatLast(parts: seq<string>, last: string)
    ensures Concat(parts + [last]) == Concat(parts) + last
  {
    if parts == [] {
      assert [last][1..] == [];
    } else {
      ConcatLast(parts[1..], last);
      assert (parts + [last])[1..] == parts[1..] + [last];
    }
  }

  lemma {:induction false} ConcatGrow(parts: seq<string>, more: string)
    requires parts != []
    ensures Concat(parts[|parts| - 1 := parts[|parts| - 1] + more]) == Concat(parts) + more
  {
    var init, last := parts[..|parts| - 1], parts[|parts| - 1];
    ConcatLast(init, last);
    ConcatLast(init, last + more);
    assert parts == init + [last] && parts[|parts| - 1 := last + more] == init + [last + more];
  }

  /** A piece holds no separator except possibly as its last character. */
  predicate Piece(s: string) { s != "" && forall k :: 0 <= k < |s| - 1 ==> !Separator(s[k]) }

  predicate Closed(s: string) { s != "" && Separator(s[|s| - 1]) }

  predicate Pieces(parts: seq<string>) {
    && (forall i :: 0 <= i < |parts| ==> Piece(parts[i]))
    && forall i :: 0 <= i < |parts| - 1 ==> Closed(parts[i])
  }

  method CutAfterSeparators(value: string) returns (pieces: seq<string>)
    ensures Concat(pieces) == value && Pieces(pieces)
  {
    pieces := [];
    var current := "";
    for i := 0 to |value|
      invariant Concat(pieces) + current == value[..i]
      invariant forall k :: 0 <= k < |current| ==> !Separator(current[k])
      invariant forall k :: 0 <= k < |pieces| ==> Piece(pieces[k]) && Closed(pieces[k])
    {
      assert value[..i + 1] == value[..i] + [value[i]];
      current := current + [value[i]];
      if Separator(value[i]) {
        ConcatLast(pieces, current);
        pieces := pieces + [current];
        current := "";
      }
    }
    assert value[..|value|] == value;
    if current != "" {
      ConcatLast(pieces, current);
      pieces := pieces + [current];
    }
  }

  predicate OnlySeparators(s: string) { forall k :: 0 <= k < |s| ==> Separator(s[k]) }

  lemma {:induction false} FoldKeepsUnbroken(a: string, b: string)
    requires a != "" && Unbroken(a) && OnlySeparators(b)
    ensures Unbroken(a + b) && (a + b)[0] == a[0]
    ensures Closed(a) || b != "" ==> Closed(a + b)
  {
    forall k | 0 < k < |a + b|
      ensures !BreakAt(a + b, k)
    {
      if k < |a| {
        assert !BreakAt(a, k);
      } else {
        assert (a + b)[k] == b[k - |a|];
      }
    }
  }

  method FoldSeparators(pieces: seq<string>) returns (chunks: seq<string>)
    requires Pieces(pieces)
    ensures Concat(chunks) == Concat(pieces) && Chunks(chunks)
  {
    chunks := [];
    for i := 0 to |pieces|
      invariant Concat(chunks) == Concat(pieces[..i]) && Chunks(chunks)
      invariant i < |pieces| && chunks != [] ==> Closed(chunks[|chunks| - 1])
    {
      assert pieces[..i + 1] == pieces[..i] + [pieces[i]];
      ConcatLast(pieces[..i], pieces[i]);
      if chunks != [] && OnlySeparators(pieces[i]) {
        FoldKeepsUnbroken(chunks[|chunks| - 1], pieces[i]);
        ConcatGrow(chunks, pieces[i]);
        chunks := chunks[|chunks| - 1 := chunks[|chunks| - 1] + pieces[i]];
      } else {
        ConcatLast(chunks, pieces[i]);
        chunks := chunks + [pieces[i]];
      }
    }
    assert pieces[..|pieces|] == pieces;
  }

  // ---------------------------------------------------------------- packing

  type Width = string -> real

  /** A line is good when it fits or when it could not have been broken. */
  predicate GoodLine(line: string, width: Width, avail: real) { width(line) <= avail || Unbroken(line) }

  /** Any way of setting a value on lines that the rules allow. */
  predicate Layout(lines: seq<string>, value: string, width: Width, avail: real) {
    && Concat(lines) == value && NonEmpty(lines) && BreaksAllowed(lines)
    && forall i :: 0 <= i < |lines| ==> GoodLine(lines[i], width, avail)
  }

  /** How long the first chunk of a line is. */
  function FirstChunk(line: string, from: nat): (n: nat)
    requires 0 < from <= |line|
    ensures from <= n <= |line|
    ensures n < |line| ==> BreakAt(line, n)
    ensures forall k :: from <= k < n ==> !BreakAt(line, k)
    decreases |line| - from
  {
    if from == |line| || BreakAt(line, from) then from else FirstChunk(line, from + 1)
  }

  predicate NoRoom(line: string, next: string, width: Width, avail: real) {
    next != "" && width(line + next[..FirstChunk(next, 1)]) > avail
  }

  /** No line has room for the first chunk of the line below it. */
  predicate Tight(lines: seq<string>, width: Width, avail: real) {
    forall i :: 0 < i < |lines| ==> NoRoom(lines[i - 1], lines[i], width, avail)
  }

  lemma {:induction false} FirstChunkStable(line: string, more: string, from: nat)
    requires Meet(line, more) && 0 < from <= |line|
    ensures FirstChunk(line + more, from) == FirstChunk(line, from)
    decreases |line| - from
  {
    if from == |line| {
      assert BreakAt(line + more, from);
    } else {
      assert BreakAt(line + more, from) == BreakAt(line, from);
      if !BreakAt(line, from) {
        FirstChunkStable(line, more, from + 1);
      }
    }
  }

  lemma {:induction false} RoomStable(above: string, line: string, more: string, width: Width, avail: real)
    requires Meet(line, more) && NoRoom(above, line, width, avail)
    ensures NoRoom(above, line + more, width, avail)
  {
    FirstChunkStable(line, more, 1);
    var n := FirstChunk(line, 1);
    assert (line + more)[..n] == line[..n];
  }

  /** The lines below a first line; what packing still has to place goes on the last of them. */
  function Placed(lines: seq<string>, line: string): seq<string> { if line == "" then lines else lines + [line] }

  predicate EndsLike(line: string, chunk: string) {
    line != "" && chunk != "" && line[|line| - 1] == chunk[|chunk| - 1]
  }

  method PlaceChunk(lines0: seq<string>, line0: string, chunk: string, width: Width, avail: real)
    returns (lines: seq<string>, line: string)
    requires var placed := Placed(lines0, line0);
             Layout(placed, Concat(placed), width, avail) && Tight(placed, width, avail)
    requires line0 == "" ==> lines0 == []
    requires line0 != "" ==> Meet(line0, chunk)
    requires chunk != "" && Unbroken(chunk)
    ensures EndsLike(line, chunk)
    ensures var placed := lines + [line];
            && Layout(placed, Concat(Placed(lines0, line0)) + chunk, width, avail) && Tight(placed, width, avail)
  {
    if line0 == "" {
      assert [chunk][1..] == [];
      return [], chunk;
    }
    if width(line0 + chunk) > avail {
      StartLine(lines0, line0, chunk, width, avail);
      return lines0 + [line0], chunk;
    }
    ExtendLine(lines0, line0, chunk, width, avail);
    return lines0, line0 + chunk;
  }

  method PackLines(chunks: seq<string>, width: Width, avail: real) returns (lines: seq<string>)
    requires Chunks(chunks)
    ensures Layout(lines, Concat(chunks), width, avail) && Tight(lines, width, avail)
  {
    lines := [];
    var line := "";
    for i := 0 to |chunks|
      invariant line == "" <==> i == 0
      invariant line == "" ==> lines == []
      invariant Layout(Placed(lines, line), Concat(chunks[..i]), width, avail)
      invariant Tight(Placed(lines, line), width, avail)
      invariant i > 0 ==> EndsLike(line, chunks[i - 1])
    {
      assert chunks[..i + 1] == chunks[..i] + [chunks[i]];
      ConcatLast(chunks[..i], chunks[i]);
      assert line != "" ==> Meet(chunks[i - 1], chunks[i]) && Meet(line, chunks[i]);
      lines, line := PlaceChunk(lines, line, chunks[i], width, avail);
    }
    assert chunks[..|chunks|] == chunks;
    if line != "" {
      lines := lines + [line];
    }
  }

  lemma {:induction false} StartLine(lines: seq<string>, line: string, chunk: string, width: Width, avail: real)
    requires var placed := lines + [line];
             Layout(placed, Concat(placed), width, avail) && Tight(placed, width, avail)
    requires Meet(line, chunk) && Unbroken(chunk) && width(line + chunk) > avail
    ensures var placed := lines + [line] + [chunk];
            && Layout(placed, Concat(lines + [line]) + chunk, width, avail) && Tight(placed, width, avail)
  {
    ConcatLast(lines + [line], chunk);
    assert FirstChunk(chunk, 1) == |chunk| && chunk[..|chunk|] == chunk;
  }

  lemma {:induction false} ExtendLine(lines: seq<string>, line: string, chunk: string, width: Width, avail: real)
    requires var placed := lines + [line];
             Layout(placed, Concat(placed), width, avail) && Tight(placed, width, avail)
    requires Meet(line, chunk) && width(line + chunk) <= avail
    ensures var placed := lines + [line + chunk];
            Layout(placed, Concat(lines + [line]) + chunk, width, avail) && Tight(placed, width, avail)
  {
    var before, after := lines + [line], lines + [line + chunk];
    ConcatGrow(before, chunk);
    assert before[|before| - 1 := line + chunk] == after;
    forall i | 0 < i < |after|
      ensures Meet(after[i - 1], after[i]) && NoRoom(after[i - 1], after[i], width, avail)
    {
      assert Meet(before[i - 1], before[i]) && NoRoom(before[i - 1], before[i], width, avail);
      if i == |lines| {
        RoomStable(lines[i - 1], line, chunk, width, avail);
      }
    }
  }

  /** A string is at least as wide as every part of it. */
  ghost predicate Monotone(width: Width) {
    forall s: string, i: int, j: int :: 0 <= i <= j <= |s| ==> width(s[i..j]) <= width(s)
  }

  /** However far behind an allowed layout starts, its first line ends no later than a tight one's. */
  lemma {:induction false} FirstLineReachesFurther(lines: seq<string>, other: seq<string>, gap: string, width: Width, avail: real)
    requires Monotone(width) && lines != [] && other != []
    requires Layout(lines, Concat(lines), width, avail) && Tight(lines, width, avail)
    requires Layout(other, gap + Concat(lines), width, avail)
    ensures |other[0]| <= |gap| + |lines[0]|
  {
    var value, below := gap + Concat(lines), Concat(lines[1..]);
    var at := |gap| + |lines[0]|;
    assert value == gap + lines[0] + below;
    assert value == other[0] + Concat(other[1..]);
    if |other[0]| > at {
      assert lines[1..] != [];
      var next, rest := lines[1], Concat(lines[1..][1..]);
      assert below == next + rest && Meet(lines[0], next) && NoRoom(lines[0], next, width, avail);
      NoBreakBefore(value, gap + lines[0], next, rest);
      EndsAtBreak(other);
      BreakBetween(other[0], Concat(other[1..]), gap, lines[0], next, rest);
      assert GoodLine(other[0], width, avail);
      assert |other[0]| >= at + FirstChunk(next, 1);
      TooWide(other[0], Concat(other[1..]), gap, lines[0], next, rest, width, avail);
    }
  }

  /** A line holding a line and the chunk that did not fit behind it does not fit either. */
  lemma {:induction false} TooWide(a: string, b: string, gap: string, line: string, next: string, rest: string, width: Width, avail: real)
    requires Monotone(width) && NoRoom(line, next, width, avail)
    requires a + b == gap + line + (next + rest) && |gap| + |line| + FirstChunk(next, 1) <= |a|
    ensures width(a) > avail
  {
    var n := FirstChunk(next, 1);
    Spanned(a, b, gap, line, next + rest, n);
    assert (next + rest)[..n] == next[..n];
    assert width(a[|gap|..|gap| + |line| + n]) <= width(a);
  }

  lemma {:induction false} BreakBetween(a: string, b: string, gap: string, line: string, next: string, rest: string)
    requires a + b == gap + line + (next + rest) && Meet(line, next) && |a| > |gap| + |line|
    ensures BreakAt(a, |gap| + |line|)
  {
    var at := |gap| + |line|;
    assert a[at] == (a + b)[at] && a[at - 1] == (a + b)[at - 1];
  }

  lemma {:induction false} Spanned(a: string, b: string, gap: string, line: string, below: string, n: nat)
    requires a + b == gap + line + below && n <= |below| && |gap| + |line| + n <= |a|
    ensures a[|gap|..|gap| + |line| + n] == line + below[..n]
  {
    var span := a[|gap|..|gap| + |line| + n];
    forall i | 0 <= i < |span|
      ensures span[i] == (line + below[..n])[i]
    {
      assert span[i] == (a + b)[|gap| + i] == (gap + line + below)[|gap| + i];
    }
  }

  lemma {:induction false} EndsAtBreak(lines: seq<string>)
    requires lines != [] && BreaksAllowed(lines) && NonEmpty(lines)
    ensures |lines[0]| == |Concat(lines)| || BreakAt(Concat(lines), |lines[0]|)
  {
  }

  lemma {:induction false} NoBreakBefore(value: string, before: string, next: string, rest: string)
    requires next != "" && value == before + (next + rest)
    ensures forall k :: |before| < k < |before| + FirstChunk(next, 1) ==> !BreakAt(value, k)
    ensures |before| + FirstChunk(next, 1) <= |value|
    ensures value[|before|..|before| + FirstChunk(next, 1)] == next[..FirstChunk(next, 1)]
  {
    var from := value[|before|..];
    assert from == next + rest;
    assert from[..FirstChunk(next, 1)] == next[..FirstChunk(next, 1)];
    forall k | |before| < k < |before| + FirstChunk(next, 1)
      ensures !BreakAt(value, k)
    {
      assert BreakAt(value, k) == BreakAt(next, k - |before|);
    }
  }

  lemma {:induction false} Leftover(a: string, b: string, c: string, d: string)
    requires a + b == c + d && |c| <= |a|
    ensures d == a[|c|..] + b
  {
    var whole := a + b;
    assert whole == c + d && d == whole[|c|..];
    assert whole[|c|..] == a[|c|..] + b;
  }

  lemma {:induction false} StaysAhead(lines: seq<string>, other: seq<string>, gap: string, width: Width, avail: real)
    requires Monotone(width)
    requires Layout(lines, Concat(lines), width, avail) && Tight(lines, width, avail)
    requires Layout(other, gap + Concat(lines), width, avail)
    ensures |lines| <= |other|
  {
    if lines != [] {
      assert other != [];
      FirstLineReachesFurther(lines, other, gap, width, avail);
      var reached := gap + lines[0];
      Leftover(reached, Concat(lines[1..]), other[0], Concat(other[1..]));
      assert gap + Concat(lines) == reached + Concat(lines[1..]);
      StaysAhead(lines[1..], other[1..], reached[|other[0]|..], width, avail);
    }
  }

  /** Main result: no allowed layout of the same value uses fewer lines than a tight one. */
  lemma {:induction false} TightIsFewest(lines: seq<string>, other: seq<string>, value: string, width: Width, avail: real)
    requires Monotone(width)
    requires Layout(lines, value, width, avail) && Tight(lines, width, avail)
    requires Layout(other, value, width, avail)
    ensures |lines| <= |other|
  {
    assert "" + value == value;
    StaysAhead(lines, other, "", width, avail);
  }

  // ---------------------------------------------------------------- markup

  const BREAK := "<br/>"

  function EscapeChar(c: char): string {
    if c == '&' then "&amp;" else if c == '<' then "&lt;" else if c == '>' then "&gt;" else [c]
  }

  function Escape(s: string): string { if s == "" then "" else EscapeChar(s[0]) + Escape(s[1..]) }

  function Join(lines: seq<string>): string {
    if lines == [] then "" else if |lines| == 1 then Escape(lines[0]) else Escape(lines[0]) + BREAK + Join(lines[1..])
  }

  /** Reading the three entities back. */
  function Unescape(s: string): string {
    if s == "" then ""
    else if "&amp;" <= s then "&" + Unescape(s[5..])
    else if "&lt;" <= s then "<" + Unescape(s[4..])
    else if "&gt;" <= s then ">" + Unescape(s[4..])
    else [s[0]] + Unescape(s[1..])
  }

  /** Splitting on the line-break tag: what is before the first tag, and the rest. */
  function SplitOnBreaks(s: string, taken: string): (parts: seq<string>)
    ensures parts != []
    decreases |s|
  {
    if s == "" then [taken]
    else if BREAK <= s then [taken] + SplitOnBreaks(s[5..], "")
    else SplitOnBreaks(s[1..], taken + [s[0]])
  }

  function ReadBack(markup: string): seq<string> { UnescapeAll(SplitOnBreaks(markup, "")) }

  function UnescapeAll(parts: seq<string>): seq<string> {
    if parts == [] then [] else [Unescape(parts[0])] + UnescapeAll(parts[1..])
  }

  lemma {:induction false} EscapeRoundTrip(s: string)
    ensures Unescape(Escape(s)) == s
  {
    if s != "" {
      EscapeRoundTrip(s[1..]);
      UnescapeChar(s[0], Escape(s[1..]));
      assert s == [s[0]] + s[1..];
    }
  }

  lemma {:induction false} UnescapeChar(c: char, rest: string)
    ensures Unescape(EscapeChar(c) + rest) == [c] + Unescape(rest)
  {
    var whole := EscapeChar(c) + rest;
    assert whole[|EscapeChar(c)|..] == rest;
    if c == '&' {
      assert "&amp;" <= whole;
    } else if c == '<' {
      assert "&lt;" <= whole && whole[1] != 'a';
    } else if c == '>' {
      assert "&gt;" <= whole && whole[1] != 'a' && whole[1] != 'l';
    } else {
      assert whole[0] != '&';
    }
  }

  lemma {:induction false} EscapedHasNoTag(s: string)
    ensures forall i :: 0 <= i < |Escape(s)| ==> Escape(s)[i] != '<'
  {
    if s != "" {
      EscapedHasNoTag(s[1..]);
    }
  }

  predicate Entity(s: string) { "&amp;" <= s || "&lt;" <= s || "&gt;" <= s }

  /** Escaped text is inert: no angle bracket is left, and every ampersand starts an entity. */
  lemma {:induction false} EscapedIsInert(s: string, i: nat)
    requires i < |Escape(s)|
    ensures Escape(s)[i] != '<' && Escape(s)[i] != '>' && (Escape(s)[i] == '&' ==> Entity(Escape(s)[i..]))
  {
    var head, tail := EscapeChar(s[0]), Escape(s[1..]);
    if i >= |head| {
      EscapedIsInert(s[1..], i - |head|);
      assert Escape(s)[i..] == tail[i - |head|..];
    }
  }

  lemma {:induction false} SplitSkipsText(text: string, rest: string, taken: string)
    requires forall i :: 0 <= i < |text| ==> text[i] != '<'
    ensures SplitOnBreaks(text + rest, taken) == SplitOnBreaks(rest, taken + text)
    decreases |text|
  {
    if text == "" {
      assert text + rest == rest && taken + text == taken;
    } else {
      SplitSkipsText(text[1..], rest, taken + [text[0]]);
      assert (text + rest)[1..] == text[1..] + rest && (text + rest)[0] == text[0];
      assert taken + [text[0]] + text[1..] == taken + text;
    }
  }

  /** Main result: splitting the markup on its tags and unescaping recovers the lines. */
  lemma {:induction false} MarkupRoundTrip(lines: seq<string>)
    requires lines != []
    ensures ReadBack(Join(lines)) == lines
  {
    if |lines| == 1 {
      ReadBackLast(lines[0]);
    } else {
      MarkupRoundTrip(lines[1..]);
      ReadBackFirst(lines[0], Join(lines[1..]));
      assert lines == [lines[0]] + lines[1..];
    }
  }

  lemma {:induction false} ReadBackLast(line: string)
    ensures ReadBack(Escape(line)) == [line]
  {
    EscapedHasNoTag(line);
    EscapeRoundTrip(line);
    SplitLast(Escape(line));
    UnescapeOne(line, []);
  }

  lemma {:induction false} ReadBackFirst(line: string, below: string)
    ensures ReadBack(Escape(line) + BREAK + below) == [line] + ReadBack(below)
  {
    EscapedHasNoTag(line);
    EscapeRoundTrip(line);
    SplitFirst(Escape(line), below);
    UnescapeOne(line, SplitOnBreaks(below, ""));
  }

  lemma {:induction false} SplitLast(text: string)
    requires forall i :: 0 <= i < |text| ==> text[i] != '<'
    ensures SplitOnBreaks(text, "") == [text] + []
  {
    SplitSkipsText(text, "", "");
    assert text + "" == text && "" + text == text;
  }

  lemma {:induction false} SplitFirst(text: string, below: string)
    requires forall i :: 0 <= i < |text| ==> text[i] != '<'
    ensures SplitOnBreaks(text + BREAK + below, "") == [text] + SplitOnBreaks(below, "")
  {
    var rest := BREAK + below;
    SplitSkipsText(text, rest, "");
    assert text + BREAK + below == text + rest && "" + text == text;
    assert BREAK <= rest && rest[5..] == below;
  }

  lemma {:induction false} UnescapeOne(line: string, parts: seq<string>)
    requires Unescape(Escape(line)) == line
    ensures UnescapeAll([Escape(line)] + parts) == [line] + UnescapeAll(parts)
  {
  }

  /** Laying one identifier out: lossless, tight, broken only where allowed. */
  method LayOut(value: string, width: Width, avail: real) returns (markup: string, ghost lines: seq<string>)
    ensures Layout(lines, Flattened(value), width, avail) && Tight(lines, width, avail)
    ensures markup == Join(lines)
    ensures Concat(ReadBack(markup)) == Flattened(value)
    ensures lines != [] ==> ReadBack(markup) == lines
  {
    var flat := Flattened(value);
    var pieces := CutAfterSeparators(flat);
    var chunks := FoldSeparators(pieces);
    var packed := PackLines(chunks, width, avail);
    lines := packed;
    markup := Join(packed);
    if markup == "" {
      markup := Escape(flat);
    }
    if lines != [] {
      MarkupRoundTrip(lines);
      JoinNotEmpty(lines);
    }
  }

  lemma {:induction false} JoinNotEmpty(lines: seq<string>)
    requires lines != [] && NonEmpty(lines)
    ensures Join(lines) != ""
  {
  }

  /** Only the first line may start with a slash, a colon or a dot, and every line but the last
      ends with one. */
  lemma {:induction false} NoLineStartsWithSeparator(lines: seq<string>, value: string, width: Width, avail: real, i: nat)
    requires Layout(lines, value, width, avail) && 0 < i < |lines|
    ensures lines[i] != "" && lines[i][0] !in {'/', ':', '.'}
    ensures lines[i - 1] != "" && lines[i - 1][|lines[i - 1]| - 1] in {'/', ':', '.'}
  {
    assert Meet(lines[i - 1], lines[i]);
  }
}
