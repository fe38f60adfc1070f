/**
 * SubRip (SRT) captions built from the word boundaries of a synthesis job:
 * the `HH:MM:SS,mmm` time stamp, the numbered caption blocks and the
 * mapping from word-boundary records to caption entries.
 */
module Captions {
  import opened Wrappers
  import opened PyStr

  /** One word-boundary record of a synthesis result: `{start, end, word}`. */
  datatype WordBoundary = WordBoundary(start: int, end: int, word: string)

  /** One caption: `{start_time, end_time, text}`, times in milliseconds. */
  datatype CaptionEntry = CaptionEntry(startTime: int, endTime: int, text: string)

  // ---------------------------------------------------------------------
  // Time stamps
  // ---------------------------------------------------------------------

  /**
   * `format_srt_time`: three floor `divmod` steps, then hours and minutes and
   * seconds padded to two digits and the milliseconds to three.  For a
   * positive divisor Dafny's `/` and `%` are Python's floor `divmod`.
   */
  function FormatSrtTime(milliseconds: int): string
  {
    var seconds := milliseconds / 1000;
    var ms := milliseconds % 1000;
    var minutes := seconds / 60;
    var secs := seconds % 60;
    var hours := minutes / 60;
    var mins := minutes % 60;
    Stamp(FormatZeroPadded(hours, 2), FormatZeroPadded(mins, 2), FormatZeroPadded(secs, 2), FormatZeroPadded(ms, 3))
  }

  /** `f"{hh}:{mm}:{ss},{fff}"` over already formatted fields. */
  function Stamp(hh: string, mm: string, ss: string, fff: string): string
  {
    hh + ":" + mm + ":" + ss + "," + fff
  }

  /** Milliseconds from parsed hour, minute, second and millisecond fields. */
  function StampValue(h: Option<int>, m: Option<int>, s: Option<int>, f: Option<int>): Option<int>
  {
    if h.Some? && m.Some? && s.Some? && f.Some? then
      Some(((h.value * 60 + m.value) * 60 + s.value) * 1000 + f.value)
    else None
  }

  /** The four fields of a time stamp, each read as an integer. */
  function FieldsValue(hh: string, mm: string, ss: string, fff: string): Option<int>
  {
    StampValue(ParseInt(hh), ParseInt(mm), ParseInt(ss), ParseInt(fff))
  }

  /** Reads `H:MM:SS,mmm` back into milliseconds. */
  function ParseSrtTime(t: string): Option<int>
  {
    var parts := Split(t, ':');
    if |parts| != 3 then None
    else
      var sf := Split(parts[2], ',');
      if |sf| != 2 then None
      else FieldsValue(parts[0], parts[1], sf[0], sf[1])
  }

  lemma NumeralLacks(d: string, c: char)
    requires forall k :: 0 <= k < |d| ==> NumeralChar(d[k])
    requires !NumeralChar(c)
    ensures c !in d
  {
    assert forall k :: 0 <= k < |d| ==> d[k] != c;
  }

  /** Splitting `a + [sep] + b + [sep'] ...` where the pieces hold neither separator. */
  lemma SplitTwoPieces(a: string, b: string, sep: char)
    requires sep !in a && sep !in b
    ensures Split(a + [sep] + b, sep) == [a, b]
  {
    SplitAroundSeparator(a, b, sep);
    SplitWithoutSeparator(a, sep);
    SplitWithoutSeparator(b, sep);
  }

  /** The four padded fields of a time stamp. */
  lemma TimeFields(milliseconds: int)
    ensures var seconds := milliseconds / 1000;
            var minutes := seconds / 60;
            && ((minutes / 60 * 60 + minutes % 60) * 60 + seconds % 60) * 1000 + milliseconds % 1000 == milliseconds
  {
  }

  /** Splitting `a:b:c` where no piece holds a colon. */
  lemma SplitThreePieces(a: string, b: string, c: string, sep: char)
    requires sep !in a && sep !in b && sep !in c
    ensures Split(a + [sep] + b + [sep] + c, sep) == [a, b, c]
  {
    var bc := b + [sep] + c;
    assert a + [sep] + b + [sep] + c == a + [sep] + bc;
    SplitAroundSeparator(a, bc, sep);
    SplitWithoutSeparator(a, sep);
    SplitTwoPieces(b, c, sep);
    assert [a] + [b, c] == [a, b, c];
  }

  /** A stamp over four numeral fields splits back into them. */
  lemma SplitStamp(hh: string, mm: string, ss: string, fff: string)
    requires forall k :: 0 <= k < |hh| ==> NumeralChar(hh[k])
    requires forall k :: 0 <= k < |mm| ==> NumeralChar(mm[k])
    requires forall k :: 0 <= k < |ss| ==> NumeralChar(ss[k])
    requires forall k :: 0 <= k < |fff| ==> NumeralChar(fff[k])
    ensures Split(Stamp(hh, mm, ss, fff), ':') == [hh, mm, ss + [','] + fff]
    ensures Split(ss + [','] + fff, ',') == [ss, fff]
  {
    NumeralLacks(ss, ',');
    NumeralLacks(fff, ',');
    SplitTwoPieces(ss, fff, ',');
    NumeralLacks(ss, ':');
    NumeralLacks(fff, ':');
    var sf := ss + [','] + fff;
    assert ':' !in sf;
    NumeralLacks(hh, ':');
    NumeralLacks(mm, ':');
    assert Stamp(hh, mm, ss, fff) == hh + [':'] + mm + [':'] + sf;
    SplitThreePieces(hh, mm, sf, ':');
  }

  /** `ParseSrtTime` on a text whose fields are known. */
  lemma ParseSrtTimeFields(t: string, hh: string, mm: string, ss: string, fff: string)
    requires Split(t, ':') == [hh, mm, ss + [','] + fff]
    requires Split(ss + [','] + fff, ',') == [ss, fff]
    ensures ParseSrtTime(t) == FieldsValue(hh, mm, ss, fff)
  {
  }

  /** A field `format_srt_time` writes: numeral characters only, reading back as `value`. */
  predicate NumeralField(t: string, value: int)
  {
    (forall k :: 0 <= k < |t| ==> NumeralChar(t[k])) && ParseInt(t) == Some(value)
  }

  lemma PaddedField(i: int, width: nat)
    ensures NumeralField(FormatZeroPadded(i, width), i)
  {
    FormatZeroPaddedShape(i, width);
    ParseIntFormatZeroPadded(i, width);
  }

  /** A stamp of numeral fields reads back as the combination of the field values. */
  lemma ParseNumeralStamp(hh: string, mm: string, ss: string, fff: string, h: int, m: int, s: int, f: int)
    requires NumeralField(hh, h) && NumeralField(mm, m) && NumeralField(ss, s) && NumeralField(fff, f)
    ensures ParseSrtTime(Stamp(hh, mm, ss, fff)) == Some(((h * 60 + m) * 60 + s) * 1000 + f)
  {
    SplitStamp(hh, mm, ss, fff);
    ParseSrtTimeFields(Stamp(hh, mm, ss, fff), hh, mm, ss, fff);
    StampValueOfFields(ParseInt(hh), ParseInt(mm), ParseInt(ss), ParseInt(fff), h, m, s, f);
  }

  lemma StampValueOfFields(a: Option<int>, b: Option<int>, c: Option<int>, d: Option<int>, h: int, m: int, s: int, f: int)
    requires a == Some(h) && b == Some(m) && c == Some(s) && d == Some(f)
    ensures StampValue(a, b, c, d) == Some(((h * 60 + m) * 60 + s) * 1000 + f)
  {
  }

  /** A stamp of zero-padded fields reads back as the combination `total` of the field values. */
  lemma ParsePaddedStamp(h: int, m: int, s: int, f: int, total: int)
    requires total == ((h * 60 + m) * 60 + s) * 1000 + f
    ensures ParseSrtTime(Stamp(FormatZeroPadded(h, 2), FormatZeroPadded(m, 2), FormatZeroPadded(s, 2), FormatZeroPadded(f, 3)))
            == Some(total)
  {
    PaddedField(h, 2);
    PaddedField(m, 2);
    PaddedField(s, 2);
    PaddedField(f, 3);
    ParseNumeralStamp(FormatZeroPadded(h, 2), FormatZeroPadded(m, 2), FormatZeroPadded(s, 2), FormatZeroPadded(f, 3), h, m, s, f);
  }

  /** `format_srt_time` as a stamp of its four padded fields. */
  lemma FormatSrtTimeStamp(milliseconds: int)
    ensures FormatSrtTime(milliseconds)
            == Stamp(FormatZeroPadded(milliseconds / 1000 / 60 / 60, 2), FormatZeroPadded(milliseconds / 1000 / 60 % 60, 2),
                     FormatZeroPadded(milliseconds / 1000 % 60, 2), FormatZeroPadded(milliseconds % 1000, 3))
  {
  }

  /** Decoding a formatted time stamp gives the milliseconds back, for every integer. */
  lemma ParseFormatSrtTime(milliseconds: int)
    ensures ParseSrtTime(FormatSrtTime(milliseconds)) == Some(milliseconds)
  {
    var h, m, s, f := milliseconds / 1000 / 60 / 60, milliseconds / 1000 / 60 % 60, milliseconds / 1000 % 60, milliseconds % 1000;
    TimeFields(milliseconds);
    FormatSrtTimeStamp(milliseconds);
    ParsePaddedStamp(h, m, s, f, milliseconds);
  }

  /** Different instants give different time stamps. */
  lemma FormatSrtTimeInjective(a: int, b: int)
    requires FormatSrtTime(a) == FormatSrtTime(b)
    ensures a == b
  {
    ParseFormatSrtTime(a);
    ParseFormatSrtTime(b);
  }

  lemma DivChain(x: int)
    ensures x / 1000 / 60 == x / 60000
    ensures x / 60000 / 60 == x / 3600000
  {
  }

  /**
   * For a non-negative instant: the hours are `ms div 3600000` padded to at
   * least two digits (exactly two below 100 hours), the minutes
   * `(ms div 60000) mod 60` and the seconds `(ms div 1000) mod 60` padded to
   * two, the milliseconds `ms mod 1000` padded to three.
   */
  lemma FormatSrtTimeComponents(milliseconds: int)
    requires milliseconds >= 0
    ensures var H := FormatZeroPadded(milliseconds / 3600000, 2);
            var M := FormatZeroPadded(milliseconds / 60000 % 60, 2);
            var S := FormatZeroPadded(milliseconds / 1000 % 60, 2);
            var F := FormatZeroPadded(milliseconds % 1000, 3);
            && FormatSrtTime(milliseconds) == Stamp(H, M, S, F)
            && |H| >= 2 && |M| == 2 && |S| == 2 && |F| == 3
            && (milliseconds < 360000000 ==> |H| == 2)
  {
    DivChain(milliseconds);
    FormatZeroPaddedShape(milliseconds / 3600000, 2);
    FormatZeroPaddedShape(milliseconds / 60000 % 60, 2);
    FormatZeroPaddedShape(milliseconds / 1000 % 60, 2);
    FormatZeroPaddedShape(milliseconds % 1000, 3);
  }

  lemma PaddedDigit(d: nat, width: nat)
    requires d < 10 && width >= 1
    ensures FormatZeroPadded(d, width) == Zeros(width - 1) + [DigitChar(d)]
  {
  }

  lemma PaddedExamples()
    ensures FormatZeroPadded(1, 2) == "01" && FormatZeroPadded(4, 3) == "004"
    ensures FormatZeroPadded(0, 2) == "00" && FormatZeroPadded(0, 3) == "000"
  {
    PaddedDigit(0, 2);
    PaddedDigit(1, 2);
    PaddedDigit(0, 3);
    PaddedDigit(4, 3);
    assert Zeros(1) == "0";
    assert Zeros(2) == "00";
  }

  /** `format_srt_time` once the three `divmod` steps are known. */
  lemma FormatSrtTimeOfFields(milliseconds: int, h: int, m: int, s: int, f: int)
    requires milliseconds / 1000 / 60 / 60 == h && milliseconds / 1000 / 60 % 60 == m
    requires milliseconds / 1000 % 60 == s && milliseconds % 1000 == f
    ensures FormatSrtTime(milliseconds) == Stamp(FormatZeroPadded(h, 2), FormatZeroPadded(m, 2), FormatZeroPadded(s, 2), FormatZeroPadded(f, 3))
  {
    FormatSrtTimeStamp(milliseconds);
  }

  /** One hour, one minute, one second and four milliseconds. */
  lemma FormatSrtTimeExample()
    ensures FormatSrtTime(3661004) == "01:01:01,004"
  {
    assert 3661004 / 1000 == 3661 && 3661004 % 1000 == 4;
    assert 3661 / 60 == 61 && 3661 % 60 == 1;
    assert 61 / 60 == 1 && 61 % 60 == 1;
    FormatSrtTimeOfFields(3661004, 1, 1, 1, 4);
    PaddedExamples();
    assert Stamp("01", "01", "01", "004") == "01:01:01,004";
  }

  /** The start of the clock. */
  lemma FormatSrtTimeZero()
    ensures FormatSrtTime(0) == "00:00:00,000"
  {
    FormatSrtTimeOfFields(0, 0, 0, 0, 0);
    PaddedExamples();
    assert Stamp("00", "00", "00", "000") == "00:00:00,000";
  }

  // ---------------------------------------------------------------------
  // SRT documents
  // ---------------------------------------------------------------------

  /** The time line of a caption block. */
  function TimeLine(e: CaptionEntry): string
  {
    FormatSrtTime(e.startTime) + " --> " + FormatSrtTime(e.endTime)
  }

  /** Caption block number `index`: `"{index}\n{start} --> {end}\n{text}\n\n"`. */
  function SrtBlock(index: int, e: CaptionEntry): string
  {
    IntToString(index) + "\n" + TimeLine(e) + "\n" + e.text + "\n\n"
  }

  /** `block(first, e0) + block(first + 1, e1) + ...` over `entries` in input order. */
  function ConcatBlocks(entries: seq<CaptionEntry>, first: int, block: (int, CaptionEntry) -> string): string
  {
    if entries == [] then ""
    else ConcatBlocks(entries[..|entries| - 1], first, block) + block(first + |entries| - 1, entries[|entries| - 1])
  }

  /** The SRT blocks of `entries`, numbered from `first` in input order. */
  function SrtBlocks(entries: seq<CaptionEntry>, first: int): string
  {
    ConcatBlocks(entries, first, SrtBlock)
  }

  lemma ConcatBlocksSnoc(entries: seq<CaptionEntry>, i: nat, first: int, block: (int, CaptionEntry) -> string)
    requires i < |entries|
    ensures ConcatBlocks(entries[..i + 1], first, block) == ConcatBlocks(entries[..i], first, block) + block(first + i, entries[i])
  {
    assert entries[..i + 1][..i] == entries[..i];
  }

  /** The three appends of one loop round add one block's text. */
  lemma BlockPieces(before: string, n: string, a: string, b: string, t: string)
    ensures before + (n + "\n") + (a + " --> " + b + "\n") + (t + "\n\n")
            == before + (n + "\n" + (a + " --> " + b) + "\n" + t + "\n\n")
  {
  }

  /** `generate_srt`: accumulates the blocks numbered from 1. */
  method GenerateSrt(subtitleData: seq<CaptionEntry>) returns (srtContent: string)
    ensures srtContent == SrtBlocks(subtitleData, 1)
    ensures subtitleData == [] ==> srtContent == ""
  {
    srtContent := "";
    for idx := 0 to |subtitleData|
      invariant srtContent == SrtBlocks(subtitleData[..idx], 1)
    {
      var entry := subtitleData[idx];
      var startTime := FormatSrtTime(entry.startTime);
      var endTime := FormatSrtTime(entry.endTime);
      ghost var before := srtContent;
      var indexLine := IntToString(idx + 1) + "\n";
      var timeLine := startTime + " --> " + endTime + "\n";
      var textLines := entry.text + "\n\n";
      srtContent := srtContent + indexLine;
      srtContent := srtContent + timeLine;
      srtContent := srtContent + textLines;
      BlockPieces(before, IntToString(idx + 1), startTime, endTime, entry.text);
      ConcatBlocksSnoc(subtitleData, idx, 1, SrtBlock);
    }
    assert subtitleData[..|subtitleData|] == subtitleData;
  }

  /** The blocks of `a + b` are those of `a` followed by those of `b` numbered from `first + |a|`. */
  lemma {:induction false} ConcatBlocksAppend(a: seq<CaptionEntry>, b: seq<CaptionEntry>, first: int, block: (int, CaptionEntry) -> string)
    ensures ConcatBlocks(a + b, first, block) == ConcatBlocks(a, first, block) + ConcatBlocks(b, first + |a|, block)
    decreases |b|
  {
    if b == [] {
      assert a + b == a;
    } else {
      var init := b[..|b| - 1];
      var last := b[|b| - 1];
      assert (a + b)[..|a + b| - 1] == a + init;
      assert (a + b)[|a + b| - 1] == last;
      ConcatBlocksAppend(a, init, first, block);
    }
  }

  /** The SRT of `a + b` is that of `a` followed by the blocks of `b` numbered from `first + |a|`. */
  lemma SrtBlocksAppend(a: seq<CaptionEntry>, b: seq<CaptionEntry>, first: int)
    ensures SrtBlocks(a + b, first) == SrtBlocks(a, first) + SrtBlocks(b, first + |a|)
  {
    ConcatBlocksAppend(a, b, first, SrtBlock);
  }

  /** Peeling the first block off the front. */
  lemma ConcatBlocksCons(e: CaptionEntry, rest: seq<CaptionEntry>, first: int, block: (int, CaptionEntry) -> string)
    ensures ConcatBlocks([e] + rest, first, block) == block(first, e) + ConcatBlocks(rest, first + 1, block)
  {
    ConcatBlocksAppend([e], rest, first, block);
    assert [e][..0] == [];
  }

  // Reading an SRT document back.

  /** `"A --> B"` back into its two instants. */
  function ParseTimeLine(line: string): Option<(int, int)>
  {
    var ws := Split(line, ' ');
    if |ws| == 3 && ws[1] == "-->" then
      var s := ParseSrtTime(ws[0]);
      var e := ParseSrtTime(ws[2]);
      if s.Some? && e.Some? then Some((s.value, e.value)) else None
    else None
  }

  /** Groups of four lines `index, time line, text, ""`, numbered from `index`, ending in the final empty line. */
  function ParseBlocks(lines: seq<string>, index: int): Option<seq<CaptionEntry>>
    decreases |lines|
  {
    if lines == [""] then Some([])
    else if |lines| < 5 || ParseInt(lines[0]) != Some(index) || lines[3] != "" then None
    else
      var times := ParseTimeLine(lines[1]);
      var rest := ParseBlocks(lines[4..], index + 1);
      if times.Some? && rest.Some? then
        Some([CaptionEntry(times.value.0, times.value.1, lines[2])] + rest.value)
      else None
  }

  /** Reads an SRT document into its caption entries, numbered from 1. */
  function ParseSrt(text: string): Option<seq<CaptionEntry>>
  {
    ParseBlocks(Split(text, '\n'), 1)
  }

  /** A character that `format_srt_time` can produce. */
  predicate StampChar(c: char)
  {
    NumeralChar(c) || c == ':' || c == ','
  }

  lemma StampChars(hh: string, mm: string, ss: string, fff: string)
    requires forall k :: 0 <= k < |hh| ==> NumeralChar(hh[k])
    requires forall k :: 0 <= k < |mm| ==> NumeralChar(mm[k])
    requires forall k :: 0 <= k < |ss| ==> NumeralChar(ss[k])
    requires forall k :: 0 <= k < |fff| ==> NumeralChar(fff[k])
    ensures forall k :: 0 <= k < |Stamp(hh, mm, ss, fff)| ==> StampChar(Stamp(hh, mm, ss, fff)[k])
  {
    var t := Stamp(hh, mm, ss, fff);
    forall k | 0 <= k < |t| ensures StampChar(t[k]) {
      var a := |hh|;
      var b := a + 1 + |mm|;
      var c := b + 1 + |ss|;
      if k < a { assert t[k] == hh[k]; }
      else if k == a { assert t[k] == ':'; }
      else if k < b { assert t[k] == mm[k - a - 1]; }
      else if k == b { assert t[k] == ':'; }
      else if k < c { assert t[k] == ss[k - b - 1]; }
      else if k == c { assert t[k] == ','; }
      else { assert t[k] == fff[k - c - 1]; }
    }
  }

  lemma FormatSrtTimeChars(milliseconds: int)
    ensures forall k :: 0 <= k < |FormatSrtTime(milliseconds)| ==> StampChar(FormatSrtTime(milliseconds)[k])
  {
    var seconds := milliseconds / 1000;
    var minutes := seconds / 60;
    var h, m, s, f := minutes / 60, minutes % 60, seconds % 60, milliseconds % 1000;
    FormatZeroPaddedShape(h, 2);
    FormatZeroPaddedShape(m, 2);
    FormatZeroPaddedShape(s, 2);
    FormatZeroPaddedShape(f, 3);
    StampChars(FormatZeroPadded(h, 2), FormatZeroPadded(m, 2), FormatZeroPadded(s, 2), FormatZeroPadded(f, 3));
  }

  lemma StampLacks(t: string, c: char)
    requires forall k :: 0 <= k < |t| ==> StampChar(t[k])
    requires !StampChar(c)
    ensures c !in t
  {
    assert forall k :: 0 <= k < |t| ==> t[k] != c;
  }

  /** Two words without blanks around `" --> "` split into three words. */
  lemma SplitTimeLine(a: string, b: string)
    requires ' ' !in a && ' ' !in b
    ensures Split(a + " --> " + b, ' ') == [a, "-->", b]
  {
    assert a + " --> " + b == a + [' '] + ("-->" + [' '] + b);
    SplitAroundSeparator(a, "-->" + [' '] + b, ' ');
    SplitWithoutSeparator(a, ' ');
    SplitTwoPieces("-->", b, ' ');
  }

  /** A line that splits into two stamps around `-->` reads back as the two values the stamps hold. */
  lemma ParseTimeLineOf(line: string, a: string, b: string, x: int, y: int)
    requires Split(line, ' ') == [a, "-->", b]
    requires ParseSrtTime(a) == Some(x) && ParseSrtTime(b) == Some(y)
    ensures ParseTimeLine(line) == Some((x, y))
  {
    var ws := Split(line, ' ');
    assert |ws| == 3 && ws[0] == a && ws[1] == "-->" && ws[2] == b;
  }

  lemma TimeLineLacksNewline(a: string, b: string)
    requires '\n' !in a && '\n' !in b
    ensures '\n' !in a + " --> " + b
  {
  }

  /** The time line reads back as the entry's two instants and holds no line break. */
  lemma ParseTimeLineRoundTrip(e: CaptionEntry)
    ensures ParseTimeLine(TimeLine(e)) == Some((e.startTime, e.endTime))
    ensures '\n' !in TimeLine(e)
  {
    var a := FormatSrtTime(e.startTime);
    var b := FormatSrtTime(e.endTime);
    FormatSrtTimeChars(e.startTime);
    FormatSrtTimeChars(e.endTime);
    StampLacks(a, ' ');
    StampLacks(b, ' ');
    StampLacks(a, '\n');
    StampLacks(b, '\n');
    ParseFormatSrtTime(e.startTime);
    ParseFormatSrtTime(e.endTime);
    SplitTimeLine(a, b);
    ParseTimeLineOf(TimeLine(e), a, b, e.startTime, e.endTime);
    TimeLineLacksNewline(a, b);
  }

  /** A line without a line break, ended by one, in front of more text. */
  lemma SplitLine(a: string, rest: string)
    requires '\n' !in a
    ensures Split(a + "\n" + rest, '\n') == [a] + Split(rest, '\n')
  {
    assert a + "\n" + rest == a + ['\n'] + rest;
    SplitAroundSeparator(a, rest, '\n');
    SplitWithoutSeparator(a, '\n');
  }

  /** Four lines without line breaks, each ended by one, in front of more text. */
  lemma SplitFourLines(a: string, b: string, c: string, rest: string)
    requires '\n' !in a && '\n' !in b && '\n' !in c
    ensures Split(a + "\n" + b + "\n" + c + "\n\n" + rest, '\n') == [a, b, c, ""] + Split(rest, '\n')
  {
    var r3 := "" + "\n" + rest;
    var r2 := c + "\n" + r3;
    var r1 := b + "\n" + r2;
    assert a + "\n" + b + "\n" + c + "\n\n" + rest == a + "\n" + r1;
    SplitLine(a, r1);
    SplitLine(b, r2);
    SplitLine(c, r3);
    SplitLine("", rest);
    assert [a] + ([b] + ([c] + ([""] + Split(rest, '\n')))) == [a, b, c, ""] + Split(rest, '\n');
  }

  /** A block followed by more text splits into its four lines and the lines of the rest. */
  lemma SplitBlock(index: int, e: CaptionEntry, rest: string)
    requires '\n' !in e.text
    ensures Split(SrtBlock(index, e) + rest, '\n') == [IntToString(index), TimeLine(e), e.text, ""] + Split(rest, '\n')
  {
    IntToStringNumeral(index);
    NumeralLacks(IntToString(index), '\n');
    ParseTimeLineRoundTrip(e);
    SplitFourLines(IntToString(index), TimeLine(e), e.text, rest);
  }

  lemma FourLines(lines: seq<string>, number: string, timeLine: string, text: string, restLines: seq<string>)
    requires lines == [number, timeLine, text, ""] + restLines
    ensures |lines| == 4 + |restLines|
    ensures lines[0] == number && lines[1] == timeLine && lines[2] == text && lines[3] == ""
    ensures lines[4..] == restLines
  {
  }

  /** A block's four lines in front of lines that read back as `rest` read back as its entry followed by `rest`. */
  lemma ParseBlocksStep(lines: seq<string>, index: int, number: string, timeLine: string, text: string,
                        startTime: int, endTime: int, restLines: seq<string>, rest: seq<CaptionEntry>)
    requires lines == [number, timeLine, text, ""] + restLines
    requires ParseInt(number) == Some(index)
    requires ParseTimeLine(timeLine) == Some((startTime, endTime))
    requires ParseBlocks(restLines, index + 1) == Some(rest)
    ensures ParseBlocks(lines, index) == Some([CaptionEntry(startTime, endTime, text)] + rest)
  {
    FourLines(lines, number, timeLine, text, restLines);
    assert restLines != [];
  }

  /** The lines of a document whose first block is `e`. */
  lemma SplitFirstBlock(e: CaptionEntry, rest: seq<CaptionEntry>, first: int)
    requires '\n' !in e.text
    ensures Split(SrtBlocks([e] + rest, first), '\n')
            == [IntToString(first), TimeLine(e), e.text, ""] + Split(SrtBlocks(rest, first + 1), '\n')
  {
    ConcatBlocksCons(e, rest, first, SrtBlock);
    SplitBlock(first, e, SrtBlocks(rest, first + 1));
  }

  /** Reading back the blocks numbered from `first` recovers the entries. */
  lemma {:induction false} ParseBlocksRoundTrip(entries: seq<CaptionEntry>, first: int)
    requires forall i :: 0 <= i < |entries| ==> '\n' !in entries[i].text
    ensures ParseBlocks(Split(SrtBlocks(entries, first), '\n'), first) == Some(entries)
    decreases |entries|
  {
    if entries == [] {
      assert SrtBlocks(entries, first) == "";
    } else {
      var e, rest := entries[0], entries[1..];
      assert entries == [e] + rest;
      assert forall i :: 0 <= i < |rest| ==> '\n' !in rest[i].text by {
        forall i | 0 <= i < |rest| ensures '\n' !in rest[i].text { assert rest[i] == entries[i + 1]; }
      }
      ParseBlocksRoundTrip(rest, first + 1);
      SplitFirstBlock(e, rest, first);
      ParseIntToString(first);
      ParseTimeLineRoundTrip(e);
      ParseBlocksStep(Split(SrtBlocks(entries, first), '\n'), first, IntToString(first), TimeLine(e), e.text,
                      e.startTime, e.endTime, Split(SrtBlocks(rest, first + 1), '\n'), rest);
    }
  }

  /** An SRT document produced by `generate_srt` reads back as its entries when no text holds a line break. */
  lemma ParseGenerateSrt(entries: seq<CaptionEntry>)
    requires forall i :: 0 <= i < |entries| ==> '\n' !in entries[i].text
    ensures ParseSrt(SrtBlocks(entries, 1)) == Some(entries)
  {
    ParseBlocksRoundTrip(entries, 1);
  }

  // ---------------------------------------------------------------------
  // Word boundaries
  // ---------------------------------------------------------------------

  /** The caption entry a word-boundary record becomes. */
  function WordCaption(w: WordBoundary): CaptionEntry
  {
    CaptionEntry(w.start, w.end, w.word)
  }

  /** The caption entries of a sequence of word-boundary records, one per record in order. */
  function WordCaptionsOf(records: seq<WordBoundary>): (entries: seq<CaptionEntry>)
    ensures |entries| == |records|
    ensures forall i :: 0 <= i < |records| ==> entries[i] == WordCaption(records[i])
  {
    if records == [] then []
    else WordCaptionsOf(records[..|records| - 1]) + [WordCaption(records[|records| - 1])]
  }

  /** What `extract_word_timestamps` yields for the reply's optional `wordBoundary` list. */
  function WordCaptions(wordBoundary: Option<seq<WordBoundary>>): seq<CaptionEntry>
  {
    if wordBoundary.None? then [] else WordCaptionsOf(wordBoundary.value)
  }

  /**
   * `extract_word_timestamps`: nothing when the `wordBoundary` key is
   * absent, otherwise one entry per record, in order, copied unchecked.
   */
  method ExtractWordTimestamps(wordBoundary: Option<seq<WordBoundary>>) returns (wordTimestamps: seq<CaptionEntry>)
    ensures wordTimestamps == WordCaptions(wordBoundary)
    ensures wordBoundary.None? ==> wordTimestamps == []
    ensures wordBoundary.Some? ==> |wordTimestamps| == |wordBoundary.value|
    ensures wordBoundary.Some? ==> forall i :: 0 <= i < |wordTimestamps| ==>
              && wordTimestamps[i].startTime == wordBoundary.value[i].start
              && wordTimestamps[i].endTime == wordBoundary.value[i].end
              && wordTimestamps[i].text == wordBoundary.value[i].word
  {
    wordTimestamps := [];
    if wordBoundary.Some? {
      var records := wordBoundary.value;
      for i := 0 to |records|
        invariant wordTimestamps == WordCaptionsOf(records[..i])
      {
        var wordInfo := records[i];
        wordTimestamps := wordTimestamps + [CaptionEntry(wordInfo.start, wordInfo.end, wordInfo.word)];
        assert records[..i + 1][..i] == records[..i];
      }
      assert records[..|records|] == records;
    }
  }
}
