/**
 * The output stream that turns a process's standard output or standard
 * error into log lines: bytes are gathered into a line until a newline
 * byte, and the line goes to the log at info level (standard output) or
 * error level (standard error). The stream is a value; writing returns the
 * next value, and the log is the sequence of lines it has emitted.
 */
module LogStream {
  import opened Common

  datatype Level = Info | Error

  datatype LogLine = LogLine(level: Level, text: string)

  /**
   * The stream's state: which level it logs at, the line gathered so far
   * (`None` before the first byte and after each flush), and what it has
   * logged.
   */
  datatype Stream = Stream(error: bool, builder: Option<string>, log: seq<LogLine>)

  /** A stream as constructed: nothing gathered, nothing logged. */
  function Fresh(error: bool): Stream {
    Stream(error, None, [])
  }

  function LevelOf(error: bool): Level {
    if error then Error else Info
  }

  /** The character a written byte stands for: its low eight bits, as `(char) (b & 0xff)`. */
  function ByteChar(b: int): (c: char)
    ensures 0 <= c as int < 256
    ensures c as int == b % 256
  {
    (b % 256) as char
  }

  /** Logs the gathered line, if any, and starts over. */
  function Flush(s: Stream): (r: Stream)
    ensures r.error == s.error && r.builder.None?
    ensures s.builder.None? ==> r == s
    ensures s.builder.Some? ==> r.log == s.log + [LogLine(LevelOf(s.error), s.builder.value)]
  {
    match s.builder
    case None => s
    case Some(line) => Stream(s.error, None, s.log + [LogLine(LevelOf(s.error), line)])
  }

  /** Writes one byte: a newline flushes the line (even an empty one), anything else is appended to it. */
  function Write(s: Stream, b: int): (r: Stream)
    ensures r.error == s.error
    ensures ByteChar(b) == '\n' ==> r.builder.None? && r.log == s.log + [LogLine(LevelOf(s.error), GetOr(s.builder, ""))]
    ensures ByteChar(b) != '\n' ==> r.log == s.log && r.builder == Some(GetOr(s.builder, "") + [ByteChar(b)])
  {
    var started := Stream(s.error, Some(GetOr(s.builder, "")), s.log);
    var next := ByteChar(b);
    if next == '\n' then Flush(started)
    else Stream(s.error, Some(started.builder.value + [next]), s.log)
  }

  /** Writes the bytes in order. */
  function WriteAll(s: Stream, bytes: seq<int>): Stream
    decreases |bytes|
  {
    if |bytes| == 0 then s else WriteAll(Write(s, bytes[0]), bytes[1..])
  }

  /** The text a run of bytes stands for. */
  function Chars(bytes: seq<int>): (r: string)
    ensures |r| == |bytes|
    decreases |bytes|
  {
    if |bytes| == 0 then "" else [ByteChar(bytes[0])] + Chars(bytes[1..])
  }

  lemma {:induction false} CharsLast(bytes: seq<int>)
    requires |bytes| > 0
    ensures Chars(bytes)[|bytes| - 1] == ByteChar(bytes[|bytes| - 1])
    decreases |bytes|
  {
    if |bytes| > 1 {
      CharsLast(bytes[1..]);
      assert bytes[1..][|bytes| - 2] == bytes[|bytes| - 1];
    }
  }

  /** The lines of `text` that a newline ends: every piece between newlines but the last. */
  function EndedLines(text: string): seq<string> {
    var pieces := Split(text, '\n');
    pieces[..|pieces| - 1]
  }

  /** The piece of `text` after its last newline. */
  function Unended(text: string): (r: string)
    ensures '\n' !in r
  {
    var pieces := Split(text, '\n');
    pieces[|pieces| - 1]
  }

  /** `lines` at one level. */
  function AtLevel(level: Level, lines: seq<string>): (r: seq<LogLine>)
    ensures |r| == |lines|
    ensures forall i :: 0 <= i < |lines| ==> r[i] == LogLine(level, lines[i])
  {
    seq(|lines|, i requires 0 <= i < |lines| => LogLine(level, lines[i]))
  }

  lemma AtLevelAppend(level: Level, a: seq<string>, b: seq<string>)
    ensures AtLevel(level, a + b) == AtLevel(level, a) + AtLevel(level, b)
  {
  }

  /** A stream whose gathered line holds no newline, as every stream reached by writing does. */
  predicate Valid(s: Stream) {
    s.builder.Some? ==> '\n' !in s.builder.value
  }

  /** A line ended by a newline comes first among the ended lines, and the unended rest stays unended. */
  lemma SplitAfterNewline(pending: string, text: string)
    requires '\n' !in pending
    ensures EndedLines(pending + ['\n'] + text) == [pending] + EndedLines(text)
    ensures Unended(pending + ['\n'] + text) == Unended(text)
  {
    SplitPrefix(pending, '\n', text);
  }

  /** What writing `bytes` to `s` leaves: the lines ended so far logged, the rest gathered. */
  predicate Wrote(s: Stream, bytes: seq<int>, r: Stream) {
    var text := GetOr(s.builder, "") + Chars(bytes);
    && r.error == s.error
    && Valid(r)
    && r.log == s.log + AtLevel(LevelOf(s.error), EndedLines(text))
    && (|bytes| == 0 ==> r.builder == s.builder)
    && (|bytes| > 0 && ByteChar(bytes[|bytes| - 1]) == '\n' ==> r.builder.None?)
    && (|bytes| > 0 && ByteChar(bytes[|bytes| - 1]) != '\n' ==> r.builder == Some(Unended(text)))
  }

  /** Logging a line and then the lines ended after it is logging the lines ended in the whole text. */
  lemma NewlineLog(level: Level, log: seq<LogLine>, pending: string, tail: string)
    requires '\n' !in pending
    ensures log + [LogLine(level, pending)] + AtLevel(level, EndedLines(tail))
            == log + AtLevel(level, EndedLines(pending + ['\n'] + tail))
    ensures Unended(pending + ['\n'] + tail) == Unended(tail)
  {
    SplitAfterNewline(pending, tail);
    AtLevelAppend(level, [pending], EndedLines(tail));
  }

  /** The text of bytes that start with a newline. */
  lemma NewlineText(pending: string, bytes: seq<int>)
    requires |bytes| > 0 && ByteChar(bytes[0]) == '\n'
    ensures pending + Chars(bytes) == pending + ['\n'] + Chars(bytes[1..])
  {
  }

  /** What the log holds after a newline byte and the bytes after it. */
  lemma NewlineStepLog(s: Stream, bytes: seq<int>)
    requires Valid(s) && |bytes| > 0 && ByteChar(bytes[0]) == '\n'
    requires Wrote(Write(s, bytes[0]), bytes[1..], WriteAll(Write(s, bytes[0]), bytes[1..]))
    ensures var pending := GetOr(s.builder, "");
      var r := WriteAll(Write(s, bytes[0]), bytes[1..]);
      && r.log == s.log + AtLevel(LevelOf(s.error), EndedLines(pending + Chars(bytes)))
      && (|bytes| > 1 ==> r.builder == Some(Unended(pending + Chars(bytes))) || r.builder.None?)
  {
    var pending := GetOr(s.builder, "");
    var level := LevelOf(s.error);
    var tail := Chars(bytes[1..]);
    var s1 := Write(s, bytes[0]);
    assert GetOr(s1.builder, "") + tail == tail;
    NewlineText(pending, bytes);
    NewlineLog(level, s.log, pending, tail);
  }

  /** A newline byte: the gathered line is logged and the rest is written from nothing gathered. */
  lemma NewlineStep(s: Stream, bytes: seq<int>)
    requires Valid(s) && |bytes| > 0 && ByteChar(bytes[0]) == '\n'
    requires Wrote(Write(s, bytes[0]), bytes[1..], WriteAll(Write(s, bytes[0]), bytes[1..]))
    ensures Wrote(s, bytes, WriteAll(s, bytes))
  {
    var rest := bytes[1..];
    var s1 := Write(s, bytes[0]);
    var r := WriteAll(s1, rest);
    assert WriteAll(s, bytes) == r;
    NewlineStepLog(s, bytes);
    if |rest| == 0 {
      assert r == s1;
    } else {
      assert bytes[|bytes| - 1] == rest[|rest| - 1];
      NewlineText(GetOr(s.builder, ""), bytes);
      NewlineLog(LevelOf(s.error), s.log, GetOr(s.builder, ""), Chars(rest));
    }
  }

  /** A last byte that is not a newline: it ends the gathered line, which stays gathered. */
  lemma OtherLast(s: Stream, b: int)
    requires Valid(s) && ByteChar(b) != '\n'
    ensures Wrote(s, [b], WriteAll(s, [b]))
  {
    var pending := GetOr(s.builder, "");
    var r := Write(s, b);
    assert WriteAll(s, [b]) == r;
    assert Chars([b]) == [ByteChar(b)];
    var text := pending + [ByteChar(b)];
    assert '\n' !in text;
    SplitNoSep(text, '\n');
    assert Unended(text) == text && EndedLines(text) == [];
  }

  /** `Wrote` depends on the bytes only through the text they complete and whether they end in a newline. */
  lemma WroteSameText(s: Stream, bytes: seq<int>, s1: Stream, rest: seq<int>, r: Stream)
    requires |bytes| > 0 && |rest| > 0
    requires s1.error == s.error && s1.log == s.log
    requires GetOr(s1.builder, "") + Chars(rest) == GetOr(s.builder, "") + Chars(bytes)
    requires ByteChar(bytes[|bytes| - 1]) == ByteChar(rest[|rest| - 1])
    requires Wrote(s1, rest, r)
    ensures Wrote(s, bytes, r)
  {
  }

  /** Any other byte followed by more: it joins the gathered line, and the text written is the same. */
  lemma OtherStep(s: Stream, bytes: seq<int>)
    requires Valid(s) && |bytes| > 1 && ByteChar(bytes[0]) != '\n'
    requires Wrote(Write(s, bytes[0]), bytes[1..], WriteAll(Write(s, bytes[0]), bytes[1..]))
    ensures Wrote(s, bytes, WriteAll(s, bytes))
  {
    var rest := bytes[1..];
    var s1 := Write(s, bytes[0]);
    assert Chars(bytes) == [ByteChar(bytes[0])] + Chars(rest);
    assert GetOr(s1.builder, "") + Chars(rest) == GetOr(s.builder, "") + Chars(bytes);
    assert bytes[|bytes| - 1] == rest[|rest| - 1];
    WroteSameText(s, bytes, s1, rest, WriteAll(s1, rest));
  }

  /**
   * Writing bytes logs exactly the lines the newlines end, counting the line
   * already gathered as the start of the text, and keeps the piece after the
   * last newline gathered.
   */
  lemma {:induction false} WriteAllLines(s: Stream, bytes: seq<int>)
    requires Valid(s)
    ensures Wrote(s, bytes, WriteAll(s, bytes))
    decreases |bytes|
  {
    if |bytes| == 0 {
      assert GetOr(s.builder, "") + Chars(bytes) == GetOr(s.builder, "");
      SplitNoSep(GetOr(s.builder, ""), '\n');
    } else {
      WriteAllLines(Write(s, bytes[0]), bytes[1..]);
      if ByteChar(bytes[0]) == '\n' {
        NewlineStep(s, bytes);
      } else if |bytes| == 1 {
        OtherLast(s, bytes[0]);
      } else {
        OtherStep(s, bytes);
      }
    }
  }

  /** The lines a finished run of `text` is logged as: a trailing newline does not start an extra line. */
  function LoggedLines(text: string): seq<string> {
    if |text| == 0 then []
    else if text[|text| - 1] == '\n' then EndedLines(text)
    else EndedLines(text) + [Unended(text)]
  }

  /** `text` as bytes; every character of it must fit in a byte. */
  function Bytes(text: string): (r: seq<int>)
    requires forall i :: 0 <= i < |text| ==> text[i] as int < 256
    ensures |r| == |text|
    ensures Chars(r) == text
    decreases |text|
  {
    if |text| == 0 then []
    else
      var c := text[0] as int;
      assert (c % 256) as char == text[0];
      [c] + Bytes(text[1..])
  }

  /** Flushing a stream that has logged the ended lines of `text` and gathered the rest logs all of its lines. */
  lemma FlushFinishes(w: Stream, text: string)
    requires w.log == AtLevel(LevelOf(w.error), EndedLines(text))
    requires |text| == 0 ==> w.builder.None? && EndedLines(text) == []
    requires |text| > 0 && text[|text| - 1] == '\n' ==> w.builder.None?
    requires |text| > 0 && text[|text| - 1] != '\n' ==> w.builder == Some(Unended(text))
    ensures Flush(w).log == AtLevel(LevelOf(w.error), LoggedLines(text))
  {
    var level := LevelOf(w.error);
    if |text| > 0 && text[|text| - 1] != '\n' {
      AtLevelAppend(level, EndedLines(text), [Unended(text)]);
    }
  }

  /**
   * Writing a text to a fresh stream and flushing it logs the text's lines
   * in order, at the stream's level, whether or not the text ends with a
   * newline.
   */
  lemma LogsTextLines(error: bool, text: string)
    requires forall i :: 0 <= i < |text| ==> text[i] as int < 256
    ensures Flush(WriteAll(Fresh(error), Bytes(text))).log == AtLevel(LevelOf(error), LoggedLines(text))
  {
    var bytes := Bytes(text);
    WriteAllLines(Fresh(error), bytes);
    var w := WriteAll(Fresh(error), bytes);
    assert GetOr(Fresh(error).builder, "") + Chars(bytes) == text;
    if |text| == 0 {
      SplitNoSep("", '\n');
    } else {
      CharsLast(bytes);
    }
    FlushFinishes(w, text);
  }

  /**
   * Lines without newlines, each followed by a newline, are logged as
   * exactly those lines.
   */
  lemma LogsEachLine(error: bool, lines: seq<string>)
    requires forall i :: 0 <= i < |lines| ==> '\n' !in lines[i]
    requires forall i, j :: 0 <= i < |lines| && 0 <= j < |lines[i]| ==> lines[i][j] as int < 256
    ensures var text := Join(lines + [""], '\n');
      && (forall i :: 0 <= i < |text| ==> text[i] as int < 256)
      && Flush(WriteAll(Fresh(error), Bytes(text))).log == AtLevel(LevelOf(error), lines)
  {
    var parts := lines + [""];
    var text := Join(parts, '\n');
    JoinSmallChars(parts);
    SplitJoin(parts, '\n');
    LogsTextLines(error, text);
    if |lines| > 0 {
      JoinEndsWithSep(lines);
      assert EndedLines(text) == lines;
    } else {
      assert text == "";
    }
  }

  /** Joining pieces of byte-sized characters with a newline gives a text of byte-sized characters. */
  lemma {:induction false} JoinSmallChars(parts: seq<string>)
    requires forall i, j :: 0 <= i < |parts| && 0 <= j < |parts[i]| ==> parts[i][j] as int < 256
    ensures forall k :: 0 <= k < |Join(parts, '\n')| ==> Join(parts, '\n')[k] as int < 256
  {
    if |parts| > 1 {
      JoinSmallChars(parts[1..]);
      var tail := Join(parts[1..], '\n');
      var j := Join(parts, '\n');
      assert j == parts[0] + ['\n'] + tail;
      forall k | 0 <= k < |j| ensures j[k] as int < 256 {
        if k < |parts[0]| {
          assert j[k] == parts[0][k];
        } else if k > |parts[0]| {
          assert j[k] == tail[k - |parts[0]| - 1];
        }
      }
    }
  }

  /** Non-empty `lines` joined with an empty last piece end with the separator. */
  lemma {:induction false} JoinEndsWithSep(lines: seq<string>)
    requires |lines| > 0
    ensures var t := Join(lines + [""], '\n'); |t| > 0 && t[|t| - 1] == '\n'
  {
    var parts := lines + [""];
    if |lines| == 1 {
      assert Join(parts, '\n') == lines[0] + ['\n'] + Join([""], '\n');
    } else {
      assert parts[1..] == lines[1..] + [""];
      JoinEndsWithSep(lines[1..]);
    }
  }

  /** Flushing twice logs nothing more than flushing once. */
  lemma FlushIdempotent(s: Stream)
    ensures Flush(Flush(s)) == Flush(s)
  {
  }

  /** Two newlines in a row log an empty line between them. */
  lemma BlankLineLogged(s: Stream)
    ensures WriteAll(s, [10, 10]).log == Flush(Write(s, 10)).log + [LogLine(LevelOf(s.error), "")]
  {
    assert ByteChar(10) == '\n';
    var s1 := Write(s, 10);
    assert WriteAll(s, [10, 10]) == WriteAll(s1, [10]);
    assert WriteAll(s1, [10]) == Write(s1, 10);
  }

  /** The high bits of a written value are ignored: -1 and 255 are the same byte. */
  lemma LowByteOnly(s: Stream, b: int)
    ensures Write(s, b) == Write(s, b + 256) && Write(s, b) == Write(s, b - 256)
  {
    assert (b + 256) % 256 == b % 256;
    assert (b - 256) % 256 == b % 256;
  }

  /** The texts of logged lines, without their levels. */
  function Texts(log: seq<LogLine>): (r: seq<string>)
    ensures |r| == |log|
    ensures forall i :: 0 <= i < |log| ==> r[i] == log[i].text
  {
    seq(|log|, i requires 0 <= i < |log| => log[i].text)
  }

  lemma TextsAtLevel(level: Level, lines: seq<string>)
    ensures Texts(AtLevel(level, lines)) == lines
  {
  }

  /** A joined text ends with its last piece. */
  lemma {:induction false} JoinEndsWithLast(parts: seq<string>, sep: char)
    requires |parts| >= 1
    ensures EndsWith(Join(parts, sep), parts[|parts| - 1])
    decreases |parts|
  {
    if |parts| > 1 {
      JoinEndsWithLast(parts[1..], sep);
      var tail := Join(parts[1..], sep);
      var whole := Join(parts, sep);
      var last := parts[|parts| - 1];
      assert whole == parts[0] + [sep] + tail;
      assert whole[|whole| - |last|..] == tail[|tail| - |last|..];
    }
  }

  /** Nothing is left unended after a final newline. */
  lemma NewlineEndsEmpty(text: string)
    requires |text| > 0 && text[|text| - 1] == '\n'
    ensures Unended(text) == ""
  {
    var pieces := Split(text, '\n');
    var last := pieces[|pieces| - 1];
    JoinSplit(text, '\n');
    JoinEndsWithLast(pieces, '\n');
  }

  /**
   * Nothing written is lost: the lines a fresh stream has logged, and the
   * line it still gathers, joined with newlines give back the written text.
   */
  lemma LogRoundTrip(error: bool, bytes: seq<int>)
    ensures var w := WriteAll(Fresh(error), bytes);
      Join(Texts(w.log) + [GetOr(w.builder, "")], '\n') == Chars(bytes)
  {
    var w := WriteAll(Fresh(error), bytes);
    var text := Chars(bytes);
    WriteAllLines(Fresh(error), bytes);
    assert "" + text == text;
    assert w.log == AtLevel(LevelOf(error), EndedLines(text));
    TextsAtLevel(LevelOf(error), EndedLines(text));
    if |bytes| == 0 {
      assert text == "";
    } else if ByteChar(bytes[|bytes| - 1]) == '\n' {
      CharsLast(bytes);
      NewlineEndsEmpty(text);
    }
    assert GetOr(w.builder, "") == Unended(text);
    var pieces := Split(text, '\n');
    assert EndedLines(text) + [Unended(text)] == pieces;
    JoinSplit(text, '\n');
  }
}
