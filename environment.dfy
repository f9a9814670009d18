/**
 * environment.go: the "Env" menu item, which shows the .env file in the
 * output panel with colour tags - comments dark grey, keys yellow.
 */
module Environment {
  import opened Wrappers
  import opened Strings
  import Io

  const Header := "Showing the contents of the .env file...\n\n"

  /**
   * The text written for one raw line of the file, or None for a line that is
   * blank after trimming.
   */
  function FormatLine(raw: string): Option<string> {
    var line := TrimSpace(raw);
    if line == [] then None else Some(FormatEntry(line))
  }

  /**
   * The text written for a trimmed, non-blank line. A line starting with '#'
   * is a comment; any other line with an '=' is split at its first '=' into a
   * key and a value, each trimmed again; a line without '=' is echoed.
   */
  function FormatEntry(line: string): string {
    if HasPrefix(line, "#") then "[darkgray]" + line + "[white]\n"
    else
      var parts := SplitTwo(line, '=');
      if |parts| == 2 then "[yellow]" + TrimSpace(parts[0]) + "[white]=[white]" + TrimSpace(parts[1]) + "\n"
      else line + "\n"
  }

  /** The lines that produce output: those that are not blank after trimming. */
  function NonBlank(lines: seq<string>): seq<string> {
    if lines == [] then []
    else NonBlank(lines[..|lines| - 1]) + (if AllSpace(lines[|lines| - 1]) then [] else [lines[|lines| - 1]])
  }

  /** The writes the loop makes for the given lines, in order. */
  function FormatLines(lines: seq<string>): seq<string> {
    if lines == [] then []
    else
      FormatLines(lines[..|lines| - 1])
      + (match FormatLine(lines[|lines| - 1]) case Some(w) => [w] case None => [])
  }

  /** Everything handleEnv writes into the cleared output panel, given the outcome of reading .env. */
  function EnvWrites(file: Result<string, string>): seq<string> {
    match file
    case Failure(err) => [Header, "[red]Error reading .env file: " + err + "\n"]
    case Success(contents) => [Header] + FormatLines(Split(contents, '\n'))
  }

  /** handleEnv: clears the output panel and writes the header and the formatted lines of .env. */
  method HandleEnv(output: Io.Buffer, file: Result<string, string>)
    modifies output
    ensures output.chunks == EnvWrites(file)
    ensures output.row == old(output.row)
  {
    output.Clear();
    output.Write(Header);
    if file.Failure? {
      output.Write("[red]Error reading .env file: " + file.error + "\n");
      return;
    }
    WriteLines(output, Split(file.value, '\n'));
  }

  /** The loop of handleEnv: each line's formatting, blank lines skipped. */
  method WriteLines(output: Io.Buffer, lines: seq<string>)
    modifies output
    ensures output.chunks == old(output.chunks) + FormatLines(lines)
    ensures output.row == old(output.row)
  {
    for i := 0 to |lines|
      invariant output.chunks == old(output.chunks) + FormatLines(lines[..i])
      invariant output.row == old(output.row)
    {
      assert lines[..i + 1][..i] == lines[..i];
      var formatted := FormatLine(lines[i]);
      if formatted.None? {
        continue;
      }
      output.Write(formatted.value);
    }
    assert lines[..|lines|] == lines;
  }

  /** A line produces no output exactly when it is white space only. */
  lemma BlankLineDropped(raw: string)
    ensures FormatLine(raw).None? <==> AllSpace(raw)
  {
    TrimSpaceEmpty(raw);
  }

  /**
   * A line that trims to '#' plus some text is written verbatim in dark grey,
   * whatever the text holds ('=' included).
   */
  lemma CommentKeptVerbatim(pre: string, text: string, suf: string)
    requires AllSpace(pre) && AllSpace(suf) && Trimmed("#" + text)
    ensures FormatLine(pre + "#" + text + suf) == Some("[darkgray]#" + text + "[white]\n")
  {
    var line := "#" + text;
    assert pre + "#" + text + suf == pre + line + suf;
    TrimSpaceOf(pre, line, suf);
    assert HasPrefix(line, "#");
    assert "[darkgray]" + line + "[white]\n" == "[darkgray]#" + text + "[white]\n";
  }

  /**
   * A non-comment line is split at its FIRST '=': the value keeps any later
   * '=', and both sides are trimmed.
   */
  lemma PairSplitAtFirstEquals(pre: string, key: string, value: string, suf: string)
    requires AllSpace(pre) && AllSpace(suf)
    requires Trimmed(key + "=" + value)
    requires '=' !in key
    requires key == [] || key[0] != '#'
    ensures FormatLine(pre + key + "=" + value + suf)
         == Some("[yellow]" + TrimSpace(key) + "[white]=[white]" + TrimSpace(value) + "\n")
  {
    var line := key + "=" + value;
    assert pre + key + "=" + value + suf == pre + line + suf;
    TrimSpaceOf(pre, line, suf);
    assert line[0] == (if key == [] then '=' else key[0]);
    assert !HasPrefix(line, "#");
    SplitTwoAt(key, value, '=');
  }

  /** A non-comment line without '=' is written as the trimmed line. */
  lemma PlainLineEchoed(pre: string, text: string, suf: string)
    requires AllSpace(pre) && AllSpace(suf)
    requires text != [] && Trimmed(text) && text[0] != '#' && '=' !in text
    ensures FormatLine(pre + text + suf) == Some(text + "\n")
  {
    TrimSpaceOf(pre, text, suf);
    assert !HasPrefix(text, "#");
  }

  /** A line without a newline in it becomes exactly one line of output. */
  lemma FormattedIsOneLine(raw: string)
    requires '\n' !in raw
    requires FormatLine(raw).Some?
    ensures var w := FormatLine(raw).value; |w| >= 1 && w[|w| - 1] == '\n' && '\n' !in w[..|w| - 1]
  {
    var line := TrimSpace(raw);
    if '\n' in line { TrimSpaceChars(raw, '\n'); }
    EntryIsOneLine(line);
  }

  lemma NoNewlineConcat(a: string, b: string)
    requires '\n' !in a && '\n' !in b
    ensures '\n' !in a + b
  {
  }

  lemma EntryIsOneLine(line: string)
    requires '\n' !in line
    ensures var w := FormatEntry(line); |w| >= 1 && w[|w| - 1] == '\n' && '\n' !in w[..|w| - 1]
  {
    var w := FormatEntry(line);
    if HasPrefix(line, "#") {
      assert w[..|w| - 1] == "[darkgray]" + line + "[white]";
      assert '\n' !in "[darkgray]" && '\n' !in "[white]";
      NoNewlineConcat("[darkgray]", line);
      NoNewlineConcat("[darkgray]" + line, "[white]");
    } else {
      var parts := SplitTwo(line, '=');
      if |parts| == 2 {
        var k, v := TrimSpace(parts[0]), TrimSpace(parts[1]);
        assert line == parts[0] + ['='] + parts[1];
        assert '\n' !in parts[0] && '\n' !in parts[1];
        if '\n' in k { TrimSpaceChars(parts[0], '\n'); }
        if '\n' in v { TrimSpaceChars(parts[1], '\n'); }
        assert w[..|w| - 1] == "[yellow]" + k + "[white]=[white]" + v;
        assert '\n' !in "[yellow]" && '\n' !in "[white]=[white]";
        NoNewlineConcat("[yellow]", k);
        NoNewlineConcat("[yellow]" + k, "[white]=[white]");
        NoNewlineConcat("[yellow]" + k + "[white]=[white]", v);
      } else {
        assert w[..|w| - 1] == line;
      }
    }
  }

  /**
   * The loop writes one chunk per non-blank line, in the order of the lines,
   * each the formatting of that line.
   */
  lemma {:induction false} FormatLinesFollowNonBlank(lines: seq<string>)
    ensures |FormatLines(lines)| == |NonBlank(lines)|
    ensures forall k :: 0 <= k < |NonBlank(lines)| ==>
              FormatLine(NonBlank(lines)[k]).Some? && FormatLines(lines)[k] == FormatLine(NonBlank(lines)[k]).value
  {
    if lines != [] {
      var init := lines[..|lines| - 1];
      FormatLinesFollowNonBlank(init);
      BlankLineDropped(lines[|lines| - 1]);
    }
  }

  /**
   * The panel after a successful read: the header, then exactly one line of
   * output per non-blank line of the file, in file order.
   */
  lemma EnvReport(contents: string)
    ensures var w := EnvWrites(Success(contents)); var nb := NonBlank(Split(contents, '\n'));
      && w[0] == Header
      && |w| == 1 + |nb|
      && forall k :: 0 <= k < |nb| ==>
           && FormatLine(nb[k]).Some? && w[1 + k] == FormatLine(nb[k]).value
           && w[1 + k][|w[1 + k]| - 1] == '\n' && '\n' !in w[1 + k][..|w[1 + k]| - 1]
  {
    var lines := Split(contents, '\n');
    var nb := NonBlank(lines);
    var w := EnvWrites(Success(contents));
    assert w == [Header] + FormatLines(lines);
    FormatLinesFollowNonBlank(lines);
    forall k | 0 <= k < |nb|
      ensures FormatLine(nb[k]).Some? && w[1 + k] == FormatLine(nb[k]).value
      ensures w[1 + k][|w[1 + k]| - 1] == '\n' && '\n' !in w[1 + k][..|w[1 + k]| - 1]
    {
      NonBlankWritesOneLine(lines, k);
    }
  }

  /** Among newline-free lines, each kept line is formatted as exactly one line of output. */
  lemma NonBlankWritesOneLine(lines: seq<string>, k: nat)
    requires forall i :: 0 <= i < |lines| ==> '\n' !in lines[i]
    requires k < |NonBlank(lines)|
    ensures FormatLine(NonBlank(lines)[k]).Some?
    ensures var w := FormatLine(NonBlank(lines)[k]).value; |w| >= 1 && w[|w| - 1] == '\n' && '\n' !in w[..|w| - 1]
  {
    var line := NonBlank(lines)[k];
    NonBlankFrom(lines);
    BlankLineDropped(line);
    FormattedIsOneLine(line);
  }

  /** Filtering distributes over concatenation: kept lines stay in file order, one per non-blank line. */
  lemma {:induction false} NonBlankAppend(a: seq<string>, b: seq<string>)
    ensures NonBlank(a + b) == NonBlank(a) + NonBlank(b)
    decreases |b|
  {
    if b == [] {
      assert a + b == a;
    } else {
      var init := b[..|b| - 1];
      NonBlankAppend(a, init);
      assert (a + b)[..|a + b| - 1] == a + init;
      assert (a + b)[|a + b| - 1] == b[|b| - 1];
    }
  }

  /** Each line that is formatted is a non-blank line of the file. */
  lemma {:induction false} NonBlankFrom(lines: seq<string>)
    ensures forall k :: 0 <= k < |NonBlank(lines)| ==> NonBlank(lines)[k] in lines && !AllSpace(NonBlank(lines)[k])
  {
    if lines != [] {
      NonBlankFrom(lines[..|lines| - 1]);
    }
  }

  /** Every non-blank line of the file is formatted: with NonBlankFrom, the kept lines are exactly the non-blank ones. */
  lemma {:induction false} NonBlankKeeps(lines: seq<string>)
    ensures forall i :: 0 <= i < |lines| && !AllSpace(lines[i]) ==> lines[i] in NonBlank(lines)
  {
    if lines != [] {
      var init := lines[..|lines| - 1];
      NonBlankKeeps(init);
      assert forall i :: 0 <= i < |init| ==> init[i] == lines[i];
    }
  }
}
