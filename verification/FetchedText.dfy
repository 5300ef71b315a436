/**
 The text normalisers applied to fetched content before it is shown to the model:
 line normalisation, removal of terminal escape sequences, removal of HTML blocks.
 */
module FetchedText {
  import opened Text

  // ----- Lines and words -----------------------------------------------------------------

  const LF := '\n'
  const CR := '\r'
  const SPACE := ' '

  function StripCr(line: string): string {
    if line != [] && line[|line| - 1] == CR then line[..|line| - 1] else line
  }

  function StripCrs(lines: seq<string>): (r: seq<string>)
    ensures |r| == |lines|
    ensures forall i | 0 <= i < |r| :: r[i] == StripCr(lines[i])
  {
    if lines == [] then [] else [StripCr(lines[0])] + StripCrs(lines[1..])
  }

  /** The lines of a text: terminated by LF or CR LF, no empty line after a final terminator. */
  function Lines(s: string): seq<string> {
    var pieces := Split(s, LF);
    var last := pieces[|pieces| - 1];
    StripCrs(pieces[..|pieces| - 1]) + if last == "" then [] else [last]
  }

  function WordLength(s: string): (n: nat)
    ensures n <= |s|
    ensures forall i | 0 <= i < n :: !IsWhitespace(s[i])
    ensures n == |s| || IsWhitespace(s[n])
  {
    if s == [] || IsWhitespace(s[0]) then 0 else 1 + WordLength(s[1..])
  }

  /** The maximal runs of characters that are not whitespace. */
  function Words(s: string): seq<string> {
    if s == [] then []
    else if IsWhitespace(s[0]) then Words(s[1..])
    else [s[..WordLength(s)]] + Words(s[WordLength(s)..])
  }

  predicate IsWord(w: string) {
    w != [] && forall c | c in w :: !IsWhitespace(c)
  }

  predicate AllWords(words: seq<string>) {
    forall w | w in words :: IsWord(w)
  }

  /** One line with every run of whitespace made a single space and none at the ends. */
  function Collapse(line: string): string {
    Trim(Join(Words(line), SPACE))
  }

  lemma {:induction false} WordsAreWords(s: string)
    ensures AllWords(Words(s))
  {
    if s != [] {
      if IsWhitespace(s[0]) {
        WordsAreWords(s[1..]);
      } else {
        var n := WordLength(s);
        forall c | c in s[..n] ensures !IsWhitespace(c) {
          var i :| 0 <= i < n && s[..n][i] == c;
          assert s[i] == c;
        }
        WordsAreWords(s[n..]);
      }
    }
  }

  lemma {:induction false} WordsOfWordThenSpace(w: string, rest: string)
    requires IsWord(w)
    requires rest == [] || IsWhitespace(rest[0])
    ensures Words(w + rest) == [w] + Words(rest)
  {
    var s := w + rest;
    assert s[0] == w[0] && s[0] in w;
    WordLengthOfPrefix(w, rest);
    assert s[..|w|] == w && s[|w|..] == rest;
  }

  lemma {:induction false} WordLengthOfPrefix(w: string, rest: string)
    requires forall c | c in w :: !IsWhitespace(c)
    requires rest == [] || IsWhitespace(rest[0])
    ensures WordLength(w + rest) == |w|
  {
    if w == [] {
      assert w + rest == rest;
    } else {
      assert w[0] in w && (w + rest)[0] == w[0];
      assert (w + rest)[1..] == w[1..] + rest;
      WordLengthOfPrefix(w[1..], rest);
    }
  }

  lemma {:induction false} WordsOfJoin(words: seq<string>)
    requires AllWords(words)
    ensures Words(Join(words, SPACE)) == words
  {
    if |words| == 1 {
      assert words[0] + [] == words[0];
      WordsOfWordThenSpace(words[0], []);
    } else if words != [] {
      var tail := Join(words[1..], SPACE);
      WordsOfJoin(words[1..]);
      assert words[0] + [SPACE] + tail == words[0] + ([SPACE] + tail);
      WordsOfWordThenSpace(words[0], [SPACE] + tail);
      assert ([SPACE] + tail)[1..] == tail;
    }
  }

  lemma {:induction false} JoinedWordsAreTidy(words: seq<string>)
    requires AllWords(words)
    ensures IsTrimmed(Join(words, SPACE))
    ensures Join(words, SPACE) == "" <==> words == []
    ensures forall c | c in Join(words, SPACE) :: c == SPACE || !IsWhitespace(c)
  {
    if words != [] {
      assert words[0] in words;
      if |words| > 1 {
        JoinedWordsAreTidy(words[1..]);
      }
    }
  }

  /** A line that collapsing leaves alone and that holds something. */
  predicate IsTidy(line: string) {
    line != "" && Collapse(line) == line
  }

  lemma {:induction false} CollapseIsTidy(line: string)
    ensures Collapse(line) == "" || IsTidy(Collapse(line))
    ensures Collapse(line) == Join(Words(line), SPACE)
    ensures IsTrimmed(Collapse(line))
    ensures forall c | c in Collapse(line) :: c == SPACE || !IsWhitespace(c)
  {
    WordsAreWords(line);
    JoinedWordsAreTidy(Words(line));
    TrimIsIdempotent(Join(Words(line), SPACE));
    WordsOfJoin(Words(line));
  }

  // ----- Line normalisation ----------------------------------------------------------------

  /** What the line loop leaves in its buffer, from a given buffer and flag onwards. */
  function Gather(lines: seq<string>, keepBlanks: bool, buffer: seq<string>, previousBlank: bool): seq<string>
    decreases |lines|
  {
    if lines == [] then buffer
    else
      var line := Collapse(lines[0]);
      if line == "" then
        var pushed := keepBlanks && !previousBlank && buffer != [];
        Gather(lines[1..], keepBlanks, if pushed then buffer + [""] else buffer, true)
      else
        Gather(lines[1..], keepBlanks, buffer + [line], false)
  }

  function Normalized(value: string, keepBlanks: bool): string {
    Trim(Join(Gather(Lines(value), keepBlanks, [], false), LF))
  }

  method NormalizeLines(value: string, keepBlanks: bool) returns (result: string)
    ensures result == Normalized(value, keepBlanks)
  {
    var lines := Lines(value);
    var normalized: seq<string> := [];
    var previousBlank := false;
    for i := 0 to |lines|
      invariant Gather(lines[i..], keepBlanks, normalized, previousBlank) == Gather(lines, keepBlanks, [], false)
    {
      assert lines[i..][0] == lines[i] && lines[i..][1..] == lines[i + 1..];
      var line := Collapse(lines[i]);
      if line == "" {
        if keepBlanks && !previousBlank && normalized != [] {
          normalized := normalized + [""];
        }
        previousBlank := true;
        continue;
      }
      normalized := normalized + [line];
      previousBlank := false;
    }
    result := Trim(Join(normalized, LF));
  }

  /** Tidy lines with at most one blank line between two of them, and none before the first. */
  predicate IsNormal(lines: seq<string>, keepBlanks: bool) {
    && (forall i | 0 <= i < |lines| :: lines[i] == "" || IsTidy(lines[i]))
    && (forall i | 0 < i < |lines| :: lines[i] != "" || lines[i - 1] != "")
    && (lines != [] ==> lines[0] != "")
    && (!keepBlanks ==> forall i | 0 <= i < |lines| :: lines[i] != "")
  }

  predicate EndsTidy(lines: seq<string>) {
    lines != [] ==> lines[|lines| - 1] != ""
  }

  /** The lines that hold something, tidied. */
  function Content(lines: seq<string>): seq<string> {
    if lines == [] then []
    else (if Collapse(lines[0]) == "" then [] else [Collapse(lines[0])]) + Content(lines[1..])
  }

  lemma {:induction false} ContentOfAppend(lines: seq<string>, line: string)
    ensures Content(lines + [line]) == Content(lines) + if Collapse(line) == "" then [] else [Collapse(line)]
  {
    if lines == [] {
      assert lines + [line] == [line] && [line][1..] == [];
    } else {
      assert (lines + [line])[1..] == lines[1..] + [line];
      ContentOfAppend(lines[1..], line);
    }
  }

  lemma {:induction false} AppendKeepsNormal(buffer: seq<string>, keepBlanks: bool, line: string)
    requires IsNormal(buffer, keepBlanks)
    requires if line == "" then keepBlanks && buffer != [] && EndsTidy(buffer) else IsTidy(line)
    ensures IsNormal(buffer + [line], keepBlanks)
  {
    var all := buffer + [line];
    forall i | 0 < i < |all| ensures all[i] != "" || all[i - 1] != "" {
      assert i < |buffer| ==> all[i] == buffer[i] && all[i - 1] == buffer[i - 1];
    }
  }

  lemma {:induction false} GatherShape(lines: seq<string>, keepBlanks: bool, buffer: seq<string>, previousBlank: bool)
    requires IsNormal(buffer, keepBlanks)
    requires !previousBlank ==> EndsTidy(buffer)
    ensures IsNormal(Gather(lines, keepBlanks, buffer, previousBlank), keepBlanks)
    decreases |lines|
  {
    if lines != [] {
      var line := Collapse(lines[0]);
      if line == "" {
        if keepBlanks && !previousBlank && buffer != [] {
          AppendKeepsNormal(buffer, keepBlanks, "");
          GatherShape(lines[1..], keepBlanks, buffer + [""], true);
        } else {
          GatherShape(lines[1..], keepBlanks, buffer, true);
        }
      } else {
        CollapseIsTidy(lines[0]);
        AppendKeepsNormal(buffer, keepBlanks, line);
        GatherShape(lines[1..], keepBlanks, buffer + [line], false);
      }
    }
  }

  lemma {:induction false} GatherContent(lines: seq<string>, keepBlanks: bool, buffer: seq<string>, previousBlank: bool)
    ensures Content(Gather(lines, keepBlanks, buffer, previousBlank)) == Content(buffer) + Content(lines)
    decreases |lines|
  {
    if lines == [] {
      assert Content(buffer) + [] == Content(buffer);
    } else {
      var line := Collapse(lines[0]);
      var rest := lines[1..];
      var before, after := Content(buffer), Content(rest);
      if line == "" {
        ContentOfBlankAppend(buffer);
        var next := if keepBlanks && !previousBlank && buffer != [] then buffer + [""] else buffer;
        GatherContent(rest, keepBlanks, next, true);
        ConcatWithEmpty(after);
      } else {
        ContentOfTidyAppend(buffer, lines[0]);
        GatherContent(rest, keepBlanks, buffer + [line], false);
        ConcatIsAssociative(before, [line], after);
      }
    }
  }

  lemma {:induction false} ContentOfBlankAppend(buffer: seq<string>)
    ensures Content(buffer + [""]) == Content(buffer)
  {
    ContentOfAppend(buffer, "");
    assert Collapse("") == "";
    assert Content(buffer) + [] == Content(buffer);
  }

  lemma {:induction false} ContentOfTidyAppend(buffer: seq<string>, line: string)
    requires Collapse(line) != ""
    ensures Content(buffer + [Collapse(line)]) == Content(buffer) + [Collapse(line)]
  {
    CollapseIsTidy(line);
    ContentOfAppend(buffer, Collapse(line));
  }

  /** The buffer without the blank line it may end with. */
  function DropLastBlank(lines: seq<string>): seq<string> {
    if lines != [] && lines[|lines| - 1] == "" then lines[..|lines| - 1] else lines
  }

  lemma {:induction false} JoinOfAppend(lines: seq<string>, last: string)
    requires lines != []
    ensures Join(lines + [last], LF) == Join(lines, LF) + [LF] + last
  {
    if |lines| == 1 {
      assert (lines + [last])[1..] == [last];
    } else {
      assert (lines + [last])[1..] == lines[1..] + [last];
      JoinOfAppend(lines[1..], last);
    }
  }

  lemma {:induction false} JoinOfNormalIsTrimmed(lines: seq<string>, keepBlanks: bool)
    requires IsNormal(lines, keepBlanks) && EndsTidy(lines)
    ensures IsTrimmed(Join(lines, LF))
  {
    if lines != [] {
      CollapseIsTidy(lines[0]);
      CollapseIsTidy(lines[|lines| - 1]);
      if |lines| > 1 {
        assert lines[..|lines| - 1] + [lines[|lines| - 1]] == lines;
        JoinOfAppend(lines[..|lines| - 1], lines[|lines| - 1]);
      }
    }
  }

  lemma {:induction false} TrimOfNormal(lines: seq<string>, keepBlanks: bool)
    requires IsNormal(lines, keepBlanks)
    ensures IsNormal(DropLastBlank(lines), keepBlanks) && EndsTidy(DropLastBlank(lines))
    ensures Trim(Join(lines, LF)) == Join(DropLastBlank(lines), LF)
    ensures Content(DropLastBlank(lines)) == Content(lines)
  {
    var kept := DropLastBlank(lines);
    if kept != lines {
      assert lines[|lines| - 1] == "";
      JoinOfNormalIsTrimmed(kept, keepBlanks);
      assert kept + [""] == lines;
      JoinOfAppend(kept, "");
      ContentOfAppend(kept, "");
      TrimOfTrailingLf(Join(kept, LF));
    } else {
      JoinOfNormalIsTrimmed(lines, keepBlanks);
      TrimIsIdempotent(Join(lines, LF));
    }
  }

  lemma {:induction false} TrimOfTrailingLf(s: string)
    requires s != [] && IsTrimmed(s)
    ensures Trim(s + [LF] + "") == s
  {
    var t := s + [LF] + "";
    assert t[..|t| - 1] == s;
    assert t[0] == s[0] && TrimStart(t) == t;
    assert t[|t| - 1] == LF && IsWhitespace(LF);
    assert TrimEnd(s) == s;
  }

  lemma {:induction false} TidyLineHasNoTerminator(line: string)
    requires line == "" || IsTidy(line)
    ensures LF !in line && StripCr(line) == line
  {
    CollapseIsTidy(line);
    assert IsWhitespace(LF) && IsWhitespace(CR);
  }

  lemma {:induction false} StripCrsOfTerminatorFree(lines: seq<string>)
    requires forall i | 0 <= i < |lines| :: StripCr(lines[i]) == lines[i]
    ensures StripCrs(lines) == lines
  {
    if lines != [] {
      StripCrsOfTerminatorFree(lines[1..]);
    }
  }

  lemma {:induction false} LinesOfTerminatorFree(lines: seq<string>)
    requires lines != [] && lines[|lines| - 1] != ""
    requires forall i | 0 <= i < |lines| :: LF !in lines[i] && StripCr(lines[i]) == lines[i]
    ensures Lines(Join(lines, LF)) == lines
  {
    forall part | part in lines ensures LF !in part {
      var i :| 0 <= i < |lines| && lines[i] == part;
    }
    SplitOfJoin(lines, LF);
    StripCrsOfTerminatorFree(lines[..|lines| - 1]);
    InitAndLast(lines);
  }

  lemma {:induction false} LinesOfJoin(lines: seq<string>, keepBlanks: bool)
    requires IsNormal(lines, keepBlanks) && EndsTidy(lines)
    ensures Lines(Join(lines, LF)) == lines
  {
    if lines != [] {
      forall i | 0 <= i < |lines| ensures LF !in lines[i] && StripCr(lines[i]) == lines[i] {
        TidyLineHasNoTerminator(lines[i]);
      }
      LinesOfTerminatorFree(lines);
    }
  }

  lemma {:induction false} NextNormalLine(buffer: seq<string>, line: string, rest: seq<string>, keepBlanks: bool)
    requires IsNormal(buffer + ([line] + rest), keepBlanks)
    ensures Collapse(line) == line
    ensures line == "" ==> keepBlanks && buffer != [] && EndsTidy(buffer)
  {
    var all := buffer + ([line] + rest);
    assert all[|buffer|] == line;
    assert buffer != [] ==> all[|buffer| - 1] == buffer[|buffer| - 1];
    assert Collapse("") == "";
  }

  lemma {:induction false} GatherOfNormal(lines: seq<string>, keepBlanks: bool, buffer: seq<string>, previousBlank: bool)
    requires IsNormal(buffer + lines, keepBlanks)
    requires previousBlank <==> !EndsTidy(buffer)
    ensures Gather(lines, keepBlanks, buffer, previousBlank) == buffer + lines
    decreases |lines|
  {
    if lines != [] {
      var line, rest := lines[0], lines[1..];
      assert lines == [line] + rest;
      NextNormalLine(buffer, line, rest, keepBlanks);
      ConcatIsAssociative(buffer, [line], rest);
      GatherOfNormal(rest, keepBlanks, buffer + [line], line == "");
    } else {
      ConcatWithEmpty(buffer);
    }
  }

  /** The lines of the result: their shape, and that no content is lost, added or moved. */
  lemma {:induction false} NormalizedLines(value: string, keepBlanks: bool)
    ensures IsNormal(Lines(Normalized(value, keepBlanks)), keepBlanks)
    ensures EndsTidy(Lines(Normalized(value, keepBlanks)))
    ensures Content(Lines(Normalized(value, keepBlanks))) == Content(Lines(value))
    ensures Normalized(value, keepBlanks) == Join(Lines(Normalized(value, keepBlanks)), LF)
  {
    var gathered := Gather(Lines(value), keepBlanks, [], false);
    GatherShape(Lines(value), keepBlanks, [], false);
    GatherContent(Lines(value), keepBlanks, [], false);
    assert Content([]) + Content(Lines(value)) == Content(Lines(value));
    TrimOfNormal(gathered, keepBlanks);
    LinesOfJoin(DropLastBlank(gathered), keepBlanks);
  }

  lemma {:induction false} NormalizingTwiceChangesNothing(value: string, keepBlanks: bool)
    ensures Normalized(Normalized(value, keepBlanks), keepBlanks) == Normalized(value, keepBlanks)
  {
    NormalizedLines(value, keepBlanks);
    var lines := Lines(Normalized(value, keepBlanks));
    assert [] + lines == lines;
    GatherOfNormal(lines, keepBlanks, [], false);
    JoinOfNormalIsTrimmed(lines, keepBlanks);
    TrimIsIdempotent(Join(lines, LF));
  }

  /** At the beginning, or after a line that holds nothing. */
  predicate IsBreak(lines: seq<string>) {
    lines == [] || Collapse(lines[|lines| - 1]) == ""
  }

  /** The last line of the last paragraph, or the first of a new one. */
  function WithLine(paragraphs: seq<seq<string>>, isBreak: bool, line: string): seq<seq<string>> {
    if isBreak || paragraphs == [] then paragraphs + [[line]]
    else paragraphs[|paragraphs| - 1 := paragraphs[|paragraphs| - 1] + [line]]
  }

  /** The lines that hold something, tidied, as blank lines part them. */
  function Paragraphs(lines: seq<string>): seq<seq<string>> {
    if lines == [] then []
    else
      var before, line := lines[..|lines| - 1], Collapse(lines[|lines| - 1]);
      if line == "" then Paragraphs(before) else WithLine(Paragraphs(before), IsBreak(before), line)
  }

  lemma {:induction false} ParagraphsOfAppend(lines: seq<string>, line: string)
    ensures Paragraphs(lines + [line])
         == if Collapse(line) == "" then Paragraphs(lines) else WithLine(Paragraphs(lines), IsBreak(lines), Collapse(line))
    ensures IsBreak(lines + [line]) <==> Collapse(line) == ""
  {
    assert (lines + [line])[..|lines|] == lines;
  }

  lemma {:induction false} CollapsingTwice(line: string)
    ensures Collapse(Collapse(line)) == Collapse(line)
    ensures Collapse("") == ""
  {
    CollapseIsTidy(line);
  }

  lemma {:induction false} GatherKeepsParagraphs(before: seq<string>, lines: seq<string>, buffer: seq<string>, previousBlank: bool)
    requires Paragraphs(buffer) == Paragraphs(before) && (IsBreak(buffer) <==> IsBreak(before))
    requires previousBlank ==> IsBreak(buffer)
    ensures Paragraphs(Gather(lines, true, buffer, previousBlank)) == Paragraphs(before + lines)
    decreases |lines|
  {
    if lines == [] {
      assert before + lines == before;
    } else {
      var line, rest := lines[0], lines[1..];
      var collapsed := Collapse(line);
      ConcatIsAssociative(before, [line], rest);
      assert [line] + rest == lines;
      ParagraphsOfAppend(before, line);
      CollapsingTwice(line);
      if collapsed == "" {
        ParagraphsOfAppend(buffer, "");
        var next := if !previousBlank && buffer != [] then buffer + [""] else buffer;
        GatherKeepsParagraphs(before + [line], rest, next, true);
      } else {
        ParagraphsOfAppend(buffer, collapsed);
        GatherKeepsParagraphs(before + [line], rest, buffer + [collapsed], false);
      }
    }
  }

  lemma {:induction false} GatheredParagraphs(lines: seq<string>, empty: seq<string>)
    requires empty == []
    ensures Paragraphs(Gather(lines, true, empty, false)) == Paragraphs(lines)
  {
    GatherKeepsParagraphs(empty, lines, empty, false);
    ConcatWithEmpty(lines);
  }

  lemma {:induction false} DroppingKeepsParagraphs(lines: seq<string>)
    ensures Paragraphs(DropLastBlank(lines)) == Paragraphs(lines)
  {
    var kept := DropLastBlank(lines);
    if kept != lines {
      InitAndLast(lines);
      ParagraphsOfAppend(kept, lines[|lines| - 1]);
      CollapsingTwice("");
    }
  }

  lemma {:induction false} LinesOfResult(value: string, keepBlanks: bool, empty: seq<string>)
    requires empty == []
    ensures Lines(Normalized(value, keepBlanks)) == DropLastBlank(Gather(Lines(value), keepBlanks, empty, false))
  {
    GatherShape(Lines(value), keepBlanks, empty, false);
    TrimOfNormal(Gather(Lines(value), keepBlanks, empty, false), keepBlanks);
    LinesOfJoin(DropLastBlank(Gather(Lines(value), keepBlanks, empty, false)), keepBlanks);
  }

  /** Where blank lines are kept, the result has the paragraphs of the input. */
  lemma {:induction false} NormalizingKeepsParagraphs(value: string)
    ensures Paragraphs(Lines(Normalized(value, true))) == Paragraphs(Lines(value))
  {
    var empty: seq<string> := [];
    LinesOfResult(value, true, empty);
    GatheredParagraphs(Lines(value), empty);
    DroppingKeepsParagraphs(Gather(Lines(value), true, empty, false));
  }

  // ----- Terminal escape sequences ---------------------------------------------------------

  const ESC := '\U{1b}'
  const BEL := '\U{7}'
  const BACKSLASH := '\\'

  predicate IsCsiFinal(c: char) {
    '@' <= c <= '~'
  }

  /** How many characters follow `ESC [` up to and including the final one. */
  function CsiLength(s: string): (n: nat)
    ensures n <= |s|
  {
    if s == [] then 0 else if IsCsiFinal(s[0]) then 1 else 1 + CsiLength(s[1..])
  }

  /** How many characters follow `ESC ]` up to and including BEL or `ESC \`. */
  function OscLength(s: string, previousWasEscape: bool): (n: nat)
    ensures n <= |s|
  {
    if s == [] then 0
    else if previousWasEscape && s[0] == BACKSLASH then 1
    else if s[0] == BEL then 1
    else 1 + OscLength(s[1..], s[0] == ESC)
  }

  function Stripped(s: string): string {
    if s == [] then []
    else if s[0] != ESC then [s[0]] + Stripped(s[1..])
    else if |s| > 1 && s[1] == '[' then Stripped(s[2..][CsiLength(s[2..])..])
    else if |s| > 1 && s[1] == ']' then Stripped(s[2..][OscLength(s[2..], false)..])
    else Stripped(s[1..])
  }

  method SkipCsi(value: string, start: nat) returns (cursor: nat)
    requires start <= |value|
    ensures cursor == start + CsiLength(value[start..])
  {
    cursor := start;
    while cursor < |value|
      invariant start <= cursor <= |value|
      invariant cursor + CsiLength(value[cursor..]) == start + CsiLength(value[start..])
    {
      var next := value[cursor];
      assert value[cursor..][1..] == value[cursor + 1..];
      cursor := cursor + 1;
      if IsCsiFinal(next) {
        return;
      }
    }
  }

  method SkipOsc(value: string, start: nat) returns (cursor: nat)
    requires start <= |value|
    ensures cursor == start + OscLength(value[start..], false)
  {
    cursor := start;
    var previousWasEscape := false;
    while cursor < |value|
      invariant start <= cursor <= |value|
      invariant cursor + OscLength(value[cursor..], previousWasEscape) == start + OscLength(value[start..], false)
    {
      var next := value[cursor];
      assert value[cursor..][1..] == value[cursor + 1..];
      cursor := cursor + 1;
      if (previousWasEscape && next == BACKSLASH) || next == BEL {
        return;
      }
      previousWasEscape := next == ESC;
    }
  }

  method StripAnsiEscapeSequences(value: string) returns (output: string)
    ensures output == Stripped(value)
  {
    output := [];
    var cursor := 0;
    while cursor < |value|
      invariant cursor <= |value|
      invariant output + Stripped(value[cursor..]) == Stripped(value)
    {
      ghost var rest := value[cursor..];
      var character := value[cursor];
      cursor := cursor + 1;
      assert rest[1..] == value[cursor..];
      if character != ESC {
        assert output + ([character] + Stripped(rest[1..])) == (output + [character]) + Stripped(rest[1..]);
        output := output + [character];
      } else if cursor < |value| && value[cursor] == '[' {
        assert rest[2..] == value[cursor + 1..];
        ghost var n := CsiLength(rest[2..]);
        cursor := SkipCsi(value, cursor + 1);
        assert rest[2..][n..] == value[cursor..];
      } else if cursor < |value| && value[cursor] == ']' {
        assert rest[2..] == value[cursor + 1..];
        ghost var n := OscLength(rest[2..], false);
        cursor := SkipOsc(value, cursor + 1);
        assert rest[2..][n..] == value[cursor..];
      }
    }
  }

  predicate IsSubsequence(part: string, whole: string) {
    || part == []
    || (whole != [] && part[0] == whole[0] && IsSubsequence(part[1..], whole[1..]))
    || (whole != [] && IsSubsequence(part, whole[1..]))
  }

  lemma {:induction false} SubsequenceOfSuffix(part: string, whole: string, k: nat)
    requires k <= |whole| && IsSubsequence(part, whole[k..])
    ensures IsSubsequence(part, whole)
  {
    if k == 0 {
      assert whole[0..] == whole;
    } else {
      assert whole[1..][k - 1..] == whole[k..];
      SubsequenceOfSuffix(part, whole[1..], k - 1);
    }
  }

  lemma {:induction false} SubsequenceOfPrefixed(prefix: string, part: string, whole: string)
    requires IsSubsequence(part, whole)
    ensures IsSubsequence(prefix + part, prefix + whole)
  {
    if prefix == [] {
      assert prefix + part == part && prefix + whole == whole;
    } else {
      SubsequenceOfPrefixed(prefix[1..], part, whole);
      assert (prefix + part)[1..] == prefix[1..] + part && (prefix + whole)[1..] == prefix[1..] + whole;
    }
  }

  lemma {:induction false} StrippedIsEscapeFreeSubsequence(s: string)
    ensures ESC !in Stripped(s)
    ensures IsSubsequence(Stripped(s), s)
    decreases |s|
  {
    if s != [] {
      if s[0] != ESC {
        StrippedIsEscapeFreeSubsequence(s[1..]);
        assert Stripped(s)[1..] == Stripped(s[1..]);
      } else {
        var k := if |s| > 1 && s[1] == '[' then 2 + CsiLength(s[2..])
                 else if |s| > 1 && s[1] == ']' then 2 + OscLength(s[2..], false)
                 else 1;
        assert k >= 2 ==> s[2..][k - 2..] == s[k..];
        StrippedIsEscapeFreeSubsequence(s[k..]);
        SubsequenceOfSuffix(Stripped(s[k..]), s, k);
      }
    }
  }

  lemma {:induction false} StrippedAfterText(text: string, rest: string)
    requires ESC !in text
    ensures Stripped(text + rest) == text + Stripped(rest)
  {
    if text == [] {
      assert text + rest == rest;
    } else {
      assert (text + rest)[1..] == text[1..] + rest;
      StrippedAfterText(text[1..], rest);
    }
  }

  /** Exactly the texts without an escape character are left alone. */
  lemma {:induction false} StrippedUnchangedIffEscapeFree(s: string)
    ensures Stripped(s) == s <==> ESC !in s
    ensures Stripped(Stripped(s)) == Stripped(s)
  {
    StrippedIsEscapeFreeSubsequence(s);
    StrippedAfterText(Stripped(s), "");
    assert Stripped(s) + "" == Stripped(s);
    if ESC !in s {
      StrippedAfterText(s, "");
      assert s + "" == s;
    }
  }

  /** A piece of terminal output. */
  datatype Segment =
    | Plain(text: string)
    | Csi(parameters: string, final: char)
    | Osc(payload: string, endsWithBel: bool)
  {
    predicate WellFormed() {
      match this
      case Plain(text) => ESC !in text
      case Csi(parameters, final) => IsCsiFinal(final) && forall c | c in parameters :: !IsCsiFinal(c)
      case Osc(payload, _) => ESC !in payload && BEL !in payload
    }

    function Rendered(): string {
      match this
      case Plain(text) => text
      case Csi(parameters, final) => [ESC, '['] + parameters + [final]
      case Osc(payload, endsWithBel) => [ESC, ']'] + payload + if endsWithBel then [BEL] else [ESC, BACKSLASH]
    }

    function Visible(): string {
      if Plain? then text else ""
    }
  }

  function Render(segments: seq<Segment>): string {
    if segments == [] then "" else segments[0].Rendered() + Render(segments[1..])
  }

  function Visible(segments: seq<Segment>): string {
    if segments == [] then "" else segments[0].Visible() + Visible(segments[1..])
  }

  lemma {:induction false} CsiLengthOfParameters(parameters: string, final: char, rest: string)
    requires IsCsiFinal(final) && forall c | c in parameters :: !IsCsiFinal(c)
    ensures CsiLength(parameters + [final] + rest) == |parameters| + 1
  {
    if parameters != [] {
      CsiLengthOfParameters(parameters[1..], final, rest);
      assert (parameters + [final] + rest)[1..] == parameters[1..] + [final] + rest;
    }
  }

  lemma {:induction false} OscLengthOfPayload(payload: string, terminator: string, rest: string)
    requires ESC !in payload && BEL !in payload
    requires terminator == [BEL] || terminator == [ESC, BACKSLASH]
    ensures OscLength(payload + terminator + rest, false) == |payload| + |terminator|
  {
    var s := payload + terminator + rest;
    if payload == [] {
      assert terminator == [ESC, BACKSLASH] ==> s[1..][0] == BACKSLASH;
    } else {
      assert s[0] == payload[0];
      OscLengthOfPayload(payload[1..], terminator, rest);
      assert s[1..] == payload[1..] + terminator + rest;
    }
  }

  lemma {:induction false} StrippedAfterCsi(parameters: string, final: char, rest: string)
    requires Csi(parameters, final).WellFormed()
    ensures Stripped(Csi(parameters, final).Rendered() + rest) == Stripped(rest)
  {
    var body := parameters + [final] + rest;
    var s := Csi(parameters, final).Rendered() + rest;
    assert s == [ESC, '['] + body;
    CsiLengthOfParameters(parameters, final, rest);
    assert s[2..] == body && body[|parameters| + 1..] == rest;
  }

  lemma {:induction false} StrippedAfterOsc(payload: string, endsWithBel: bool, rest: string)
    requires Osc(payload, endsWithBel).WellFormed()
    ensures Stripped(Osc(payload, endsWithBel).Rendered() + rest) == Stripped(rest)
  {
    var terminator := if endsWithBel then [BEL] else [ESC, BACKSLASH];
    var body := payload + terminator + rest;
    var s := Osc(payload, endsWithBel).Rendered() + rest;
    assert s == [ESC, ']'] + body;
    OscLengthOfPayload(payload, terminator, rest);
    assert s[2..] == body && body[|payload| + |terminator|..] == rest;
  }

  lemma {:induction false} StrippedAfterSegment(segment: Segment, rest: string)
    requires segment.WellFormed()
    ensures Stripped(segment.Rendered() + rest) == segment.Visible() + Stripped(rest)
  {
    ConcatWithEmpty(Stripped(rest));
    match segment
    case Plain(text) => StrippedAfterText(text, rest);
    case Csi(parameters, final) => StrippedAfterCsi(parameters, final, rest);
    case Osc(payload, endsWithBel) => StrippedAfterOsc(payload, endsWithBel, rest);
  }

  /** Stripping rendered terminal output gives back its visible text. */
  lemma {:induction false} StrippingUndoesRendering(segments: seq<Segment>)
    requires forall segment | segment in segments :: segment.WellFormed()
    ensures Stripped(Render(segments)) == Visible(segments)
  {
    if segments != [] {
      assert segments[0] in segments;
      StrippedAfterSegment(segments[0], Render(segments[1..]));
      StrippingUndoesRendering(segments[1..]);
    }
  }

  // ----- HTML blocks -----------------------------------------------------------------------

  function LowerChar(c: char): char {
    if 'A' <= c <= 'Z' then c + 32 as char else c
  }

  function Lower(s: string): (r: string)
    ensures |r| == |s| && forall i | 0 <= i < |s| :: r[i] == LowerChar(s[i])
  {
    seq(|s|, i requires 0 <= i < |s| => LowerChar(s[i]))
  }

  predicate OccursAt(needle: string, s: string, k: nat) {
    k + |needle| <= |s| && s[k..k + |needle|] == needle
  }

  ghost predicate Occurs(needle: string, s: string) {
    exists k: nat :: OccursAt(needle, s, k)
  }

  /** The first place where `needle` occurs at or after `from`. */
  function Find(needle: string, s: string, from: nat): (r: Option<nat>)
    requires from <= |s|
    ensures r.Some? ==> from <= r.value && r.value + |needle| <= |s|
    decreases |s| - from
  {
    if OccursAt(needle, s, from) then Some(from)
    else if from == |s| then None
    else Find(needle, s, from + 1)
  }

  lemma {:induction false} FindIsFirst(needle: string, s: string, from: nat)
    requires from <= |s|
    ensures var r := Find(needle, s, from);
            if r.Some? then OccursAt(needle, s, r.value) && forall k | from <= k < r.value :: !OccursAt(needle, s, k)
            else forall k | from <= k :: !OccursAt(needle, s, k)
    decreases |s| - from
  {
    if !OccursAt(needle, s, from) && from < |s| {
      FindIsFirst(needle, s, from + 1);
    }
  }

  function OpenPattern(tag: string): string { "<" + tag }

  function ClosePattern(tag: string): string { "</" + tag + ">" }

  /** What is left of `value` from `cursor` on; the patterns are looked up in `lower`. */
  function Outside(value: string, lower: string, opening: string, closing: string, cursor: nat): string
    requires |lower| == |value| && closing != "" && cursor <= |value|
    decreases |value| - cursor
  {
    match Find(opening, lower, cursor)
    case None => value[cursor..]
    case Some(start) =>
      match Find(closing, lower, start)
      case None => value[cursor..start]
      case Some(end) => value[cursor..start] + Outside(value, lower, opening, closing, end + |closing|)
  }

  function WithoutBlocks(value: string, tag: string): string {
    Outside(value, Lower(value), OpenPattern(tag), ClosePattern(tag), 0)
  }

  lemma {:induction false} OutsideUnfolds(value: string, lower: string, opening: string, closing: string,
                    cursor: nat, start: nat, end: nat)
    requires |lower| == |value| && closing != "" && cursor <= |value|
    requires Find(opening, lower, cursor) == Some(start) && Find(closing, lower, start) == Some(end)
    ensures Outside(value, lower, opening, closing, cursor)
         == value[cursor..start] + Outside(value, lower, opening, closing, end + |closing|)
  {
  }

  lemma {:induction false} OutsideStep(value: string, lower: string, opening: string, closing: string,
                    cursor: nat, start: nat, end: nat, before: string)
    requires |lower| == |value| && closing != "" && cursor <= |value|
    requires Find(opening, lower, cursor) == Some(start) && Find(closing, lower, start) == Some(end)
    ensures before + Outside(value, lower, opening, closing, cursor)
         == before + value[cursor..start] + Outside(value, lower, opening, closing, end + |closing|)
  {
    OutsideUnfolds(value, lower, opening, closing, cursor, start, end);
    ConcatIsAssociative(before, value[cursor..start], Outside(value, lower, opening, closing, end + |closing|));
  }

  lemma {:induction false} OutsideEnds(value: string, lower: string, opening: string, closing: string, cursor: nat)
    requires |lower| == |value| && closing != "" && cursor <= |value|
    ensures Find(opening, lower, cursor).None? ==> Outside(value, lower, opening, closing, cursor) == value[cursor..]
    ensures Find(opening, lower, cursor).Some? && Find(closing, lower, Find(opening, lower, cursor).value).None? ==>
              Outside(value, lower, opening, closing, cursor) == value[cursor..Find(opening, lower, cursor).value]
  {
  }

  method RemoveHtmlTagBlocks(value: string, tag: string) returns (output: string)
    ensures output == WithoutBlocks(value, tag)
  {
    output := "";
    var cursor := 0;
    var lower, openPattern, closePattern := Lower(value), OpenPattern(tag), ClosePattern(tag);
    var opening := Find(openPattern, lower, cursor);
    ghost var expected := Outside(value, lower, openPattern, closePattern, 0);
    ConcatWithEmpty(expected);
    while opening.Some?
      invariant cursor <= |value| && opening == Find(openPattern, lower, cursor)
      invariant output + Outside(value, lower, openPattern, closePattern, cursor) == expected
      decreases |value| - cursor
    {
      var start := opening.value;
      var closing := Find(closePattern, lower, start);
      if closing.None? {
        OutsideEnds(value, lower, openPattern, closePattern, cursor);
        return output + value[cursor..start];
      }
      OutsideStep(value, lower, openPattern, closePattern, cursor, start, closing.value, output);
      output := output + value[cursor..start];
      cursor := closing.value + |closePattern|;
      opening := Find(openPattern, lower, cursor);
    }
    OutsideEnds(value, lower, openPattern, closePattern, cursor);
    output := output + value[cursor..];
  }

  lemma {:induction false} SubsequenceWithoutSlice(rest: string, value: string, cursor: nat, start: nat, next: nat)
    requires cursor <= start <= next <= |value| && IsSubsequence(rest, value[next..])
    ensures IsSubsequence(value[cursor..start] + rest, value[cursor..])
  {
    assert value[cursor..] == value[cursor..start] + value[start..];
    assert value[start..][next - start..] == value[next..];
    SubsequenceOfSuffix(rest, value[start..], next - start);
    SubsequenceOfPrefixed(value[cursor..start], rest, value[start..]);
  }

  lemma {:induction false} OutsideIsSubsequence(value: string, lower: string, opening: string, closing: string, cursor: nat)
    requires |lower| == |value| && closing != "" && cursor <= |value|
    ensures IsSubsequence(Outside(value, lower, opening, closing, cursor), value[cursor..])
    ensures Find(opening, lower, cursor).Some? && opening != "" ==>
              |Outside(value, lower, opening, closing, cursor)| < |value| - cursor
    decreases |value| - cursor
  {
    match Find(opening, lower, cursor)
    case None =>
      SubsequenceOfPrefixed(value[cursor..], [], []);
      ConcatWithEmpty(value[cursor..]);
    case Some(start) =>
      match Find(closing, lower, start)
      case None =>
        SubsequenceWithoutSlice([], value, cursor, start, |value|);
        ConcatWithEmpty(value[cursor..start]);
      case Some(end) =>
        var next := end + |closing|;
        OutsideIsSubsequence(value, lower, opening, closing, next);
        SubsequenceWithoutSlice(Outside(value, lower, opening, closing, next), value, cursor, start, next);
  }

  /** Text is taken away from exactly the documents that hold an opening tag, in any letter case. */
  lemma {:induction false} BlocksRemovedIffOpeningTagOccurs(value: string, tag: string)
    ensures IsSubsequence(WithoutBlocks(value, tag), value)
    ensures WithoutBlocks(value, tag) == value <==> !Occurs(OpenPattern(tag), Lower(value))
  {
    assert value[0..] == value;
    FindIsFirst(OpenPattern(tag), Lower(value), 0);
    OutsideIsSubsequence(value, Lower(value), OpenPattern(tag), ClosePattern(tag), 0);
  }

  // ----- What removal can splice together ---------------------------------------------------

  /** The pieces of text that are kept, in order; a removed block lies between two of them. */
  function Pieces(lower: string, opening: string, closing: string, cursor: nat): (pieces: seq<string>)
    requires closing != "" && cursor <= |lower|
    ensures pieces != []
    decreases |lower| - cursor
  {
    match Find(opening, lower, cursor)
    case None => [lower[cursor..]]
    case Some(start) =>
      match Find(closing, lower, start)
      case None => [lower[cursor..start]]
      case Some(end) => [lower[cursor..start]] + Pieces(lower, opening, closing, end + |closing|)
  }

  /** What removing the blocks of a tag keeps, in lower case. */
  function Kept(value: string, tag: string): seq<string> {
    Pieces(Lower(value), OpenPattern(tag), ClosePattern(tag), 0)
  }

  function Concat(pieces: seq<string>): string {
    if pieces == [] then "" else pieces[0] + Concat(pieces[1..])
  }

  /** Where the text of the first `i + 1` pieces ends in their concatenation. */
  function SeamAt(pieces: seq<string>, i: nat): nat
    requires i < |pieces|
  {
    if i == 0 then |pieces[0]| else |pieces[0]| + SeamAt(pieces[1..], i - 1)
  }

  /** The stretch of `length` characters from `k` on has text from both sides of a removed block. */
  predicate SpansSeam(pieces: seq<string>, k: nat, length: nat) {
    exists i :: 0 <= i < |pieces| - 1 && k < SeamAt(pieces, i) < k + length
  }

  ghost predicate InSomePiece(needle: string, pieces: seq<string>) {
    exists i :: 0 <= i < |pieces| && Occurs(needle, pieces[i])
  }

  predicate EndsInPrefix(s: string, needle: string) {
    exists n :: 0 < n < |needle| && n <= |s| && s[|s| - n..] == needle[..n]
  }

  /** No piece in front of a removed block ends in a beginning of the needle. */
  predicate NothingToJoin(pieces: seq<string>, needle: string) {
    forall i | 0 <= i < |pieces| - 1 :: !EndsInPrefix(pieces[i], needle)
  }

  lemma {:induction false} LowerOfSlice(value: string, from: nat, to: nat)
    requires from <= to <= |value|
    ensures Lower(value[from..to]) == Lower(value)[from..to]
  {
  }

  /** One more piece in front, in the text and in its pieces. */
  lemma {:induction false} KeptStep(value: string, from: nat, to: nat, rest: string, pieces: seq<string>)
    requires from <= to <= |value| && Lower(rest) == Concat(pieces)
    ensures Lower(value[from..to] + rest) == Concat([Lower(value)[from..to]] + pieces)
  {
    LowerOfSlice(value, from, to);
    LowerOfConcat(value[from..to], rest);
    FirstPiece(Lower(value)[from..to], pieces);
  }

  lemma {:induction false} KeptIsOutside(value: string, lower: string, opening: string, closing: string, cursor: nat)
    requires lower == Lower(value) && closing != "" && cursor <= |value|
    ensures Lower(Outside(value, lower, opening, closing, cursor)) == Concat(Pieces(lower, opening, closing, cursor))
    decreases |value| - cursor
  {
    match Find(opening, lower, cursor)
    case None =>
      SinglePiece(lower[cursor..]);
      LowerOfSlice(value, cursor, |value|);
      assert value[cursor..|value|] == value[cursor..] && lower[cursor..|value|] == lower[cursor..];
    case Some(start) =>
      match Find(closing, lower, start)
      case None =>
        SinglePiece(lower[cursor..start]);
        LowerOfSlice(value, cursor, start);
      case Some(end) =>
        var next := end + |closing|;
        KeptIsOutside(value, lower, opening, closing, next);
        KeptStep(value, cursor, start, Outside(value, lower, opening, closing, next), Pieces(lower, opening, closing, next));
        OutsideUnfolds(value, lower, opening, closing, cursor, start, end);
  }

  lemma {:induction false} SinglePiece(piece: string)
    ensures Concat([piece]) == piece
  {
    assert [piece][1..] == [];
  }

  lemma {:induction false} FirstPiece(piece: string, rest: seq<string>)
    ensures Concat([piece] + rest) == piece + Concat(rest)
  {
    assert ([piece] + rest)[1..] == rest;
  }

  lemma {:induction false} LowerOfConcat(a: string, b: string)
    ensures Lower(a + b) == Lower(a) + Lower(b)
  {
  }

  lemma {:induction false} SliceOfSlice(s: string, from: nat, to: nat, a: nat, b: nat)
    requires from <= to <= |s| && a <= b <= to - from
    ensures s[from..to][a..b] == s[from + a..from + b]
  {
    assert |s[from..to][a..b]| == |s[from + a..from + b]|;
    assert forall k | 0 <= k < b - a :: s[from..to][a..b][k] == s[from + a + k] == s[from + a..from + b][k];
  }

  /** An occurrence in a text is one in every text around it. */
  lemma {:induction false} OccursWithin(needle: string, s: string, from: nat, to: nat, k: nat)
    requires from <= to <= |s| && OccursAt(needle, s[from..to], k)
    ensures OccursAt(needle, s, from + k)
  {
    SliceOfSlice(s, from, to, k, k + |needle|);
  }

  /** The pieces are text of the document, and hold no opening tag. */
  lemma {:induction false} PiecesAreClean(lower: string, opening: string, closing: string, cursor: nat, i: nat)
    requires closing != "" && opening != "" && cursor <= |lower|
    requires i < |Pieces(lower, opening, closing, cursor)|
    ensures !Occurs(opening, Pieces(lower, opening, closing, cursor)[i])
    decreases |lower| - cursor
  {
    FindIsFirst(opening, lower, cursor);
    var end := match Find(opening, lower, cursor) { case None => |lower| case Some(start) => start };
    forall k: nat ensures !OccursAt(opening, lower[cursor..end], k) {
      if OccursAt(opening, lower[cursor..end], k) { OccursWithin(opening, lower, cursor, end, k); }
    }
    assert lower[cursor..|lower|] == lower[cursor..];
    if i > 0 {
      PiecesAreClean(lower, opening, closing, Find(closing, lower, end).value + |closing|, i - 1);
    }
  }

  lemma {:induction false} PiecesAreText(lower: string, opening: string, closing: string, cursor: nat, needle: string, i: nat)
    requires closing != "" && cursor <= |lower| && i < |Pieces(lower, opening, closing, cursor)|
    ensures Occurs(needle, Pieces(lower, opening, closing, cursor)[i]) ==> Occurs(needle, lower)
    decreases |lower| - cursor
  {
    var end := match Find(opening, lower, cursor) { case None => |lower| case Some(start) => start };
    assert lower[cursor..|lower|] == lower[cursor..];
    if i > 0 {
      PiecesAreText(lower, opening, closing, Find(closing, lower, end).value + |closing|, needle, i - 1);
    } else if k: nat :| OccursAt(needle, lower[cursor..end], k) {
      OccursWithin(needle, lower, cursor, end, k);
    }
  }

  lemma {:induction false} OccurrenceInPieceOrAcrossSeam(needle: string, pieces: seq<string>, k: nat)
    requires needle != "" && OccursAt(needle, Concat(pieces), k)
    ensures InSomePiece(needle, pieces) || SpansSeam(pieces, k, |needle|)
    ensures InSomePiece(needle, pieces) || !NothingToJoin(pieces, needle)
  {
    if pieces != [] {
      var piece, rest := pieces[0], pieces[1..];
      var all := piece + Concat(rest);
      if k + |needle| <= |piece| {
        assert piece[k..k + |needle|] == all[k..k + |needle|];
        assert OccursAt(needle, pieces[0], k);
      } else if k >= |piece| {
        assert Concat(rest)[k - |piece|..k - |piece| + |needle|] == all[k..k + |needle|];
        OccurrenceInPieceOrAcrossSeam(needle, rest, k - |piece|);
        LaterPieces(needle, pieces, k);
      } else {
        assert rest != [];
        assert SeamAt(pieces, 0) == |piece|;
        var n := |piece| - k;
        assert piece[|piece| - n..] == all[k..k + |needle|][..n];
        assert EndsInPrefix(pieces[0], needle);
      }
    }
  }

  lemma {:induction false} LaterPieces(needle: string, pieces: seq<string>, k: nat)
    requires pieces != [] && k >= |pieces[0]|
    ensures InSomePiece(needle, pieces[1..]) ==> InSomePiece(needle, pieces)
    ensures SpansSeam(pieces[1..], k - |pieces[0]|, |needle|) ==> SpansSeam(pieces, k, |needle|)
    ensures !NothingToJoin(pieces[1..], needle) ==> !NothingToJoin(pieces, needle)
  {
    var rest := pieces[1..];
    if InSomePiece(needle, rest) {
      var i :| 0 <= i < |rest| && Occurs(needle, rest[i]);
      assert pieces[i + 1] == rest[i];
    }
    if SpansSeam(rest, k - |pieces[0]|, |needle|) {
      var i :| 0 <= i < |rest| - 1 && k - |pieces[0]| < SeamAt(rest, i) < k - |pieces[0]| + |needle|;
      assert SeamAt(pieces, i + 1) == |pieces[0]| + SeamAt(rest, i);
    }
    if !NothingToJoin(rest, needle) {
      var i :| 0 <= i < |rest| - 1 && EndsInPrefix(rest[i], needle);
      assert pieces[i + 1] == rest[i];
    }
  }

  lemma {:induction false} NoPieceHoldsAnOpening(value: string, tag: string)
    ensures Lower(WithoutBlocks(value, tag)) == Concat(Kept(value, tag))
    ensures !InSomePiece(OpenPattern(tag), Kept(value, tag))
  {
    KeptIsOutside(value, Lower(value), OpenPattern(tag), ClosePattern(tag), 0);
    forall i | 0 <= i < |Kept(value, tag)| ensures !Occurs(OpenPattern(tag), Kept(value, tag)[i]) {
      PiecesAreClean(Lower(value), OpenPattern(tag), ClosePattern(tag), 0, i);
    }
  }

  /** One pass leaves an opening tag exactly when one runs across the place of a removed block. */
  lemma {:induction false} OpeningIsLeftIffSpliced(value: string, tag: string)
    ensures Occurs(OpenPattern(tag), Lower(WithoutBlocks(value, tag))) <==>
            exists k: nat :: OccursAt(OpenPattern(tag), Lower(WithoutBlocks(value, tag)), k)
                             && SpansSeam(Kept(value, tag), k, |OpenPattern(tag)|)
  {
    NoPieceHoldsAnOpening(value, tag);
    if k: nat :| OccursAt(OpenPattern(tag), Lower(WithoutBlocks(value, tag)), k) {
      OccurrenceInPieceOrAcrossSeam(OpenPattern(tag), Kept(value, tag), k);
    }
  }

  /**
   When no kept text in front of a removed block ends in a beginning of the opening tag, one pass
   leaves no opening tag, and a second pass changes nothing.
   */
  lemma {:induction false} NothingIsLeftWithoutJoins(value: string, tag: string)
    requires NothingToJoin(Kept(value, tag), OpenPattern(tag))
    ensures !Occurs(OpenPattern(tag), Lower(WithoutBlocks(value, tag)))
    ensures WithoutBlocks(WithoutBlocks(value, tag), tag) == WithoutBlocks(value, tag)
  {
    NoPieceHoldsAnOpening(value, tag);
    if k: nat :| OccursAt(OpenPattern(tag), Lower(WithoutBlocks(value, tag)), k) {
      OccurrenceInPieceOrAcrossSeam(OpenPattern(tag), Kept(value, tag), k);
    }
    BlocksRemovedIffOpeningTagOccurs(WithoutBlocks(value, tag), tag);
  }

  // ----- The four passes -------------------------------------------------------------------

  const NON_CONTENT_TAGS := ["script", "style", "noscript", "svg"]

  /** The passes over these tags, in order. */
  function WithoutAll(value: string, tags: seq<string>): string
    decreases |tags|
  {
    if tags == [] then value else WithoutAll(WithoutBlocks(value, tags[0]), tags[1..])
  }

  method RemoveNonContentHtmlBlocks(value: string) returns (output: string)
    ensures output == WithoutAll(value, NON_CONTENT_TAGS)
  {
    output := value;
    for i := 0 to |NON_CONTENT_TAGS|
      invariant WithoutAll(output, NON_CONTENT_TAGS[i..]) == WithoutAll(value, NON_CONTENT_TAGS)
    {
      assert NON_CONTENT_TAGS[i..][1..] == NON_CONTENT_TAGS[i + 1..];
      output := RemoveHtmlTagBlocks(output, NON_CONTENT_TAGS[i]);
    }
  }

  lemma {:induction false} PassShortensOrKeeps(value: string, tag: string)
    ensures WithoutBlocks(value, tag) == value || |WithoutBlocks(value, tag)| < |value|
  {
    BlocksRemovedIffOpeningTagOccurs(value, tag);
    FindIsFirst(OpenPattern(tag), Lower(value), 0);
    OutsideIsSubsequence(value, Lower(value), OpenPattern(tag), ClosePattern(tag), 0);
  }

  /** The passes change exactly the documents in which one of the opening tags occurs. */
  lemma {:induction false} DocumentsChangeIffATagOccurs(value: string, tags: seq<string>)
    ensures |WithoutAll(value, tags)| <= |value|
    ensures WithoutAll(value, tags) == value <==>
            forall i | 0 <= i < |tags| :: !Occurs(OpenPattern(tags[i]), Lower(value))
    decreases |tags|
  {
    if tags != [] {
      var once, rest := WithoutBlocks(value, tags[0]), tags[1..];
      PassShortensOrKeeps(value, tags[0]);
      BlocksRemovedIffOpeningTagOccurs(value, tags[0]);
      DocumentsChangeIffATagOccurs(once, rest);
      assert forall i | 0 < i < |tags| :: tags[i] == rest[i - 1];
      assert forall i | 0 <= i < |rest| :: rest[i] == tags[i + 1];
    }
  }

  /** In every pass, for every tag of the list, nothing in front of a removed block can become part of an opening tag. */
  predicate NothingToJoinInAnyPass(value: string, passes: seq<string>, tags: seq<string>)
    decreases |passes|
  {
    passes == [] ||
    (&& (forall i | 0 <= i < |tags| :: NothingToJoin(Kept(value, passes[0]), OpenPattern(tags[i])))
     && NothingToJoinInAnyPass(WithoutBlocks(value, passes[0]), passes[1..], tags))
  }

  lemma {:induction false} PassLeavesOthersOut(value: string, tag: string, needle: string)
    requires needle != "" && NothingToJoin(Kept(value, tag), needle) && !Occurs(needle, Lower(value))
    ensures !Occurs(needle, Lower(WithoutBlocks(value, tag)))
  {
    NoPieceHoldsAnOpening(value, tag);
    if k: nat :| OccursAt(needle, Lower(WithoutBlocks(value, tag)), k) {
      OccurrenceInPieceOrAcrossSeam(needle, Kept(value, tag), k);
      var i :| 0 <= i < |Kept(value, tag)| && Occurs(needle, Kept(value, tag)[i]);
      PiecesAreText(Lower(value), OpenPattern(tag), ClosePattern(tag), 0, needle, i);
    }
  }

  lemma {:induction false} PassesLeaveNoTag(value: string, passes: seq<string>, tags: seq<string>, t: nat)
    requires t < |tags| && NothingToJoinInAnyPass(value, passes, tags)
    requires tags[t] in passes || !Occurs(OpenPattern(tags[t]), Lower(value))
    ensures !Occurs(OpenPattern(tags[t]), Lower(WithoutAll(value, passes)))
    decreases |passes|
  {
    if passes != [] {
      if passes[0] == tags[t] {
        NothingIsLeftWithoutJoins(value, passes[0]);
      } else if !Occurs(OpenPattern(tags[t]), Lower(value)) {
        PassLeavesOthersOut(value, passes[0], OpenPattern(tags[t]));
      }
      assert passes == [passes[0]] + passes[1..];
      PassesLeaveNoTag(WithoutBlocks(value, passes[0]), passes[1..], tags, t);
    }
  }

  /** Then the result holds none of the opening tags, and removing them again changes nothing. */
  lemma {:induction false} NoTagIsLeftWithoutJoins(value: string, tags: seq<string>)
    requires NothingToJoinInAnyPass(value, tags, tags)
    ensures forall t | 0 <= t < |tags| :: !Occurs(OpenPattern(tags[t]), Lower(WithoutAll(value, tags)))
    ensures WithoutAll(WithoutAll(value, tags), tags) == WithoutAll(value, tags)
  {
    forall t | 0 <= t < |tags| ensures !Occurs(OpenPattern(tags[t]), Lower(WithoutAll(value, tags))) {
      PassesLeaveNoTag(value, tags, tags, t);
    }
    DocumentsChangeIffATagOccurs(WithoutAll(value, tags), tags);
  }

  lemma {:induction false} DiffersAt(needle: string, s: string, k: nat, j: nat)
    requires j < |needle| && (k + j < |s| ==> s[k + j] != needle[j])
    ensures !OccursAt(needle, s, k)
  {
    if k + |needle| <= |s| {
      assert s[k..k + |needle|][j] == s[k + j];
    }
  }

  /** The document `<scr<svg></svg>ipt>`, by its parts. */
  predicate IsSplicedDocument(s: string) {
    |s| == 19 && s[0..4] == "<scr" && s[4..9] == "<svg>" && s[9..15] == "</svg>" && s[15..19] == "ipt>"
  }

  lemma {:induction false} SplicedCharacters(s: string, k: nat)
    requires IsSplicedDocument(s) && k < 19
    ensures s[k] == '<' <==> k == 0 || k == 4 || k == 9
    ensures LowerChar(s[k]) == s[k]
    ensures s[1] == 's' && s[2] == 'c' && s[5] == 's' && s[6] == 'v' && s[10] == '/'
  {
    assert k < 4 ==> s[k] == s[0..4][k];
    assert 4 <= k < 9 ==> s[k] == s[4..9][k - 4];
    assert 9 <= k < 15 ==> s[k] == s[9..15][k - 9];
    assert 15 <= k ==> s[k] == s[15..19][k - 15];
    assert s[1] == s[0..4][1] && s[2] == s[0..4][2] && s[5] == s[4..9][1] && s[6] == s[4..9][2] && s[10] == s[9..15][1];
  }

  /** A tag whose opening differs from the document at each of its three angle brackets does not occur in it. */
  lemma {:induction false} NotInSpliced(s: string, tag: string, i: nat, j: nat)
    requires IsSplicedDocument(s) && tag != "" && tag[0] != '/'
    requires i < |OpenPattern(tag)| && j < |OpenPattern(tag)| && i <= 8 && j <= 8
    requires s[i] != OpenPattern(tag)[i] && s[4 + j] != OpenPattern(tag)[j]
    ensures Lower(s) == s && WithoutBlocks(s, tag) == s
  {
    forall k | 0 <= k < 19 ensures LowerChar(s[k]) == s[k] && (s[k] == '<' ==> k == 0 || k == 4 || k == 9) && s[10] == '/' {
      SplicedCharacters(s, k);
    }
    assert Lower(s) == s;
    forall k: nat ensures !OccursAt(OpenPattern(tag), s, k) {
      DiffersAt(OpenPattern(tag), s, k, if k == 0 then i else if k == 4 then j else if k == 9 then 1 else 0);
    }
    BlocksRemovedIffOpeningTagOccurs(s, tag);
  }

  lemma {:induction false} EarlierPassesKeepSpliced(s: string)
    requires IsSplicedDocument(s)
    ensures WithoutBlocks(s, "script") == s && WithoutBlocks(s, "style") == s && WithoutBlocks(s, "noscript") == s
  {
    SplicedCharacters(s, 4);
    assert OpenPattern("script") == "<script" && OpenPattern("style") == "<style" && OpenPattern("noscript") == "<noscript";
    NotInSpliced(s, "script", 4, 2);
    NotInSpliced(s, "style", 2, 2);
    NotInSpliced(s, "noscript", 1, 1);
  }

  lemma {:induction false} FindAt(needle: string, s: string, from: nat, k: nat)
    requires from <= k && OccursAt(needle, s, k) && forall i | from <= i < k :: !OccursAt(needle, s, i)
    ensures Find(needle, s, from) == Some(k)
  {
    FindIsFirst(needle, s, from);
  }

  /** The one block of the document, found by the two patterns. */
  lemma {:induction false} SplicedBlock(s: string, opening: string, closing: string)
    requires IsSplicedDocument(s) && opening == "<svg" && closing == "</svg>"
    ensures Find(opening, s, 0) == Some(4) && Find(closing, s, 4) == Some(9) && Find(opening, s, 15) == None
  {
    forall k | 0 <= k < 19 ensures (s[k] == '<' ==> k == 0 || k == 4 || k == 9) && s[2] == 'c' && s[5] == 's' && s[10] == '/' {
      SplicedCharacters(s, k);
    }
    forall k: nat | k != 4 ensures !OccursAt(opening, s, k) {
      DiffersAt(opening, s, k, if k == 0 then 2 else if k == 9 then 1 else 0);
    }
    forall k: nat | 4 <= k < 9 ensures !OccursAt(closing, s, k) {
      DiffersAt(closing, s, k, if k == 4 then 1 else 0);
    }
    assert s[4..8] == s[4..9][..4];
    FindAt(opening, s, 0, 4);
    FindAt(closing, s, 4, 9);
    FindIsFirst(opening, s, 15);
  }

  lemma {:induction false} LastPassSplices(s: string)
    requires IsSplicedDocument(s)
    ensures WithoutBlocks(s, "svg") == "<script>"
  {
    var opening, closing := OpenPattern("svg"), ClosePattern("svg");
    assert opening == "<svg" && closing == "</svg>";
    forall k | 0 <= k < 19 ensures LowerChar(s[k]) == s[k] {
      SplicedCharacters(s, k);
    }
    assert Lower(s) == s;
    SplicedBlock(s, opening, closing);
    OutsideUnfolds(s, s, opening, closing, 0, 4, 9);
    assert Outside(s, s, opening, closing, 15) == s[15..] == "ipt>";
    assert "<scr" + "ipt>" == "<script>";
  }

  lemma {:induction false} FourPasses(value: string, a: string, b: string, c: string, d: string)
    ensures WithoutAll(value, [a, b, c, d])
         == WithoutBlocks(WithoutBlocks(WithoutBlocks(WithoutBlocks(value, a), b), c), d)
  {
    FirstPass(value, a, [b, c, d]);
    FirstPass(WithoutBlocks(value, a), b, [c, d]);
    FirstPass(WithoutBlocks(WithoutBlocks(value, a), b), c, [d]);
    FirstPass(WithoutBlocks(WithoutBlocks(WithoutBlocks(value, a), b), c), d, []);
    assert [a] + [b, c, d] == [a, b, c, d] && [b] + [c, d] == [b, c, d] && [c] + [d] == [c, d] && [d] + [] == [d];
  }

  lemma {:induction false} FirstPass(value: string, tag: string, rest: seq<string>)
    ensures WithoutAll(value, [tag] + rest) == WithoutAll(WithoutBlocks(value, tag), rest)
  {
    assert ([tag] + rest)[1..] == rest;
  }

  /** A removed block can join what stood around it into a new opening tag, after the pass that would remove it. */
  lemma {:induction false} RemovalCanSpliceAnOpeningTag(value: string)
    requires IsSplicedDocument(value)
    ensures WithoutAll(value, NON_CONTENT_TAGS) == "<script>"
    ensures Occurs(OpenPattern("script"), WithoutAll(value, NON_CONTENT_TAGS))
  {
    EarlierPassesKeepSpliced(value);
    LastPassSplices(value);
    FourPasses(value, "script", "style", "noscript", "svg");
    var output := WithoutAll(value, NON_CONTENT_TAGS);
    assert output[0..7] == "<script" == OpenPattern("script");
    assert OccursAt(OpenPattern("script"), output, 0);
  }

  lemma {:induction false} SplicedDocumentExists()
    ensures IsSplicedDocument("<scr<svg></svg>ipt>")
  {
    var s := "<scr<svg></svg>ipt>";
    assert s[0..4] == "<scr" && s[4..9] == "<svg>" && s[9..15] == "</svg>" && s[15..19] == "ipt>";
  }
}
