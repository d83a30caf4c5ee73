// Line-level string functions the patch printer and parser are written with:
// splitting on '\n', dropping trailing '\r', and trimming white space.
module TextLines {

  predicate NoNewline(s: string) {
    '\n' !in s
  }

  /** strings.Split(s, "\n"): always at least one piece. */
  function Split(s: string): (pieces: seq<string>)
    ensures |pieces| >= 1
  {
    if s == "" then [""]
    else if s[0] == '\n' then [""] + Split(s[1..])
    else
      var rest := Split(s[1..]);
      [[s[0]] + rest[0]] + rest[1..]
  }

  /** Every line followed by its newline. */
  function Terminate(lines: seq<string>): string {
    if lines == [] then "" else lines[0] + "\n" + Terminate(lines[1..])
  }

  /** strings.TrimRight(s, "\r") */
  function TrimCR(s: string): (t: string)
    ensures t <= s
    ensures t == "" || t[|t| - 1] != '\r'
  {
    if s != "" && s[|s| - 1] == '\r' then TrimCR(s[..|s| - 1]) else s
  }

  function TrimCRAll(lines: seq<string>): (r: seq<string>)
    ensures |r| == |lines|
    ensures forall i :: 0 <= i < |r| ==> r[i] == TrimCR(lines[i])
  {
    seq(|lines|, i requires 0 <= i < |lines| => TrimCR(lines[i]))
  }

  /** strings.TrimSuffix(s, "\n") */
  function DropFinalNewline(s: string): string {
    if s != "" && s[|s| - 1] == '\n' then s[..|s| - 1] else s
  }

  /** unicode.IsSpace */
  predicate IsSpace(c: char) {
    || '\t' <= c <= '\r'
    || c == ' '
    || c == '\U{85}'
    || c == '\U{A0}'
    || c == '\U{1680}'
    || '\U{2000}' <= c <= '\U{200A}'
    || c == '\U{2028}'
    || c == '\U{2029}'
    || c == '\U{202F}'
    || c == '\U{205F}'
    || c == '\U{3000}'
  }

  function TrimLeftSpace(s: string): (t: string)
    ensures t == "" || !IsSpace(t[0])
  {
    if s != "" && IsSpace(s[0]) then TrimLeftSpace(s[1..]) else s
  }

  function TrimRightSpace(s: string): (t: string)
    ensures t <= s
    ensures t == "" || !IsSpace(t[|t| - 1])
  {
    if s != "" && IsSpace(s[|s| - 1]) then TrimRightSpace(s[..|s| - 1]) else s
  }

  /** strings.TrimSpace */
  function TrimSpace(s: string): string {
    TrimRightSpace(TrimLeftSpace(s))
  }

  /** The white space characters, one by one. */
  const WHITE_SPACE := {
    '\t', '\n', '\U{0B}', '\U{0C}', '\r', ' ', '\U{85}', '\U{A0}', '\U{1680}',
    '\U{2000}', '\U{2001}', '\U{2002}', '\U{2003}', '\U{2004}', '\U{2005}', '\U{2006}', '\U{2007}', '\U{2008}',
    '\U{2009}', '\U{200A}', '\U{2028}', '\U{2029}', '\U{202F}', '\U{205F}', '\U{3000}'}

  /** Nothing but white space. */
  predicate Blank(s: string) {
    forall i :: 0 <= i < |s| ==> s[i] in WHITE_SPACE
  }

  lemma IsSpaceExactly(c: char)
    ensures IsSpace(c) <==> c in WHITE_SPACE
  {
    var n := c as int;
    assert IsSpace(c) <==> (9 <= n <= 13 || n == 32 || n == 0x85 || n == 0xA0 || n == 0x1680
      || 0x2000 <= n <= 0x200A || n == 0x2028 || n == 0x2029 || n == 0x202F || n == 0x205F || n == 0x3000);
  }

  lemma {:induction false} TrimLeftMeans(s: string) returns (lead: string)
    ensures s == lead + TrimLeftSpace(s) && Blank(lead)
  {
    if s != "" && IsSpace(s[0]) {
      hide IsSpace;
      IsSpaceExactly(s[0]);
      var more := TrimLeftMeans(s[1..]);
      lead := [s[0]] + more;
    } else {
      lead := "";
    }
  }

  lemma {:induction false} TrimRightMeans(s: string) returns (trail: string)
    ensures s == TrimRightSpace(s) + trail && Blank(trail)
  {
    if s != "" && IsSpace(s[|s| - 1]) {
      hide IsSpace;
      IsSpaceExactly(s[|s| - 1]);
      var more := TrimRightMeans(s[..|s| - 1]);
      trail := more + [s[|s| - 1]];
    } else {
      trail := "";
    }
  }

  /** Trimming cuts white space off both ends, all of it and nothing else. */
  lemma TrimSpaceMeans(s: string) returns (lead: string, trail: string)
    ensures s == lead + TrimSpace(s) + trail && Blank(lead) && Blank(trail)
    ensures TrimSpace(s) == "" ||
      (TrimSpace(s)[0] !in WHITE_SPACE && TrimSpace(s)[|TrimSpace(s)| - 1] !in WHITE_SPACE)
  {
    hide IsSpace, Blank, TrimLeftSpace, TrimRightSpace;
    lead := TrimLeftMeans(s);
    trail := TrimRightMeans(TrimLeftSpace(s));
    if TrimSpace(s) != "" {
      assert TrimSpace(s) <= TrimLeftSpace(s);
      IsSpaceExactly(TrimSpace(s)[0]);
      IsSpaceExactly(TrimSpace(s)[|TrimSpace(s)| - 1]);
    }
  }

  lemma BlankTrims(s: string)
    ensures TrimSpace(s) == "" <==> Blank(s)
  {
    hide TrimSpace;
    var lead, trail := TrimSpaceMeans(s);
    if TrimSpace(s) == "" {
      assert s == lead + trail;
    } else {
      assert s[|lead|] == TrimSpace(s)[0];
    }
  }

  lemma {:induction false} TerminateAppend(a: seq<string>, b: seq<string>)
    ensures Terminate(a + b) == Terminate(a) + Terminate(b)
  {
    if a == [] {
      assert a + b == b;
    } else {
      assert (a + b)[1..] == a[1..] + b;
      TerminateAppend(a[1..], b);
    }
  }

  /** A terminated line in front of a text is its first piece. */
  lemma {:induction false} SplitTerminatedLine(line: string, rest: string)
    requires NoNewline(line)
    ensures Split(line + "\n" + rest) == [line] + Split(rest)
  {
    var s := line + "\n" + rest;
    if line == "" {
      assert s[1..] == rest;
    } else {
      assert s[1..] == line[1..] + "\n" + rest;
      SplitTerminatedLine(line[1..], rest);
      assert [line[0]] + line[1..] == line;
    }
  }

  lemma {:induction false} SplitSingleLine(line: string)
    requires NoNewline(line)
    ensures Split(line) == [line]
  {
    if line != "" {
      SplitSingleLine(line[1..]);
      assert [line[0]] + line[1..] == line;
    }
  }

  lemma {:induction false} SplitTerminated(lines: seq<string>, last: string)
    requires forall i :: 0 <= i < |lines| ==> NoNewline(lines[i])
    requires NoNewline(last)
    ensures Split(Terminate(lines) + last) == lines + [last]
  {
    if lines == [] {
      assert Terminate(lines) + last == last;
      SplitSingleLine(last);
    } else {
      SplitTerminated(lines[1..], last);
      assert Terminate(lines) + last == lines[0] + "\n" + (Terminate(lines[1..]) + last);
      SplitTerminatedLine(lines[0], Terminate(lines[1..]) + last);
    }
  }

  /** Splitting loses nothing but the separators, and no piece holds one. */
  lemma {:induction false} SplitPieces(s: string)
    ensures forall i :: 0 <= i < |Split(s)| ==> NoNewline(Split(s)[i])
    ensures s + "\n" == Terminate(Split(s))
  {
    if s == "" {
      assert Terminate([""]) == "\n" + Terminate([]);
    } else {
      SplitPieces(s[1..]);
      var rest := Split(s[1..]);
      if s[0] == '\n' {
        assert Split(s)[1..] == rest;
        assert s == "\n" + s[1..];
      } else {
        assert Split(s)[1..] == rest[1..];
        assert s + "\n" == [s[0]] + (s[1..] + "\n");
        assert Terminate(rest) == rest[0] + "\n" + Terminate(rest[1..]);
        assert Terminate(Split(s)) == [s[0]] + rest[0] + "\n" + Terminate(rest[1..]);
      }
    }
  }

  lemma {:induction false} TrimCRAfterPrefix(prefix: string, s: string)
    requires prefix != "" && prefix[|prefix| - 1] != '\r'
    ensures TrimCR(prefix + s) == prefix + TrimCR(s)
  {
    if s == "" {
      assert prefix + s == prefix;
    } else if s[|s| - 1] == '\r' {
      assert (prefix + s)[..|prefix + s| - 1] == prefix + s[..|s| - 1];
      TrimCRAfterPrefix(prefix, s[..|s| - 1]);
    }
  }

  lemma {:induction false} TrimSpaceOfTrimmed(s: string)
    ensures TrimSpace(TrimSpace(s)) == TrimSpace(s)
  {
    var t := TrimLeftSpace(s);
    assert TrimSpace(s) <= t;
    assert TrimLeftSpace(TrimSpace(s)) == TrimSpace(s);
  }

  /** Trailing '\r's and one leading blank do not change the trimmed text. */
  lemma {:induction false} TrimSpaceIgnoresFrame(s: string)
    ensures TrimSpace(" " + TrimCR(s)) == TrimSpace(s)
  {
    assert (" " + TrimCR(s))[1..] == TrimCR(s);
    TrimSpaceIgnoresCR(s);
  }

  lemma {:induction false} TrimSpaceIgnoresCR(s: string)
    ensures TrimSpace(TrimCR(s)) == TrimSpace(s)
  {
    if s != "" && s[|s| - 1] == '\r' {
      TrimSpaceIgnoresCR(s[..|s| - 1]);
      TrimSpaceDropsLastSpace(s);
    }
  }

  lemma {:induction false} TrimSpaceDropsLastSpace(s: string)
    requires s != "" && IsSpace(s[|s| - 1])
    ensures TrimSpace(s[..|s| - 1]) == TrimSpace(s)
  {
    var init := s[..|s| - 1];
    if init == "" {
      assert s[1..] == "";
    } else if IsSpace(s[0]) {
      assert s[1..][..|s[1..]| - 1] == init[1..];
      TrimSpaceDropsLastSpace(s[1..]);
    }
  }

  lemma {:induction false} SplitExtend(s: string, line: string)
    requires NoNewline(line)
    ensures Split(s + "\n" + line) == Split(s) + [line]
  {
    if s == "" {
      SplitTerminatedLine("", line);
      SplitSingleLine(line);
      assert s + "\n" + line == "" + "\n" + line;
    } else {
      SplitExtend(s[1..], line);
      assert (s + "\n" + line)[1..] == s[1..] + "\n" + line;
    }
  }

  lemma {:induction false} TrimSpaceKeepsNoNewline(s: string)
    requires NoNewline(s)
    ensures NoNewline(TrimSpace(s))
  {
    TrimLeftIsSuffix(s);
  }

  lemma {:induction false} TrimLeftIsSuffix(s: string)
    ensures exists k :: 0 <= k <= |s| && TrimLeftSpace(s) == s[k..]
  {
    if s != "" && IsSpace(s[0]) {
      TrimLeftIsSuffix(s[1..]);
      var k :| 0 <= k <= |s[1..]| && TrimLeftSpace(s[1..]) == s[1..][k..];
      assert s[1..][k..] == s[k + 1..];
    } else {
      assert s == s[0..];
    }
  }
}
