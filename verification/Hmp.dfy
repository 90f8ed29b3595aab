/** One command on qemu's human monitor: waiting for its prompt, and telling a reply from the echo. */
module Hmp {
  import opened Wrappers
  import opened Text

  const PROMPT := "(qemu) "
  const PROMPT_WORD := "(qemu)"

  // ---- passwords -------------------------------------------------------------------------------------------------

  /** The bytes a character takes in UTF-8. */
  function Utf8Length(c: char): nat
  {
    if c < '\U{80}' then 1 else if c < '\U{800}' then 2 else if c < '\U{10000}' then 3 else 4
  }

  function ByteLength(s: string): nat { if s == "" then 0 else Utf8Length(s[0]) + ByteLength(s[1..]) }

  /** unicode.IsControl. */
  predicate IsControl(c: char) { c < ' ' || '\U{7F}' <= c <= '\U{9F}' }

  /** validateVNCPassword: at most eight bytes, and one monitor token. */
  predicate ValidPassword(pw: string)
  {
    ByteLength(pw) <= 8 && forall i :: 0 <= i < |pw| ==> !IsControl(pw[i]) && !IsSpace(pw[i]) && pw[i] != '"'
  }

  predicate Graphic(c: char) { '!' <= c <= '~' }

  lemma {:induction false} BytesOfCharacters(s: string)
    ensures |s| <= ByteLength(s) <= 4 * |s|
    ensures (forall i :: 0 <= i < |s| ==> Graphic(s[i])) ==> ByteLength(s) == |s|
  {
    if s != "" {
      BytesOfCharacters(s[1..]);
      assert forall i :: 0 <= i < |s[1..]| ==> s[1..][i] == s[i + 1];
    }
  }

  /** Of the visible ASCII strings exactly those of up to eight characters without a quote are valid. */
  lemma GraphicPasswords(pw: string)
    requires forall i :: 0 <= i < |pw| ==> Graphic(pw[i])
    ensures ValidPassword(pw) <==> |pw| <= 8 && '"' !in pw
  {
    BytesOfCharacters(pw);
  }

  /** Whatever is valid is one token of one line: at most eight characters, no blank, no line end, no quote. */
  lemma ValidIsOneToken(pw: string)
    requires ValidPassword(pw)
    ensures |pw| <= 8 && ' ' !in pw && '\t' !in pw && '\n' !in pw && '\r' !in pw && '"' !in pw && '\0' !in pw
  {
    BytesOfCharacters(pw);
  }

  // ---- waiting for the prompt --------------------------------------------------------------------------------------

  /** What a connection has delivered after some reads. */
  function Concat(chunks: seq<string>): string
  {
    if chunks == [] then "" else Concat(chunks[..|chunks| - 1]) + chunks[|chunks| - 1]
  }

  /** acc is all that came in up to the first read that completed the marker, or all there was. */
  ghost predicate ReadsUntil(chunks: seq<string>, marker: string, acc: string, ok: bool)
  {
    exists n :: 0 <= n <= |chunks| && StopsAt(chunks, marker, acc, ok, n)
  }

  ghost predicate StopsAt(chunks: seq<string>, marker: string, acc: string, ok: bool, n: nat)
    requires n <= |chunks|
  {
    && acc == Concat(chunks[..n])
    && (if ok then n > 0 && Contains(acc, marker) && !Contains(Concat(chunks[..n - 1]), marker)
        else n == |chunks| && !Contains(acc, marker))
  }

  /** chunks are the results of successive reads; after the last one the connection fails. */
  method ReadUntil(chunks: seq<string>, marker: string) returns (acc: string, ok: bool)
    requires marker != ""
    ensures ReadsUntil(chunks, marker, acc, ok)
  {
    acc, ok := "", false;
    for i := 0 to |chunks|
      invariant acc == Concat(chunks[..i]) && !Contains(acc, marker)
    {
      acc := acc + chunks[i];
      assert chunks[..i + 1][..i] == chunks[..i];
      if Contains(acc, marker) {
        assert StopsAt(chunks, marker, acc, true, i + 1);
        return acc, true;
      }
    }
    assert StopsAt(chunks, marker, acc, false, |chunks|);
  }

  // ---- telling a reply from the echo --------------------------------------------------------------------------------

  /** A line that is neither blank nor a prompt. */
  predicate Loud(line: string) { TrimSpace(line) != "" && !HasPrefix(TrimSpace(line), PROMPT_WORD) }

  lemma {:induction false} TrimLeftStart(line: string)
    ensures TrimLeft(line) == "" || !IsSpace(TrimLeft(line)[0])
    ensures line != "" && !IsSpace(line[0]) ==> TrimLeft(line) == line
  {
    if line != "" { TrimLeftStart(line[1..]); }
  }

  lemma {:induction false} TrimRightKeepsStart(line: string)
    requires line != "" && !IsSpace(line[0])
    ensures TrimRight(line) != "" && TrimRight(line)[0] == line[0]
  {
    if IsSpace(line[|line| - 1]) { TrimRightKeepsStart(line[..|line| - 1]); }
  }

  /** Whatever the monitor says is noticed, unless it looks like a prompt from its first character on. */
  lemma SpeechIsLoud(line: string)
    requires line != "" && !IsSpace(line[0]) && line[0] != '('
    ensures Loud(line)
  {
    TrimLeftStart(line);
    TrimRightKeepsStart(line);
    assert PROMPT_WORD[0] == '(';
  }

  /** Some line is loud besides the first loud one, which alone may be the echo. */
  ghost predicate Replied(lines: seq<string>, echo: string)
  {
    exists i :: 0 <= i < |lines| && Loud(lines[i]) &&
      (!Contains(TrimSpace(lines[i]), echo) || exists j :: 0 <= j < i && Loud(lines[j]))
  }

  method HmpReplied(out: string, echo: string) returns (replied: bool)
    ensures replied <==> Replied(Split(out, '\n'), echo)
  {
    var echoed, lines := false, Split(out, '\n');
    for i := 0 to |lines|
      invariant echoed <==> exists j :: 0 <= j < i && Loud(lines[j])
      invariant forall j :: 0 <= j < i && Loud(lines[j]) ==>
                  Contains(TrimSpace(lines[j]), echo) && forall k :: 0 <= k < j ==> !Loud(lines[k])
    {
      var line := TrimSpace(lines[i]);
      if line == "" || HasPrefix(line, PROMPT_WORD) { continue; }
      if !echoed && Contains(line, echo) {
        echoed := true;
        continue;
      }
      return true;
    }
    return false;
  }

  // ---- what the monitor prints ----------------------------------------------------------------------------------------

  /** While a line is typed its readline shows it again and again: some prefix, then escape sequences. */
  datatype Redraw = Redraw(shown: nat, escape: string)

  /** What surrounds the finished line on its own line: blanks, then the redraws before it, and maybe an escape after it. */
  datatype Echo = Echo(lead: string, redraws: seq<Redraw>, tail: string)

  /** Escape text is never empty and is written in characters of its own. */
  predicate Invisible(escape: string)
  {
    escape != "" && forall i :: 0 <= i < |escape| ==> escape[i] !in PROMPT && escape[i] != '\n'
  }

  predicate EchoOk(e: Echo, line: string)
  {
    && (forall i :: 0 <= i < |e.lead| ==> e.lead[i] == ' ')
    && (forall i :: 0 <= i < |e.redraws| ==> e.redraws[i].shown <= |line| && Invisible(e.redraws[i].escape))
    && (e.tail == "" || Invisible(e.tail))
  }

  function RedrawText(redraws: seq<Redraw>, line: string): string
    requires forall i :: 0 <= i < |redraws| ==> redraws[i].shown <= |line|
  {
    if redraws == [] then "" else line[..redraws[0].shown] + redraws[0].escape + RedrawText(redraws[1..], line)
  }

  function EchoText(e: Echo, line: string): string
    requires EchoOk(e, line)
  {
    e.lead + RedrawText(e.redraws, line)
  }

  /** The echo of a line, then the reply, then the next prompt. */
  function Transcript(e: Echo, line: string, reply: string): string
    requires EchoOk(e, line)
  {
    Printed(EchoText(e, line), line + e.tail, reply)
  }

  function Printed(redraw: string, line: string, reply: string): string { redraw + line + "\r\n" + (reply + PROMPT) }

  function PasswordLine(pw: string): string { "set_password vnc " + pw }

  const POWERDOWN_LINE := "system_powerdown"

  /** A command line that starts with a letter no prompt holds, and holds no prompt itself. */
  predicate LineOk(line: string)
  {
    line != "" && line[0] !in PROMPT && !IsSpace(line[0]) && '\n' !in line && !Contains(line, PROMPT)
  }

  /** Text that keeps to one line, holds no whole prompt and does not begin with one. */
  ghost predicate PlainRedraw(redraw: string, line: string)
  {
    '\n' !in redraw && !Contains(redraw, PROMPT) && !HasPrefix(TrimSpace(redraw + line + "\r"), PROMPT_WORD)
  }

  lemma NotPrompt(s: string, i: int, k: nat)
    requires k < |PROMPT| && 0 <= i && i + k < |s| && s[i + k] != PROMPT[k]
    ensures !OccursAt(s, PROMPT, i)
  {
    if i + |PROMPT| <= |s| { assert s[i..i + |PROMPT|][k] == s[i + k]; }
  }

  lemma PromptLetters(k: nat)
    requires k < |PROMPT|
    ensures PROMPT[k] == '(' <==> k == 0
    ensures PROMPT[k] == ' ' <==> k == 6
  {
  }

  /** A character that no prompt holds keeps prompts on its either side. */
  lemma Barrier(a: string, c: char, b: string)
    requires c !in PROMPT && !Contains(a, PROMPT) && !Contains(b, PROMPT)
    ensures !Contains(a + [c] + b, PROMPT)
  {
    var s := a + [c] + b;
    forall i | 0 <= i && i + |PROMPT| <= |s| ensures !OccursAt(s, PROMPT, i) {
      if i + |PROMPT| <= |a| {
        assert a[i..i + |PROMPT|] == s[i..i + |PROMPT|];
        assert !OccursAt(a, PROMPT, i);
      } else if i > |a| {
        var j := i - |a| - 1;
        assert s[|a| + 1..] == b;
        assert b[j..j + |PROMPT|] == s[i..i + |PROMPT|];
        assert !OccursAt(b, PROMPT, j);
      } else {
        PromptLetters(|a| - i);
        NotPrompt(s, i, |a| - i);
      }
    }
  }

  /** Neither a password nor what precedes it on its line completes a prompt, not even a password spelling one. */
  lemma LineHoldsNoPrompt(pw: string)
    requires ValidPassword(pw)
    ensures !Contains("et_password vnc " + pw, PROMPT)
  {
    var s := "et_password vnc " + pw;
    forall i | 0 <= i && i + |PROMPT| <= |s| ensures !OccursAt(s, PROMPT, i) {
      if i < 16 {
        assert s[i] != '(' by { assert s[i] == "et_password vnc "[i]; }
        NotPrompt(s, i, 0);
      } else {
        assert s[i + 6] == pw[i + 6 - 16];
        assert !IsSpace(pw[i + 6 - 16]);
        NotPrompt(s, i, 6);
      }
    }
  }

  /** Up to its last character, a reply and its prompt hold no whole prompt. */
  lemma OnlyTheLastPrompt(reply: string)
    requires !Contains(reply, PROMPT)
    ensures !Contains(reply + PROMPT_WORD, PROMPT)
  {
    var s := reply + PROMPT_WORD;
    forall i | 0 <= i && i + |PROMPT| <= |s| ensures !OccursAt(s, PROMPT, i) {
      if i + |PROMPT| <= |reply| {
        assert reply[i..i + |PROMPT|] == s[i..i + |PROMPT|];
        assert !OccursAt(reply, PROMPT, i);
      } else {
        PromptLetters(|reply| - i);
        assert s[|reply|] == '(';
        NotPrompt(s, i, |reply| - i);
      }
    }
  }

  lemma PrintedShowsOnePrompt(redraw: string, line: string, reply: string)
    requires LineOk(line) && !Contains(redraw, PROMPT) && !Contains(reply, PROMPT)
    ensures var t := Printed(redraw, line, reply); !Contains(t[..|t| - 1], PROMPT) && Contains(t, PROMPT)
  {
    var t := Printed(redraw, line, reply);
    var tail, body := reply + PROMPT_WORD, line[1..];
    OnlyTheLastPrompt(reply);
    assert [line[0]] + body + "" == line;
    if Contains(body, PROMPT) { ContainsWithin([line[0]], body, "", PROMPT); }
    assert PROMPT == PROMPT_WORD + " " && line == [line[0]] + body;
    assert t[..|t| - 1] == redraw + [line[0]] + (body + ['\r'] + ([] + ['\n'] + tail));
    Barrier([], '\n', tail);
    Barrier(body, '\r', [] + ['\n'] + tail);
    Barrier(redraw, line[0], body + ['\r'] + ([] + ['\n'] + tail));
    assert t[|t| - |PROMPT|..|t| - |PROMPT| + |PROMPT|] == PROMPT;
    assert OccursAt(t, PROMPT, |t| - |PROMPT|);
  }

  lemma ContainsInLonger(a: string, b: string)
    requires a <= b && Contains(a, PROMPT)
    ensures Contains(b, PROMPT)
  {
    ContainsWithin("", a, b[|a|..], PROMPT);
    assert "" + a + b[|a|..] == b;
  }

  // ---- the echo --------------------------------------------------------------------------------------------------------

  lemma {:induction false} InvisibleThen(escape: string, b: string)
    requires forall i :: 0 <= i < |escape| ==> escape[i] !in PROMPT
    requires !Contains(b, PROMPT)
    ensures !Contains(escape + b, PROMPT)
  {
    if escape == "" {
      assert escape + b == b;
    } else {
      InvisibleThen(escape[1..], b);
      Barrier([], escape[0], escape[1..] + b);
      assert escape + b == [] + [escape[0]] + (escape[1..] + b);
    }
  }

  /** No prompt starts in text without a parenthesis. */
  lemma LeadThen(lead: string, b: string)
    requires '(' !in lead && !Contains(b, PROMPT)
    ensures !Contains(lead + b, PROMPT)
  {
    var s := lead + b;
    forall i | 0 <= i && i + |PROMPT| <= |s| ensures !OccursAt(s, PROMPT, i) {
      if i < |lead| {
        NotPrompt(s, i, 0);
      } else {
        assert s[|lead|..] == b;
        assert b[i - |lead|..i - |lead| + |PROMPT|] == s[i..i + |PROMPT|];
        assert !OccursAt(b, PROMPT, i - |lead|);
      }
    }
  }

  lemma {:induction false} RedrawsHoldNoPrompt(redraws: seq<Redraw>, line: string)
    requires LineOk(line) && EchoOk(Echo("", redraws, ""), line)
    ensures !Contains(RedrawText(redraws, line), PROMPT) && '\n' !in RedrawText(redraws, line)
  {
    if redraws != [] {
      var r := redraws[0];
      RedrawsHoldNoPrompt(redraws[1..], line);
      var rest := RedrawText(redraws[1..], line);
      if Contains(line[..r.shown], PROMPT) { ContainsInLonger(line[..r.shown], line); }
      assert Invisible(r.escape);
      InvisibleThen(r.escape[1..], rest);
      Barrier(line[..r.shown], r.escape[0], r.escape[1..] + rest);
      assert RedrawText(redraws, line) == line[..r.shown] + [r.escape[0]] + (r.escape[1..] + rest);
    }
  }

  lemma InvisibleOpensNothing(escape: string)
    requires Invisible(escape)
    ensures '(' !in escape
  {
    assert PROMPT[0] == '(';
  }

  lemma ShownFirst(line: string, k: nat, rest: string)
    requires 0 < k <= |line|
    ensures line[..k] + rest == "" + [line[0]] + (line[1..k] + rest)
  {
  }

  lemma Reassociate(a: string, b: string, c: string, d: string)
    ensures a + b + c + d == a + (b + (c + d))
  {
  }

  lemma Regroup(a: string, b: string, c: char, d: string)
    ensures a + (b + [c] + d) == (a + b) + [c] + d
  {
  }

  /** The first letter of the line comes before any parenthesis in its echo. */
  lemma {:induction false} LetterFirst(redraws: seq<Redraw>, line: string) returns (a: string, b: string)
    requires line != "" && forall i :: 0 <= i < |redraws| ==> redraws[i].shown <= |line| && '(' !in redraws[i].escape
    ensures '(' !in a && RedrawText(redraws, line) + line == a + [line[0]] + b
  {
    if redraws == [] {
      a, b := "", line[1..];
    } else {
      var r, more := redraws[0], RedrawText(redraws[1..], line) + line;
      Reassociate(line[..r.shown], r.escape, RedrawText(redraws[1..], line), line);
      if r.shown > 0 {
        a, b := "", line[1..r.shown] + (r.escape + more);
        ShownFirst(line, r.shown, r.escape + more);
      } else {
        var later;
        later, b := LetterFirst(redraws[1..], line);
        a := r.escape + later;
        Regroup(r.escape, later, line[0], b);
      }
    }
  }

  lemma {:induction false} LetterStays(a: string, c: char, b: string)
    requires '(' !in a && c != '(' && !IsSpace(c)
    ensures TrimLeft(a + [c] + b) != "" && TrimLeft(a + [c] + b)[0] != '('
  {
    var s := a + [c] + b;
    if a != "" && IsSpace(a[0]) {
      assert s[1..] == a[1..] + [c] + b;
      LetterStays(a[1..], c, b);
    }
  }

  /** What follows the line's last redraw leaves it a line. */
  lemma TailKeepsLine(line: string, tail: string)
    requires LineOk(line) && (tail == "" || Invisible(tail))
    ensures LineOk(line + tail)
  {
    if tail == "" {
      assert line + tail == line;
    } else {
      InvisibleThen(tail[1..], "");
      assert tail[1..] + "" == tail[1..];
      Barrier(line, tail[0], tail[1..]);
      assert line + tail == line + [tail[0]] + tail[1..];
    }
  }

  /** An echo of any shape keeps to its line, holds no whole prompt, and does not begin with one. */
  lemma EchoIsPlain(e: Echo, line: string)
    requires LineOk(line) && EchoOk(e, line)
    ensures LineOk(line + e.tail) && PlainRedraw(EchoText(e, line), line + e.tail)
  {
    TailKeepsLine(line, e.tail);
    RedrawsHoldNoPrompt(e.redraws, line);
    LeadThen(e.lead, RedrawText(e.redraws, line));
    forall i | 0 <= i < |e.redraws| ensures '(' !in e.redraws[i].escape { InvisibleOpensNothing(e.redraws[i].escape); }
    var a, b := LetterFirst(e.redraws, line);
    var s := EchoText(e, line) + (line + e.tail) + "\r";
    assert s == (e.lead + a) + [line[0]] + (b + e.tail + "\r") by {
      assert s == e.lead + (RedrawText(e.redraws, line) + line) + e.tail + "\r";
    }
    assert PROMPT[0] == '(';
    LetterStays(e.lead + a, line[0], b + e.tail + "\r");
    TrimRightIsPrefix(TrimLeft(s));
  }

  /** A valid password's command line, even of a password that spells the prompt, holds no prompt. */
  lemma PasswordLineOk(pw: string)
    requires ValidPassword(pw)
    ensures LineOk(PasswordLine(pw))
  {
    var line := PasswordLine(pw);
    LineHoldsNoPrompt(pw);
    Barrier([], 's', "et_password vnc " + pw);
    assert line == [] + ['s'] + ("et_password vnc " + pw);
    forall i | 0 <= i < |line| ensures line[i] != '\n' {
      if i < 17 { assert line[i] == "set_password vnc "[i]; } else { assert line[i] == pw[i - 17]; }
    }
  }

  lemma PowerdownLineOk()
    ensures LineOk(POWERDOWN_LINE)
  {
    LeadThen(POWERDOWN_LINE, "");
    assert POWERDOWN_LINE + "" == POWERDOWN_LINE;
  }

  /** Before its last character the transcript of a command has not shown a prompt, however its line was redrawn. */
  lemma TranscriptShowsOnePrompt(e: Echo, line: string, reply: string)
    requires LineOk(line) && EchoOk(e, line) && !Contains(reply, PROMPT)
    ensures var t := Transcript(e, line, reply); !Contains(t[..|t| - 1], PROMPT) && Contains(t, PROMPT)
  {
    EchoIsPlain(e, line);
    PrintedShowsOnePrompt(EchoText(e, line), line + e.tail, reply);
  }

  lemma {:induction false} ConcatPrefix(chunks: seq<string>, n: nat)
    requires n <= |chunks|
    ensures Concat(chunks[..n]) <= Concat(chunks)
  {
    if n < |chunks| {
      var k := |chunks| - 1;
      ConcatPrefix(chunks[..k], n);
      assert chunks[..k][..n] == chunks[..n];
    } else {
      assert chunks[..n] == chunks;
    }
  }

  /** However the transcript is cut into reads, the wait ends with all of it, and never before its end. */
  lemma WaitsForTheWholeTranscript(chunks: seq<string>, e: Echo, line: string, reply: string, acc: string, ok: bool)
    requires LineOk(line) && EchoOk(e, line) && !Contains(reply, PROMPT) && ReadsUntil(chunks, PROMPT, acc, ok)
    ensures Concat(chunks) == Transcript(e, line, reply) ==> ok && acc == Concat(chunks)
    ensures Concat(chunks) < Transcript(e, line, reply) ==> !ok
    ensures Transcript(e, line, reply) <= Concat(chunks) ==> ok && Transcript(e, line, reply) <= acc
  {
    TranscriptShowsOnePrompt(e, line, reply);
    WaitsForOnePrompt(chunks, Transcript(e, line, reply), acc, ok);
  }

  lemma WaitsForOnePrompt(chunks: seq<string>, t: string, acc: string, ok: bool)
    requires t != "" && !Contains(t[..|t| - 1], PROMPT) && Contains(t, PROMPT) && ReadsUntil(chunks, PROMPT, acc, ok)
    ensures Concat(chunks) == t ==> ok && acc == t
    ensures Concat(chunks) < t ==> !ok
    ensures t <= Concat(chunks) ==> ok && t <= acc
  {
    var n :| 0 <= n <= |chunks| && StopsAt(chunks, PROMPT, acc, ok, n);
    ConcatPrefix(chunks, n);
    assert chunks[..|chunks|] == chunks;
    if t <= Concat(chunks) { ContainsInLonger(t, Concat(chunks)); }
    if ok && |acc| < |t| && (t <= Concat(chunks) || Concat(chunks) <= t) {
      assert acc <= t[..|t| - 1];
      ContainsInLonger(acc, t[..|t| - 1]);
    }
  }

  // ---- lines of the transcript -------------------------------------------------------------------------------------------

  /** Text appended to the last of some lines. */
  function ExtendLast(lines: seq<string>, x: string): seq<string>
    requires |lines| > 0
  {
    lines[..|lines| - 1] + [lines[|lines| - 1] + x]
  }

  lemma ExtendLastOfMore(first: string, c: string, rest: seq<string>, x: string)
    requires |rest| > 0
    ensures ExtendLast([first] + rest, x) == [first] + ExtendLast(rest, x)
    ensures var grown := ExtendLast(rest, x); [c + grown[0]] + grown[1..] == ExtendLast([c + rest[0]] + rest[1..], x)
  {
    assert c + (rest[0] + x) == c + rest[0] + x;
    var grown, was := ExtendLast(rest, x), [c + rest[0]] + rest[1..];
    assert |grown| == |rest| == |was|;
    if |rest| > 1 { assert grown[0] == rest[0] && grown[1..] == rest[1..|rest| - 1] + [rest[|rest| - 1] + x]; }
  }

  lemma {:induction false} SplitExtend(s: string, x: string)
    requires '\n' !in x
    ensures Split(s + x, '\n') == ExtendLast(Split(s, '\n'), x)
  {
    if s == "" {
      assert s + x == x;
      SplitNoSeparator(x, '\n');
    } else {
      assert (s + x)[1..] == s[1..] + x && (s + x)[0] == s[0];
      SplitExtend(s[1..], x);
      ExtendLastOfMore("", [s[0]], Split(s[1..], '\n'), x);
    }
  }

  lemma {:induction false} TrimLeftAppend(s: string, x: string)
    requires x != "" && !IsSpace(x[0])
    ensures TrimLeft(s + x) == TrimLeft(s) + x
  {
    if s == "" {
      assert s + x == x;
    } else {
      assert (s + x)[1..] == s[1..] + x;
      if IsSpace(s[0]) { TrimLeftAppend(s[1..], x); }
    }
  }

  lemma {:induction false} TrimRightIsPrefix(s: string)
    ensures TrimRight(s) <= s
    ensures forall i :: |TrimRight(s)| <= i < |s| ==> IsSpace(s[i])
    ensures TrimRight(s) != "" ==> !IsSpace(TrimRight(s)[|TrimRight(s)| - 1])
  {
    if s != "" && IsSpace(s[|s| - 1]) { TrimRightIsPrefix(s[..|s| - 1]); }
  }

  lemma {:induction false} TrimLeftStartsLoud(s: string)
    ensures TrimLeft(s) != "" ==> !IsSpace(TrimLeft(s)[0])
  {
    if s != "" && IsSpace(s[0]) { TrimLeftStartsLoud(s[1..]); }
  }

  lemma PrefixSurvivesTrim(t: string)
    ensures HasPrefix(TrimRight(t), PROMPT_WORD) <==> HasPrefix(t, PROMPT_WORD)
  {
    TrimRightIsPrefix(t);
    if HasPrefix(t, PROMPT_WORD) {
      assert !IsSpace(t[5]) by { assert t[..6][5] == t[5]; }
      assert |TrimRight(t)| >= 6;
      assert TrimRight(t)[..6] == t[..6];
    }
    if HasPrefix(TrimRight(t), PROMPT_WORD) { assert TrimRight(t)[..6] == t[..6]; }
  }

  /** The prompt that follows the reply's last line neither adds to it nor hides it. */
  lemma LastLine(line: string)
    ensures Loud(line + PROMPT) <==> Loud(line)
  {
    var t := TrimLeft(line);
    TrimLeftAppend(line, PROMPT);
    TrimLeftStartsLoud(line);
    var u := t + PROMPT;
    assert u[..|u| - 1] == t + PROMPT_WORD && IsSpace(u[|u| - 1]);
    assert TrimRight(t + PROMPT_WORD) == t + PROMPT_WORD;
    assert TrimSpace(line + PROMPT) == t + PROMPT_WORD;
    PrefixSurvivesTrim(t);
    TrimRightIsPrefix(t);
    var v := t + PROMPT_WORD;
    if t == "" {
      assert v[..6] == PROMPT_WORD;
    } else if |t| >= 6 {
      assert v[..6] == t[..6];
    } else {
      assert v[|t|] == '(' && PROMPT_WORD[|t|] != '(';
      assert v[..6][|t|] == v[|t|];
    }
  }

  /** Trimming from the right stops at the last character that is no blank, if not before. */
  lemma {:induction false} TrimRightKeeps(a: string, b: string)
    requires a != "" && !IsSpace(a[|a| - 1])
    ensures |TrimRight(a + b)| >= |a| && TrimRight(a + b)[..|a|] == a
  {
    var s := a + b;
    if b == "" {
      assert s == a;
    } else if IsSpace(s[|s| - 1]) {
      assert s[..|s| - 1] == a + b[..|b| - 1];
      TrimRightKeeps(a, b[..|b| - 1]);
    }
  }

  /** However a line is led in and followed, trimming keeps all of it. */
  lemma TrimKeepsLine(redraw: string, line: string, after: string) returns (rest: string)
    requires line != "" && !IsSpace(line[|line| - 1]) && !IsSpace(line[0])
    ensures TrimSpace(redraw + (line + after)) == TrimLeft(redraw) + line + rest
  {
    var v := TrimLeft(redraw) + line;
    TrimLeftAppend(redraw, line + after);
    assert TrimLeft(redraw + (line + after)) == v + after && v[|v| - 1] == line[|line| - 1];
    TrimRightKeeps(v, after);
    rest := TrimSpace(redraw + (line + after))[|v|..];
  }

  lemma EchoLine(redraw: string, line: string, tail: string, echo: string)
    requires PlainRedraw(redraw, line + tail) && line != "" && !IsSpace(line[|line| - 1]) && !IsSpace(line[0]) && Contains(line, echo)
    ensures Loud(redraw + (line + tail) + "\r") && Contains(TrimSpace(redraw + (line + tail) + "\r"), echo)
  {
    assert redraw + (line + tail) + "\r" == redraw + (line + (tail + "\r"));
    var rest := TrimKeepsLine(redraw, line, tail + "\r");
    ContainsWithin(TrimLeft(redraw), line, rest, echo);
  }

  /** The lines of the transcript: the echo, then the reply's lines, of which only the last gains the prompt. */
  lemma TranscriptLines(redraw: string, line: string, reply: string)
    requires '\n' !in redraw && '\n' !in line
    ensures var lines, theirs := Split(Printed(redraw, line, reply), '\n'), Split(reply, '\n');
      && |lines| == |theirs| + 1 && lines[0] == redraw + line + "\r"
      && forall k :: 0 <= k < |theirs| ==> Loud(lines[k + 1]) == Loud(theirs[k])
  {
    var first, rest, theirs := redraw + line + "\r", Split(reply + PROMPT, '\n'), Split(reply, '\n');
    assert Printed(redraw, line, reply) == first + ['\n'] + (reply + PROMPT);
    SplitAtSeparator(first, '\n', reply + PROMPT);
    SplitExtend(reply, PROMPT);
    var n := |theirs| - 1;
    LastLine(theirs[n]);
    forall k | 0 <= k < |theirs| ensures Loud(([first] + rest)[k + 1]) == Loud(theirs[k]) {
      assert ([first] + rest)[k + 1] == rest[k];
      if k < n { assert rest[k] == rest[..n][k] == theirs[..n][k]; }
    }
  }

  lemma RepliedAfterEcho(lines: seq<string>, echo: string)
    requires |lines| > 0 && Loud(lines[0]) && Contains(TrimSpace(lines[0]), echo)
    ensures Replied(lines, echo) <==> exists i :: 1 <= i < |lines| && Loud(lines[i])
  {
    if i :| 1 <= i < |lines| && Loud(lines[i]) { assert Loud(lines[0]); }
  }

  lemma LoudReply(redraw: string, line: string, tail: string, reply: string, echo: string)
    requires PlainRedraw(redraw, line + tail) && LineOk(line) && LineOk(line + tail) && !IsSpace(line[|line| - 1]) && Contains(line, echo)
    ensures Replied(Split(Printed(redraw, line + tail, reply), '\n'), echo)
       <==> exists k :: 0 <= k < |Split(reply, '\n')| && Loud(Split(reply, '\n')[k])
  {
    var lines, theirs := Split(Printed(redraw, line + tail, reply), '\n'), Split(reply, '\n');
    TranscriptLines(redraw, line + tail, reply);
    EchoLine(redraw, line, tail, echo);
    RepliedAfterEcho(lines, echo);
    if k :| 0 <= k < |theirs| && Loud(theirs[k]) { assert Loud(lines[k + 1]); }
    if i :| 1 <= i < |lines| && Loud(lines[i]) { assert Loud(theirs[i - 1]); }
  }

  /** Whatever the reply and the redraws, a reply is noticed exactly when a line of it is neither blank nor a prompt. */
  lemma RepliedExactlyWhenTheReplyIsLoud(e: Echo, line: string, reply: string, echo: string)
    requires LineOk(line) && EchoOk(e, line) && !IsSpace(line[|line| - 1]) && Contains(line, echo)
    ensures Replied(Split(Transcript(e, line, reply), '\n'), echo)
       <==> exists k :: 0 <= k < |Split(reply, '\n')| && Loud(Split(reply, '\n')[k])
  {
    EchoIsPlain(e, line);
    LoudReply(EchoText(e, line), line, e.tail, reply, echo);
  }

  // ---- set_password ------------------------------------------------------------------------------------------------------

  datatype Error = NoPrompt | SendFailed | Closed | Rejected

  /** One command: wait for the first prompt, send the line, wait for the next prompt. */
  method HmpCommand(greeting: seq<string>, sent: bool, answer: seq<string>) returns (r: Result<string, Error>)
    ensures r == Err(NoPrompt) <==> ReadsUntil(greeting, PROMPT, Concat(greeting), false)
    ensures r.Ok? ==> sent && ReadsUntil(answer, PROMPT, r.value, true)
    ensures r == Err(Closed) ==> ReadsUntil(answer, PROMPT, Concat(answer), false)
    ensures r == Err(SendFailed) ==> !sent
    ensures r != Err(Rejected)
  {
    var banner, ready := ReadUntil(greeting, PROMPT);
    WaitEndsOneWay(greeting, banner, ready);
    if !ready { return Err(NoPrompt); }
    if !sent { return Err(SendFailed); }
    var out, ok := ReadUntil(answer, PROMPT);
    if !ok {
      WaitEndsOneWay(answer, out, ok);
      return Err(Closed);
    }
    return Ok(out);
  }

  lemma WaitEndsOneWay(chunks: seq<string>, acc: string, ok: bool)
    requires ReadsUntil(chunks, PROMPT, acc, ok)
    ensures ReadsUntil(chunks, PROMPT, Concat(chunks), false) <==> !ok
    ensures !ok ==> acc == Concat(chunks)
  {
    assert chunks[..|chunks|] == chunks;
    var n :| 0 <= n <= |chunks| && StopsAt(chunks, PROMPT, acc, ok, n);
    ConcatPrefix(chunks, n);
    if ok { ContainsInLonger(acc, Concat(chunks)); }
  }

  /** One command that succeeds silently: any loud reply is its rejection. */
  method SilentCommand(line: string, echo: string, greeting: seq<string>, sent: bool, answer: seq<string>, ghost e: Echo, ghost reply: string)
    returns (r: Result<(), Error>)
    requires LineOk(line) && !IsSpace(line[|line| - 1]) && Contains(line, echo)
    ensures r.Ok? ==> sent
    ensures sent && Contains(Concat(greeting), PROMPT) && AnsweredBy(answer, e, line, reply) ==> (r.Ok? <==> !LoudText(reply))
  {
    var out := HmpCommand(greeting, sent, answer);
    if out.Err? {
      match out.error {
        case NoPrompt => NotSeen(greeting);
        case SendFailed =>
        case Closed =>
          if AnsweredBy(answer, e, line, reply) {
            WaitsForTheWholeTranscript(answer, e, line, reply, Concat(answer), false);
          }
      }
      return Err(out.error);
    }
    if AnsweredBy(answer, e, line, reply) {
      WaitsForTheWholeTranscript(answer, e, line, reply, out.value, true);
      RepliedExactlyWhenTheReplyIsLoud(e, line, reply, echo);
    }
    var replied := HmpReplied(out.value, echo);
    return if replied then Err(Rejected) else Ok(());
  }

  /** The monitor echoed the line in some way and then printed this reply, in any number of pieces. */
  ghost predicate AnsweredBy(answer: seq<string>, e: Echo, line: string, reply: string)
  {
    EchoOk(e, line) && !Contains(reply, PROMPT) && Concat(answer) == Transcript(e, line, reply)
  }

  ghost predicate LoudText(reply: string) { exists k :: 0 <= k < |Split(reply, '\n')| && Loud(Split(reply, '\n')[k]) }

  /** setVNCPassword: a valid password is set unless the monitor printed a loud reply. */
  method SetVNCPassword(pw: string, greeting: seq<string>, sent: bool, answer: seq<string>, ghost e: Echo, ghost reply: string)
    returns (r: Result<(), Error>)
    requires ValidPassword(pw) && pw != ""
    ensures r.Ok? ==> sent
    ensures sent && Contains(Concat(greeting), PROMPT) && AnsweredBy(answer, e, PasswordLine(pw), reply) ==>
              (r.Ok? <==> !LoudText(reply))
  {
    PasswordLineOk(pw);
    PasswordLineShape(pw);
    r := SilentCommand(PasswordLine(pw), "set_password ", greeting, sent, answer, e, reply);
  }

  /** The request of powerDown: it reached the guest unless the monitor printed a loud reply. */
  method RequestPowerDown(greeting: seq<string>, sent: bool, answer: seq<string>, ghost e: Echo, ghost reply: string)
    returns (r: Result<(), Error>)
    ensures r.Ok? ==> sent
    ensures sent && Contains(Concat(greeting), PROMPT) && AnsweredBy(answer, e, POWERDOWN_LINE, reply) ==>
              (r.Ok? <==> !LoudText(reply))
  {
    PowerdownLineOk();
    assert OccursAt(POWERDOWN_LINE, POWERDOWN_LINE, 0);
    r := SilentCommand(POWERDOWN_LINE, POWERDOWN_LINE, greeting, sent, answer, e, reply);
  }

  lemma NotSeen(chunks: seq<string>)
    requires ReadsUntil(chunks, PROMPT, Concat(chunks), false)
    ensures !Contains(Concat(chunks), PROMPT)
  {
    assert chunks[..|chunks|] == chunks;
  }

  lemma PasswordLineShape(pw: string)
    requires ValidPassword(pw) && pw != ""
    ensures var line := PasswordLine(pw); !IsSpace(line[|line| - 1]) && Contains(line, "set_password ") && line[17..] == pw
    ensures POWERDOWN_LINE == "system_powerdown"
  {
    var line := PasswordLine(pw);
    assert line[..13] == "set_password ";
    assert OccursAt(line, "set_password ", 0);
    assert line[|line| - 1] == pw[|pw| - 1];
  }
}
