/** What a configuration file means when its last line has no line break: exactly when the line is misread,
    and as what. */
module ConfigLastLine {
  import opened ConfigText
  import opened ConfigRoundTrip

  /** Complete lines: nothing, or a text that ends with a line break. */
  predicate Lines(body: string) {
    body == "" || body[|body| - 1] == '\n'
  }

  /** A line that goes on with an open value. */
  predicate Continues(line: string) {
    !Blank(Cut(line)) && DELIM !in Cut(line)
  }

  /** Whether a value is open after these lines: a line with a delimiter opens one, a blank line closes it. */
  predicate OpenAfter(body: string, open: bool)
    decreases |body|
  {
    if body == "" then open
    else
      var i := Find(body, '\n');
      var line := body[..i];
      OpenAfter(if i < |body| then body[i + 1..] else "", DELIM in Cut(line) || (open && !Blank(line)))
  }

  // ---- reading complete lines does not depend on what follows ----

  /** Where the continuation of a value stands at the end of the lines: ended at one of them, or still open. */
  datatype Continued =
    | Ended(rest: string, ahead: string, value: string)
    | StillOpen(ahead: string, value: string)

  function ContinueLines(body: string, was: string, line: string): (c: Continued)
    ensures c.Ended? ==> |c.rest| < |body|
    decreases |body|
  {
    if body == "" then StillOpen(was, line)
    else
      var i := Find(body, '\n');
      var read := body[..i];
      var more := if i < |body| then body[i + 1..] else "";
      if Trim(read) == "" then Ended(more, read, line)
      else
        var cut := Cut(read);
        if DELIM in cut then Ended(more, cut, line)
        else ContinueLines(more, cut, line + (if Trim(cut) != "" then "\n" else "") + cut)
  }

  /** Where reading stands at the end of the lines: between values, or in the value of a key. */
  datatype Stand =
    | Between(m: Contents)
    | InValue(key: Key, ahead: string, value: string, m: Contents)

  function ParseLines(body: string, nextline: string, m: Contents): Stand
    decreases |body|, 2 * |nextline|
  {
    if nextline != "" then ParseOneLine(body, nextline, m)
    else if body == "" then Between(m)
    else
      var i := Find(body, '\n');
      ParseOneLine(if i < |body| then body[i + 1..] else "", body[..i], m)
  }

  function ParseOneLine(body: string, read: string, m: Contents): Stand
    decreases |body|, if read == "" then 1 else 2 * |read| - 1
  {
    var line := Cut(read);
    var p := Find(line, DELIM);
    if p < |line| then
      match ContinueLines(body, "", line[p + 1..])
      case Ended(rest, ahead, value) => ParseLines(rest, ahead, m[Trim(line[..p]) := Trim(value)])
      case StillOpen(ahead, value) => InValue(Trim(line[..p]), ahead, value, m)
    else ParseLines(body, "", m)
  }

  /** Going on from there with the end of the text. */
  function Resume(s: Stand, end: string): Contents {
    match s
    case Between(m) => Parse(Open(end), "", m)
    case InValue(key, ahead, value, m) =>
      var (s1, next, v) := Continue(Open(end), ahead, value);
      Parse(s1, next, m[key := Trim(v)])
  }

  lemma FoundIff(s: string, c: char)
    ensures Find(s, c) < |s| <==> c in s
  {
    if Find(s, c) == |s| {
      assert s[..|s|] == s;
    }
  }

  lemma HasBreak(body: string)
    requires Lines(body) && body != ""
    ensures Find(body, '\n') < |body|
  {
    FoundIff(body, '\n');
    assert body[|body| - 1] in body;
  }

  lemma SplitAt(body: string, i: nat, end: string)
    requires i < |body| && body[i] == '\n' && Lines(body)
    ensures body + end == body[..i] + "\n" + (body[i + 1..] + end)
    ensures Lines(body[i + 1..])
  {
    var more := body[i + 1..];
    assert body == body[..i] + "\n" + more;
    assert more != "" ==> more[|more| - 1] == body[|body| - 1];
  }

  /** The first of some complete lines. */
  lemma FirstOfLines(body: string, end: string, was: string)
    requires Lines(body) && body != ""
    ensures var i := Find(body, '\n');
            && i < |body| && Lines(body[i + 1..]) && '\n' !in body[..i]
            && GetLine(Open(body + end), was) == (Open(body[i + 1..] + end), body[..i])
  {
    hide GetLine;
    HasBreak(body);
    var i := Find(body, '\n');
    hide Find, Lines;
    SplitAt(body, i, end);
    GetsLine(body[..i], body[i + 1..] + end, was);
  }

  lemma {:induction false} ContinuesOver(body: string, end: string, was: string, line: string)
    requires Lines(body)
    ensures var c := ContinueLines(body, was, line);
            && (c.Ended? ==> Lines(c.rest) && Continue(Open(body + end), was, line) == (Open(c.rest + end), c.ahead, c.value))
            && (c.StillOpen? ==> Continue(Open(body + end), was, line) == Continue(Open(end), c.ahead, c.value))
    decreases |body|
  {
    hide GetLine, Trim, Cut, Find, Lines;
    if body == "" {
      assert body + end == end;
    } else {
      FirstOfLines(body, end, was);
      var i := Find(body, '\n');
      var cut := Cut(body[..i]);
      ContinuesOver(body[i + 1..], end, cut, line + (if Trim(cut) != "" then "\n" else "") + cut);
      ContinueOne(Open(body + end), was, line);
    }
  }

  lemma ContinueOne(s: Stream, was: string, line: string)
    requires !s.fail
    ensures var r := GetLine(s, was);
            var cut := Cut(r.1);
            Continue(s, was, line)
              == if Trim(r.1) == "" then (r.0, r.1, line)
                 else if DELIM in cut then (r.0, cut, line)
                 else Continue(r.0, cut, line + (if Trim(cut) != "" then "\n" else "") + cut)
  {
  }

  lemma {:induction false} ParsesOver(body: string, end: string, nextline: string, m: Contents)
    requires Lines(body)
    ensures Parse(Open(body + end), nextline, m) == Resume(ParseLines(body, nextline, m), end)
    decreases |body|, 2 * |nextline|
  {
    hide GetLine, Parse, ParseLine, ParseOneLine, Resume, Find, Lines;
    ParseUnfolds(Open(body + end), nextline, m);
    if nextline != "" {
      ParsesOneOver(body, end, nextline, m);
    } else if body == "" {
      assert body + end == end;
      ResumeBetween(end, m);
    } else {
      FirstOfLines(body, end, "");
      var i := Find(body, '\n');
      ParsesOneOver(body[i + 1..], end, body[..i], m);
    }
  }

  lemma ResumeBetween(end: string, m: Contents)
    ensures Resume(Between(m), end) == Parse(Open(end), "", m)
  {
  }

  lemma {:induction false} ParsesOneOver(body: string, end: string, read: string, m: Contents)
    requires Lines(body)
    ensures ParseLine(Open(body + end), read, m) == Resume(ParseOneLine(body, read, m), end)
    decreases |body|, if read == "" then 1 else 2 * |read| - 1
  {
    hide GetLine, Continue, ContinueLines, Parse, ParseLines, Trim, Cut, Lines;
    var line := Cut(read);
    var p := Find(line, DELIM);
    if p < |line| {
      ContinuesOver(body, end, "", line[p + 1..]);
      var c := ContinueLines(body, "", line[p + 1..]);
      if c.Ended? {
        ParsesOver(c.rest, end, c.ahead, m[Trim(line[..p]) := Trim(c.value)]);
      }
    } else {
      ParsesOver(body, end, "", m);
    }
  }

  // ---- when a value is open ----

  lemma CutTwice(read: string)
    ensures Cut(Cut(read)) == Cut(read)
  {
    FindNone(Cut(read), COMMENT);
  }

  lemma {:induction false} ContinuedIsOpen(body: string, was: string, line: string)
    requires Lines(body)
    ensures var c := ContinueLines(body, was, line);
            && (c.StillOpen? ==> OpenAfter(body, true))
            && (c.Ended? ==> Lines(c.rest) && (OpenAfter(body, true) <==> OpenAfter(c.rest, DELIM in Cut(c.ahead))))
    decreases |body|
  {
    hide Trim, Cut, Find, Lines;
    if body != "" {
      FirstOfLines(body, "", was);
      var i := Find(body, '\n');
      var read := body[..i];
      TrimBlank(read);
      CutTwice(read);
      BlankHasNoDelimiter(read);
      var cut := Cut(read);
      ContinuedIsOpen(body[i + 1..], cut, line + (if Trim(cut) != "" then "\n" else "") + cut);
    }
  }

  lemma BlankHasNoDelimiter(read: string)
    ensures Blank(read) ==> DELIM !in Cut(read)
  {
  }

  lemma {:induction false} StandIsOpen(body: string, nextline: string, m: Contents)
    requires Lines(body)
    ensures ParseLines(body, nextline, m).InValue? <==> OpenAfter(body, DELIM in Cut(nextline))
    decreases |body|, 2 * |nextline|
  {
    hide Trim, Lines, Cut, Find;
    if nextline != "" {
      OneStandIsOpen(body, nextline, m);
    } else {
      BlankHasNoDelimiter("");
      if body != "" {
        FirstOfLines(body, "", "");
        var i := Find(body, '\n');
        OneStandIsOpen(body[i + 1..], body[..i], m);
      }
    }
  }

  lemma {:induction false} OneStandIsOpen(body: string, read: string, m: Contents)
    requires Lines(body)
    ensures ParseOneLine(body, read, m).InValue? <==> OpenAfter(body, DELIM in Cut(read))
    decreases |body|, if read == "" then 1 else 2 * |read| - 1
  {
    hide Trim, Lines, Cut, ContinueLines;
    var line := Cut(read);
    var p := Find(line, DELIM);
    FoundIff(line, DELIM);
    if p < |line| {
      var c := ContinueLines(body, "", line[p + 1..]);
      ContinuedIsOpen(body, "", line[p + 1..]);
      if c.Ended? {
        StandIsOpen(c.rest, c.ahead, m[Trim(line[..p]) := Trim(c.value)]);
      }
    } else {
      StandIsOpen(body, "", m);
      BlankHasNoDelimiter("");
    }
  }

  // ---- the last line ----

  const AT_END := Stream("", true, false)

  lemma LastGetLine(last: string, was: string)
    requires last != "" && '\n' !in last
    ensures GetLine(Open(last), was) == (AT_END, last)
    ensures GetLine(Open(last + "\n"), was) == (Open(""), last)
  {
    FindNone(last, '\n');
    GetsLine(last, "", was);
    assert last + "\n" + "" == last + "\n";
  }

  lemma ContinueAtEnd(line: string)
    ensures Continue(AT_END, "", line) == (END, "", line)
    ensures Continue(Open(""), "", line) == (END, "", line)
  {
  }

  /** A line with no more to come is read the same way whether or not the stream has met its end. */
  lemma LineAtEnd(read: string, m: Contents)
    ensures ParseLine(AT_END, read, m) == ParseLine(Open(""), read, m)
    ensures DELIM !in Cut(read) ==> ParseLine(AT_END, read, m) == m && ParseLine(Open(""), read, m) == m && ParseLine(END, read, m) == m
  {
    hide Continue, Trim, Cut;
    var line := Cut(read);
    var p := Find(line, DELIM);
    FoundIff(line, DELIM);
    if p < |line| {
      ContinueAtEnd(line[p + 1..]);
    } else {
      NothingLeft(m);
    }
  }

  lemma NothingLeft(m: Contents)
    ensures Parse(END, "", m) == m && Parse(AT_END, "", m) == m && Parse(Open(""), "", m) == m
  {
    assert GetLine(AT_END, "") == (END, "");
    assert GetLine(Open(""), "") == (END, "");
    EmptyLine(m);
  }

  lemma EmptyLine(m: Contents)
    ensures ParseLine(END, "", m) == m
  {
  }

  lemma BetweenSame(last: string, m: Contents)
    requires last != "" && '\n' !in last
    ensures Resume(Between(m), last) == Resume(Between(m), last + "\n")
  {
    hide GetLine, ParseLine;
    LastGetLine(last, "");
    LineAtEnd(last, m);
  }

  /** A line that does not continue the value ends it, the same with and without a line break. */
  lemma EndsValueSame(last: string, key: Key, ahead: string, value: string, m: Contents)
    requires last != "" && '\n' !in last && (Trim(last) == "" || DELIM in Cut(last))
    ensures Resume(InValue(key, ahead, value, m), last) == Resume(InValue(key, ahead, value, m), last + "\n")
  {
    hide GetLine, ParseLine, Trim, Cut;
    LastGetLine(last, ahead);
    ContinueOne(Open(last), ahead, value);
    ContinueOne(Open(last + "\n"), ahead, value);
    var n := m[key := Trim(value)];
    if Trim(last) == "" {
      LineAtEnd(last, n);
    } else {
      LineAtEnd(Cut(last), n);
    }
  }

  /** A comment behind nothing but blanks only adds blanks to the value. */
  lemma BlankCutSame(last: string, key: Key, ahead: string, value: string, m: Contents)
    requires last != "" && '\n' !in last && Trim(last) != "" && DELIM !in Cut(last) && Blank(Cut(last))
    ensures Resume(InValue(key, ahead, value, m), last) == Resume(InValue(key, ahead, value, m), last + "\n")
  {
    hide GetLine, Trim, Cut, ParseLine;
    var cut := Cut(last);
    TrimBlank(cut);
    CutTwice(last);
    LastGetLine(last, ahead);
    ContinueOne(Open(last), ahead, value);
    ContinueOne(Open(last + "\n"), ahead, value);
    assert value + "" + cut == value + cut;
    var n := m[key := Trim(value + cut)];
    CutAgainAtEnd(cut, value + cut);
    LineAtEnd(cut, n);
    NothingLeft(n);
  }

  /** What a continuation comes to when the stream has met its end: the string still holds the line. */
  lemma CutAgainAtEnd(cut: string, value: string)
    requires Cut(cut) == cut && DELIM !in cut
    ensures Continue(AT_END, cut, value)
         == (END, cut, if Blank(cut) then value else value + "\n" + cut)
    ensures Continue(Open(""), cut, value) == (END, "", value)
  {
    hide Cut;
    TrimBlank(cut);
    assert GetLine(AT_END, cut) == (END, cut);
    assert GetLine(Open(""), cut) == (END, "");
  }

  /** With a line break the line is taken once, without one twice, as if it stood there a second time. */
  lemma TakenTwice(last: string, key: Key, ahead: string, value: string, m: Contents)
    requires last != "" && '\n' !in last && Continues(last)
    ensures var s := InValue(key, ahead, value, m);
            var cut := Cut(last);
            && Resume(s, last + "\n") == m[key := Trim(value + "\n" + cut)]
            && Resume(s, last) == m[key := Trim(value + "\n" + cut + "\n" + cut)]
            && Resume(s, last + "\n" + cut + "\n") == Resume(s, last)
  {
    hide GetLine, Trim, Cut, ParseLine, Blank;
    var cut := Cut(last);
    LastIsNotBlank(last);
    CutTwice(last);
    LastGetLine(last, ahead);
    ContinueOne(Open(last), ahead, value);
    ContinueOne(Open(last + "\n"), ahead, value);
    CutAgainAtEnd(cut, value + "\n" + cut);
    LineAtEnd(cut, m[key := Trim(value + "\n" + cut + "\n" + cut)]);
    NothingLeft(m[key := Trim(value + "\n" + cut)]);
    StandsTwice(last, ahead, value);
    NothingLeft(m[key := Trim(value + "\n" + cut + "\n" + cut)]);
  }

  lemma LastIsNotBlank(last: string)
    requires Continues(last)
    ensures Trim(last) != "" && Trim(Cut(last)) != "" && Cut(last) != "" && DELIM !in Cut(last) && !Blank(Cut(last))
  {
    TrimBlank(last);
    TrimBlank(Cut(last));
    assert Blank(last) ==> Blank(Cut(last));
  }

  lemma StandsTwice(last: string, ahead: string, value: string)
    requires last != "" && '\n' !in last && Continues(last)
    ensures var cut := Cut(last);
            Continue(Open(last + "\n" + cut + "\n"), ahead, value) == (END, "", value + "\n" + cut + "\n" + cut)
  {
    hide GetLine, Trim, Cut, Blank;
    var cut := Cut(last);
    LastIsNotBlank(last);
    CutTwice(last);
    CutHasNoBreak(last);
    GetsLine(last, cut + "\n", ahead);
    assert last + "\n" + (cut + "\n") == last + "\n" + cut + "\n";
    ContinueOne(Open(last + "\n" + cut + "\n"), ahead, value);
    LastGetLine(cut, cut);
    ContinueOne(Open(cut + "\n"), cut, value + "\n" + cut);
    CutAgainAtEnd(cut, value + "\n" + cut + "\n" + cut);
  }

  lemma CutHasNoBreak(last: string)
    requires '\n' !in last
    ensures '\n' !in Cut(last)
  {
  }

  // ---- the two values differ ----

  lemma {:induction false} TrimLeftKeeps(a: string, b: string)
    requires !Blank(a)
    ensures TrimLeft(a + b) == TrimLeft(a) + b && TrimLeft(a) != ""
    decreases |a|
  {
    if IsSpace(a[0]) {
      assert (a + b)[1..] == a[1..] + b;
      assert !Blank(a[1..]) by {
        var i :| 0 <= i < |a| && !IsSpace(a[i]);
        assert a[1..][i - 1] == a[i];
      }
      TrimLeftKeeps(a[1..], b);
    }
  }

  lemma {:induction false} TrimRightKeeps(a: string, b: string)
    requires !Blank(b)
    ensures TrimRight(a + b) == a + TrimRight(b)
    decreases |b|
  {
    if IsSpace(b[|b| - 1]) {
      var t := b[..|b| - 1];
      assert (a + b)[..|a + b| - 1] == a + t;
      assert !Blank(t) by {
        var i :| 0 <= i < |b| && !IsSpace(b[i]);
        assert t[i] == b[i];
      }
      TrimRightKeeps(a, t);
    }
  }

  lemma TwiceDiffers(value: string, cut: string)
    requires !Blank(cut)
    ensures Trim(value + "\n" + cut) != Trim(value + "\n" + cut + "\n" + cut)
  {
    var once := value + "\n" + cut;
    assert !Blank(once) by {
      var i :| 0 <= i < |cut| && !IsSpace(cut[i]);
      assert once[|value| + 1 + i] == cut[i];
    }
    TrimLeftKeeps(once, "\n" + cut);
    assert once + ("\n" + cut) == once + "\n" + cut;
    TrimRightKeeps(TrimLeft(once) + "\n", cut);
    assert TrimLeft(once) + ("\n" + cut) == TrimLeft(once) + "\n" + cut;
    hide TrimLeft, TrimRight;
    assert |Trim(once)| <= |TrimLeft(once)|;
  }

  // ---- the theorem ----

  /** A text whose last line has no line break means the same as with one if and only if that line does not
      continue an open value: no value is open there, or nothing but blanks stands before its comment, or it
      holds the delimiter. Otherwise it means what it would mean if the line, without its comment, stood there
      twice. */
  lemma LastLineIff(body: string, last: string, m: Contents)
    requires Lines(body) && last != "" && '\n' !in last
    ensures Parse(Open(body + last), "", m) == Parse(Open(body + (last + "\n")), "", m)
       <==> !(OpenAfter(body, false) && Continues(last))
    ensures OpenAfter(body, false) && Continues(last) ==>
              Parse(Open(body + last), "", m) == Parse(Open(body + (last + "\n" + Cut(last) + "\n")), "", m)
  {
    hide Parse, ParseLines, Resume, OpenAfter, Trim, Cut;
    ParsesOver(body, last, "", m);
    ParsesOver(body, last + "\n", "", m);
    ParsesOver(body, last + "\n" + Cut(last) + "\n", "", m);
    StandIsOpen(body, "", m);
    BlankHasNoDelimiter("");
    EmptyIsBlank();
    match ParseLines(body, "", m)
    case Between(n) => BetweenSame(last, n);
    case InValue(key, ahead, value, n) =>
      TrimBlank(last);
      if Continues(last) {
        TakenTwice(last, key, ahead, value, n);
        TwiceDiffers(value, Cut(last));
        var cut := Cut(last);
        var once, twice := Trim(value + "\n" + cut), Trim(value + "\n" + cut + "\n" + cut);
        assert n[key := once][key] != n[key := twice][key];
      } else if Trim(last) == "" || DELIM in Cut(last) {
        EndsValueSame(last, key, ahead, value, n);
      } else {
        BlankCutSame(last, key, ahead, value, n);
      }
  }

  lemma EmptyIsBlank()
    ensures Blank("")
  {
  }

  /** Every text without a final line break is complete lines and a last line. */
  lemma {:induction false} LastLineOf(text: string) returns (body: string, last: string)
    requires text != "" && text[|text| - 1] != '\n'
    ensures text == body + last && Lines(body) && last != "" && '\n' !in last
    decreases |text|
  {
    if |text| == 1 {
      body, last := "", text;
    } else if text[|text| - 2] == '\n' {
      body, last := text[..|text| - 1], text[|text| - 1..];
    } else {
      var b, l := LastLineOf(text[..|text| - 1]);
      body, last := b, l + text[|text| - 1..];
    }
  }
}
