/** What a comment does: behind anything but white space it can be left out and nothing changes. */
module ConfigComments {
  import opened ConfigText

  /** The line without its comment, unless nothing but white space is left of it. */
  function StripLine(line: string): string {
    var k := Find(line, COMMENT);
    if Blank(line[..k]) then line else line[..k]
  }

  /** The text without the comments of all such lines. */
  function Strip(text: string): string {
    var i := Find(text, '\n');
    if i == |text| then StripLine(text) else StripLine(text[..i]) + "\n" + Strip(text[i + 1..])
  }

  lemma FindIs(s: string, c: char, k: nat)
    requires k <= |s| && c !in s[..k] && (k < |s| ==> s[k] == c)
    ensures Find(s, c) == k
  {
  }

  lemma StrippedLine(line: string)
    requires '\n' !in line
    ensures Cut(StripLine(line)) == Cut(line) && '\n' !in StripLine(line)
    ensures Trim(line) == "" ==> StripLine(line) == line
    ensures Trim(line) != "" ==> Trim(StripLine(line)) != ""
    ensures StripLine(line) == "" <==> line == ""
  {
    var k := Find(line, COMMENT);
    var t := StripLine(line);
    if !Blank(line[..k]) {
      FindIs(t, COMMENT, k);
      assert t[..k] == t;
      TrimBlank(t);
      assert Blank(line) ==> Blank(t);
    }
    TrimBlank(line);
  }

  /** The stream of the stripped text. */
  function StripStream(s: Stream): Stream {
    s.(rest := Strip(s.rest))
  }

  lemma StripFirst(text: string)
    ensures var i := Find(text, '\n');
            var t := Strip(text);
            var j := Find(t, '\n');
            && (i < |text| <==> j < |t|)
            && (i < |text| ==> t[..j] == StripLine(text[..i]) && t[j + 1..] == Strip(text[i + 1..]))
            && (i == |text| ==> t == StripLine(text))
            && (text == "" <==> t == "")
  {
    var i := Find(text, '\n');
    var t := Strip(text);
    if i < |text| {
      var l := StripLine(text[..i]);
      StrippedLine(text[..i]);
      assert t[..|l|] == l;
      FindIs(t, '\n', |l|);
      assert t[|l| + 1..] == Strip(text[i + 1..]);
    } else {
      assert text[..i] == text;
      StrippedLine(text);
      FindIs(t, '\n', |t|);
    }
  }

  /** Reading a line of the stripped text gives the stripped line. */
  lemma GetLineStrips(s: Stream, was: string)
    ensures var r := GetLine(s, was);
            var t := GetLine(StripStream(s), was);
            && t.0 == StripStream(r.0)
            && (t.1 == r.1 || (t.1 == StripLine(r.1) && '\n' !in r.1))
  {
    hide Strip, StripLine, Find;
    StripFirst(s.rest);
    StripNothing();
  }

  lemma StripNothing()
    ensures Strip("") == ""
  {
  }

  lemma {:induction false} ContinueStrips(s: Stream, nextline: string, line: string)
    ensures var r := Continue(s, nextline, line);
            Continue(StripStream(s), nextline, line) == (StripStream(r.0), r.1, r.2)
    decreases s.Left()
  {
    hide Strip, StripLine, Cut, Trim, GetLine;
    if !s.fail {
      GetLineStrips(s, nextline);
      var (s1, read) := GetLine(s, nextline);
      LeftLess(s, nextline);
      LeftLess(StripStream(s), nextline);
      if GetLine(StripStream(s), nextline).1 != read {
        StrippedLine(read);
      }
      var cut := Cut(read);
      if Trim(read) != "" && DELIM !in cut {
        ContinueStrips(s1, cut, line + (if Trim(cut) != "" then "\n" else "") + cut);
      }
    }
  }

  lemma LeftLess(s: Stream, was: string)
    requires !s.fail
    ensures GetLine(s, was).0.Left() < s.Left()
  {
  }

  lemma {:induction false} ParseStrips(s: Stream, nextline: string, m: Contents)
    ensures Parse(StripStream(s), nextline, m) == Parse(s, nextline, m)
    decreases s.Left(), 2 * |nextline|
  {
    hide Strip, StripLine, Cut, Trim, GetLine, ParseLine;
    ParseUnfolds(s, nextline, m);
    ParseUnfolds(StripStream(s), nextline, m);
    if nextline != "" {
      LineStrips(s, nextline, nextline, m);
    } else if !s.fail {
      GetLineStrips(s, "");
      LeftLess(s, "");
      var (s1, line) := GetLine(s, "");
      var read := GetLine(StripStream(s), "").1;
      if read != line {
        StrippedLine(line);
      }
      LineStrips(s1, line, read, m);
    }
  }

  lemma {:induction false} LineStrips(s: Stream, read: string, stripped: string, m: Contents)
    requires Cut(stripped) == Cut(read)
    ensures ParseLine(StripStream(s), stripped, m) == ParseLine(s, read, m)
    decreases s.Left(), if read == "" then 1 else 2 * |read| - 1
  {
    hide Strip, StripLine, Trim, Continue, Parse;
    LineUnfolds(s, read, m);
    LineUnfolds(StripStream(s), stripped, m);
    var line := Cut(read);
    var p := Find(line, DELIM);
    if p < |line| {
      ContinueStrips(s, "", line[p + 1..]);
      ContinueLess(s, line[p + 1..], read);
      var r := Continue(s, "", line[p + 1..]);
      ParseStrips(r.0, r.1, m[Trim(line[..p]) := Trim(r.2)]);
    } else {
      ParseStrips(s, "", m);
    }
  }

  lemma ContinueLess(s: Stream, value: string, read: string)
    requires read != ""
    ensures var r := Continue(s, "", value); r.0.Left() < s.Left() || (r.0.Left() == s.Left() && 2 * |r.1| < 2 * |read| - 1)
  {
  }

  /** Comments behind a key, a value or a continuation change nothing: what is read from a text is what is read
      from it without them. */
  lemma CommentsDoNotMatter(text: string, m: Contents)
    ensures Parse(Open(Strip(text)), "", m) == Parse(Open(text), "", m)
  {
    ParseStrips(Open(text), "", m);
  }

  /** In particular for a single line anywhere. */
  lemma CommentBehindLine(line: string, comment: string)
    requires '#' !in line && !Blank(line)
    ensures StripLine(line + "#" + comment) == line
  {
    var all := line + "#" + comment;
    assert all[..|line|] == line;
    FindIs(all, COMMENT, |line|);
  }
}
