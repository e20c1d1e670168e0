/** The text form of a configuration: how it is read from a stream, line by line with one line of
    look-ahead, and how it is written. */
module ConfigText {

  type Key = string
  type Value = string
  type Contents = map<Key, Value>

  const DELIM := '='
  const COMMENT := '#'

  predicate IsSpace(c: char) {
    c == ' ' || c == '\n' || c == '\t' || c == '\U{0B}' || c == '\r' || c == '\U{0C}'
  }

  predicate Blank(s: string) {
    forall i | 0 <= i < |s| :: IsSpace(s[i])
  }

  function TrimLeft(s: string): (t: string)
    ensures |t| <= |s|
  {
    if s != "" && IsSpace(s[0]) then TrimLeft(s[1..]) else s
  }

  function TrimRight(s: string): (t: string)
    ensures t <= s
  {
    if s != "" && IsSpace(s[|s| - 1]) then TrimRight(s[..|s| - 1]) else s
  }

  function Trim(s: string): string {
    TrimRight(TrimLeft(s))
  }

  /** The first place of a character, or the length of the string. */
  function Find(s: string, c: char): (i: nat)
    ensures i <= |s| && c !in s[..i] && (i < |s| ==> s[i] == c)
  {
    if s == "" || s[0] == c then 0
    else
      var i := Find(s[1..], c) + 1;
      assert s[..i] == [s[0]] + s[1..][..i - 1];
      i
  }

  function Cut(line: string): string {
    line[..Find(line, COMMENT)]
  }

  // ---- reading lines ----

  /** An input stream: what is left of the text, and the two flags of its state. */
  datatype Stream = Stream(rest: string, eof: bool, fail: bool) {
    function Left(): nat {
      |rest| + (if eof then 0 else 1) + (if fail then 0 else 1)
    }
  }

  function Open(text: string): Stream {
    Stream(text, false, false)
  }

  /** Reading a line into a string that holds `was`. At the end of the text the stream fails; once it has
      reached the end, a further attempt leaves the string as it was. */
  function GetLine(s: Stream, was: string): (r: (Stream, string))
    ensures !s.fail ==> r.0.Left() < s.Left()
    ensures s.fail ==> r.0 == s
  {
    if s.eof || s.fail then (s.(fail := true), was)
    else if s.rest == "" then (Stream("", true, true), "")
    else
      var i := Find(s.rest, '\n');
      if i < |s.rest| then (Stream(s.rest[i + 1..], false, false), s.rest[..i])
      else (Stream("", true, false), s.rest)
  }

  /** The value goes on over the next lines, up to a blank line, a line with a key or the end. */
  function Continue(s: Stream, nextline: string, line: string): (r: (Stream, string, string))
    ensures r.0.Left() <= s.Left() && (!s.fail ==> r.0.Left() < s.Left())
    ensures s.fail ==> r == (s, nextline, line)
    decreases s.Left()
  {
    if s.fail then (s, nextline, line)
    else
      var (s1, read) := GetLine(s, nextline);
      if Trim(read) == "" then (s1, read, line)
      else
        var cut := Cut(read);
        if DELIM in cut then (s1, cut, line)
        else Continue(s1, cut, line + (if Trim(cut) != "" then "\n" else "") + cut)
  }

  /** Reading everything into a map; `nextline` is the line read ahead, if it is not empty. */
  function Parse(s: Stream, nextline: string, m: Contents): Contents
    decreases s.Left(), 2 * |nextline|
  {
    if nextline != "" then ParseLine(s, nextline, m)
    else if s.fail then m
    else var (s1, line) := GetLine(s, ""); ParseLine(s1, line, m)
  }

  function ParseLine(s: Stream, read: string, m: Contents): Contents
    decreases s.Left(), if read == "" then 1 else 2 * |read| - 1
  {
    var line := Cut(read);
    var p := Find(line, DELIM);
    if p < |line| then
      var (s1, ahead, value) := Continue(s, "", line[p + 1..]);
      Parse(s1, ahead, m[Trim(line[..p]) := Trim(value)])
    else Parse(s, "", m)
  }

  lemma ParseUnfolds(s: Stream, nextline: string, m: Contents)
    ensures Parse(s, nextline, m) == if nextline != "" then ParseLine(s, nextline, m)
                                     else if s.fail then m
                                     else ParseLine(GetLine(s, "").0, GetLine(s, "").1, m)
  {
  }

  lemma LineUnfolds(s: Stream, read: string, m: Contents)
    ensures var line := Cut(read);
            var p := Find(line, DELIM);
            ParseLine(s, read, m) == if p == |line| then Parse(s, "", m)
                                     else var r := Continue(s, "", line[p + 1..]);
                                          Parse(r.0, r.1, m[Trim(line[..p]) := Trim(r.2)])
  {
    hide Parse, Continue, Trim, Cut;
  }

  // ---- writing ----

  datatype Entry = Entry(key: Key, value: Value) {
    function Text(): string { key + " = " + value + "\n" }
  }

  function Print(es: seq<Entry>): string {
    if es == [] then "" else es[0].Text() + Print(es[1..])
  }

  function Filled(m: Contents, es: seq<Entry>): Contents
    decreases |es|
  {
    if es == [] then m else Filled(m[es[0].key := es[0].value], es[1..])
  }

  // ---- what can be written and read back ----

  predicate LineOk(l: string) {
    !Blank(l) && DELIM !in l
  }

  /** Every line has something in it and no delimiter. */
  predicate LinesOk(w: string)
    decreases |w|
  {
    var i := Find(w, '\n');
    LineOk(w[..i]) && (i < |w| ==> LinesOk(w[i + 1..]))
  }

  /** Delimiters and blanks are only free in the first line. */
  predicate ValueShape(v: string) {
    var i := Find(v, '\n');
    COMMENT !in v && (i < |v| ==> LinesOk(v[i + 1..]))
  }

  predicate KeyOk(k: Key) {
    Trim(k) == k && COMMENT !in k && DELIM !in k && '\n' !in k
  }

  predicate ValueOk(v: Value) {
    Trim(v) == v && ValueShape(v)
  }

  // ---- strings ----

  lemma {:induction false} TrimLeftBlank(s: string)
    ensures TrimLeft(s) == "" <==> Blank(s)
    ensures TrimLeft(s) != "" ==> !IsSpace(TrimLeft(s)[0])
  {
    if s != "" && IsSpace(s[0]) {
      TrimLeftBlank(s[1..]);
      assert forall i | 0 < i < |s| :: s[i] == s[1..][i - 1];
    }
  }

  lemma {:induction false} TrimRightBlank(s: string)
    ensures TrimRight(s) == "" <==> Blank(s)
    ensures TrimRight(s) != "" ==> !IsSpace(TrimRight(s)[|TrimRight(s)| - 1])
  {
    if s != "" && IsSpace(s[|s| - 1]) {
      TrimRightBlank(s[..|s| - 1]);
    }
  }

  lemma TrimBlank(s: string)
    ensures Trim(s) == "" <==> Blank(s)
  {
    TrimLeftBlank(s);
    TrimRightBlank(TrimLeft(s));
  }

  /** A string is trimmed exactly when it does not begin or end with white space. */
  lemma TrimmedIff(s: string)
    ensures Trim(s) == s <==> s == "" || (!IsSpace(s[0]) && !IsSpace(s[|s| - 1]))
  {
    TrimLeftBlank(s);
    TrimRightBlank(TrimLeft(s));
  }

  lemma {:induction false} TrimLeftSuffix(s: string)
    ensures s[|s| - |TrimLeft(s)|..] == TrimLeft(s)
  {
    if s != "" && IsSpace(s[0]) {
      TrimLeftSuffix(s[1..]);
    }
  }

  lemma TrimChars(s: string)
    ensures forall c | c in Trim(s) :: c in s
  {
    TrimLeftSuffix(s);
    hide TrimLeft, TrimRight;
    assert forall c | c in TrimLeft(s) :: c in s;
  }

  lemma TrimTwice(s: string)
    ensures Trim(Trim(s)) == Trim(s)
  {
    TrimLeftBlank(s);
    TrimRightBlank(TrimLeft(s));
    TrimmedIff(Trim(s));
    hide TrimLeft, TrimRight;
    if Trim(s) != "" {
      assert Trim(s)[0] == TrimLeft(s)[0];
    }
  }

  lemma TrimLeftSpace(s: string)
    ensures TrimLeft(" " + s) == TrimLeft(s)
  {
    assert (" " + s)[1..] == s;
  }

  lemma TrimRightSpace(s: string)
    ensures TrimRight(s + " ") == TrimRight(s)
  {
    assert (s + " ")[..|s|] == s;
  }

  /** Blanks around a trimmed string go away. */
  lemma TrimPadded(s: string)
    requires Trim(s) == s
    ensures Trim(" " + s) == s && Trim(s + " ") == s
  {
    TrimmedIff(s);
    TrimLeftSpace(s);
    TrimRightSpace(s);
    if s == "" {
      TrimLeftSpace("");
      assert s + " " == " " + s;
    } else {
      assert TrimLeft(s + " ") == s + " ";
    }
  }

  lemma {:induction false} FindFirst(a: string, c: char, b: string)
    requires c !in a
    ensures Find(a + [c] + b, c) == |a|
  {
    if a != "" {
      assert (a + [c] + b)[1..] == a[1..] + [c] + b;
      FindFirst(a[1..], c, b);
    }
  }

  lemma {:induction false} FindNone(s: string, c: char)
    requires c !in s
    ensures Find(s, c) == |s| && s[..|s|] == s
  {
    if s != "" {
      FindNone(s[1..], c);
    }
  }

  // ---- reading back what was written ----

  lemma GetsLine(l: string, rest: string, was: string)
    requires '\n' !in l
    ensures GetLine(Open(l + "\n" + rest), was) == (Open(rest), l)
  {
    FindFirst(l, '\n', rest);
    assert (l + "\n" + rest)[..|l|] == l;
    assert (l + "\n" + rest)[|l| + 1..] == rest;
  }

  lemma ContinuesLine(l: string, rest: string, was: string, line: string)
    requires LineOk(l) && COMMENT !in l && '\n' !in l
    ensures Continue(Open(l + "\n" + rest), was, line) == Continue(Open(rest), l, line + "\n" + l)
  {
    GetsLine(l, rest, was);
    TrimBlank(l);
    FindNone(l, COMMENT);
  }

  /** Further lines of a value are taken in. */
  lemma {:induction false} ContinuesLines(w: string, rest: string, was: string, line: string)
    requires LinesOk(w) && COMMENT !in w
    ensures Continue(Open(w + "\n" + rest), was, line) == Continue(Open(rest), "", line + "\n" + w)
    decreases |w|
  {
    hide Continue, LineOk;
    var i := Find(w, '\n');
    var l := w[..i];
    if i == |w| {
      assert l == w;
      ContinuesLine(l, rest, was, line);
      NextlineDoesNotMatter(rest, l, line + "\n" + w);
    } else {
      var more := w[i + 1..];
      assert w == l + "\n" + more;
      ContinuesLine(l, more + "\n" + rest, was, line);
      assert w + "\n" + rest == l + "\n" + (more + "\n" + rest);
      ContinuesLines(more, rest, l, line + "\n" + l);
      assert line + "\n" + l + "\n" + more == line + "\n" + w;
    }
  }

  lemma NextlineDoesNotMatter(rest: string, was: string, line: string)
    ensures Continue(Open(rest), was, line) == Continue(Open(rest), "", line)
  {
  }

  /** The first line of an entry's text, and the text behind it. */
  function FirstLine(e: Entry): string {
    e.key + " = " + e.value[..Find(e.value, '\n')]
  }

  function Behind(e: Entry, rest: string): string {
    var i := Find(e.value, '\n');
    if i < |e.value| then e.value[i + 1..] + "\n" + rest else rest
  }

  predicate EntryOk(e: Entry) {
    KeyOk(e.key) && ValueOk(e.value)
  }

  lemma SplitsText(e: Entry, rest: string)
    ensures e.Text() + rest == FirstLine(e) + "\n" + Behind(e, rest)
  {
    hide Find;
    var v := e.value;
    var i := Find(v, '\n');
    var start := e.key + " = ";
    if i < |v| {
      var w := v[i + 1..];
      assert v == v[..i] + "\n" + w;
      assert e.Text() + rest == start + (v[..i] + "\n" + w) + "\n" + rest;
    } else {
      assert v[..i] == v;
    }
  }

  lemma FirstLineChars(e: Entry)
    requires EntryOk(e)
    ensures FirstLine(e) != "" && COMMENT !in FirstLine(e) && DELIM in FirstLine(e) && '\n' !in FirstLine(e)
    ensures !Blank(FirstLine(e))
  {
    hide Find, LinesOk, Trim;
    var v0 := e.value[..Find(e.value, '\n')];
    assert COMMENT !in v0 && '\n' !in v0;
    assert FirstLine(e)[|e.key| + 1] == DELIM;
    var start := e.key + " = ";
    assert COMMENT !in start && '\n' !in start;
    assert FirstLine(e) == start + v0;
  }

  lemma GetsFirstLine(e: Entry, rest: string, was: string)
    requires EntryOk(e)
    ensures GetLine(Open(e.Text() + rest), was) == (Open(Behind(e, rest)), FirstLine(e))
    ensures FirstLine(e) != "" && COMMENT !in FirstLine(e) && DELIM in FirstLine(e) && !Blank(FirstLine(e))
  {
    hide FirstLine, Behind, EntryOk, GetLine;
    FirstLineChars(e);
    SplitsText(e, rest);
    GetsLine(FirstLine(e), Behind(e, rest), was);
  }

  /** The value is collected up to the text behind the entry. */
  lemma ContinuesValue(e: Entry, rest: string)
    requires EntryOk(e)
    ensures Continue(Open(Behind(e, rest)), "", " " + e.value[..Find(e.value, '\n')]) == Continue(Open(rest), "", " " + e.value)
  {
    hide Continue, LinesOk, Trim, Find;
    var i := Find(e.value, '\n');
    if i < |e.value| {
      var w := e.value[i + 1..];
      ContinuesLines(w, rest, "", " " + e.value[..i]);
      assert " " + e.value[..i] + "\n" + w == " " + e.value;
    } else {
      assert e.value[..i] == e.value;
    }
  }

  /** Where the delimiter of a first line is. */
  lemma FirstLineSplits(e: Entry)
    requires EntryOk(e)
    ensures var l := FirstLine(e);
            && Cut(l) == l && Find(l, DELIM) == |e.key| + 1 < |l|
            && l[..|e.key| + 1] == e.key + " " && l[|e.key| + 2..] == " " + e.value[..Find(e.value, '\n')]
  {
    hide Trim, ValueShape, Find;
    var l := FirstLine(e);
    var v0 := e.value[..Find(e.value, '\n')];
    FirstLineChars(e);
    FindNone(l, COMMENT);
    assert l == (e.key + " ") + [DELIM] + (" " + v0);
    FindFirst(e.key + " ", DELIM, " " + v0);
  }

  lemma ParsesFirstLine(e: Entry, rest: string, m: Contents)
    requires EntryOk(e)
    ensures var (s, ahead, value) := Continue(Open(rest), "", " " + e.value);
            ParseLine(Open(Behind(e, rest)), FirstLine(e), m) == Parse(s, ahead, m[e.key := Trim(value)])
  {
    hide Continue, Parse, Trim, ValueShape, Find, FirstLine, Cut;
    FirstLineSplits(e);
    TrimPadded(e.key);
    ContinuesValue(e, rest);
  }

  /** A line with a key ends the value and is read ahead, the end of the text ends it too. */
  lemma ContinueEnds(line: string)
    ensures Continue(Open(""), "", line) == (Stream("", true, true), "", line)
  {
  }

  lemma ContinueStops(e: Entry, rest: string, line: string)
    requires EntryOk(e)
    ensures Continue(Open(e.Text() + rest), "", line) == (Open(Behind(e, rest)), FirstLine(e), line)
  {
    GetsFirstLine(e, rest, "");
    TrimBlank(FirstLine(e));
    FindNone(FirstLine(e), COMMENT);
  }

  lemma {:induction false} ParsesEntries(es: seq<Entry>, m: Contents)
    requires es != [] && forall e | e in es :: EntryOk(e)
    ensures ParseLine(Open(Behind(es[0], Print(es[1..]))), FirstLine(es[0]), m) == Filled(m, es)
    decreases |es|
  {
    hide Continue, ParseLine, EntryOk, Trim;
    var e := es[0];
    var rest := es[1..];
    ParsesFirstLine(e, Print(rest), m);
    assert Trim(" " + e.value) == e.value by {
      ValueIsTrimmed(e);
      TrimPadded(e.value);
    }
    if rest == [] {
      ContinueEnds(" " + e.value);
    } else {
      ContinueStops(rest[0], Print(rest[1..]), " " + e.value);
      assert FirstLine(rest[0]) != "";
      ParsesEntries(rest, m[e.key := e.value]);
    }
  }

  lemma ValueIsTrimmed(e: Entry)
    requires EntryOk(e)
    ensures Trim(e.value) == e.value
  {
  }

  /** Round trip: reading what was written gives the entries back, in any order they were written. */
  lemma ParsePrinted(es: seq<Entry>, m: Contents)
    requires forall e | e in es :: EntryOk(e)
    ensures Parse(Open(Print(es)), "", m) == Filled(m, es)
  {
    hide ParseLine, EntryOk;
    if es == [] {
      assert ParseLine(Stream("", true, true), "", m) == m by {
        ParsesNothing(m);
      }
    } else {
      GetsFirstLine(es[0], Print(es[1..]), "");
      ParsesEntries(es, m);
    }
  }

  lemma ParsesNothing(m: Contents)
    ensures ParseLine(Stream("", true, true), "", m) == m
  {
  }
}
