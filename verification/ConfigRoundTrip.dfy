/** What a configuration file can hold: everything that is ever read has a certain form, and exactly the
    maps of that form survive being written and read again. */
module ConfigRoundTrip {
  import opened ConfigText

  predicate AllOk(m: Contents) {
    forall k | k in m :: KeyOk(k) && ValueOk(m[k])
  }

  // ---- everything read is well-formed ----

  lemma LineHasNoNewline(s: Stream, was: string)
    requires '\n' !in was
    ensures '\n' !in GetLine(s, was).1
  {
    if !s.eof && !s.fail && s.rest != "" && Find(s.rest, '\n') == |s.rest| {
      assert s.rest[..|s.rest|] == s.rest;
    }
  }

  lemma {:induction false} LinesAppend(w: string, l: string)
    requires LinesOk(w) && '\n' !in l
    ensures LineOk(l) ==> LinesOk(w + "\n" + l)
    ensures Blank(l) ==> LinesOk(w + l)
    decreases |w|
  {
    var i := Find(w, '\n');
    var first := w[..i];
    if i == |w| {
      assert first == w;
      if LineOk(l) {
        FindFirst(w, '\n', l);
        FindNone(l, '\n');
        assert (w + "\n" + l)[..|w|] == w && (w + "\n" + l)[|w| + 1..] == l;
      }
      if Blank(l) {
        FindNone(w + l, '\n');
        BlankAppend(w, l);
      }
    } else {
      var more := w[i + 1..];
      assert w == first + "\n" + more;
      LinesAppend(more, l);
      if LineOk(l) {
        assert w + "\n" + l == first + "\n" + (more + "\n" + l);
        LinesCons(first, more + "\n" + l);
      }
      if Blank(l) {
        assert w + l == first + "\n" + (more + l);
        LinesCons(first, more + l);
      }
    }
  }

  lemma BlankAppend(w: string, l: string)
    requires LineOk(w) && Blank(l)
    ensures LineOk(w + l)
  {
    var i :| 0 <= i < |w| && !IsSpace(w[i]);
    assert (w + l)[i] == w[i];
    assert DELIM !in l;
  }

  lemma LinesCons(l: string, w: string)
    requires '\n' !in l && LineOk(l) && LinesOk(w)
    ensures LinesOk(l + "\n" + w)
  {
    FindFirst(l, '\n', w);
    assert (l + "\n" + w)[..|l|] == l && (l + "\n" + w)[|l| + 1..] == w;
  }

  lemma ShapeCons(l: string, w: string)
    requires '\n' !in l && COMMENT !in l && COMMENT !in w && LinesOk(w)
    ensures ValueShape(l + "\n" + w)
  {
    FindFirst(l, '\n', w);
    assert (l + "\n" + w)[|l| + 1..] == w;
  }

  /** A value keeps its shape while lines are added to it. */
  lemma ShapeGrows(v: string, l: string)
    requires ValueShape(v) && '\n' !in l && COMMENT !in l
    ensures LineOk(l) ==> ValueShape(v + "\n" + l)
    ensures Blank(l) ==> ValueShape(v + l)
  {
    hide LinesOk, LineOk;
    var i := Find(v, '\n');
    if i == |v| {
      assert v[..i] == v;
      if LineOk(l) {
        OneLine(l);
        ShapeCons(v, l);
      }
      if Blank(l) {
        FindNone(v + l, '\n');
      }
    } else {
      var first, w := v[..i], v[i + 1..];
      assert v == first + "\n" + w;
      LinesAppend(w, l);
      if LineOk(l) {
        ShapeCons(first, w + "\n" + l);
        assert v + "\n" + l == first + "\n" + (w + "\n" + l);
      }
      if Blank(l) {
        ShapeCons(first, w + l);
        assert v + l == first + "\n" + (w + l);
      }
    }
  }

  lemma OneLine(l: string)
    requires LineOk(l) && '\n' !in l
    ensures LinesOk(l)
  {
    FindNone(l, '\n');
  }

  lemma {:induction false} ContinueKeepsShape(s: Stream, nextline: string, line: string)
    requires ValueShape(line) && '\n' !in nextline
    ensures var r := Continue(s, nextline, line); ValueShape(r.2) && '\n' !in r.1
    decreases s.Left()
  {
    hide ValueShape;
    if !s.fail {
      var (s1, read) := GetLine(s, nextline);
      LineHasNoNewline(s, nextline);
      var cut := Cut(read);
      if Trim(read) != "" && DELIM !in cut {
        TrimBlank(cut);
        ShapeGrows(line, cut);
        assert line + "" + cut == line + cut;
        ContinueKeepsShape(s1, cut, line + (if Trim(cut) != "" then "\n" else "") + cut);
      }
    }
  }

  lemma {:induction false} LinesTrimLast(w: string)
    requires LinesOk(w)
    ensures w != "" && (IsSpace(w[|w| - 1]) ==> LinesOk(w[..|w| - 1]))
    decreases |w|
  {
    var i := Find(w, '\n');
    var l := w[..i];
    if i == |w| {
      assert l == w;
      if IsSpace(w[|w| - 1]) {
        var k :| 0 <= k < |w| && !IsSpace(w[k]);
        var t := w[..|w| - 1];
        assert t[k] == w[k];
        OneLine(t);
      }
    } else {
      var more := w[i + 1..];
      LinesTrimLast(more);
      assert w[|w| - 1] == more[|more| - 1];
      if IsSpace(w[|w| - 1]) {
        assert w[..|w| - 1] == l + "\n" + more[..|more| - 1];
        LinesCons(l, more[..|more| - 1]);
      }
    }
  }

  lemma {:induction false} TrimLeftShape(v: string)
    requires ValueShape(v)
    ensures ValueShape(TrimLeft(v))
    decreases |v|
  {
    if v != "" && IsSpace(v[0]) {
      var i := Find(v, '\n');
      var t := v[1..];
      if i > 0 {
        assert Find(t, '\n') == i - 1;
        assert i < |v| ==> t[i..] == v[i + 1..];
      }
      TrimLeftShape(t);
    }
  }

  lemma {:induction false} TrimRightShape(v: string)
    requires ValueShape(v)
    ensures ValueShape(TrimRight(v))
    decreases |v|
  {
    if v != "" && IsSpace(v[|v| - 1]) {
      var i := Find(v, '\n');
      var t := v[..|v| - 1];
      if i < |v| {
        var first, w := v[..i], v[i + 1..];
        LinesTrimLast(w);
        assert v == first + "\n" + w;
        ShapeCons(first, w[..|w| - 1]);
        assert t == first + "\n" + w[..|w| - 1];
      } else {
        assert v[..i] == v;
        FindNone(t, '\n');
      }
      TrimRightShape(t);
    }
  }

  lemma ValueRead(v: string)
    requires ValueShape(v)
    ensures ValueOk(Trim(v))
  {
    TrimLeftShape(v);
    TrimRightShape(TrimLeft(v));
    TrimTwice(v);
  }

  lemma KeyRead(line: string, p: nat)
    requires p == Find(line, DELIM) && COMMENT !in line && '\n' !in line
    ensures KeyOk(Trim(line[..p]))
  {
    TrimTwice(line[..p]);
    TrimChars(line[..p]);
  }

  /** Whatever the text, every key and value read from it is well-formed. */
  lemma {:induction false} ParseIsOk(s: Stream, nextline: string, m: Contents)
    requires AllOk(m) && '\n' !in nextline
    ensures AllOk(Parse(s, nextline, m))
    decreases s.Left(), 2 * |nextline|
  {
    hide AllOk;
    if nextline != "" {
      LineIsOk(s, nextline, m);
    } else if !s.fail {
      LineHasNoNewline(s, "");
      LineIsOk(GetLine(s, "").0, GetLine(s, "").1, m);
    }
  }

  lemma {:induction false} LineIsOk(s: Stream, read: string, m: Contents)
    requires AllOk(m) && '\n' !in read
    ensures AllOk(ParseLine(s, read, m))
    decreases s.Left(), if read == "" then 1 else 2 * |read| - 1
  {
    hide AllOk, KeyOk, ValueOk, ValueShape, Trim;
    var line := Cut(read);
    var p := Find(line, DELIM);
    if p < |line| {
      var (s1, ahead, value) := Continue(s, "", line[p + 1..]);
      RestShape(line, p + 1);
      ContinueKeepsShape(s, "", line[p + 1..]);
      KeyRead(line, p);
      ValueRead(value);
      OneMoreOk(m, Trim(line[..p]), Trim(value));
      ParseIsOk(s1, ahead, m[Trim(line[..p]) := Trim(value)]);
    } else {
      ParseIsOk(s, "", m);
    }
  }

  lemma RestShape(line: string, p: nat)
    requires p <= |line| && COMMENT !in line && '\n' !in line
    ensures ValueShape(line[p..])
  {
    FindNone(line[p..], '\n');
  }

  lemma OneMoreOk(m: Contents, k: Key, v: Value)
    requires AllOk(m) && KeyOk(k) && ValueOk(v)
    ensures AllOk(m[k := v])
  {
  }

  // ---- the round trip ----

  /** The entries of a map, each key once. */
  predicate Lists(es: seq<Entry>, m: Contents) {
    && (forall i, j | 0 <= i < j < |es| :: es[i].key != es[j].key)
    && (forall e | e in es :: e.key in m && m[e.key] == e.value)
    && (forall k | k in m :: Entry(k, m[k]) in es)
  }

  lemma {:induction false} FilledIs(es: seq<Entry>, m: Contents, base: Contents)
    requires forall i, j | 0 <= i < j < |es| :: es[i].key != es[j].key
    requires forall e | e in es :: e.key in m && m[e.key] == e.value
    requires forall k | k in base :: k in m && base[k] == m[k]
    requires forall k | k in m && k !in base :: Entry(k, m[k]) in es
    ensures Filled(base, es) == m
    decreases |es|
  {
    if es == [] {
      assert base.Keys == m.Keys;
    } else {
      var e := es[0];
      FilledIs(es[1..], m, base[e.key := e.value]);
    }
  }

  /** Writing a configuration and reading it again gives the same configuration exactly when its keys are
      trimmed and have no comment sign, delimiter or line break, its values are trimmed and have no comment
      sign, and the further lines of a value are not blank and have no delimiter. */
  lemma RoundTripIff(m: Contents, es: seq<Entry>)
    requires Lists(es, m)
    ensures Parse(Open(Print(es)), "", map[]) == m <==> AllOk(m)
  {
    if AllOk(m) {
      ParsePrinted(es, map[]);
      FilledIs(es, m, map[]);
    }
    ParseIsOk(Open(Print(es)), "", map[]);
  }

  // ---- a file that does not end with a line break ----

  const END := Stream("", true, true)

  lemma TakesTwice(line: string)
    ensures Continue(Open("b"), "", line) == (END, "b", line + "\n" + "b" + "\n" + "b")
  {
    FindNone("b", '\n');
    FindNone("b", COMMENT);
    TrimmedIff("b");
    assert GetLine(Open("b"), "") == (Stream("", true, false), "b");
    assert GetLine(Stream("", true, false), "b") == (END, "b");
    assert Continue(Stream("", true, false), "b", line + "\n" + "b") == Continue(END, "b", line + "\n" + "b" + "\n" + "b");
  }

  lemma KeptLineIsDropped(m: Contents)
    ensures Parse(END, "b", m) == m
  {
    FindNone("b", COMMENT);
    FindNone("b", DELIM);
  }

  lemma ReadsKeyLine(m: Contents)
    ensures Parse(Open("k = a\nb"), "", m) == ParseLine(Open("b"), "k = a", m)
  {
    hide ParseLine, GetLine;
    assert "k = a" + "\n" + "b" == "k = a\nb";
    GetsLine("k = a", "b", "");
  }

  /** When a value's last line is the last of a file that has no line break at its end, the line is taken
      twice. */
  lemma LastLineTwice(m: Contents)
    ensures Parse(Open("k = a\nb"), "", m) == m["k" := "a\nb\nb"]
  {
    hide Continue, Parse, Trim;
    ReadsKeyLine(m);
    FindNone("k = a", COMMENT);
    assert "k = a" == "k " + [DELIM] + " a";
    FindFirst("k ", DELIM, " a");
    assert "k = a"[..2] == "k " && "k = a"[3..] == " a";
    TakesTwice(" a");
    TrimmedIff("k");
    TrimPadded("k");
    TrimmedIff("a\nb\nb");
    TrimPadded("a\nb\nb");
    assert " a" + "\n" + "b" + "\n" + "b" == " " + "a\nb\nb" && "k" + " " == "k ";
    KeptLineIsDropped(m["k" := "a\nb\nb"]);
  }
}
