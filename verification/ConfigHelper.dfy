/** The configuration reader and writer in the form the program has, proved against ConfigText. */
module ConfigObjects {
  import opened ConfigText
  import opened ConfigRoundTrip

  class InputStream {
    var rest: string
    var eof: bool
    var fail: bool

    function View(): Stream
      reads this
    {
      Stream(rest, eof, fail)
    }

    constructor (text: string)
      ensures View() == Open(text)
    {
      rest, eof, fail := text, false, false;
    }

    method ReadLine(was: string) returns (line: string)
      modifies this
      ensures (View(), line) == GetLine(old(View()), was)
    {
      if eof || fail {
        fail := true;
        return was;
      }
      if rest == "" {
        eof, fail := true, true;
        return "";
      }
      var i := 0;
      while i < |rest| && rest[i] != '\n'
        invariant 0 <= i <= |rest|
        invariant Find(rest, '\n') == i + Find(rest[i..], '\n')
      {
        assert rest[i..][1..] == rest[i + 1..];
        i := i + 1;
      }
      line := rest[..i];
      assert i == |rest| ==> rest[..i] == rest;
      if i < |rest| {
        rest := rest[i + 1..];
      } else {
        rest := "";
        eof := true;
      }
    }
  }

  /** White space is cut off at the front, then at the back. */
  method TrimInPlace(s: string) returns (t: string)
    ensures t == Trim(s)
  {
    t := s;
    while t != "" && IsSpace(t[0])
      invariant TrimLeft(t) == TrimLeft(s)
      decreases |t|
    {
      t := t[1..];
    }
    ghost var left := t;
    assert left == TrimLeft(s);
    while t != "" && IsSpace(t[|t| - 1])
      invariant TrimRight(t) == TrimRight(left)
      decreases |t|
    {
      t := t[..|t| - 1];
    }
  }

  class ConfigHelper {
    var contents: Contents

    constructor ()
      ensures contents == map[]
    {
      contents := map[];
    }

    /** The value that begins with `first` goes on over the following lines; the line that ends it is
        returned too, for it has been read. */
    method ReadValue(input: InputStream, first: string) returns (line: string, nextline: string)
      modifies input
      ensures (input.View(), nextline, line) == Continue(old(input.View()), "", first)
    {
      hide GetLine, Trim;
      line, nextline := first, "";
      var terminate := false;
      ghost var goal := Continue(input.View(), "", first);
      while !terminate && !input.fail
        invariant goal == if terminate then (input.View(), nextline, line) else Continue(input.View(), nextline, line)
        decreases if terminate then 0 else 1, input.View().Left()
      {
        nextline := input.ReadLine(nextline);
        terminate := true;
        var copy := TrimInPlace(nextline);
        if copy != "" {
          nextline := Cut(nextline);
          if DELIM !in nextline {
            copy := TrimInPlace(nextline);
            if copy != "" {
              line := line + "\n";
            } else {
              assert line + "" + nextline == line + nextline;
            }
            line := line + nextline;
            terminate := false;
          }
        }
      }
    }

    /** Reading all keys and values of a stream. */
    method Read(input: InputStream)
      modifies this, input
      ensures contents == Parse(old(input.View()), "", old(contents))
    {
      hide Parse, ParseLine, Continue, GetLine, Trim;
      var nextline := "";
      ghost var goal := Parse(input.View(), "", contents);
      ParseUnfolds(input.View(), "", contents);
      while !input.fail || |nextline| > 0
        invariant goal == Parse(input.View(), nextline, contents)
        invariant input.fail && nextline == "" ==> goal == contents
        decreases input.View().Left(), |nextline|
      {
        var line;
        GetLineShrinks(input.View());
        ParseUnfolds(input.View(), nextline, contents);
        if |nextline| > 0 {
          line := nextline;
          nextline := "";
        } else {
          line := input.ReadLine("");
        }
        LineUnfolds(input.View(), line, contents);
        line := Cut(line);
        var p := Find(line, DELIM);
        if p < |line| {
          var key := line[..p];
          ContinueShrinks(input.View(), line[p + 1..]);
          line, nextline := ReadValue(input, line[p + 1..]);
          key := TrimInPlace(key);
          line := TrimInPlace(line);
          contents := contents[key := line];
        }
        ParseUnfolds(input.View(), nextline, contents);
      }
    }

    /** Writing all entries, each once. */
    method Write() returns (text: string)
      ensures exists es :: Lists(es, contents) && text == Print(es)
    {
      text := "";
      ghost var es: seq<Entry> := [];
      var left := contents.Keys;
      while left != {}
        invariant left <= contents.Keys
        invariant forall e | e in es :: e.key in contents && e.key !in left && contents[e.key] == e.value
        invariant forall k | k in contents && k !in left :: Entry(k, contents[k]) in es
        invariant forall i, j | 0 <= i < j < |es| :: es[i].key != es[j].key
        invariant text == Print(es)
        decreases |left|
      {
        var key :| key in left;
        var e := Entry(key, contents[key]);
        PrintAppend(es, e);
        text := text + (key + " = " + contents[key] + "\n");
        es := es + [e];
        left := left - {key};
      }
      assert Lists(es, contents);
    }
  }

  lemma GetLineShrinks(s: Stream)
    ensures !s.fail ==> GetLine(s, "").0.Left() < s.Left()
  {
  }

  lemma ContinueShrinks(s: Stream, line: string)
    ensures Continue(s, "", line).0.Left() <= s.Left() && (!s.fail ==> Continue(s, "", line).0.Left() < s.Left())
    ensures s.fail ==> Continue(s, "", line).1 == ""
  {
  }

  lemma {:induction false} PrintAppend(es: seq<Entry>, e: Entry)
    ensures Print(es + [e]) == Print(es) + e.Text()
    decreases |es|
  {
    if es == [] {
      assert es + [e] == [e] && [e][1..] == [];
    } else {
      assert (es + [e])[1..] == es[1..] + [e];
      PrintAppend(es[1..], e);
    }
  }

  /** A configuration that can be written and read back is the same afterwards; whatever is read can. */
  method WriteAndRead(c: ConfigHelper) returns (d: ConfigHelper)
    ensures fresh(d)
    ensures d.contents == c.contents <==> AllOk(c.contents)
  {
    var text := c.Write();
    ghost var es :| Lists(es, c.contents) && text == Print(es);
    d := new ConfigHelper();
    var input := new InputStream(text);
    RoundTripIff(c.contents, es);
    d.Read(input);
  }
}
