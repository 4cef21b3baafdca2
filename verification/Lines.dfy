/** Splitting and joining on one character, as strings.Split and strings.Join do. */
module Lines {

  function Split(s: string, sep: char): (parts: seq<string>)
    ensures |parts| >= 1
  {
    if s == "" then [""]
    else
      var rest := Split(s[1..], sep);
      if s[0] == sep then [""] + rest else Push(s[0], rest)
  }

  /** Put a character in front of the first part. */
  function Push(c: char, parts: seq<string>): seq<string>
    requires parts != []
  {
    [[c] + parts[0]] + parts[1..]
  }

  function Join(parts: seq<string>, sep: char): string {
    if parts == [] then ""
    else if |parts| == 1 then parts[0]
    else parts[0] + [sep] + Join(parts[1..], sep)
  }

  /** Splitting yields no separator, one part more than there were separators, and joins back. */
  lemma {:induction false} JoinSplit(s: string, sep: char)
    ensures Join(Split(s, sep), sep) == s
    ensures forall i :: 0 <= i < |Split(s, sep)| ==> sep !in Split(s, sep)[i]
  {
    if s != "" {
      JoinSplit(s[1..], sep);
      var rest := Split(s[1..], sep);
      if s[0] == sep {
        assert ([""] + rest)[1..] == rest;
      } else {
        var parts := Push(s[0], rest);
        assert parts[1..] == rest[1..];
        assert Join(parts, sep) == [s[0]] + Join(rest, sep);
      }
    }
  }

  lemma {:induction false} JoinSnoc(parts: seq<string>, last: string, sep: char)
    requires parts != []
    ensures Join(parts + [last], sep) == Join(parts, sep) + [sep] + last
  {
    if |parts| == 1 {
      assert (parts + [last])[1..] == [last];
    } else {
      JoinSnoc(parts[1..], last, sep);
      assert (parts + [last])[1..] == parts[1..] + [last];
      assert parts[0] + [sep] + (Join(parts[1..], sep) + [sep] + last)
          == (parts[0] + [sep] + Join(parts[1..], sep)) + [sep] + last;
    }
  }

  lemma {:induction false} SplitNoSep(s: string, sep: char)
    requires sep !in s
    ensures Split(s, sep) == [s]
  {
    if s != "" {
      assert forall i :: 0 <= i < |s[1..]| ==> s[1..][i] == s[i + 1];
      SplitNoSep(s[1..], sep);
      assert [s[0]] + s[1..] == s;
    }
  }

  /** The parts of two texts set side by side: the two in the middle become one. */
  function Fuse(x: seq<string>, y: seq<string>): seq<string>
    requires x != [] && y != []
  {
    x[..|x| - 1] + [x[|x| - 1] + y[0]] + y[1..]
  }

  lemma FuseCons(x: seq<string>, y: seq<string>)
    requires x != [] && y != []
    ensures Fuse([""] + x, y) == [""] + Fuse(x, y)
  {
    var longer := [""] + x;
    assert longer[|longer| - 1] == x[|x| - 1];
    assert longer[..|longer| - 1] == [""] + x[..|x| - 1];
  }

  lemma FusePush(c: char, x: seq<string>, y: seq<string>)
    requires x != [] && y != []
    ensures Fuse(Push(c, x), y) == Push(c, Fuse(x, y))
  {
    if |x| == 1 {
      assert ([c] + x[0]) + y[0] == [c] + (x[0] + y[0]);
    } else {
      var pushed := Push(c, x);
      assert pushed[|x| - 1] == x[|x| - 1];
      assert pushed[..|x| - 1] == [[c] + x[0]] + x[1..|x| - 1];
      assert Fuse(x, y)[1..] == x[1..|x| - 1] + [x[|x| - 1] + y[0]] + y[1..];
    }
  }

  lemma {:induction false} SplitAppend(a: string, b: string, sep: char)
    ensures Split(a + b, sep) == Fuse(Split(a, sep), Split(b, sep))
    decreases |a|
  {
    var y := Split(b, sep);
    if a == "" {
      assert a + b == b && "" + y[0] == y[0];
    } else {
      var x := Split(a[1..], sep);
      SplitAppend(a[1..], b, sep);
      assert (a + b)[1..] == a[1..] + b;
      if a[0] == sep {
        FuseCons(x, y);
      } else {
        FusePush(a[0], x, y);
      }
    }
  }

  lemma FuseAtSep(x: seq<string>, y: seq<string>)
    requires x != []
    ensures Fuse(x, [""] + y) == x + y
  {
    assert x[|x| - 1] + "" == x[|x| - 1];
  }

  lemma SplitAtSep(a: string, b: string, sep: char)
    ensures Split(a + [sep] + b, sep) == Split(a, sep) + Split(b, sep)
  {
    assert Split([sep] + b, sep) == [""] + Split(b, sep) by {
      assert ([sep] + b)[1..] == b;
    }
    SplitAppend(a, [sep] + b, sep);
    assert a + [sep] + b == a + ([sep] + b);
    FuseAtSep(Split(a, sep), Split(b, sep));
  }

  lemma {:induction false} SplitJoin(parts: seq<string>, sep: char)
    requires parts != [] && forall i :: 0 <= i < |parts| ==> sep !in parts[i]
    ensures Split(Join(parts, sep), sep) == parts
  {
    SplitNoSep(parts[0], sep);
    if |parts| > 1 {
      SplitJoin(parts[1..], sep);
      SplitAtSep(parts[0], Join(parts[1..], sep), sep);
    }
  }

  /** The lines of a text. */
  function LinesOf(s: string): (lines: seq<string>)
    ensures |lines| >= 1
  {
    Split(s, '\n')
  }
}
