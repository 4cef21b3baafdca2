/** The Go string functions the provider uses. A Go string is a sequence of bytes, each one a char here. */
module GoStrings {
  import opened Prelude
  import opened Int64

  predicate HasPrefix(s: string, prefix: string) {
    |prefix| <= |s| && s[..|prefix|] == prefix
  }

  function TrimPrefix(s: string, prefix: string): string {
    if HasPrefix(s, prefix) then s[|prefix|..] else s
  }

  predicate Contains(s: string, part: string) {
    HasPrefix(s, part) || (s != "" && Contains(s[1..], part))
  }

  function UpperChar(c: char): char {
    if 'a' <= c <= 'z' then (c as int - 32) as char else c
  }

  function ToUpper(s: string): string {
    seq(|s|, i requires 0 <= i < |s| => UpperChar(s[i]))
  }

  /** A decimal number without a sign. */
  function Natural(s: string): Option<nat> {
    if s == "" || !('0' <= s[|s| - 1] <= '9') then None
    else
      var digit := s[|s| - 1] as int - '0' as int;
      if |s| == 1 then Some(digit)
      else
        var leading := Natural(s[..|s| - 1]);
        if leading.None? then None else Some(10 * leading.value + digit)
  }

  function Digits(n: nat): (s: string)
    ensures s != ""
  {
    (if n < 10 then "" else Digits(n / 10)) + [(n % 10 + '0' as int) as char]
  }

  /** The %d verb of fmt.Sprintf. */
  function Decimal(n: int): string {
    if n < 0 then "-" + Digits(-n) else Digits(n)
  }

  lemma {:induction false} DigitsRead(n: nat)
    ensures Natural(Digits(n)) == Some(n) && '0' <= Digits(n)[0] <= '9'
  {
    var s := Digits(n);
    if n >= 10 {
      DigitsRead(n / 10);
      assert s[..|s| - 1] == Digits(n / 10);
    }
  }

  /** A number printed in decimal is parsed back. */
  lemma DecimalParses(n: int)
    requires MIN <= n <= MAX
    ensures ParseInt(Decimal(n)) == Some(n)
  {
    var magnitude: nat := if n < 0 then -n else n;
    DigitsRead(magnitude);
    if n < 0 {
      SignRead(Digits(magnitude), magnitude);
    }
  }

  lemma SignRead(digits: string, n: nat)
    requires Natural(digits) == Some(n) && MIN + n <= 0
    ensures ParseInt("-" + digits) == Some(0 - n)
  {
    assert ("-" + digits)[1..] == digits;
  }

  /** strconv.ParseInt(s, 10, 64); None is its error. */
  function ParseInt(s: string): Option<int> {
    var signed := s != "" && (s[0] == '-' || s[0] == '+');
    var magnitude := Natural(if signed then s[1..] else s);
    if magnitude.None? then None
    else
      var n: int := if signed && s[0] == '-' then 0 - magnitude.value else magnitude.value;
      if MIN <= n <= MAX then Some(n) else None
  }

  /** util.IsSpotPlan. */
  predicate IsSpotPlan(name: string) {
    Contains(ToUpper(name), "SPOT")
  }

  /** The part stands at this position of the text. */
  predicate OccursAt(part: string, s: string, i: nat) {
    i + |part| <= |s| && s[i..i + |part|] == part
  }

  lemma {:induction false} ContainsExactly(s: string, part: string)
    ensures Contains(s, part) <==> exists i: nat :: OccursAt(part, s, i)
  {
    if HasPrefix(s, part) {
      assert OccursAt(part, s, 0);
    } else if s != "" {
      ContainsExactly(s[1..], part);
      if Contains(s, part) {
        var i: nat :| OccursAt(part, s[1..], i);
        assert OccursAt(part, s, i + 1);
      }
      if i: nat :| OccursAt(part, s, i) {
        assert i != 0;
        assert OccursAt(part, s[1..], i - 1);
      }
    }
  }

  /** The four letters stand at this position, in upper or lower case. */
  predicate SpotAt(name: string, i: nat) {
    && i + 4 <= |name| && name[i] in {'s', 'S'} && name[i + 1] in {'p', 'P'}
    && name[i + 2] in {'o', 'O'} && name[i + 3] in {'t', 'T'}
  }

  /** A plan is a spot plan exactly when its name says so. */
  lemma SpotExactly(name: string)
    ensures IsSpotPlan(name) <==> exists i: nat :: SpotAt(name, i)
  {
    ContainsExactly(ToUpper(name), "SPOT");
    forall i: nat
      ensures OccursAt("SPOT", ToUpper(name), i) <==> SpotAt(name, i)
    {
      SpotLetters(name, i);
    }
  }

  lemma SpotLetters(name: string, i: nat)
    ensures OccursAt("SPOT", ToUpper(name), i) <==> SpotAt(name, i)
  {
    if i + 4 <= |name| {
      var part := ToUpper(name)[i..i + 4];
      assert part == "SPOT" <==> part[0] == 'S' && part[1] == 'P' && part[2] == 'O' && part[3] == 'T';
      assert forall k :: 0 <= k < 4 ==> part[k] == UpperChar(name[i + k]);
    }
  }
}
