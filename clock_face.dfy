// Reading a "H:MM:SS" or "M:SS" clock face back into seconds: the partner of
// the `String(format: "%d:%02d", …)` formatters of the timer and music widgets.
module ClockFace {
  import opened Wrappers
  import opened Text

  predicate AllFieldsDigits(fields: seq<string>)
  {
    forall k :: 0 <= k < |fields| ==> AllDigits(fields[k])
  }

  /** The number of seconds the colon-separated fields stand for, most significant first. */
  function Sexagesimal(fields: seq<string>): int
    requires AllFieldsDigits(fields)
  {
    if fields == [] then 0
    else Sexagesimal(fields[..|fields| - 1]) * 60 + ParseDigits(fields[|fields| - 1])
  }

  /** The seconds a "H:MM:SS" or "MM:SS" string stands for, if it is one. */
  function ReadClock(s: string): Option<int>
  {
    var fields := Split(s, ":");
    if (|fields| == 2 || |fields| == 3) && AllFieldsDigits(fields) then Some(Sexagesimal(fields)) else None
  }

  lemma SplitThree(a: string, b: string, c: string)
    requires AllDigits(a) && AllDigits(b) && AllDigits(c)
    ensures Split(a + ":" + b + ":" + c, ":") == [a, b, c]
  {
    assert a + ":" + b + ":" + c == a + [':'] + (b + [':'] + c);
    SplitAtFirst(a, ':', b + [':'] + c);
    SplitTwo(b, c);
  }

  lemma SplitTwo(a: string, b: string)
    requires AllDigits(a) && AllDigits(b)
    ensures Split(a + ":" + b, ":") == [a, b]
  {
    SplitAtFirst(a, ':', b);
    SplitNoSeparator(b, ':');
  }

  lemma SexagesimalThree(a: string, b: string, c: string)
    requires AllDigits(a) && AllDigits(b) && AllDigits(c)
    ensures Sexagesimal([a, b, c]) == (ParseDigits(a) * 60 + ParseDigits(b)) * 60 + ParseDigits(c)
  {
    assert [a, b, c][..2] == [a, b];
    SexagesimalTwo(a, b);
  }

  lemma SexagesimalTwo(a: string, b: string)
    requires AllDigits(a) && AllDigits(b)
    ensures Sexagesimal([a, b]) == ParseDigits(a) * 60 + ParseDigits(b)
  {
    assert [a, b][..1] == [a];
    assert [a][..0] == [];
    assert Sexagesimal([a]) == ParseDigits(a);
  }

  /** Three digit fields joined by colons read back as hours, minutes and seconds. */
  lemma ReadThree(a: string, b: string, c: string)
    requires AllDigits(a) && AllDigits(b) && AllDigits(c)
    ensures Split(a + ":" + b + ":" + c, ":") == [a, b, c]
    ensures ReadClock(a + ":" + b + ":" + c) == Some((ParseDigits(a) * 60 + ParseDigits(b)) * 60 + ParseDigits(c))
  {
    SplitThree(a, b, c);
    SexagesimalThree(a, b, c);
  }

  /** Two digit fields joined by a colon read back as minutes and seconds. */
  lemma ReadTwo(a: string, b: string)
    requires AllDigits(a) && AllDigits(b)
    ensures Split(a + ":" + b, ":") == [a, b]
    ensures ReadClock(a + ":" + b) == Some(ParseDigits(a) * 60 + ParseDigits(b))
  {
    SplitTwo(a, b);
    SexagesimalTwo(a, b);
  }
}
