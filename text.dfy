// String and number helpers shared by the view-models: the Foundation calls
// the source relies on (`String(format: "%d")`, `"%02d"`, `Int(_:)` on a
// Double, `/` and `%` on Int, `components(separatedBy:)`,
// `replacingOccurrences(of:with:)`, `trimmingCharacters(in:)`,
// `hasSuffix`, `lowercased()`), written out over `seq<char>`.
module Text {
  import opened Wrappers

  // ---------------------------------------------------------------------------
  // Decimal digits
  // ---------------------------------------------------------------------------

  predicate IsDigit(c: char) { '0' <= c <= '9' }

  predicate AllDigits(s: string) { forall i :: 0 <= i < |s| ==> IsDigit(s[i]) }

  function DigitChar(d: nat): (c: char)
    requires d < 10
    ensures IsDigit(c)
  {
    (48 + d) as char
  }

  function DigitValue(c: char): (d: nat)
    requires IsDigit(c)
    ensures d < 10
  {
    c as int - 48
  }

  /** Decimal rendering of a natural number, most significant digit first, no padding. */
  function NatToString(n: nat): (s: string)
    ensures |s| >= 1 && AllDigits(s)
    ensures n < 10 <==> |s| == 1
    decreases n
  {
    if n < 10 then [DigitChar(n)] else NatToString(n / 10) + [DigitChar(n % 10)]
  }

  /** The value of a string of decimal digits (the inverse of NatToString). */
  function ParseDigits(s: string): nat
    requires AllDigits(s)
  {
    if s == [] then 0 else 10 * ParseDigits(s[..|s| - 1]) + DigitValue(s[|s| - 1])
  }

  /** Reading back a rendered number gives the number. */
  lemma {:induction false} ParseNatToString(n: nat)
    ensures ParseDigits(NatToString(n)) == n
  {
    var s := NatToString(n);
    if n >= 10 {
      assert s[..|s| - 1] == NatToString(n / 10);
      ParseNatToString(n / 10);
    }
  }

  /** `String(format: "%d", i)`. */
  function IntToString(i: int): (s: string)
    ensures |s| >= 1
    ensures i >= 0 ==> AllDigits(s) && ParseDigits(s) == i
    ensures i < 0 ==> s[0] == '-' && AllDigits(s[1..]) && ParseDigits(s[1..]) == -i
  {
    if i < 0 then
      ParseNatToString(-i);
      assert ("-" + NatToString(-i))[1..] == NatToString(-i);
      "-" + NatToString(-i)
    else
      ParseNatToString(i);
      NatToString(i)
  }

  /** `String(format: "%02d", i)`: at least two characters, zero-padded on the left. */
  function Pad2(i: int): (s: string)
    ensures 0 <= i < 100 ==> |s| == 2 && AllDigits(s) && ParseDigits(s) == i
    ensures i >= 100 ==> AllDigits(s) && ParseDigits(s) == i
  {
    if 0 <= i < 10 then
      assert ParseDigits("0" + NatToString(i)) == 10 * ParseDigits("0") + i;
      "0" + NatToString(i)
    else
      IntToString(i)
  }

  // ---------------------------------------------------------------------------
  // Swift integer conversions
  // ---------------------------------------------------------------------------

  /** `Int(x)` for a Double: truncation toward zero (Dafny's `.Floor` rounds down). */
  function Trunc(x: real): (r: int)
    ensures x >= 0.0 ==> 0 <= r && r as real <= x < r as real + 1.0
    ensures x < 0.0 ==> r <= 0 && r as real - 1.0 < x <= r as real
  {
    if x >= 0.0 then x.Floor else -((-x).Floor)
  }

  /** Swift's `a / d` on Int for a positive divisor: the quotient truncated toward zero. */
  function Quot(a: int, d: int): int
    requires d > 0
  {
    if a >= 0 then a / d else -((-a) / d)
  }

  /** Swift's `a % d` on Int for a positive divisor: the remainder takes the sign of `a`. */
  function Rem(a: int, d: int): (r: int)
    requires d > 0
    ensures a == d * Quot(a, d) + r
    ensures a >= 0 ==> 0 <= r < d
    ensures a < 0 ==> -d < r <= 0
  {
    if a >= 0 then a % d else -((-a) % d)
  }

  /** A positive multiple of `d` is at least `d`. */
  lemma MulAtLeast(x: int, d: int)
    requires x >= 1 && d > 0
    ensures x * d >= d
  {
    assert x * d == d + (x - 1) * d;
    assert (x - 1) * d >= 0;
  }

  /** Division with remainder has exactly one quotient and one remainder. */
  lemma DivModUnique(n: int, d: int, q: int, r: int)
    requires d > 0 && 0 <= r < d && n == q * d + r
    ensures n / d == q && n % d == r
  {
    var p := n / d;
    var r' := n % d;
    assert n == p * d + r' && 0 <= r' < d;
    var x := p - q;
    assert x * d == p * d - q * d;
    if x >= 1 {
      MulAtLeast(x, d);
    } else if x <= -1 {
      MulAtLeast(-x, d);
    }
  }

  // ---------------------------------------------------------------------------
  // Searching, splitting, replacing
  // ---------------------------------------------------------------------------

  predicate OccursAt(s: string, sub: string, i: nat)
  {
    i + |sub| <= |s| && s[i..i + |sub|] == sub
  }

  /** `s.hasSuffix(suffix)`. */
  predicate HasSuffix(s: string, suffix: string)
  {
    |suffix| <= |s| && s[|s| - |suffix|..] == suffix
  }

  /** A string does not end with a suffix whose last character differs from its own. */
  lemma LastCharDiffers(s: string, suffix: string)
    requires |s| > 0 && |suffix| > 0 && s[|s| - 1] != suffix[|suffix| - 1]
    ensures !HasSuffix(s, suffix)
  {
    if |suffix| <= |s| {
      assert s[|s| - |suffix|..][|suffix| - 1] == s[|s| - 1];
    }
  }

  /** The first position at or after `from` where `sub` occurs, if any. */
  function IndexOfFrom(s: string, sub: string, from: nat): (r: Option<nat>)
    ensures r.Some? ==> from <= r.value && OccursAt(s, sub, r.value)
    ensures r.Some? ==> forall j :: from <= j < r.value ==> !OccursAt(s, sub, j)
    ensures r.None? ==> forall j :: from <= j ==> !OccursAt(s, sub, j)
    decreases |s| - from
  {
    if from + |sub| > |s| then None
    else if s[from..from + |sub|] == sub then Some(from)
    else IndexOfFrom(s, sub, from + 1)
  }

  function IndexOf(s: string, sub: string): Option<nat>
  {
    IndexOfFrom(s, sub, 0)
  }

  /** `s.contains(sub)`. */
  predicate Contains(s: string, sub: string)
  {
    IndexOf(s, sub).Some?
  }

  /** `s.components(separatedBy: sep)`: the pieces between leftmost, non-overlapping occurrences. */
  function Split(s: string, sep: string): (parts: seq<string>)
    requires |sep| > 0
    ensures |parts| >= 1
    decreases |s|
  {
    match IndexOf(s, sep)
    case None => [s]
    case Some(i) => [s[..i]] + Split(s[i + |sep|..], sep)
  }

  /** Splitting at a separator character that the first piece does not contain. */
  lemma SplitAtFirst(a: string, c: char, b: string)
    requires forall i :: 0 <= i < |a| ==> a[i] != c
    ensures Split(a + [c] + b, [c]) == [a] + Split(b, [c])
  {
    var s := a + [c] + b;
    assert OccursAt(s, [c], |a|);
    match IndexOf(s, [c])
    case None =>
    case Some(k) =>
      assert s[k..k + 1][0] == s[k] == c;
      assert k == |a|;
      assert s[..k] == a && s[k + 1..] == b;
  }

  /** A string without the separator character splits into itself alone. */
  lemma SplitNoSeparator(a: string, c: char)
    requires forall i :: 0 <= i < |a| ==> a[i] != c
    ensures Split(a, [c]) == [a]
  {
    forall j: nat | j + 1 <= |a| ensures !OccursAt(a, [c], j) {
      assert a[j..j + 1][0] == a[j];
    }
    assert IndexOf(a, [c]).None?;
  }

  /** Every character before the first occurrence of `c` differs from `c`. */
  lemma BeforeFirst(a: string, c: char, n: nat)
    requires n <= |a|
    requires forall j :: 0 <= j < n ==> !OccursAt(a, [c], j)
    ensures forall j :: 0 <= j < n ==> a[j] != c
  {
    forall j | 0 <= j < n ensures a[j] != c {
      assert !OccursAt(a, [c], j);
      assert a[j..j + 1][0] == a[j];
    }
  }

  /** The last piece of a split is whatever follows the last separator. */
  lemma {:induction false} SplitLastPiece(a: string, c: char, b: string)
    requires forall i :: 0 <= i < |b| ==> b[i] != c
    ensures |Split(a + [c] + b, [c])| >= 2
    ensures Split(a + [c] + b, [c])[|Split(a + [c] + b, [c])| - 1] == b
    decreases |a|
  {
    match IndexOf(a, [c])
    case None =>
      BeforeFirst(a, c, |a|);
      SplitAtFirst(a, c, b);
      SplitNoSeparator(b, c);
    case Some(i) =>
      BeforeFirst(a, c, i);
      assert a[i..i + 1][0] == a[i];
      var rest := a[i + 1..] + [c] + b;
      assert a + [c] + b == a[..i] + [c] + rest;
      SplitAtFirst(a[..i], c, rest);
      SplitLastPiece(a[i + 1..], c, b);
  }

  /** Splitting at a separator whose first character the first piece does not contain. */
  lemma SplitAtSeparator(a: string, sep: string, b: string)
    requires |sep| > 0 && forall i :: 0 <= i < |a| ==> a[i] != sep[0]
    ensures Split(a + sep + b, sep) == [a] + Split(b, sep)
  {
    var s := a + sep + b;
    assert OccursAt(s, sep, |a|);
    match IndexOf(s, sep)
    case None =>
    case Some(k) =>
      assert s[k..k + |sep|][0] == s[k];
      assert k == |a|;
      assert s[..k] == a && s[k + |sep|..] == b;
  }

  /** A string without the separator's first character splits into itself alone. */
  lemma SplitWithoutSeparator(a: string, sep: string)
    requires |sep| > 0 && forall i :: 0 <= i < |a| ==> a[i] != sep[0]
    ensures Split(a, sep) == [a]
  {
    forall j: nat | j + |sep| <= |a| ensures !OccursAt(a, sep, j) {
      assert a[j..j + |sep|][0] == a[j];
    }
    assert IndexOf(a, sep).None?;
  }

  /** `parts.joined(separator: sep)`. */
  function Join(parts: seq<string>, sep: string): string
  {
    if |parts| == 0 then ""
    else if |parts| == 1 then parts[0]
    else parts[0] + sep + Join(parts[1..], sep)
  }

  /** Splitting and joining with the same separator gives back the input. */
  lemma {:induction false} JoinSplit(s: string, sep: string)
    requires |sep| > 0
    ensures Join(Split(s, sep), sep) == s
    decreases |s|
  {
    match IndexOf(s, sep)
    case None =>
    case Some(i) =>
      var rest := s[i + |sep|..];
      var tail := Split(rest, sep);
      var parts := [s[..i]] + tail;
      assert Split(s, sep) == parts;
      assert parts[1..] == tail;
      assert Join(parts, sep) == s[..i] + sep + Join(tail, sep);
      JoinSplit(rest, sep);
      assert s == s[..i] + s[i..i + |sep|] + rest;
  }

  /** No piece produced by Split contains the separator. */
  lemma {:induction false} SplitPiecesAreFree(s: string, sep: string, k: nat)
    requires |sep| > 0 && k < |Split(s, sep)|
    ensures !Contains(Split(s, sep)[k], sep)
    decreases |s|
  {
    match IndexOf(s, sep)
    case None =>
    case Some(i) =>
      if k == 0 {
        var piece := s[..i];
        forall j | 0 <= j ensures !OccursAt(piece, sep, j) {
          if OccursAt(piece, sep, j) {
            assert piece[j..j + |sep|] == s[j..j + |sep|];
            assert OccursAt(s, sep, j);
          }
        }
      } else {
        SplitPiecesAreFree(s[i + |sep|..], sep, k - 1);
      }
  }

  /** No character of any piece is the separator's first character. */
  predicate PiecesAvoid(parts: seq<string>, c: char)
  {
    forall k, i :: 0 <= k < |parts| && 0 <= i < |parts[k]| ==> parts[k][i] != c
  }

  /** Pieces free of the separator's first character split back out of their join. */
  lemma {:induction false} SplitJoin(parts: seq<string>, sep: string)
    requires |sep| > 0 && |parts| >= 1 && PiecesAvoid(parts, sep[0])
    ensures Split(Join(parts, sep), sep) == parts
    decreases |parts|
  {
    if |parts| == 1 {
      SplitWithoutSeparator(parts[0], sep);
    } else {
      var rest := parts[1..];
      assert PiecesAvoid(rest, sep[0]) by {
        forall k, i | 0 <= k < |rest| && 0 <= i < |rest[k]| ensures rest[k][i] != sep[0] {
          assert rest[k] == parts[k + 1];
        }
      }
      SplitJoin(rest, sep);
      SplitAtSeparator(parts[0], sep, Join(rest, sep));
    }
  }

  /** `s.replacingOccurrences(of: target, with: replacement)`. */
  function ReplaceAll(s: string, target: string, replacement: string): string
    requires |target| > 0
  {
    Join(Split(s, target), replacement)
  }

  /** Joining the same pieces with separators of equal length gives strings of equal length. */
  lemma {:induction false} JoinLength(parts: seq<string>, a: string, b: string)
    requires |a| == |b|
    ensures |Join(parts, a)| == |Join(parts, b)|
    decreases |parts|
  {
    if |parts| > 1 {
      JoinLength(parts[1..], a, b);
    }
  }

  /** A replacement of the target's own length preserves the length of the string. */
  lemma ReplaceAllKeepsLength(s: string, target: string, replacement: string)
    requires |target| > 0 && |replacement| == |target|
    ensures |ReplaceAll(s, target, replacement)| == |s|
  {
    JoinLength(Split(s, target), replacement, target);
    JoinSplit(s, target);
  }

  /** Where the target does not occur, replacing changes nothing. */
  lemma ReplaceAllAbsent(s: string, target: string, replacement: string)
    requires |target| > 0 && !Contains(s, target)
    ensures ReplaceAll(s, target, replacement) == s
  {
  }

  /** Replacing an occurring target by a different string of the same length changes the string. */
  lemma ReplaceAllChanges(s: string, target: string, replacement: string)
    requires |target| > 0 && Contains(s, target)
    requires |replacement| == |target| && replacement != target
    ensures ReplaceAll(s, target, replacement) != s
  {
    var i := IndexOf(s, target).value;
    var tail := Split(s[i + |target|..], target);
    var parts := [s[..i]] + tail;
    assert Split(s, target) == parts && parts[1..] == tail;
    var r := s[..i] + replacement + Join(tail, replacement);
    assert ReplaceAll(s, target, replacement) == r;
    assert r[i..i + |replacement|] == replacement;
    assert s[i..i + |target|] == target;
  }

  // ---------------------------------------------------------------------------
  // Whitespace trimming
  // ---------------------------------------------------------------------------

  /** The characters of `CharacterSet.whitespacesAndNewlines`. */
  predicate IsWhitespace(c: char)
  {
    c == ' ' || c == '\t' || c == '\n' || c == '\r' || c == '\U{000B}' || c == '\U{000C}'
    || c == '\U{0085}' || c == '\U{00A0}' || c == '\U{1680}'
    || ('\U{2000}' <= c <= '\U{200A}') || c == '\U{2028}' || c == '\U{2029}'
    || c == '\U{202F}' || c == '\U{205F}' || c == '\U{3000}'
  }

  /** The number of whitespace characters at the front of `s`. */
  function LeadingWhitespace(s: string): (n: nat)
    ensures n <= |s|
    ensures forall i :: 0 <= i < n ==> IsWhitespace(s[i])
    ensures n < |s| ==> !IsWhitespace(s[n])
  {
    if s == [] || !IsWhitespace(s[0]) then 0 else 1 + LeadingWhitespace(s[1..])
  }

  /** The number of whitespace characters at the end of `s`. */
  function TrailingWhitespace(s: string): (n: nat)
    ensures n <= |s|
    ensures forall i :: |s| - n <= i < |s| ==> IsWhitespace(s[i])
    ensures n < |s| ==> !IsWhitespace(s[|s| - 1 - n])
  {
    if s == [] || !IsWhitespace(s[|s| - 1]) then 0 else 1 + TrailingWhitespace(s[..|s| - 1])
  }

  /** `s.trimmingCharacters(in: .whitespacesAndNewlines)`. */
  function Trim(s: string): (t: string)
  {
    var a := LeadingWhitespace(s);
    var rest := s[a..];
    rest[..|rest| - TrailingWhitespace(rest)]
  }

  /** Trimming keeps a contiguous piece of the input that neither starts nor ends with whitespace. */
  lemma TrimSpec(s: string)
    ensures exists i, j :: 0 <= i <= j <= |s| && Trim(s) == s[i..j]
    ensures Trim(s) != [] ==> !IsWhitespace(Trim(s)[0]) && !IsWhitespace(Trim(s)[|Trim(s)| - 1])
  {
    var a := LeadingWhitespace(s);
    var rest := s[a..];
    var b := TrailingWhitespace(rest);
    assert Trim(s) == s[a..|s| - b];
  }

  // ---------------------------------------------------------------------------
  // Case folding
  // ---------------------------------------------------------------------------

  /** Lower-casing of one character, for the ASCII letters. */
  function LowerChar(c: char): char
  {
    if 'A' <= c <= 'Z' then (c as int + 32) as char else c
  }

  /** `s.lowercased()`, restricted to ASCII letters. */
  function Lower(s: string): (r: string)
    ensures |r| == |s|
    ensures forall i :: 0 <= i < |s| ==> r[i] == LowerChar(s[i])
  {
    seq(|s|, i requires 0 <= i < |s| => LowerChar(s[i]))
  }
}
