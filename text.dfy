/**
 * The Kotlin string operations the core uses, over ASCII: case mapping,
 * whitespace, `isBlank`, `trim`, `split(" ")`, `contains`, `startsWith`.
 */
module Text {
  import opened Wrappers

  /**
   * The platform's `String.toDoubleOrNull`, reading a price or rating as a
   * whole number; its grammar and rounding are not part of this model.
   */
  type DoubleParser = string -> Option<int>

  /** The platform's `Double.toString`, for a whole-number value. */
  type DoubleFormatter = int -> string

  function LowerChar(c: char): char {
    if 'A' <= c <= 'Z' then (c as int - 'A' as int + 'a' as int) as char else c
  }

  function UpperChar(c: char): char {
    if 'a' <= c <= 'z' then (c as int - 'a' as int + 'A' as int) as char else c
  }

  /** `lowercase()`. */
  function Lower(s: string): (r: string)
    ensures |r| == |s| && forall i :: 0 <= i < |s| ==> r[i] == LowerChar(s[i])
  {
    if s == [] then [] else [LowerChar(s[0])] + Lower(s[1..])
  }

  /** `uppercase()`. */
  function Upper(s: string): (r: string)
    ensures |r| == |s| && forall i :: 0 <= i < |s| ==> r[i] == UpperChar(s[i])
  {
    if s == [] then [] else [UpperChar(s[0])] + Upper(s[1..])
  }

  predicate IsDigit(c: char) {
    '0' <= c <= '9'
  }

  predicate AllDigits(s: string) {
    forall i :: 0 <= i < |s| ==> IsDigit(s[i])
  }

  /** `Char.isWhitespace` restricted to the ASCII range. */
  predicate IsWhitespace(c: char) {
    c == ' ' || '\t' <= c <= '\r' || '\U{1C}' <= c <= '\U{1F}'
  }

  /** `isBlank()`: empty or whitespace only. */
  predicate IsBlank(s: string) {
    forall i :: 0 <= i < |s| ==> IsWhitespace(s[i])
  }

  /** `trim()`: drop leading and trailing whitespace. */
  function Trim(s: string): (r: string)
    ensures |r| <= |s|
    ensures r != [] ==> !IsWhitespace(r[0]) && !IsWhitespace(r[|r| - 1])
  {
    if s == [] then s
    else if IsWhitespace(s[0]) then Trim(s[1..])
    else if IsWhitespace(s[|s| - 1]) then Trim(s[..|s| - 1])
    else s
  }

  /** `contains(sub)`: `sub` occurs at some position of `s`. */
  predicate Contains(s: string, sub: string) {
    exists i :: 0 <= i <= |s| && OccursAt(s, sub, i)
  }

  predicate OccursAt(s: string, sub: string, i: nat) {
    i + |sub| <= |s| && s[i..i + |sub|] == sub
  }

  /** `startsWith(prefix)`. */
  predicate StartsWith(s: string, prefix: string) {
    |prefix| <= |s| && s[..|prefix|] == prefix
  }

  /** Position of the first space, or |s| if there is none. */
  function SpaceIndex(s: string): (r: nat)
    ensures r <= |s| && (r < |s| ==> s[r] == ' ') && forall j :: 0 <= j < r ==> s[j] != ' '
  {
    if s == [] then 0 else if s[0] == ' ' then 0 else 1 + SpaceIndex(s[1..])
  }

  /** `split(" ")`: the pieces between single spaces, empty pieces included. */
  function Split(s: string): (r: seq<string>)
    ensures |r| >= 1
  {
    if s == [] then [""]
    else if s[0] == ' ' then [""] + Split(s[1..])
    else [[s[0]] + Split(s[1..])[0]] + Split(s[1..])[1..]
  }

  /** No piece of `split(" ")` holds a space. */
  lemma {:induction false} SplitPieceNoSpace(s: string, k: nat)
    requires k < |Split(s)|
    ensures forall j :: 0 <= j < |Split(s)[k]| ==> Split(s)[k][j] != ' '
  {
    if s != [] {
      var rest := Split(s[1..]);
      if s[0] == ' ' {
        if k > 0 {
          assert Split(s)[k] == rest[k - 1];
          SplitPieceNoSpace(s[1..], k - 1);
        }
      } else if k == 0 {
        SplitPieceNoSpace(s[1..], 0);
        assert Split(s)[0] == [s[0]] + rest[0];
      } else {
        assert Split(s)[k] == rest[k];
        SplitPieceNoSpace(s[1..], k);
      }
    }
  }

  /** Every piece of `split(" ")` occurs in the string, at the returned position; the first piece is a prefix. */
  lemma {:induction false} SplitPieceAt(s: string, k: nat) returns (p: nat)
    requires k < |Split(s)|
    ensures OccursAt(s, Split(s)[k], p)
    ensures k == 0 ==> p == 0
  {
    if s == [] {
      p := 0;
    } else {
      var t := s[1..];
      var rest := Split(t);
      if s[0] == ' ' && k == 0 {
        p := 0;
      } else if s[0] == ' ' {
        assert Split(s)[k] == rest[k - 1];
        var q := SplitPieceAt(t, k - 1);
        OccursInSuffix(s, 1, rest[k - 1], q);
        p := 1 + q;
      } else if k == 0 {
        var q := SplitPieceAt(t, 0);
        assert Split(s)[0] == [s[0]] + rest[0];
        assert s[..1 + |rest[0]|] == [s[0]] + t[..|rest[0]|];
        p := 0;
      } else {
        assert Split(s)[k] == rest[k];
        var q := SplitPieceAt(t, k);
        OccursInSuffix(s, 1, rest[k], q);
        p := 1 + q;
      }
    }
  }

  /** An occurrence in a suffix is an occurrence in the whole string. */
  lemma OccursInSuffix(s: string, j: nat, w: string, q: nat)
    requires j <= |s| && OccursAt(s[j..], w, q)
    ensures OccursAt(s, w, j + q)
  {
    assert s[j + q..j + q + |w|] == s[j..][q..q + |w|];
  }

  /** The non-empty words: `split(" ").filter { it.isNotEmpty() }`. */
  function Words(s: string): (r: seq<string>)
    ensures forall k :: 0 <= k < |r| ==> r[k] != ""
  {
    NonEmpty(Split(s))
  }

  function NonEmpty(ws: seq<string>): (r: seq<string>)
    ensures forall k :: 0 <= k < |r| ==> r[k] != "" && r[k] in ws
    ensures forall k :: 0 <= k < |ws| && ws[k] != "" ==> ws[k] in r
  {
    if ws == [] then []
    else if ws[0] != "" then [ws[0]] + NonEmpty(ws[1..])
    else NonEmpty(ws[1..])
  }

  /** A word of a string occurs in it and holds no space. */
  lemma WordOccurs(s: string, w: string)
    requires w in Words(s)
    ensures Contains(s, w) && w != ""
    ensures forall j :: 0 <= j < |w| ==> w[j] != ' '
  {
    var k :| 0 <= k < |Split(s)| && Split(s)[k] == w;
    var p := SplitPieceAt(s, k);
    SplitPieceNoSpace(s, k);
  }

  /**
   * `trim()` keeps a slice of `s`: what it drops before and after is all
   * whitespace, and by `Trim`'s own contract what it keeps neither starts
   * nor ends with whitespace, so the slice is the largest such one.
   */
  lemma {:induction false} TrimSlice(s: string) returns (i: nat, j: nat)
    ensures i <= j <= |s| && Trim(s) == s[i..j]
    ensures forall k :: 0 <= k < i ==> IsWhitespace(s[k])
    ensures forall k :: j <= k < |s| ==> IsWhitespace(s[k])
    decreases |s|, 1
  {
    if s == [] {
      i, j := 0, 0;
    } else if IsWhitespace(s[0]) {
      i, j := TrimSliceHead(s);
    } else if IsWhitespace(s[|s| - 1]) {
      i, j := TrimSliceLast(s);
    } else {
      i, j := 0, |s|;
      assert s[0..|s|] == s;
    }
  }

  /** `TrimSlice` when the first character is whitespace. */
  lemma {:induction false} TrimSliceHead(s: string) returns (i: nat, j: nat)
    requires s != [] && IsWhitespace(s[0])
    ensures i <= j <= |s| && Trim(s) == s[i..j]
    ensures forall k :: 0 <= k < i ==> IsWhitespace(s[k])
    ensures forall k :: j <= k < |s| ==> IsWhitespace(s[k])
    decreases |s|, 0
  {
    var t := s[1..];
    var i', j' := TrimSlice(t);
    i, j := i' + 1, j' + 1;
    assert t[i'..j'] == s[i..j];
    forall k | 0 < k < i ensures IsWhitespace(s[k]) {
      assert s[k] == t[k - 1];
    }
    forall k | j <= k < |s| ensures IsWhitespace(s[k]) {
      assert s[k] == t[k - 1];
    }
  }

  /** `TrimSlice` when only the last character is whitespace. */
  lemma {:induction false} TrimSliceLast(s: string) returns (i: nat, j: nat)
    requires s != [] && !IsWhitespace(s[0]) && IsWhitespace(s[|s| - 1])
    ensures i <= j <= |s| && Trim(s) == s[i..j]
    ensures forall k :: 0 <= k < i ==> IsWhitespace(s[k])
    ensures forall k :: j <= k < |s| ==> IsWhitespace(s[k])
    decreases |s|, 0
  {
    var t := s[..|s| - 1];
    i, j := TrimSlice(t);
    assert t[i..j] == s[i..j];
    forall k | j <= k < |s| - 1 ensures IsWhitespace(s[k]) {
      assert s[k] == t[k];
    }
  }

  /** `trim()` leaves nothing exactly when the string is blank. */
  lemma TrimEmptyIffBlank(s: string)
    ensures Trim(s) == [] <==> IsBlank(s)
  {
    var i, j := TrimSlice(s);
    if Trim(s) != [] {
      assert Trim(s)[0] == s[i];
    }
  }

  /** `joinToString(" ")`: the pieces with one space between neighbours. */
  function Join(ws: seq<string>): string {
    if ws == [] then ""
    else if |ws| == 1 then ws[0]
    else ws[0] + " " + Join(ws[1..])
  }

  /** Joining the pieces of `split(" ")` with single spaces gives back the string. */
  lemma {:induction false} SplitJoin(s: string)
    ensures Join(Split(s)) == s
  {
    if s != [] {
      var t := s[1..];
      var r := Split(t);
      SplitJoin(t);
      if s[0] == ' ' {
        assert Split(s) == [""] + r;
        assert ([""] + r)[1..] == r;
        assert Join(Split(s)) == "" + " " + t;
      } else if |r| == 1 {
        assert Split(s) == [[s[0]] + r[0]];
        assert Join(Split(s)) == [s[0]] + t;
      } else {
        var w := [[s[0]] + r[0]] + r[1..];
        assert Split(s) == w;
        assert w[1..] == r[1..];
        assert Join(r) == r[0] + " " + Join(r[1..]);
        assert Join(w) == [s[0]] + (r[0] + " " + Join(r[1..]));
      }
      assert s == [s[0]] + t;
    }
  }

  /** How `split(" ")` of a non-empty string is built from that of its tail. */
  lemma SplitCons(s: string)
    requires s != []
    ensures s[0] == ' ' ==> Split(s) == [""] + Split(s[1..])
    ensures s[0] != ' ' ==>
      |Split(s)| == |Split(s[1..])| && Split(s)[0] == [s[0]] + Split(s[1..])[0] &&
      forall k :: 0 < k < |Split(s)| ==> Split(s)[k] == Split(s[1..])[k]
  {
  }

  /** `s[i..j]` holds no space and has a space, or an end of `s`, on either side. */
  predicate SpaceBounded(s: string, i: nat, j: nat) {
    i <= j <= |s| && (i == 0 || s[i - 1] == ' ') && (j == |s| || s[j] == ' ') &&
    forall k :: i <= k < j ==> s[k] != ' '
  }

  /**
   * Every space-bounded run of `s` is a piece of `split(" ")`; the run at
   * the start is the first piece and a run after a space is a later one.
   */
  lemma {:induction false} RunIsPiece(s: string, i: nat, j: nat) returns (k: nat)
    requires SpaceBounded(s, i, j)
    ensures k < |Split(s)| && Split(s)[k] == s[i..j]
    ensures i == 0 <==> k == 0
    decreases |s|, 1
  {
    if s == [] || j == 0 {
      k := 0;
    } else if i == 0 {
      RunIsFirstPiece(s, j);
      k := 0;
    } else {
      k := RunIsLaterPiece(s, i, j);
    }
  }

  /** `RunIsPiece` for a run that starts the string: it extends the tail's first piece. */
  lemma {:induction false} RunIsFirstPiece(s: string, j: nat)
    requires 0 < j && SpaceBounded(s, 0, j)
    ensures Split(s)[0] == s[..j]
    decreases |s|, 0
  {
    var t := s[1..];
    assert s[0] != ' ';
    assert SpaceBounded(t, 0, j - 1) by {
      forall k | 0 <= k < j - 1 ensures t[k] != ' ' {
        assert t[k] == s[k + 1];
      }
    }
    var k' := RunIsPiece(t, 0, j - 1);
    assert Split(t)[0] == t[..j - 1];
    SplitCons(s);
    assert s[..j] == [s[0]] + t[..j - 1];
  }

  /** `RunIsPiece` for a run after a space: it is a piece of the tail, shifted by the head. */
  lemma {:induction false} RunIsLaterPiece(s: string, i: nat, j: nat) returns (k: nat)
    requires 0 < i && SpaceBounded(s, i, j)
    ensures 0 < k < |Split(s)| && Split(s)[k] == s[i..j]
    decreases |s|, 0
  {
    var t := s[1..];
    assert SpaceBounded(t, i - 1, j - 1) by {
      forall k | i - 1 <= k < j - 1 ensures t[k] != ' ' {
        assert t[k] == s[k + 1];
      }
    }
    var k' := RunIsPiece(t, i - 1, j - 1);
    assert t[i - 1..j - 1] == s[i..j];
    SplitCons(s);
    if s[0] == ' ' {
      k := k' + 1;
    } else {
      k := k';
    }
  }

  /** Conversely to `WordOccurs`: every non-empty space-bounded run of `s` is one of its words. */
  lemma WordsComplete(s: string, i: nat, j: nat)
    requires i < j && SpaceBounded(s, i, j)
    ensures s[i..j] in Words(s)
  {
    var k := RunIsPiece(s, i, j);
  }

  /** Lower-casing twice is lower-casing once. */
  lemma LowerIdempotent(s: string)
    ensures Lower(Lower(s)) == Lower(s)
  {
  }

  const IntMin: int := -0x8000_0000
  const IntMax: int := 0x7FFF_FFFF

  function DigitValue(c: char): nat
    requires IsDigit(c)
  {
    c as int - '0' as int
  }

  function DigitChar(d: nat): (c: char)
    requires d < 10
    ensures IsDigit(c) && DigitValue(c) == d
  {
    ('0' as int + d) as char
  }

  /** The value of a string of decimal digits, most significant first. */
  function DigitsValue(s: string): nat
    requires AllDigits(s)
  {
    if s == [] then 0 else DigitsValue(s[..|s| - 1]) * 10 + DigitValue(s[|s| - 1])
  }

  /** `toIntOrNull()`: an optional sign, then one or more digits, within the 32-bit range. */
  function ParseInt(s: string): (r: Option<int>)
    ensures r.Some? ==> IntMin <= r.value <= IntMax
    ensures r.Some? ==> s != [] && AllDigits(if s[0] == '-' || s[0] == '+' then s[1..] else s)
  {
    var digits := if s != [] && (s[0] == '-' || s[0] == '+') then s[1..] else s;
    if digits == [] || !AllDigits(digits) then None
    else
      var magnitude: int := DigitsValue(digits);
      var v := if s[0] == '-' then -magnitude else magnitude;
      if IntMin <= v <= IntMax then Some(v) else None
  }

  /** The decimal digits of `n`, without leading zeros. */
  function NatToDecimal(n: nat): (r: string)
    ensures r != [] && AllDigits(r) && DigitsValue(r) == n
    ensures |r| > 1 ==> r[0] != '0'
  {
    if n < 10 then [DigitChar(n)]
    else
      var r := NatToDecimal(n / 10) + [DigitChar(n % 10)];
      assert r[..|r| - 1] == NatToDecimal(n / 10);
      r
  }

  /** `Int.toString()`. */
  function IntToDecimal(n: int): string {
    if n < 0 then "-" + NatToDecimal(-n) else NatToDecimal(n)
  }

  /** Reading back the decimal form of a 32-bit integer gives the integer. */
  lemma ParseIntToDecimal(n: int)
    requires IntMin <= n <= IntMax
    ensures ParseInt(IntToDecimal(n)) == Some(n)
  {
    var s := IntToDecimal(n);
    if n < 0 {
      assert s[1..] == NatToDecimal(-n);
    } else {
      assert IsDigit(s[0]);
    }
  }
}
