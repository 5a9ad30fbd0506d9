/**
 Lease names. A GPULease is named "<node>-gpu-<id>", and the uniqueness of names
 in the store is the only mutual exclusion between allocators of a (node, id) pair.
 The name is unambiguous because a parser reads the pair back, whatever the node
 string is (it may itself contain "-gpu-" or end in digits) and whatever the sign
 of the id.
 */
module Names {
  import opened Options

  const SEPARATOR: string := "-gpu-"
  const MINUS_SEPARATOR: string := "-gpu--"

  predicate IsDigit(c: char) {
    '0' <= c <= '9'
  }

  predicate AllDigits(s: string) {
    forall i :: 0 <= i < |s| ==> IsDigit(s[i])
  }

  function DigitChar(d: nat): (c: char)
    requires d < 10
    ensures IsDigit(c) && DigitValue(c) == d
  {
    ('0' as int + d) as char
  }

  function DigitValue(c: char): (d: nat)
    requires IsDigit(c)
    ensures d < 10
  {
    c as int - '0' as int
  }

  /** Unsigned decimal, no leading zero. */
  function PrintNat(n: nat): string {
    if n < 10 then [DigitChar(n)] else PrintNat(n / 10) + [DigitChar(n % 10)]
  }

  function ReadNat(s: string): nat
    requires AllDigits(s)
  {
    if s == "" then 0 else 10 * ReadNat(s[..|s| - 1]) + DigitValue(s[|s| - 1])
  }

  /** The "%d" verb of the source's formatter. */
  function Print(n: int): string {
    if n < 0 then "-" + PrintNat(-n) else PrintNat(n)
  }

  function LeaseName(node: string, id: int): string {
    node + SEPARATOR + Print(id)
  }

  /** The length of the longest suffix made of digits. */
  function TrailingDigits(s: string): (k: nat)
    ensures k <= |s|
    ensures forall i :: |s| - k <= i < |s| ==> IsDigit(s[i])
    ensures k < |s| ==> !IsDigit(s[|s| - k - 1])
  {
    if s == "" || !IsDigit(s[|s| - 1]) then 0 else TrailingDigits(s[..|s| - 1]) + 1
  }

  predicate EndsWith(s: string, t: string) {
    |t| <= |s| && s[|s| - |t|..] == t
  }

  /** Canonical digits: the ones PrintNat produces. */
  predicate Canonical(d: string) {
    |d| > 0 && AllDigits(d) && (d[0] == '0' ==> |d| == 1)
  }

  /** Interprets what precedes the trailing digits, and the digits themselves. */
  function ParseParts(front: string, digits: string): Option<(string, int)> {
    if !Canonical(digits) then None
    else if EndsWith(front, SEPARATOR) then
      Some((front[..|front| - 5], ReadNat(digits)))
    else if EndsWith(front, MINUS_SEPARATOR) && ReadNat(digits) != 0 then
      Some((front[..|front| - 6], 0 - ReadNat(digits)))
    else None
  }

  /** Reads a lease name back into its node and id. */
  function ParseLeaseName(s: string): Option<(string, int)> {
    var k := TrailingDigits(s);
    ParseParts(s[..|s| - k], s[|s| - k..])
  }

  lemma {:induction false} ReadPrint(n: nat)
    ensures Canonical(PrintNat(n)) && (PrintNat(n)[0] == '0' ==> n == 0)
    ensures ReadNat(PrintNat(n)) == n
  {
    if n >= 10 {
      ReadPrint(n / 10);
      var s := PrintNat(n);
      assert s[..|s| - 1] == PrintNat(n / 10);
    } else {
      var s := PrintNat(n);
      assert s[..0] == "";
    }
  }

  lemma {:induction false} PrintRead(d: string)
    requires Canonical(d)
    ensures PrintNat(ReadNat(d)) == d
  {
    var front := d[..|d| - 1];
    if front != "" {
      assert front[0] == d[0] != '0';
      PrintRead(front);
      assert ReadNat(front) > 0;
      assert d == front + [d[|d| - 1]];
    } else {
      assert ReadNat(front) == 0;
    }
  }

  /** A digit string behind a non-digit is exactly what TrailingDigits finds. */
  lemma {:induction false} TrailingDigitsOf(front: string, d: string)
    requires AllDigits(d)
    requires front != "" ==> !IsDigit(front[|front| - 1])
    ensures TrailingDigits(front + d) == |d|
    decreases |d|
  {
    var s := front + d;
    if d != "" {
      assert s[..|s| - 1] == front + d[..|d| - 1];
      TrailingDigitsOf(front, d[..|d| - 1]);
    } else {
      assert s == front;
    }
  }

  lemma JoinEnd(s: string, t: string)
    ensures EndsWith(s + t, t) && (s + t)[..|s|] == s
  {
    assert (s + t)[|s|..] == t;
  }

  lemma SplitEnd(s: string, t: string)
    requires EndsWith(s, t)
    ensures s[..|s| - |t|] + t == s
  {
    assert s == s[..|s| - |t|] + s[|s| - |t|..];
  }

  /** The two separators cannot end the same string. */
  lemma OneSeparator(s: string)
    requires EndsWith(s, MINUS_SEPARATOR)
    ensures !EndsWith(s, SEPARATOR)
  {
    assert s[|s| - 6..][4] == '-';
  }

  lemma PrintedNonNegative(node: string, id: nat)
    ensures ParseParts(node + SEPARATOR, PrintNat(id)) == Some((node, id))
  {
    ReadPrint(id);
    JoinEnd(node, SEPARATOR);
  }

  lemma PrintedNegative(node: string, id: int)
    requires id < 0
    ensures ParseParts(node + MINUS_SEPARATOR, PrintNat(-id)) == Some((node, id))
  {
    ReadPrint(-id);
    JoinEnd(node, MINUS_SEPARATOR);
    OneSeparator(node + MINUS_SEPARATOR);
  }

  /** Every name reads back as the pair it was printed from. */
  lemma ParsePrinted(node: string, id: int)
    ensures ParseLeaseName(LeaseName(node, id)) == Some((node, id))
  {
    var digits := PrintNat(if id < 0 then -id else id);
    var front := node + (if id < 0 then MINUS_SEPARATOR else SEPARATOR);
    if id < 0 {
      PrintedNegative(node, id);
      assert node + SEPARATOR + ("-" + digits) == front + digits;
    } else {
      PrintedNonNegative(node, id);
    }
    ReadPrint(if id < 0 then -id else id);
    TrailingDigitsOf(front, digits);
    var s := front + digits;
    assert s[..|s| - |digits|] == front && s[|s| - |digits|..] == digits;
  }

  lemma ParsedParts(front: string, digits: string)
    requires ParseParts(front, digits).Some?
    ensures var (node, id) := ParseParts(front, digits).value; LeaseName(node, id) == front + digits
  {
    PrintRead(digits);
    if EndsWith(front, SEPARATOR) {
      SplitEnd(front, SEPARATOR);
    } else {
      SplitEnd(front, MINUS_SEPARATOR);
      var node := front[..|front| - 6];
      assert MINUS_SEPARATOR == SEPARATOR + "-";
      assert node + SEPARATOR + ("-" + digits) == (node + MINUS_SEPARATOR) + digits;
    }
  }

  /** The parser accepts nothing but printed names. */
  lemma PrintParsed(s: string)
    requires ParseLeaseName(s).Some?
    ensures var (node, id) := ParseLeaseName(s).value; LeaseName(node, id) == s
  {
    var k := TrailingDigits(s);
    ParsedParts(s[..|s| - k], s[|s| - k..]);
    assert s[..|s| - k] + s[|s| - k..] == s;
  }

  /** Name uniqueness is uniqueness of the (node, id) pair. */
  lemma LeaseNameInjective(node1: string, id1: int, node2: string, id2: int)
    requires LeaseName(node1, id1) == LeaseName(node2, id2)
    ensures node1 == node2 && id1 == id2
  {
    ParsePrinted(node1, id1);
    ParsePrinted(node2, id2);
  }

  function InRange32(v: int): Option<int> {
    if -0x8000_0000 <= v < 0x8000_0000 then Some(v) else None
  }

  /** strconv.ParseInt(s, 10, 32): an optional sign, then digits, within 32 bits. */
  function ParseInt32(s: string): Option<int> {
    var signed := s != "" && (s[0] == '-' || s[0] == '+');
    var digits := if signed then s[1..] else s;
    if digits == "" || !AllDigits(digits) then None
    else InRange32(if signed && s[0] == '-' then 0 - ReadNat(digits) else ReadNat(digits))
  }

  /** The integer parser undoes the printer exactly on the 32-bit range. */
  lemma ParseInt32Printed(n: int)
    ensures ParseInt32(Print(n)) == InRange32(n)
  {
    var s := Print(n);
    if n < 0 {
      ReadPrint(-n);
      assert s[0] == '-' && s[1..] == PrintNat(-n);
    } else {
      ReadPrint(n);
      assert IsDigit(s[0]);
    }
  }

  /** Digits with or without a sign. */
  lemma ParseInt32Digits(d: string)
    requires d != "" && AllDigits(d)
    ensures ParseInt32(d) == InRange32(ReadNat(d))
    ensures ParseInt32("+" + d) == InRange32(ReadNat(d)) && ParseInt32("-" + d) == InRange32(0 - ReadNat(d))
  {
    assert IsDigit(d[0]);
    assert ("+" + d)[1..] == d && ("-" + d)[1..] == d;
  }

  /** Leading zeros make no difference. */
  lemma ParseInt32Padded(n: nat, zeros: string)
    requires forall i :: 0 <= i < |zeros| ==> zeros[i] == '0'
    ensures ParseInt32(zeros + PrintNat(n)) == InRange32(n)
  {
    ReadPrint(n);
    ReadZeros(zeros);
    ReadAppended(zeros, PrintNat(n));
    ParseInt32Digits(zeros + PrintNat(n));
  }

  lemma {:induction false} ReadZeros(zeros: string)
    requires forall i :: 0 <= i < |zeros| ==> zeros[i] == '0'
    ensures AllDigits(zeros) && ReadNat(zeros) == 0
  {
    if zeros != "" { ReadZeros(zeros[..|zeros| - 1]); }
  }

  /** Zeros in front do not count. */
  lemma {:induction false} ReadAppended(zeros: string, d: string)
    requires AllDigits(d) && AllDigits(zeros) && ReadNat(zeros) == 0
    ensures AllDigits(zeros + d) && ReadNat(zeros + d) == ReadNat(d)
  {
    if d == "" {
      assert zeros + d == zeros;
    } else {
      var front := d[..|d| - 1];
      ReadAppended(zeros, front);
      assert (zeros + d)[..|zeros + d| - 1] == zeros + front;
    }
  }

  /** Anything else is refused: an empty number, or one with a character that is no digit. */
  lemma ParseInt32Refuses(s: string)
    requires s == "" || s == "+" || s == "-" || exists i :: 0 < i < |s| && !IsDigit(s[i])
    ensures ParseInt32(s).None?
  {
    if 0 < |s| {
      forall i | 0 < i < |s| ensures s[1..][i - 1] == s[i] {
      }
    }
  }
}
