/** The DJB-SeqNo header: printing a request's (id, reqid) and scanning it back.
    Printing follows section 7.19.6.1 and scanning section 7.19.6.2 of ISO/IEC 9899:1999
    for the formats used by the daemon: a minimum width of nine when printing, a maximum
    width of nine when scanning. */
module SeqNo {
  import opened Collections

  const WIDTH: nat := 9

  /** 16 to the power 9: the least value that needs more than nine hexadecimal digits. */
  const BOUND: nat := 0x10_0000_0000

  /** What identifies a request: the id of its client and that client's request counter. */
  datatype Key = Key(id: nat, reqid: nat)

  // ---------------------------------------------------------------- printing

  function Digit(d: nat): (c: char)
    requires d < 16
    ensures IsHex(c) && HexValue(c) == d
  {
    "0123456789abcdef"[d]
  }

  function Hex(n: nat): (s: string)
    ensures s != [] && forall i :: 0 <= i < |s| ==> IsHex(s[i])
  {
    if n < 16 then [Digit(n)] else Hex(n / 16) + [Digit(n % 16)]
  }

  function Zeros(k: nat): (s: string)
    ensures |s| == k && forall i :: 0 <= i < k ==> s[i] == '0'
  {
    seq(k, _ => '0')
  }

  /** Zero padding up to a minimum width: longer numbers are printed in full. */
  function PrintHex(n: nat): (s: string) {
    var h := Hex(n);
    if |h| < WIDTH then Zeros(WIDTH - |h|) + h else h
  }

  function PrintSeqNo(k: Key): (s: string) {
    PrintHex(k.id) + PrintHex(k.reqid)
  }

  // ---------------------------------------------------------------- scanning

  predicate IsHex(c: char) {
    '0' <= c <= '9' || 'a' <= c <= 'f' || 'A' <= c <= 'F'
  }

  function HexValue(c: char): (v: nat)
    requires IsHex(c)
    ensures v < 16
  {
    if '0' <= c <= '9' then (c - '0') as nat
    else if 'a' <= c <= 'f' then (c - 'a') as nat + 10
    else (c - 'A') as nat + 10
  }

  predicate IsSpace(c: char) {
    c == ' ' || '\t' <= c <= '\r'
  }

  function SkipSpace(s: string): string {
    if s != [] && IsSpace(s[0]) then SkipSpace(s[1..]) else s
  }

  /** The longest run of hexadecimal digits at the start of `s`, at most `w` of them. */
  function HexRun(s: string, w: nat): (n: nat)
    ensures n <= w && n <= |s| && forall i :: 0 <= i < n ==> IsHex(s[i])
  {
    if w == 0 || s == [] || !IsHex(s[0]) then 0 else 1 + HexRun(s[1..], w - 1)
  }

  function Value(s: string): nat
    requires forall i :: 0 <= i < |s| ==> IsHex(s[i])
  {
    if s == [] then 0 else Value(s[..|s| - 1]) * 16 + HexValue(s[|s| - 1])
  }

  /** One conversion: white space is skipped. */
  function ScanHex(s: string): (r: Option<(nat, string)>) {
    ScanNumber(SkipSpace(s))
  }

  /** At most nine characters: a sign, a 0x prefix, digits. */
  function ScanNumber(s0: string): (r: Option<(nat, string)>) {
    var signed := s0 != [] && (s0[0] == '-' || s0[0] == '+');
    var s1 := if signed then s0[1..] else s0;
    var w1 := if signed then WIDTH - 1 else WIDTH;
    var prefixed := |s1| >= 2 && s1[0] == '0' && (s1[1] == 'x' || s1[1] == 'X');
    var s2 := if prefixed then s1[2..] else s1;
    var w2 := if prefixed then w1 - 2 else w1;
    var n := HexRun(s2, w2);
    if n == 0 then None
    else
      var v := Value(s2[..n]);
      var negated := signed && s0[0] == '-' && v != 0;
      Some((if negated && v < TWO_TO_THE_64 then TWO_TO_THE_64 - v else v, s2[n..]))
  }

  /** Both conversions have to succeed; what follows them is ignored. */
  function ParseSeqNo(s: string): (r: Option<Key>) {
    match ScanHex(s)
    case None => None
    case Some((id, rest)) =>
      match ScanHex(rest)
      case None => None
      case Some((reqid, _)) => Some(Key(id, reqid))
  }

  // ---------------------------------------------------------------- properties

  function Pow16(k: nat): (p: nat)
    ensures p >= 1
  {
    if k == 0 then 1 else 16 * Pow16(k - 1)
  }

  lemma Pow16Nine()
    ensures Pow16(WIDTH) == BOUND
  {
    assert Pow16(3) == 16 * (16 * (16 * Pow16(0)));
    assert Pow16(6) == 16 * (16 * (16 * Pow16(3)));
    assert Pow16(9) == 16 * (16 * (16 * Pow16(6)));
  }

  lemma {:induction false} ValueBound(s: string)
    requires forall i :: 0 <= i < |s| ==> IsHex(s[i])
    ensures Value(s) < Pow16(|s|)
  {
    if s != [] {
      ValueBound(s[..|s| - 1]);
    }
  }

  lemma {:induction false} ValueOfHex(n: nat)
    ensures Value(Hex(n)) == n
  {
    if n < 16 {
      assert Hex(n)[..0] == [];
    } else {
      ValueOfHex(n / 16);
      assert Hex(n)[..|Hex(n)| - 1] == Hex(n / 16);
    }
  }

  lemma {:induction false} LengthOfHex(n: nat, k: nat)
    requires k > 0
    ensures |Hex(n)| <= k <==> n < Pow16(k)
    decreases k
  {
    if k == 1 {
      assert Pow16(1) == 16 * Pow16(0);
    } else if n >= 16 {
      LengthOfHex(n / 16, k - 1);
    }
  }

  lemma {:induction false} ValueOfPadded(k: nat, s: string)
    requires forall i :: 0 <= i < |s| ==> IsHex(s[i])
    ensures Value(Zeros(k) + s) == Value(s)
    decreases k + |s|
  {
    if s != [] {
      assert (Zeros(k) + s)[..|Zeros(k) + s| - 1] == Zeros(k) + s[..|s| - 1];
      ValueOfPadded(k, s[..|s| - 1]);
    } else if k > 0 {
      assert Zeros(k) + s == Zeros(k) && Zeros(k)[..k - 1] == Zeros(k - 1) + s;
      ValueOfPadded(k - 1, s);
    }
  }

  /** A printed number has at least nine digits, exactly nine when it is below the bound,
      and its digits stand for the number. */
  lemma PrintedNumber(n: nat)
    ensures |PrintHex(n)| >= WIDTH && forall i :: 0 <= i < |PrintHex(n)| ==> IsHex(PrintHex(n)[i])
    ensures |PrintHex(n)| == WIDTH <==> n < BOUND
    ensures Value(PrintHex(n)) == n
  {
    LengthOfHex(n, WIDTH);
    Pow16Nine();
    ValueOfHex(n);
    if |Hex(n)| < WIDTH {
      ValueOfPadded(WIDTH - |Hex(n)|, Hex(n));
    }
  }

  lemma {:induction false} HexRunAll(s: string, w: nat)
    requires |s| >= w && forall i :: 0 <= i < w ==> IsHex(s[i])
    ensures HexRun(s, w) == w
  {
    if w > 0 {
      HexRunAll(s[1..], w - 1);
    }
  }

  /** On text that starts with nine digits one conversion reads exactly those nine. */
  lemma ScanNineDigits(s: string)
    requires |s| >= WIDTH && forall i :: 0 <= i < WIDTH ==> IsHex(s[i])
    ensures ScanHex(s) == Some((Value(s[..WIDTH]), s[WIDTH..]))
    ensures Value(s[..WIDTH]) < BOUND
  {
    HexRunAll(s, WIDTH);
    ValueBound(s[..WIDTH]);
    Pow16Nine();
    assert IsHex(s[0]) && IsHex(s[1]);
  }

  /** White space in front is skipped. */
  lemma ScanSkipsSpace(c: char, s: string)
    requires c == ' ' || '\t' <= c <= '\r'
    ensures ScanHex([c] + s) == ScanHex(s)
  {
    assert SkipSpace([c] + s) == SkipSpace(s) by {
      assert ([c] + s)[1..] == s;
    }
  }

  /** A sign takes one of the nine places, and a negative number wraps around in 64 bits. */
  lemma ScanSigned(minus: bool, s: string)
    requires |s| >= WIDTH - 1 && forall i :: 0 <= i < WIDTH - 1 ==> IsHex(s[i])
    ensures var v := Value(s[..WIDTH - 1]);
            ScanHex((if minus then "-" else "+") + s)
            == Some((if minus && v > 0 then TWO_TO_THE_64 - v else v, s[WIDTH - 1..]))
  {
    var t := (if minus then "-" else "+") + s;
    assert t[1..] == s && IsHex(s[0]) && IsHex(s[1]);
    HexRunAll(s, WIDTH - 1);
    ValueBound(s[..WIDTH - 1]);
    Pow16Nine();
    assert Pow16(9) == 16 * Pow16(8);
  }

  /** A prefix takes two of them. */
  lemma ScanPrefixed(s: string)
    requires |s| >= WIDTH - 2 && forall i :: 0 <= i < WIDTH - 2 ==> IsHex(s[i])
    ensures ScanHex("0x" + s) == Some((Value(s[..WIDTH - 2]), s[WIDTH - 2..]))
  {
    assert ("0x" + s)[2..] == s && !IsSpace('0');
    HexRunAll(s, WIDTH - 2);
  }

  /** Text that does not start with a digit, after white space and a sign, is no number. */
  lemma ScanRefuses(s: string)
    requires s == [] || (!IsHex(s[0]) && !IsSpace(s[0]) && s[0] != '-' && s[0] != '+')
    ensures ScanHex(s) == None && ScanHex("-" + s) == None && ScanHex("+" + s) == None
  {
    assert ("-" + s)[1..] == s && ("+" + s)[1..] == s;
  }

  /** On text that starts with eighteen digits the two conversions read nine each. */
  lemma ParseTwiceNine(s: string)
    requires |s| >= 2 * WIDTH && forall i :: 0 <= i < 2 * WIDTH ==> IsHex(s[i])
    ensures ParseSeqNo(s) == Some(Key(Value(s[..WIDTH]), Value(s[WIDTH..][..WIDTH])))
    ensures Value(s[..WIDTH]) < BOUND && Value(s[WIDTH..][..WIDTH]) < BOUND
  {
    ScanNineDigits(s);
    ScanNineDigits(s[WIDTH..]);
  }

  /** Scanning a printed pair gives back the pair exactly when both halves fit nine digits. */
  lemma SeqNoRoundTrip(k: Key)
    ensures ParseSeqNo(PrintSeqNo(k)) == Some(k) <==> k.id < BOUND && k.reqid < BOUND
  {
    var a, b := PrintHex(k.id), PrintHex(k.reqid);
    PrintedNumber(k.id);
    PrintedNumber(k.reqid);
    ParseTwiceNine(a + b);
    if k.id < BOUND {
      assert (a + b)[..WIDTH] == a && (a + b)[WIDTH..] == b;
      if k.reqid < BOUND {
        assert b[..WIDTH] == b;
      }
    }
  }

  /** Below the bound distinct requests never share a sequence number. */
  lemma SeqNoInjective(k: Key, m: Key)
    requires k.id < BOUND && k.reqid < BOUND && m.id < BOUND && m.reqid < BOUND
    ensures PrintSeqNo(k) == PrintSeqNo(m) ==> k == m
  {
    SeqNoRoundTrip(k);
    SeqNoRoundTrip(m);
  }

  lemma {:induction false} HexOfPower(k: nat)
    ensures Hex(Pow16(k)) == "1" + Zeros(k)
  {
    if k == 0 {
      assert "1" + Zeros(0) == "1";
    } else {
      HexOfPower(k - 1);
      assert Pow16(k) / 16 == Pow16(k - 1) && Pow16(k) % 16 == 0;
      assert "1" + Zeros(k - 1) + "0" == "1" + Zeros(k);
    }
  }

  lemma PrintPowers()
    ensures PrintHex(0x1_0000_0000) == "1" + Zeros(8)
    ensures PrintHex(BOUND) == "1" + Zeros(9)
  {
    assert Pow16(9) == BOUND by { Pow16Nine(); }
    assert BOUND == 16 * 0x1_0000_0000;
    assert Pow16(9) == 16 * Pow16(8);
    HexOfPower(8);
    HexOfPower(9);
  }

  lemma PrintNextToPower()
    ensures PrintHex(BOUND + 1) == "1" + Zeros(8) + "1"
    ensures PrintHex(0) == Zeros(9)
  {
    PrintPowers();
    assert Hex(0x1_0000_0000) == PrintHex(0x1_0000_0000) by {
      LengthOfHex(0x1_0000_0000, 8);
      Pow16Nine();
      assert Pow16(9) == 16 * Pow16(8);
    }
    assert (BOUND + 1) / 16 == 0x1_0000_0000 && (BOUND + 1) % 16 == 1;
    assert Hex(0) == "0" && Zeros(8) + "0" == Zeros(9);
  }

  /** Just past the bound they can: two requests, one sequence number. */
  lemma SeqNoCollision()
    ensures PrintSeqNo(Key(0x1_0000_0000, BOUND)) == PrintSeqNo(Key(BOUND + 1, 0))
  {
    PrintPowers();
    PrintNextToPower();
    assert ("1" + Zeros(8)) + ("1" + Zeros(9)) == ("1" + Zeros(8) + "1") + Zeros(9);
  }

  /** A number too long for its conversion names another request: the daemon reads the first nine
      digits of each part, and what is left over moves into the next. */
  lemma SeqNoAstray()
    ensures ParseSeqNo(PrintSeqNo(Key(0x1_0000_0000, BOUND))) == Some(Key(0x1_0000_0000, 0x1_0000_0000))
  {
    var p := PrintHex(0x1_0000_0000);
    var s := PrintSeqNo(Key(0x1_0000_0000, BOUND));
    PrintPowers();
    PrintedNumber(0x1_0000_0000);
    PrintedNumber(BOUND);
    assert "1" + Zeros(9) == ("1" + Zeros(8)) + "0";
    assert s == p + (p + "0");
    assert forall i :: 0 <= i < WIDTH ==> s[i] == p[i];
    ScanNineDigits(s);
    assert s[..WIDTH] == p && s[WIDTH..] == p + "0";
    ScanNineDigits(s[WIDTH..]);
    assert (p + "0")[..WIDTH] == p;
  }
}

/** Decimal numbers as atoi and JavaScript's number-to-string conversion see them. */
module Decimal {

  function Print(n: nat): (s: string)
    ensures s != [] && forall i :: 0 <= i < |s| ==> IsDigit(s[i])
  {
    if n < 10 then ["0123456789"[n]] else Print(n / 10) + ["0123456789"[n % 10]]
  }

  predicate IsDigit(c: char) {
    '0' <= c <= '9'
  }

  function Run(s: string): (n: nat)
    ensures n <= |s| && forall i :: 0 <= i < n ==> IsDigit(s[i])
  {
    if s == [] || !IsDigit(s[0]) then 0 else 1 + Run(s[1..])
  }

  function Value(s: string): nat
    requires forall i :: 0 <= i < |s| ==> IsDigit(s[i])
  {
    if s == [] then 0
    else
      assert IsDigit(s[|s| - 1]);
      Value(s[..|s| - 1]) * 10 + (s[|s| - 1] - '0') as nat
  }

  function SkipSpace(s: string): string {
    if s != [] && (s[0] == ' ' || '\t' <= s[0] <= '\r') then SkipSpace(s[1..]) else s
  }

  /** White space, a sign, digits: no digits means zero. */
  function Atoi(s: string): int {
    var t := SkipSpace(s);
    var signed := t != [] && (t[0] == '-' || t[0] == '+');
    var u := if signed then t[1..] else t;
    var v: int := Value(u[..Run(u)]);
    if signed && t[0] == '-' then -v else v
  }

  lemma {:induction false} ValueOfPrint(n: nat)
    ensures Value(Print(n)) == n
  {
    if n < 10 {
      assert Print(n)[..0] == [];
    } else {
      ValueOfPrint(n / 10);
      assert Print(n)[..|Print(n)| - 1] == Print(n / 10);
    }
  }

  lemma {:induction false} RunStops(s: string, rest: string)
    requires (forall i :: 0 <= i < |s| ==> IsDigit(s[i])) && (rest == [] || !IsDigit(rest[0]))
    ensures Run(s + rest) == |s|
  {
    if s == [] {
      assert s + rest == rest;
    } else {
      assert (s + rest)[1..] == s[1..] + rest;
      RunStops(s[1..], rest);
    }
  }

  /** Reading stops behind the digits. */
  lemma AtoiStops(n: nat, rest: string)
    requires rest == [] || !IsDigit(rest[0])
    ensures Atoi(Print(n) + rest) == n
  {
    var s := Print(n) + rest;
    assert IsDigit(s[0]);
    RunStops(Print(n), rest);
    ValueOfPrint(n);
    assert s[..Run(s)] == Print(n);
  }

  lemma AtoiOfPrint(n: nat)
    ensures Atoi(Print(n)) == n
  {
    AtoiStops(n, []);
    assert Print(n) + [] == Print(n);
  }

  /** White space in front is skipped. */
  lemma AtoiSkipsSpace(c: char, s: string)
    requires c == ' ' || '\t' <= c <= '\r'
    ensures Atoi([c] + s) == Atoi(s)
  {
    assert ([c] + s)[1..] == s;
  }

  /** A sign is heeded. */
  lemma AtoiSigned(minus: bool, n: nat, rest: string)
    requires rest == [] || !IsDigit(rest[0])
    ensures Atoi((if minus then "-" else "+") + (Print(n) + rest)) == if minus then 0 - n else n
  {
    var s := Print(n) + rest;
    assert ((if minus then "-" else "+") + s)[1..] == s;
    RunStops(Print(n), rest);
    ValueOfPrint(n);
    assert s[..Run(s)] == Print(n);
  }

  lemma AtoiOfNoNumber(s: string)
    requires s == [] || (!IsDigit(s[0]) && s[0] != '-' && s[0] != '+' && s[0] != ' ' && !('\t' <= s[0] <= '\r'))
    ensures Atoi(s) == 0
  {
    assert Run(s) == 0;
  }
}
