/** The few string functions the converters and parsers use. */
module Text {

  /** Unicode White_Space, the set that strings.TrimSpace removes. */
  predicate IsSpace(c: char) {
    c in {'\t', '\n', '\U{0B}', '\U{0C}', '\r', ' ', '\U{85}', '\U{A0}', '\U{1680}',
          '\U{2028}', '\U{2029}', '\U{202F}', '\U{205F}', '\U{3000}'}
    || '\U{2000}' <= c <= '\U{200A}'
  }

  function TrimLeft(s: string): string {
    if s != "" && IsSpace(s[0]) then TrimLeft(s[1..]) else s
  }

  function TrimRight(s: string): string {
    if s != "" && IsSpace(s[|s| - 1]) then TrimRight(s[..|s| - 1]) else s
  }

  function Trim(s: string): string {
    TrimRight(TrimLeft(s))
  }

  predicate Blank(s: string) {
    forall i | 0 <= i < |s| :: IsSpace(s[i])
  }

  lemma {:induction false} TrimLeftEmpties(s: string)
    ensures TrimLeft(s) == "" <==> Blank(s)
    ensures TrimLeft(s) != "" ==> !IsSpace(TrimLeft(s)[0])
  {
    if s == "" || !IsSpace(s[0]) {
    } else {
      TrimLeftEmpties(s[1..]);
      assert Blank(s) <==> Blank(s[1..]);
    }
  }

  lemma {:induction false} TrimRightStops(s: string)
    ensures TrimRight(s) == "" <==> Blank(s)
    ensures TrimRight(s) <= s
    ensures TrimRight(s) != "" ==> !IsSpace(TrimRight(s)[|TrimRight(s)| - 1])
  {
    if s == "" || !IsSpace(s[|s| - 1]) {
    } else {
      TrimRightStops(s[..|s| - 1]);
      assert Blank(s) <==> Blank(s[..|s| - 1]);
    }
  }

  /** Comparing a trimmed string with "" is the test for blankness. */
  lemma TrimEmptiesBlank(s: string)
    ensures Trim(s) == "" <==> Blank(s)
  {
    TrimLeftEmpties(s);
    TrimRightStops(TrimLeft(s));
  }

  lemma TrimIsIdempotent(s: string)
    ensures Trim(Trim(s)) == Trim(s)
  {
    TrimLeftEmpties(s);
    TrimRightStops(TrimLeft(s));
  }

  lemma {:induction false} TrimLeftCuts(s: string)
    ensures |TrimLeft(s)| <= |s| && TrimLeft(s) == s[|s| - |TrimLeft(s)|..] && Blank(s[..|s| - |TrimLeft(s)|])
  {
    if s == "" || !IsSpace(s[0]) {
    } else {
      TrimLeftCuts(s[1..]);
      var n := |s| - |TrimLeft(s)|;
      assert s[1..][n - 1..] == s[n..];
      assert forall i | 0 <= i < n :: s[..n][i] == if i == 0 then s[0] else s[1..][..n - 1][i - 1];
    }
  }

  lemma {:induction false} TrimRightCuts(s: string)
    ensures TrimRight(s) <= s && Blank(s[|TrimRight(s)|..])
  {
    if s == "" || !IsSpace(s[|s| - 1]) {
    } else {
      TrimRightCuts(s[..|s| - 1]);
      var n := |TrimRight(s)|;
      assert forall i | 0 <= i < |s| - n :: s[n..][i] == if i == |s| - n - 1 then s[|s| - 1] else s[..|s| - 1][n..][i];
    }
  }

  /** Trimming takes white space away at both ends, and all of it there. */
  lemma TrimSplits(s: string) returns (front: string, back: string)
    ensures s == front + Trim(s) + back && Blank(front) && Blank(back)
    ensures Trim(s) != "" ==> !IsSpace(Trim(s)[0]) && !IsSpace(Trim(s)[|Trim(s)| - 1])
  {
    TrimLeftCuts(s);
    TrimLeftEmpties(s);
    TrimRightCuts(TrimLeft(s));
    TrimRightStops(TrimLeft(s));
    front, back := s[..|s| - |TrimLeft(s)|], TrimLeft(s)[|Trim(s)|..];
  }

  function Decimal(n: nat): string {
    if n < 10 then [("0123456789")[n]] else Decimal(n / 10) + [("0123456789")[n % 10]]
  }

  function Number(n: int): string {
    if n < 0 then "-" + Decimal(-n) else Decimal(n)
  }

  predicate IsDigit(c: char) { '0' <= c <= '9' }

  /** The number that some digits stand for. */
  function ReadDecimal(s: string): nat
    requires forall c | c in s :: IsDigit(c)
  {
    if s == "" then 0
    else
      assert forall c | c in s[..|s| - 1] :: c in s;
      assert s[|s| - 1] in s && IsDigit(s[|s| - 1]);
      10 * ReadDecimal(s[..|s| - 1]) + (s[|s| - 1] - '0') as nat
  }

  lemma DigitReads(n: nat)
    requires n < 10
    ensures IsDigit(("0123456789")[n]) && (("0123456789")[n] - '0') as nat == n
  {
  }

  /** Reading inverts writing, and nothing is written in front of the first digit. */
  lemma {:induction false} DecimalReads(n: nat)
    ensures forall c | c in Decimal(n) :: IsDigit(c)
    ensures ReadDecimal(Decimal(n)) == n
    ensures Decimal(n) != "" && (n > 0 ==> Decimal(n)[0] != '0')
  {
    DigitReads(n % 10);
    if n < 10 {
      DigitReads(n);
      assert Decimal(n)[..0] == "";
    } else {
      DecimalReads(n / 10);
      assert Decimal(n)[..|Decimal(n)| - 1] == Decimal(n / 10);
    }
  }

  lemma NumberReads(n: int)
    ensures if n < 0 then Number(n)[0] == '-' && Number(n)[1..] == Decimal(-n) else Number(n) == Decimal(n)
  {
  }
}
