/** Names of the temporary files in which the write source parks a payload:
    the file name, the word "_temp" and the decimal print of the offset. */
module TempNames {

  predicate IsDigit(c: char) {
    '0' <= c <= '9'
  }

  function Digit(n: nat): char
    requires n < 10
  {
    '0' + n as char
  }

  /** What std::to_string prints for an unsigned number. */
  function Decimal(n: nat): string {
    if n < 10 then [Digit(n)] else Decimal(n / 10) + [Digit(n % 10)]
  }

  function DigitValue(c: char): int {
    c as int - '0' as int
  }

  function Value(s: string): int {
    if s == [] then 0 else 10 * Value(s[..|s| - 1]) + DigitValue(s[|s| - 1])
  }

  function TempName(id: string, position: nat): string {
    id + "_temp" + Decimal(position)
  }

  lemma {:induction false} DecimalReadsBack(n: nat)
    ensures Value(Decimal(n)) == n
    ensures Decimal(n) != [] && (Decimal(n)[0] == '0' ==> n == 0)
    ensures forall i :: 0 <= i < |Decimal(n)| ==> IsDigit(Decimal(n)[i])
  {
    if n < 10 {
      assert Decimal(n)[..0] == [];
    } else {
      DecimalReadsBack(n / 10);
      var s := Decimal(n);
      assert s[..|s| - 1] == Decimal(n / 10);
    }
  }

  /** A digit run that follows a non-digit is as long as the print it came from. */
  lemma SuffixLength(id1: string, a: nat, id2: string, b: nat)
    requires TempName(id1, a) == TempName(id2, b)
    ensures |Decimal(a)| >= |Decimal(b)|
  {
    var x := TempName(id1, a);
    var y := TempName(id2, b);
    DecimalReadsBack(a);
    DecimalReadsBack(b);
    assert x[|x| - |Decimal(a)| - 1] == 'p';
    assert forall k :: |y| - |Decimal(b)| <= k < |y| ==> y[k] == Decimal(b)[k - |id2| - 5];
  }

  /** Two temporary files share a name only if file and offset agree, whatever
      characters the file name holds. */
  lemma TempNameInjective(id1: string, a: nat, id2: string, b: nat)
    ensures TempName(id1, a) == TempName(id2, b) <==> id1 == id2 && a == b
  {
    if TempName(id1, a) == TempName(id2, b) {
      SuffixLength(id1, a, id2, b);
      SuffixLength(id2, b, id1, a);
      var x := TempName(id1, a);
      var y := TempName(id2, b);
      assert |id1| == |id2|;
      assert id1 == x[..|id1|] && id2 == y[..|id2|];
      assert Decimal(a) == x[|id1| + 5..] && Decimal(b) == y[|id2| + 5..];
      DecimalReadsBack(a);
      DecimalReadsBack(b);
    }
  }
}
