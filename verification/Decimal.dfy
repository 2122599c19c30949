/** Decimal rendering of natural numbers, with its inverse. */
module Decimal {

  predicate IsDigit(c: char) {
    '0' <= c <= '9'
  }

  predicate AllDigits(text: string) {
    text != "" && forall i :: 0 <= i < |text| ==> IsDigit(text[i])
  }

  function DigitChar(d: nat): (c: char)
    requires d < 10
    ensures IsDigit(c) && c as int == '0' as int + d
  {
    ('0' as int + d) as char
  }

  /** `str(n)` */
  function Render(n: nat): (text: string)
    ensures AllDigits(text)
  {
    if n < 10 then [DigitChar(n)] else Render(n / 10) + [DigitChar(n % 10)]
  }

  /** `int(text)` for a text of ASCII digits. */
  function Value(text: string): nat
    requires forall i :: 0 <= i < |text| ==> IsDigit(text[i])
  {
    if text == "" then 0
    else
      assert IsDigit(text[|text| - 1]);
      Value(text[..|text| - 1]) * 10 + (text[|text| - 1] as int - '0' as int)
  }

  lemma {:induction false} ValueOfRender(n: nat)
    ensures Value(Render(n)) == n
  {
    if n >= 10 {
      ValueOfRender(n / 10);
      var text := Render(n / 10) + [DigitChar(n % 10)];
      assert text[..|text| - 1] == Render(n / 10);
    } else {
      assert [DigitChar(n)][..0] == "";
    }
  }

  /** Rendering is injective. */
  lemma RenderInjective(m: nat, n: nat)
    requires Render(m) == Render(n)
    ensures m == n
  {
    ValueOfRender(m);
    ValueOfRender(n);
  }
}
