/** The `Content-Range` header of a resumable upload: its parser against its grammar. */
module ContentRange {
  import opened Common
  import opened Decimal

  datatype Range = Range(start: nat, end: nat, total: nat)

  /** Section 14.4 of RFC 9110: first position, last position, complete length. */
  predicate ValidBounds(r: Range) {
    r.start <= r.end < r.total
  }

  function Header(r: Range): string {
    "bytes " + (Render(r.start) + ("-" + (Render(r.end) + ("/" + Render(r.total)))))
  }

  /** The header's regular expression, with its three groups. */
  predicate Matches(text: string, start: string, end: string, total: string) {
    && AllDigits(start) && AllDigits(end) && AllDigits(total)
    && text == "bytes " + (start + ("-" + (end + ("/" + total))))
  }

  /** The digits at the head of a text. */
  function DigitCount(text: string): (n: nat)
    ensures n <= |text|
    ensures forall i :: 0 <= i < n ==> IsDigit(text[i])
    ensures n < |text| ==> !IsDigit(text[n])
  {
    if text == "" || !IsDigit(text[0]) then 0 else 1 + DigitCount(text[1..])
  }

  /** A number followed by `stop`: the number and what comes after. */
  function Field(text: string, stop: char): (r: Option<(string, string)>)
    ensures r.Some? ==> AllDigits(r.value.0) && text == r.value.0 + ([stop] + r.value.1)
  {
    var n := DigitCount(text);
    if n == 0 || n == |text| || text[n] != stop then None else Some((text[..n], text[n + 1..]))
  }

  lemma FieldOf(digits: string, stop: char, rest: string)
    requires AllDigits(digits) && !IsDigit(stop)
    ensures Field(digits + ([stop] + rest), stop) == Some((digits, rest))
  {
    var text := digits + ([stop] + rest);
    assert text[|digits|] == stop;
    assert forall i :: 0 <= i < |digits| ==> text[i] == digits[i];
    assert DigitCount(text) == |digits|;
    assert text[..|digits|] == digits && text[|digits| + 1..] == rest;
  }

  /** The three groups, taken left to right. */
  function Groups(text: string): Option<(string, string, string)> {
    if !("bytes " <= text) then None
    else match Field(text[6..], '-')
         case None => None
         case Some((start, afterStart)) =>
           match Field(afterStart, '/')
           case None => None
           case Some((end, total)) => if AllDigits(total) then Some((start, end, total)) else None
  }

  lemma MatchHasGroups(text: string, start: string, end: string, total: string)
    requires Matches(text, start, end, total)
    ensures Groups(text) == Some((start, end, total))
  {
    var afterStart := end + ("/" + total);
    assert text[6..] == start + ("-" + afterStart);
    FieldOf(start, '-', afterStart);
    FieldOf(end, '/', total);
  }

  lemma GroupsMatch(text: string)
    requires Groups(text).Some?
    ensures Matches(text, Groups(text).value.0, Groups(text).value.1, Groups(text).value.2)
  {
    assert text == "bytes " + text[6..];
  }

  datatype ParseError = Malformed | BadBounds

  datatype Parsed = Ok(range: Range) | Bad(error: ParseError)

  /** The header part of `_parse_upload_range`, with the guards as the code has them. */
  function Parse(text: string): Parsed {
    match Groups(text)
    case None => Bad(Malformed)
    case Some((start, end, total)) =>
      if AllDigits(start) && AllDigits(end) && AllDigits(total) then
        var r := Range(Value(start), Value(end), Value(total));
        if r.total <= 0 || r.start > r.end || r.end >= r.total then Bad(BadBounds) else Ok(r)
      else Bad(Malformed)
  }

  /** A header is accepted exactly when it matches the grammar with valid bounds, and then the
      range is the three numbers written in it. */
  lemma ParseIff(text: string, r: Range)
    ensures Parse(text) == Ok(r) <==>
            ValidBounds(r) && exists a, b, c :: Matches(text, a, b, c) && r == Range(Value(a), Value(b), Value(c))
  {
    if Parse(text) == Ok(r) {
      GroupsMatch(text);
      var (a, b, c) := Groups(text).value;
      assert Matches(text, a, b, c) && r == Range(Value(a), Value(b), Value(c));
    }
    if ValidBounds(r) && exists a, b, c :: Matches(text, a, b, c) && r == Range(Value(a), Value(b), Value(c)) {
      var a, b, c :| Matches(text, a, b, c) && r == Range(Value(a), Value(b), Value(c));
      MatchHasGroups(text, a, b, c);
    }
  }

  /** A rendered range reads back, unless its bounds are invalid. */
  lemma ParseOfHeader(r: Range)
    ensures Parse(Header(r)) == if ValidBounds(r) then Ok(r) else Bad(BadBounds)
  {
    MatchHasGroups(Header(r), Render(r.start), Render(r.end), Render(r.total));
    ValueOfRender(r.start);
    ValueOfRender(r.end);
    ValueOfRender(r.total);
  }
}
