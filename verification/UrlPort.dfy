/** decimal_port of src/url.c over ASCII text. */
module UrlPort {
  import opened Results

  const MAX_DIGITS: nat := 4300
  const LLONG_MAX: int := 0x7FFF_FFFF_FFFF_FFFF
  const LLONG_MIN: int := -0x8000_0000_0000_0000

  predicate Digit(c: char) {
    '0' <= c <= '9'
  }

  /** Space that may surround a number: the four ASCII separators are not among it. */
  predicate Blank(c: char) {
    9 as char <= c <= 13 as char || c == ' '
  }

  datatype Scan = Scan(negative: bool, started: bool, trailing: bool, previousDigit: bool, digits: string)

  function ScanChar(c: Scan, ch: char): Option<Scan> {
    if Blank(ch) then Some(if c.started then c.(trailing := true) else c)
    else if c.trailing then None
    else if !c.started && (ch == '+' || ch == '-') then Some(c.(negative := ch == '-', started := true))
    else if ch == '_' then if c.previousDigit then Some(c.(started := true, previousDigit := false)) else None
    else if Digit(ch) then Some(c.(started := true, previousDigit := true, digits := c.digits + [ch]))
    else None
  }

  const START: Scan := Scan(false, false, false, false, "")

  function Scanned(text: string): (r: Option<Scan>)
    ensures r.Some? ==> forall k :: 0 <= k < |r.value.digits| ==> Digit(r.value.digits[k])
    decreases |text|
  {
    if text == "" then Some(START)
    else
      match Scanned(text[..|text| - 1])
      case None => None
      case Some(c) => ScanChar(c, text[|text| - 1])
  }

  /** How many of the leading zeros go: all but the last digit may. */
  function LeadingZeros(digits: string): (n: nat)
    ensures digits != "" ==> n < |digits| && (digits[n] != '0' || n == |digits| - 1)
    ensures digits == "" ==> n == 0
  {
    if |digits| > 1 && digits[0] == '0' then 1 + LeadingZeros(digits[1..]) else 0
  }

  function Normal(c: Scan): string {
    var kept := c.digits[LeadingZeros(c.digits)..];
    if c.negative && kept != "0" then "-" + kept else kept
  }

  function Decimal(text: string): Option<string> {
    match Scanned(text)
    case None => None
    case Some(c) =>
      if c.digits == "" || !c.previousDigit || |c.digits| > MAX_DIGITS then None else Some(Normal(c))
  }

  function Unsigned(text: string): string {
    if text != "" && text[0] == '-' then text[1..] else text
  }

  /** A number spelled in its one accepted form. */
  predicate Spelled(text: string) {
    var digits := Unsigned(text);
    && digits != "" && |digits| <= MAX_DIGITS
    && (forall k :: 0 <= k < |digits| ==> Digit(digits[k]))
    && (digits[0] == '0' ==> text == "0")
  }

  lemma {:induction false} DecimalSpelled(text: string)
    ensures Decimal(text).Some? ==> Spelled(Decimal(text).value)
  {
    if Decimal(text).Some? {
      var c := Scanned(text).value;
      var kept := c.digits[LeadingZeros(c.digits)..];
      assert forall k :: 0 <= k < |kept| ==> Digit(kept[k]);
      assert kept[0] == '0' ==> kept == "0";
      assert Normal(c) == "-" + kept ==> Normal(c)[1..] == kept;
    }
  }

  lemma {:induction false} ScanNext(text: string, ch: char)
    ensures Scanned(text + [ch]) == if Scanned(text).None? then None else ScanChar(Scanned(text).value, ch)
  {
    assert (text + [ch])[..|text|] == text;
  }

  /** Scanning digits, from k = 1 on behind a minus sign, collects them. */
  lemma {:induction false} ScanDigits(text: string, k: nat)
    requires k <= |text| && k <= 1 && (k == 1 ==> text[0] == '-')
    requires forall i :: k <= i < |text| ==> Digit(text[i])
    ensures Scanned(text) == Some(Scan(k == 1, text != "", false, |text| > k, text[k..]))
    decreases |text|
  {
    hide Scanned;
    if text == "" {
      ScanStart();
    } else {
      var n := |text| - 1;
      var front, last := text[..n], text[n];
      assert text == front + [last];
      ScanNext(front, last);
      if n < k {
        ScanStart();
        assert front == "" && text[k..] == "";
      } else {
        ScanDigits(front, k);
        assert text[k..] == front[k..] + [last];
      }
    }
  }

  lemma {:induction false} ScanStart()
    ensures Scanned("") == Some(START)
  {
  }

  lemma {:induction false} SpelledDecimal(text: string)
    requires Spelled(text)
    ensures Decimal(text) == Some(text)
  {
    if text[0] == '-' {
      ScanDigits(text, 1);
      assert text == "-" + text[1..];
      assert text[1..][0..] == text[1..];
    } else {
      ScanDigits(text, 0);
      assert text[0..] == text;
      assert text[0..] == text;
    }
  }

  /** The accepted spellings are exactly the ones conversion leaves alone. */
  lemma {:induction false} DecimalStable(text: string)
    ensures Spelled(text) <==> Decimal(text) == Some(text)
    ensures Decimal(text).Some? ==> Decimal(Decimal(text).value) == Decimal(text)
  {
    DecimalSpelled(text);
    if Decimal(text).Some? {
      SpelledDecimal(Decimal(text).value);
    }
    if Spelled(text) {
      SpelledDecimal(text);
    }
  }

  function Magnitude(digits: string): int
    requires forall k :: 0 <= k < |digits| ==> Digit(digits[k])
    decreases |digits|
  {
    if digits == "" then 0
    else 10 * Magnitude(digits[..|digits| - 1]) + (digits[|digits| - 1] as int - '0' as int)
  }

  /** The port number of an accepted spelling, LLONG_MIN where it does not fit. */
  function Number(text: string): int
    requires Spelled(text)
  {
    var value := if text[0] == '-' then -Magnitude(Unsigned(text)) else Magnitude(Unsigned(text));
    if LLONG_MIN <= value <= LLONG_MAX then value else LLONG_MIN
  }

  method DecimalPort(text: string) returns (number: Option<string>)
    ensures number == Decimal(text)
  {
    var negative, started, trailing, previousDigit := false, false, false, false;
    var digits: string := "";
    var i := 0;
    while i < |text|
      invariant i <= |text|
      invariant Scanned(text[..i]) == Some(Scan(negative, started, trailing, previousDigit, digits))
    {
      var ch := text[i];
      assert text[..i + 1][..i] == text[..i];
      ghost var before := Scan(negative, started, trailing, previousDigit, digits);
      i := i + 1;
      if Blank(ch) {
        if started {
          trailing := true;
        }
        continue;
      }
      if trailing {
        Stuck(text, i);
        return None;
      }
      if !started && (ch == '+' || ch == '-') {
        negative, started := ch == '-', true;
        continue;
      }
      started := true;
      if ch == '_' {
        if !previousDigit {
          Stuck(text, i);
          return None;
        }
        previousDigit := false;
        continue;
      }
      if !Digit(ch) {
        Stuck(text, i);
        return None;
      }
      digits := digits + [ch];
      previousDigit := true;
    }
    assert text[..i] == text;
    if digits == "" || !previousDigit || |digits| > MAX_DIGITS {
      return None;
    }
    var first := 0;
    while first + 1 < |digits| && digits[first] == '0'
      invariant first < |digits|
      invariant LeadingZeros(digits) == first + LeadingZeros(digits[first..])
    {
      assert digits[first..][1..] == digits[first + 1..];
      first := first + 1;
    }
    var kept := digits[first..];
    number := Some(if negative && kept != "0" then "-" + kept else kept);
  }

  lemma {:induction false} Stuck(text: string, i: nat)
    requires i <= |text| && Scanned(text[..i]).None?
    ensures Scanned(text).None?
    decreases |text| - i
  {
    if i == |text| {
      assert text[..i] == text;
    } else {
      assert text[..i + 1][..i] == text[..i];
      Stuck(text, i + 1);
    }
  }
}
