/**
 * Persistence of the run length (`save_to_file`, `read_from_file`).  The
 * settings file is its content, or `None` when it cannot be opened or read;
 * whether a save succeeds is decided by the file system and comes in as a
 * boolean.  What is modelled is the text written, `str(d)`, and the text
 * read back, `int(content.strip())`, with the fallback to 50000.
 */
module Settings {
  import opened Wrappers

  const DEFAULT_BLINK_TIME := 50000

  predicate IsDigit(c: char) {
    '0' <= c <= '9'
  }

  predicate AllDigits(s: string) {
    forall i :: 0 <= i < |s| ==> IsDigit(s[i])
  }

  /** The characters `str.strip()` removes: ASCII space, tab, newline, return, vertical tab, form feed. */
  predicate IsWhitespace(c: char) {
    c == ' ' || c == '\t' || c == '\n' || c == '\r' || c as int == 11 || c as int == 12
  }

  function DigitChar(d: nat): (c: char)
    requires d < 10
    ensures IsDigit(c) && c as int - '0' as int == d
  {
    ('0' as int + d) as char
  }

  /** Decimal digits of `n`, no leading zero. */
  function NatToDecimal(n: nat): (s: string)
    ensures |s| > 0 && AllDigits(s)
    ensures |s| > 1 ==> s[0] != '0'
  {
    if n < 10 then [DigitChar(n)] else NatToDecimal(n / 10) + [DigitChar(n % 10)]
  }

  /** Python's `str(d)` for an integer. */
  function Str(d: int): (s: string)
    ensures |s| > 0 && !IsWhitespace(s[0]) && IsDigit(s[|s| - 1])
  {
    if d < 0 then "-" + NatToDecimal(-d) else NatToDecimal(d)
  }

  /** The number a run of decimal digits denotes. */
  function DecimalValue(s: string): nat
    requires AllDigits(s)
  {
    if s == [] then 0 else DecimalValue(s[..|s| - 1]) * 10 + (s[|s| - 1] as int - '0' as int)
  }

  function StripLeading(s: string): string {
    if s != [] && IsWhitespace(s[0]) then StripLeading(s[1..]) else s
  }

  function StripTrailing(s: string): string {
    if s != [] && IsWhitespace(s[|s| - 1]) then StripTrailing(s[..|s| - 1]) else s
  }

  /** `str.strip()` */
  function Strip(s: string): string {
    StripTrailing(StripLeading(s))
  }

  function ParseDigits(s: string): Option<nat> {
    if s != [] && AllDigits(s) then Some(DecimalValue(s)) else None
  }

  /** `int(s)` on text without surrounding whitespace: an optional sign and at
      least one digit; anything else raises, which is `None` here. */
  function ParseInt(s: string): Option<int> {
    if s != [] && s[0] == '-' then
      match ParseDigits(s[1..])
      case Some(v) => Some(-(v as int))
      case None => None
    else if s != [] && s[0] == '+' then
      match ParseDigits(s[1..])
      case Some(v) => Some(v)
      case None => None
    else
      match ParseDigits(s)
      case Some(v) => Some(v)
      case None => None
  }

  datatype SaveResult = SaveResult(ok: bool, file: Option<string>)

  /** `save_to_file(d)`: on success the file holds `str(d)`; on failure it is
      reported as `False` and the file is left as it was. */
  function SaveToFile(file: Option<string>, d: int, writable: bool): SaveResult {
    if writable then SaveResult(true, Some(Str(d))) else SaveResult(false, file)
  }

  /** `read_from_file()` */
  function ReadFromFile(file: Option<string>): int {
    match file
    case None => DEFAULT_BLINK_TIME
    case Some(text) =>
      match ParseInt(Strip(text))
      case Some(v) => v
      case None => DEFAULT_BLINK_TIME
  }

  lemma {:induction false} DecimalRoundTrip(n: nat)
    ensures DecimalValue(NatToDecimal(n)) == n
  {
    if n >= 10 {
      var s := NatToDecimal(n);
      var prefix := NatToDecimal(n / 10);
      assert s[..|s| - 1] == prefix;
      DecimalRoundTrip(n / 10);
    }
  }

  lemma StripUnpadded(s: string)
    requires s != [] && !IsWhitespace(s[0]) && !IsWhitespace(s[|s| - 1])
    ensures Strip(s) == s
  {
  }

  /** Reading back what `str` wrote gives the same integer, negative ones included. */
  lemma ParseStr(d: int)
    ensures ParseInt(Strip(Str(d))) == Some(d)
  {
    var s := Str(d);
    StripUnpadded(s);
    if d < 0 {
      DecimalRoundTrip(-d);
      assert s[1..] == NatToDecimal(-d);
    } else {
      DecimalRoundTrip(d);
    }
  }

  /** After a successful save, reading the file gives back exactly the saved duration. */
  lemma SaveThenRead(file: Option<string>, d: int)
    ensures SaveToFile(file, d, true).ok
    ensures ReadFromFile(SaveToFile(file, d, true).file) == d
  {
    ParseStr(d);
  }

  /** A failed save reports failure and leaves the file unchanged. */
  lemma FailedSaveKeepsFile(file: Option<string>, d: int)
    ensures !SaveToFile(file, d, false).ok && SaveToFile(file, d, false).file == file
  {
  }

  /** A missing or unreadable file, or content that is not an integer, gives the default. */
  lemma ReadFallsBack(file: Option<string>)
    requires file.None? || ParseInt(Strip(file.value)) == None
    ensures ReadFromFile(file) == DEFAULT_BLINK_TIME
  {
  }

  /** Surrounding whitespace and a sign are accepted, and no positivity check is made. */
  lemma ReadExamples()
    ensures ReadFromFile(Some(" 30000\n")) == 30000
    ensures ReadFromFile(Some("-5")) == -5
    ensures ReadFromFile(Some("0")) == 0
    ensures ReadFromFile(Some("12a")) == DEFAULT_BLINK_TIME
    ensures ReadFromFile(Some("")) == DEFAULT_BLINK_TIME
  {
    assert Strip(" 30000\n") == "30000";
    assert DecimalValue("30000") == 30000 by {
      assert "30000"[..4] == "3000";
      assert "3000"[..3] == "300";
      assert "300"[..2] == "30";
      assert "30"[..1] == "3";
      assert "3"[..0] == "";
    }
    assert Strip("-5") == "-5";
    assert "-5"[1..] == "5";
    assert "5"[..0] == "";
    assert Strip("0") == "0";
    assert "0"[..0] == "";
    assert Strip("12a") == "12a";
    assert !IsDigit("12a"[2]);
  }
}
