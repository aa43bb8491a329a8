/** The two pure pieces of the web front end: rendering an amount of cents
  * as dollars, and the guard on requested static file names. */
module WebServer {
  import opened Wrappers
  import opened Text

  /** `f'{k:02d}'` for 0 <= k < 100. */
  function TwoDigits(k: nat): (s: string)
    requires k < 100
    ensures |s| == 2 && AllDigits(s)
  {
    [DigitChar(k / 10), DigitChar(k % 10)]
  }

  /** An amount in cents as dollars: a minus sign for negative amounts, the
    * whole dollars, and the cents as two digits unless they are zero. */
  function FormatCents(n: int): (s: string)
    ensures n < 0 ==> s == "-" + FormatCents(-n)
    ensures n >= 0 && n % 100 == 0 ==> s == "$" + NatToDecimal(n / 100)
    ensures n >= 0 && n % 100 != 0 ==> s == "$" + NatToDecimal(n / 100) + "." + TwoDigits(n % 100)
    decreases if n < 0 then 1 else 0
  {
    if n < 0 then "-" + FormatCents(-n)
    else "$" + NatToDecimal(n / 100) + (if n % 100 == 0 then "" else "." + TwoDigits(n % 100))
  }

  /** Reads back what FormatCents writes: `$D`, `$D.CC` or `-` before either. */
  function ParseCents(s: string): (r: Option<int>) {
    if |s| > 0 && s[0] == '-' then
      var v := ParseDollars(s[1..]);
      if v.Some? then Some(-(v.value as int)) else None
    else
      var v := ParseDollars(s);
      if v.Some? then Some(v.value as int) else None
  }

  function ParseDollars(s: string): (r: Option<nat>) {
    if |s| < 2 || s[0] != '$' then None
    else
      var body := s[1..];
      if |body| >= 4 && body[|body| - 3] == '.' then
        var dollars := body[..|body| - 3];
        var cents := body[|body| - 2..];
        if AllDigits(dollars) && AllDigits(cents) then
          Some(DecimalToNat(dollars) * 100 + DecimalToNat(cents))
        else None
      else if AllDigits(body) then Some(DecimalToNat(body) * 100)
      else None
  }

  lemma TwoDigitsRoundTrip(k: nat)
    requires k < 100
    ensures DecimalToNat(TwoDigits(k)) == k
  {
    var s := TwoDigits(k);
    var hi := [DigitChar(k / 10)];
    assert s[..1] == hi;
    assert hi[..0] == [];
    assert DecimalToNat(hi) == k / 10;
    assert DecimalToNat(s) == DecimalToNat(hi) * 10 + DigitValue(s[1]);
  }

  /** Rendering loses nothing: the amount can be read back from its text. */
  lemma FormatCentsRoundTrip(n: int)
    ensures ParseCents(FormatCents(n)) == Some(n)
  {
    if n < 0 {
      NegatedRoundTrip(FormatCents(-n), -n);
      assert FormatCents(n) == "-" + FormatCents(-n);
    } else {
      NonNegativeRoundTrip(n);
    }
  }

  /** A minus sign before a dollar amount negates what is read back. */
  lemma NegatedRoundTrip(t: string, m: nat)
    requires t == FormatCents(m)
    ensures ParseCents("-" + t) == Some(-(m as int))
  {
    NonNegativeRoundTrip(m);
    assert ("-" + t)[1..] == t;
  }

  lemma NonNegativeRoundTrip(n: nat)
    ensures |FormatCents(n)| > 0 && FormatCents(n)[0] == '$'
    ensures ParseDollars(FormatCents(n)) == Some(n)
  {
    if n % 100 == 0 {
      WholeDollarsRoundTrip(n);
    } else {
      DollarsAndCentsRoundTrip(n);
    }
  }

  lemma WholeDollarsRoundTrip(n: nat)
    requires n % 100 == 0
    ensures ParseDollars(FormatCents(n)) == Some(n)
  {
    var d := NatToDecimal(n / 100);
    DecimalRoundTrip(n / 100);
    assert FormatCents(n) == "$" + d;
    assert ("$" + d)[1..] == d;
    assert !(|d| >= 4 && d[|d| - 3] == '.') by {
      if |d| >= 4 {
        assert IsDigit(d[|d| - 3]);
      }
    }
    assert n == n / 100 * 100;
  }

  lemma DollarsAndCentsRoundTrip(n: nat)
    requires n % 100 != 0
    ensures ParseDollars(FormatCents(n)) == Some(n)
  {
    var d := NatToDecimal(n / 100);
    var t := TwoDigits(n % 100);
    DecimalRoundTrip(n / 100);
    TwoDigitsRoundTrip(n % 100);
    var body := FormatCents(n)[1..];
    assert body == d + "." + t;
    assert body[..|body| - 3] == d;
    assert body[|body| - 2..] == t;
  }

  /** Different amounts render differently. */
  lemma FormatCentsInjective(a: int, b: int)
    requires FormatCents(a) == FormatCents(b)
    ensures a == b
  {
    FormatCentsRoundTrip(a);
    FormatCentsRoundTrip(b);
  }

  /** The answer to a request for a static file. */
  datatype StaticResponse = FileResponse(path: seq<string>) | BadRequest

  /** Serves `static/<filename>` unless the name is empty or starts with a
    * dot (hidden files, `.` and `..`). */
  function GetStatic(filename: string): (r: StaticResponse)
    ensures r.BadRequest? <==> filename == "" || filename[0] == '.'
    ensures r.FileResponse? ==> r.path == ["static", filename]
    ensures r.FileResponse? ==> filename != "." && filename != ".."
  {
    if filename == "" || filename[0] == '.' then BadRequest
    else FileResponse(["static", filename])
  }
}
