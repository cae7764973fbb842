/**
 * Opening the database from the request's connection parameters
 * (openDbConnection) and the connection check (Verify). The driver's answers
 * are parameters: the model does not contain MySQL.
 */
module Connection {
  import opened Wrappers
  import opened Errors

  const MIN_INT64: int := -0x8000_0000_0000_0000
  const MAX_INT64: int := 0x7fff_ffff_ffff_ffff

  predicate IsDigit(c: char)
  {
    '0' <= c <= '9'
  }

  predicate AllDigits(s: string)
  {
    forall i :: 0 <= i < |s| ==> IsDigit(s[i])
  }

  /** The value of a string of decimal digits, most significant first. */
  function DigitsValue(s: string): nat
    requires AllDigits(s)
  {
    if s == [] then 0
    else 10 * DigitsValue(s[..|s| - 1]) + (s[|s| - 1] as int - '0' as int)
  }

  /**
   * strconv.Atoi on a 64-bit platform: an optional '+' or '-', then at least
   * one decimal digit, with a value that fits in an int64.
   */
  function Atoi(s: string): Result<int, string>
  {
    var signed := |s| > 0 && (s[0] == '+' || s[0] == '-');
    var digits := if signed then s[1..] else s;
    if digits == [] || !AllDigits(digits) then Failure(s)
    else
      var value: int := if signed && s[0] == '-' then 0 - (DigitsValue(digits) as int) else DigitsValue(digits);
      if MIN_INT64 <= value <= MAX_INT64 then Success(value) else Failure(s)
  }

  /** The port rule of openDbConnection: an empty field means port 0, anything else must be an integer. */
  function ParsePort(text: string): Result<int, InstallError>
  {
    if text == "" then Success(0)
    else
      match Atoi(text)
      case Success(port) => Success(port)
      case Failure(_) => Failure(PortInvalid(text))
  }

  /** The decimal digits of `n`, no leading zero. */
  function ShowNat(n: nat): string
  {
    if n < 10 then [('0' as int + n) as char]
    else ShowNat(n / 10) + [('0' as int + n % 10) as char]
  }

  /** The decimal form of `n`, with '-' when negative. */
  function Show(n: int): string
  {
    if n < 0 then "-" + ShowNat(-n) else ShowNat(n)
  }

  lemma {:induction false} ShowNatDigits(n: nat)
    ensures |ShowNat(n)| > 0 && AllDigits(ShowNat(n)) && DigitsValue(ShowNat(n)) == n
  {
    if n >= 10 {
      ShowNatDigits(n / 10);
      var s := ShowNat(n);
      assert s[..|s| - 1] == ShowNat(n / 10);
    }
  }

  /** Every int64 written in decimal is read back by Atoi as itself. */
  lemma AtoiRoundTrip(n: int)
    requires MIN_INT64 <= n <= MAX_INT64
    ensures Atoi(Show(n)) == Success(n)
  {
    var m := if n < 0 then -n else n;
    ShowNatDigits(m);
    var s := Show(n);
    if n < 0 {
      assert s[1..] == ShowNat(m);
    } else {
      assert IsDigit(s[0]);
    }
  }

  /** Atoi refuses any string with a character that is neither a digit nor a leading sign. */
  lemma AtoiRejectsNonDigit(s: string, i: nat)
    requires i < |s| && !IsDigit(s[i])
    requires i == 0 ==> s[0] != '+' && s[0] != '-'
    ensures Atoi(s).Failure?
  {
    var signed := |s| > 0 && (s[0] == '+' || s[0] == '-');
    var digits := if signed then s[1..] else s;
    var j := if signed then i - 1 else i;
    assert digits[j] == s[i];
  }

  /** Atoi refuses the decimal form of every integer outside int64. */
  lemma AtoiRejectsOverflow(n: int)
    requires n < MIN_INT64 || MAX_INT64 < n
    ensures Atoi(Show(n)).Failure?
  {
    var m := if n < 0 then -n else n;
    ShowNatDigits(m);
    var s := Show(n);
    if n < 0 {
      assert s[1..] == ShowNat(m);
    } else {
      assert IsDigit(s[0]);
    }
  }

  /**
   * The port rule: the empty field gives port 0, the decimal form of any
   * int64 gives that int64, and a field that is not an integer is refused
   * with PortInvalid.
   */
  lemma ParsePortRule(text: string, n: int)
    requires MIN_INT64 <= n <= MAX_INT64
    ensures ParsePort("") == Success(0)
    ensures ParsePort(Show(n)) == Success(n)
    ensures Atoi(text).Failure? && text != "" ==> ParsePort(text) == Failure(PortInvalid(text))
  {
    AtoiRoundTrip(n);
    ShowNatDigits(if n < 0 then -n else n);
  }

  /** The connection parameters of an installer request, as the form sends them. */
  datatype Params = Params(host: string, port: string, schema: string, username: string, password: string)

  /** An open connection; the port is the parsed one. */
  datatype Session = Session(host: string, port: int, schema: string, username: string, password: string)

  /**
   * openDbConnection: parse the port, then open. `driver` is the error
   * gorm.Open would report, if any; it is consulted only after the port parsed.
   */
  function Open(params: Params, driver: Option<string>): (r: Result<Session, InstallError>)
    ensures ParsePort(params.port).Failure? ==> r == Failure(ParsePort(params.port).error)
    ensures ParsePort(params.port).Success? && driver.Some? ==> r == Failure(ConnectionFailed(driver.value))
    ensures r.Success? <==> ParsePort(params.port).Success? && driver.None?
    ensures r.Success? ==>
      r.value == Session(params.host, ParsePort(params.port).value, params.schema, params.username, params.password)
  {
    match ParsePort(params.port)
    case Failure(e) => Failure(e)
    case Success(port) =>
      if driver.Some? then Failure(ConnectionFailed(driver.value))
      else Success(Session(params.host, port, params.schema, params.username, params.password))
  }

  /** Verify: open, then ping; `ping` is the error the ping would report, if any. */
  function Verify(params: Params, driver: Option<string>, ping: Option<string>): (r: Result<string, InstallError>)
    ensures r.Success? <==> Open(params, driver).Success? && ping.None?
    ensures Open(params, driver).Failure? ==> r == Failure(Open(params, driver).error)
    ensures Open(params, driver).Success? && ping.Some? ==> r == Failure(ConnectionFailed(ping.value))
    ensures r.Success? ==> r.value == "OK"
  {
    match Open(params, driver)
    case Failure(e) => Failure(e)
    case Success(_) =>
      if ping.Some? then Failure(ConnectionFailed(ping.value)) else Success("OK")
  }

  /** A port field that is not an integer fails Verify before any connection is attempted. */
  lemma {:induction false} BadPortFailsFirst(params: Params, driver: Option<string>, ping: Option<string>)
    requires params.port != "" && Atoi(params.port).Failure?
    ensures Verify(params, driver, ping) == Failure(PortInvalid(params.port))
  {
  }

  /** The example of a port field that is not a number. */
  lemma {:induction false} PortAbcRejected()
    ensures ParsePort("abc") == Failure(PortInvalid("abc"))
  {
    AtoiRejectsNonDigit("abc", 0);
  }
}
