/**
 * Startup configuration (`main.go`, the prefix of `run()`): the version
 * flag, the required `BUCKET_URL`, the `PORT` override, and the optional
 * size limits, each read from the environment with a fallback.
 */
module Startup {
  import opened Wrappers
  import opened Values
  import Server

  const MinInt64: int := -0x8000_0000_0000_0000
  const MaxInt64: int := 0x7fff_ffff_ffff_ffff

  // ---------------------------------------------------------------------
  // Decimal integers, as strconv.ParseInt(s, 10, 64) reads them

  predicate IsDigit(b: byte) {
    '0' as int <= b <= '9' as int
  }

  predicate AllDigits(s: GoString) {
    forall i :: 0 <= i < |s| ==> IsDigit(s[i])
  }

  /** The value of a string of decimal digits, most significant first. */
  function DigitsValue(s: GoString): nat
    requires AllDigits(s)
  {
    if s == [] then 0 else DigitsValue(s[..|s| - 1]) * 10 + (s[|s| - 1] - '0' as int)
  }

  /**
   * `strconv.ParseInt(s, 10, 64)` (and `strconv.Atoi` on a 64-bit platform):
   * an optional sign followed by at least one decimal digit, whose value lies
   * in the int64 range. `None` stands for the syntax and range errors.
   */
  function ParseInt64(s: GoString): (r: Option<int>)
    ensures r.Some? ==> MinInt64 <= r.value <= MaxInt64
  {
    if s == [] then None
    else
      var signed := s[0] == '+' as int || s[0] == '-' as int;
      var digits := if signed then s[1..] else s;
      if digits == [] || !AllDigits(digits) then None
      else
        var v: int := if s[0] == '-' as int then -(DigitsValue(digits) as int) else DigitsValue(digits);
        if MinInt64 <= v <= MaxInt64 then Some(v) else None
  }

  /** The decimal digits of `n`, without leading zeros. */
  function FormatNat(n: nat): (s: GoString)
    ensures s != [] && AllDigits(s)
  {
    if n < 10 then ['0' as int + n] else FormatNat(n / 10) + ['0' as int + n % 10]
  }

  /** The decimal text of `n`, as `%d` prints it: the reference that `ParseInt64` is checked against. */
  function FormatInt(n: int): GoString {
    if n < 0 then ['-' as int] + FormatNat(-n) else FormatNat(n)
  }

  lemma {:induction false} DigitsOfFormat(n: nat)
    ensures DigitsValue(FormatNat(n)) == n
  {
    if n >= 10 {
      var s := FormatNat(n);
      assert s[..|s| - 1] == FormatNat(n / 10);
      DigitsOfFormat(n / 10);
    }
  }

  /** Every int64 written in decimal parses back to itself. */
  lemma FormatParseRoundTrip(n: int)
    requires MinInt64 <= n <= MaxInt64
    ensures ParseInt64(FormatInt(n)) == Some(n)
  {
    var s := FormatInt(n);
    if n < 0 {
      DigitsOfFormat(-n);
      assert s[1..] == FormatNat(-n);
    } else {
      DigitsOfFormat(n);
      assert FormatNat(n)[0] != '-' as int;
    }
  }

  /** Text that is not an optional sign followed by digits never parses. */
  lemma ParseRejectsNonDigit(s: GoString, i: nat)
    requires 0 < i < |s| && !IsDigit(s[i])
    ensures ParseInt64(s) == None
  {
    if s[0] == '+' as int || s[0] == '-' as int {
      assert s[1..][i - 1] == s[i];
    }
  }

  // ---------------------------------------------------------------------
  // run()

  const DefaultPort: int := 8080
  const ExitSuccess: int := 0
  const ExitError: int := 1

  const BucketUrlVar: GoString := Ascii("BUCKET_URL")
  const PortVar: GoString := Ascii("PORT")
  const MaxTemplateSizeVar: GoString := Ascii("MAX_TEMPLATE_SIZE")
  const MaxDataSizeVar: GoString := Ascii("MAX_DATA_SIZE")

  /** The command-line flags after `flag.Parse`. */
  datatype Flags = Flags(port: int, verbose: bool, showVersion: bool)

  /** The flags when none is given on the command line. */
  const DefaultFlags: Flags := Flags(DefaultPort, false, false)

  /** How the configuration prefix of `run()` ends. */
  datatype Startup =
    // `run()` returns this exit code, having written `stdout`
    | Exit(code: int, stdout: GoString)
    // the server is built with this configuration and listens on `port`
    | Serve(port: int, config: Server.ServerConfig, verbose: bool)

  /** `os.Getenv(name)`: the empty string when the variable is not set. */
  function Getenv(env: map<GoString, GoString>, name: GoString): GoString {
    if name in env then env[name] else []
  }

  /** The line `-version` prints. */
  function VersionLine(version: GoString): GoString {
    Ascii("givetypst version ") + version + Ascii("\n")
  }

  /** A size limit from the environment: adopted only when it parses and is positive, else 0. */
  function EnvLimit(env: map<GoString, GoString>, name: GoString): (n: int)
    ensures n >= 0
    ensures n > 0 <==> ParseInt64(Getenv(env, name)).Some? && ParseInt64(Getenv(env, name)).value > 0
    ensures n > 0 ==> n == ParseInt64(Getenv(env, name)).value
  {
    var p := ParseInt64(Getenv(env, name));
    if p.Some? && p.value > 0 then p.value else 0
  }

  /**
   * How the configuration prefix of `run()` ends, as a value: the version
   * line, the missing-`BUCKET_URL` failure, or the server's port and
   * configuration.
   */
  function Resolve(flags: Flags, env: map<GoString, GoString>, version: GoString): Startup {
    if flags.showVersion then Exit(ExitSuccess, VersionLine(version))
    else if Getenv(env, BucketUrlVar) == [] then Exit(ExitError, [])
    else
      var port := match ParseInt64(Getenv(env, PortVar)) case Some(p) => p case None => flags.port;
      var config := Server.ServerConfig(Getenv(env, BucketUrlVar), EnvLimit(env, MaxTemplateSizeVar), EnvLimit(env, MaxDataSizeVar));
      Serve(port, config, flags.verbose)
  }

  /**
   * The configuration prefix of `run()`. `-version` prints the version and
   * succeeds before anything else is read; an empty `BUCKET_URL` fails; a
   * `PORT` that parses overrides the `-port` flag; a size limit that parses
   * and is positive is passed on, anything else becomes 0.
   */
  method ResolveStartup(flags: Flags, env: map<GoString, GoString>, version: GoString) returns (s: Startup)
    ensures s == Resolve(flags, env, version)
    ensures flags.showVersion ==> s == Exit(ExitSuccess, VersionLine(version))
    ensures !flags.showVersion && Getenv(env, BucketUrlVar) == [] ==> s == Exit(ExitError, [])
    ensures s.Serve? <==> !flags.showVersion && Getenv(env, BucketUrlVar) != []
    ensures s.Serve? ==>
      && s.config.bucketURL == Getenv(env, BucketUrlVar)
      && s.verbose == flags.verbose
      && (ParseInt64(Getenv(env, PortVar)).Some? ==> s.port == ParseInt64(Getenv(env, PortVar)).value)
      && (ParseInt64(Getenv(env, PortVar)).None? ==> s.port == flags.port)
      && s.config.maxTemplateSize == EnvLimit(env, MaxTemplateSizeVar)
      && s.config.maxDataSize == EnvLimit(env, MaxDataSizeVar)
  {
    if flags.showVersion {
      return Exit(ExitSuccess, VersionLine(version));
    }
    var bucketURL := Getenv(env, BucketUrlVar);
    if bucketURL == [] {
      return Exit(ExitError, []);
    }
    var portNum := flags.port;
    var portEnv := Getenv(env, PortVar);
    if portEnv != [] {
      var parsed := ParseInt64(portEnv);
      if parsed.Some? {
        portNum := parsed.value;
      }
    }
    var maxTemplateSize := 0;
    var maxTemplateSizeEnv := Getenv(env, MaxTemplateSizeVar);
    if maxTemplateSizeEnv != [] {
      var parsed := ParseInt64(maxTemplateSizeEnv);
      if parsed.Some? && parsed.value > 0 {
        maxTemplateSize := parsed.value;
      }
    }
    var maxDataSize := 0;
    var maxDataSizeEnv := Getenv(env, MaxDataSizeVar);
    if maxDataSizeEnv != [] {
      var parsed := ParseInt64(maxDataSizeEnv);
      if parsed.Some? && parsed.value > 0 {
        maxDataSize := parsed.value;
      }
    }
    return Serve(portNum, Server.ServerConfig(bucketURL, maxTemplateSize, maxDataSize), flags.verbose);
  }

  /**
   * The limits the server ends up with: the environment's value when it
   * parses as a positive int64, the default (1 MiB for templates, 10 MiB
   * for data) otherwise.
   */
  lemma EffectiveLimits(env: map<GoString, GoString>, url: GoString)
    ensures var c := Server.WithDefaults(Server.ServerConfig(url, EnvLimit(env, MaxTemplateSizeVar), EnvLimit(env, MaxDataSizeVar)));
      var t := ParseInt64(Getenv(env, MaxTemplateSizeVar));
      var d := ParseInt64(Getenv(env, MaxDataSizeVar));
      && c.maxTemplateSize == (if t.Some? && t.value > 0 then t.value else Server.DefaultMaxTemplateSize)
      && c.maxDataSize == (if d.Some? && d.value > 0 then d.value else Server.DefaultMaxDataSize)
      && 0 < c.maxTemplateSize <= MaxInt64 && 0 < c.maxDataSize <= MaxInt64
  {
  }

  /** With `BUCKET_URL` set, a `PORT` of 19001 overrides `-port 19099`. */
  lemma PortOverridesFlag(version: GoString)
    ensures var env := map[BucketUrlVar := Ascii("mem://"), PortVar := Ascii("19001")];
      var s := Resolve(Flags(19099, false, false), env, version);
      s.Serve? && s.port == 19001
  {
    FormatParseRoundTrip(19001);
    assert FormatInt(19001) == Ascii("19001");
  }

  /** A `PORT` that is not a number leaves the port of the flags, 8080 by default, in force. */
  lemma BadPortFallsBack(version: GoString)
    ensures var env := map[BucketUrlVar := Ascii("mem://"), PortVar := Ascii("not-a-number")];
      var s := Resolve(DefaultFlags, env, version);
      s.Serve? && s.port == DefaultPort
  {
    ParseRejectsNonDigit(Ascii("not-a-number"), 1);
  }
}
