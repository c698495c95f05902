/** Configuration validation, as far as sizes, views, durations and addresses go, over what `time.ParseDuration` reads. */
module Settings {
  import opened Records
  import opened Server
  import opened Text

  type Parser = string -> Option<int>

  const HOUR: int := 3600_000_000_000
  const DEFAULT_MAX_SIZE: int := 65536
  const DEFAULT_FILE_SIZE: int := 5 * 1024 * 1024

  datatype Secrets = Secrets(maxSize: int, maxViews: int, maxTtl: string, defaultTtl: string, allowedTtls: seq<string>)

  datatype Config = Config(
    sweepInterval: string, secrets: Secrets, metricsEnabled: bool, metricsAddr: string, maxFileSize: int)

  predicate Positive(raw: string, parse: Parser) {
    parse(raw).Some? && parse(raw).value > 0
  }

  function MustDur(raw: string, fallback: int, parse: Parser): int {
    if raw == "" || !Positive(raw, parse) then fallback else parse(raw).value
  }

  /** What the accessors of a configuration answer. */
  function LimitsOf(s: Secrets, parse: Parser): Limits {
    Limits(s.maxSize, MustDur(s.defaultTtl, 24 * HOUR, parse), MustDur(s.maxTtl, 168 * HOUR, parse))
  }

  function SweepInterval(c: Config, parse: Parser): int {
    MustDur(c.sweepInterval, HOUR / 60, parse)
  }

  /** The durations are positive and within the ceiling, the offered ones included. */
  predicate SoundSecrets(s: Secrets, parse: Parser) {
    && Positive(s.maxTtl, parse) && Positive(s.defaultTtl, parse)
    && parse(s.defaultTtl).value <= parse(s.maxTtl).value
    && forall i :: 0 <= i < |s.allowedTtls| ==>
         Positive(s.allowedTtls[i], parse) && parse(s.allowedTtls[i]).value <= parse(s.maxTtl).value
  }

  predicate Sound(c: Config, parse: Parser) {
    && (c.sweepInterval != "" ==> Positive(c.sweepInterval, parse))
    && SoundSecrets(c.secrets, parse)
    && (c.metricsEnabled ==> TrimSpace(c.metricsAddr) != "")
  }

  /** The numbers brought into range. */
  function Normalized(c: Config): Config {
    c.(secrets := c.secrets.(maxSize := if c.secrets.maxSize > 0 then c.secrets.maxSize else DEFAULT_MAX_SIZE,
                             maxViews := if c.secrets.maxViews > 1 then c.secrets.maxViews else 1),
       maxFileSize := if c.maxFileSize > 0 then c.maxFileSize else DEFAULT_FILE_SIZE)
  }

  method ValidateSecrets(s: Secrets, parse: Parser) returns (r: Result<Secrets>)
    ensures r.Ok? <==> SoundSecrets(s, parse)
    ensures r.Ok? <==>
      && parse(s.maxTtl).Some? && parse(s.defaultTtl).Some? && 0 < parse(s.defaultTtl).value <= parse(s.maxTtl).value
      && forall i :: 0 <= i < |s.allowedTtls| ==>
           parse(s.allowedTtls[i]).Some? && 0 < parse(s.allowedTtls[i]).value <= parse(s.maxTtl).value
    ensures r.Ok? ==> r.value == s.(maxSize := if s.maxSize > 0 then s.maxSize else 65536,
                                    maxViews := if s.maxViews > 1 then s.maxViews else 1)
  {
    var c := s;
    if c.maxSize <= 0 { c := c.(maxSize := DEFAULT_MAX_SIZE); }
    if c.maxViews < 1 { c := c.(maxViews := 1); }
    var max := parse(c.maxTtl);
    if max.None? || max.value <= 0 { return Err("secrets.max_ttl invalid"); }
    var def := parse(c.defaultTtl);
    if def.None? || def.value <= 0 { return Err("secrets.default_ttl invalid"); }
    if def.value > max.value { return Err("secrets.default_ttl must not exceed secrets.max_ttl"); }
    for i := 0 to |c.allowedTtls|
      invariant forall k :: 0 <= k < i ==>
        Positive(c.allowedTtls[k], parse) && parse(c.allowedTtls[k]).value <= max.value
    {
      var d := parse(c.allowedTtls[i]);
      if d.None? || d.value <= 0 { return Err("secrets.allowed_ttls entry invalid"); }
      if d.value > max.value { return Err("secrets.allowed_ttls entry exceeds secrets.max_ttl"); }
    }
    return Ok(c);
  }

  /**
   Passes exactly the sound configurations that the checks of TLS and of sign-in pass as well; then the numbers are in
   range, no accessor falls back for a duration that was given, and the lifetimes are positive and in order.
   */
  method Validate(config: Config, tls: bool, auth: bool, parse: Parser) returns (r: Result<Config>)
    requires parse("").None?
    ensures r.Ok? <==> tls && auth && Sound(config, parse)
    ensures r.Ok? <==>
      && tls && auth && SoundSecrets(config.secrets, parse)
      && (config.sweepInterval == "" || (parse(config.sweepInterval).Some? && parse(config.sweepInterval).value > 0))
      && (config.metricsEnabled ==> TrimSpace(config.metricsAddr) != "")
    ensures r.Ok? ==>
      && r.value == Normalized(config)
      && r.value.maxFileSize == (if config.maxFileSize > 0 then config.maxFileSize else 5242880)
      && r.value.secrets.maxSize == (if config.secrets.maxSize > 0 then config.secrets.maxSize else 65536)
      && r.value.secrets.maxViews == (if config.secrets.maxViews > 1 then config.secrets.maxViews else 1)
      && LimitsOf(r.value.secrets, parse) ==
           Limits(r.value.secrets.maxSize, parse(config.secrets.defaultTtl).value, parse(config.secrets.maxTtl).value)
      && 0 < LimitsOf(r.value.secrets, parse).defaultTtl <= LimitsOf(r.value.secrets, parse).maxTtl
      && SweepInterval(r.value, parse) == (if config.sweepInterval == "" then HOUR / 60 else parse(config.sweepInterval).value) > 0
  {
    var c := config;
    if !tls { return Err("server.tls invalid"); }
    if c.sweepInterval != "" {
      var d := parse(c.sweepInterval);
      if d.None? || d.value <= 0 { return Err("database.sweep_interval invalid"); }
    }
    var secrets := ValidateSecrets(c.secrets, parse);
    if secrets.Err? { return Err(secrets.error); }
    c := c.(secrets := secrets.value);
    if !auth { return Err("auth invalid"); }
    if c.metricsEnabled && TrimSpace(c.metricsAddr) == "" { return Err("metrics.addr must be set when metrics.enabled is true"); }
    if c.maxFileSize <= 0 { c := c.(maxFileSize := DEFAULT_FILE_SIZE); }
    return Ok(c);
  }
}
