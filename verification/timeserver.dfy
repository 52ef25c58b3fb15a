/** The time server's getCurrentTime tool: resolve the time zone (the
    requested one, else the server default), check it, take the base instant
    ("now", or the parsed RFC 3339 timestamp), express it in the zone, and
    report it as "Current time" or "Converted time". The tz database, the
    clock and RFC 3339 parsing and rendering are parameters. */
module TimeServer {
  import opened Text
  import opened Outcomes

  /** A time zone as time.LoadLocation returns it; its rules are opaque. */
  datatype Location = Location(name: string)

  /** A Go time.Time: an absolute instant (nanoseconds since January 1 of
      year 1, UTC) and the location it is expressed in. */
  datatype Time = Time(instant: int, location: Location)

  const NanosPerSecond := 1_000_000_000

  /** The zero time.Time{}: the zero instant, in UTC. */
  const ZeroTime := Time(0, Location("UTC"))

  /** t.In(loc): the same instant, expressed in `loc`. */
  function In(t: Time, loc: Location): (r: Time)
    ensures r.instant == t.instant && r.location == loc
  {
    Time(t.instant, loc)
  }

  /** The environment the converter consults: the zones LoadLocation
      accepts, the RFC 3339 parser and renderer, and the current time. */
  datatype TimeEnv = TimeEnv(
    zones: map<string, Location>,
    parse: string -> Option<Time>,
    format: Time -> string,
    now: Time)

  datatype TimeConfig = TimeConfig(defaultTimezone: string)

  datatype TimeParams = TimeParams(timezone: string, timeStr: string)

  /** The triple convertTimeToTimezone returns: zone name, time, error. */
  datatype Conversion = Conversion(timezone: string, time: Time, error: Option<Failure>)

  /** The zone used: the requested one, else the server default. */
  function ResolveTimezone(cfg: TimeConfig, requested: string): (tz: string)
    ensures requested != "" ==> tz == requested
    ensures requested == "" ==> tz == cfg.defaultTimezone
  {
    if requested == "" then cfg.defaultTimezone else requested
  }

  /** convertTimeToTimezone: the zone is checked before the timestamp, and
      every failure is the all-or-nothing triple ("", zero time, error). */
  function ConvertTimeToTimezone(cfg: TimeConfig, env: TimeEnv, timeStr: string, requested: string): (c: Conversion)
    ensures var tz := ResolveTimezone(cfg, requested);
            c.error.Some? <==> tz !in env.zones || (timeStr != "" && env.parse(timeStr).None?)
    ensures c.error.Some? ==> c.timezone == "" && c.time == ZeroTime
    ensures var tz := ResolveTimezone(cfg, requested);
            tz !in env.zones ==> c.error == Some(InvalidTimezone(tz))
    ensures var tz := ResolveTimezone(cfg, requested);
            tz in env.zones && timeStr != "" && env.parse(timeStr).None? ==> c.error == Some(InvalidTimeFormat(timeStr))
    ensures var tz := ResolveTimezone(cfg, requested);
            c.error.None? ==>
              && c.timezone == tz
              && c.time.location == env.zones[tz]
              && c.time.instant == (if timeStr == "" then env.now.instant else env.parse(timeStr).value.instant)
  {
    var tz := ResolveTimezone(cfg, requested);
    if tz !in env.zones then Conversion("", ZeroTime, Some(InvalidTimezone(tz)))
    else
      var loc := env.zones[tz];
      if timeStr == "" then Conversion(tz, In(env.now, loc), None)
      else match env.parse(timeStr)
        case None => Conversion("", ZeroTime, Some(InvalidTimeFormat(timeStr)))
        case Some(parsed) => Conversion(tz, In(parsed, loc), None)
  }

  /** getCurrentTime: a conversion error is the handler's error; otherwise
      the text names the zone and the rendered time, as "Current time" when
      no timestamp was given and "Converted time" otherwise. */
  function HandleGetCurrentTime(cfg: TimeConfig, env: TimeEnv, p: TimeParams): (r: Result<string>)
    ensures var c := ConvertTimeToTimezone(cfg, env, p.timeStr, p.timezone);
            && (r.Err? <==> c.error.Some?)
            && (r.Err? ==> r.failure == c.error.value)
    ensures r.Ok? ==> (HasPrefix(r.value, "Current time (") <==> p.timeStr == "")
    ensures r.Ok? ==> (HasPrefix(r.value, "Converted time (") <==> p.timeStr != "")
    ensures var c := ConvertTimeToTimezone(cfg, env, p.timeStr, p.timezone);
            r.Ok? ==> HasSuffix(r.value, c.timezone + "): " + env.format(c.time))
    ensures var c := ConvertTimeToTimezone(cfg, env, p.timeStr, p.timezone);
            var lead := if p.timeStr == "" then "Current time (" else "Converted time (";
            r.Ok? ==> |r.value| == |lead| + |c.timezone + "): " + env.format(c.time)|
  {
    var c := ConvertTimeToTimezone(cfg, env, p.timeStr, p.timezone);
    if c.error.Some? then Err(c.error.value)
    else
      var lead := if p.timeStr == "" then "Current time (" else "Converted time (";
      var tail := c.timezone + "): " + env.format(c.time);
      PrefixOfConcat(lead, tail);
      SuffixOfConcat(lead, tail);
      assert (lead + tail)[1] == lead[1];
      Ok(lead + tail)
  }

  // ---------------------------------------------------------------------
  // Properties

  /** An unknown zone is reported whatever the timestamp, the parser or
      the clock: the zone is checked before the timestamp is looked at. */
  lemma ZoneCheckedFirst(cfg: TimeConfig, env1: TimeEnv, env2: TimeEnv, s1: string, s2: string, requested: string)
    requires env1.zones == env2.zones
    requires ResolveTimezone(cfg, requested) !in env1.zones
    ensures ConvertTimeToTimezone(cfg, env1, s1, requested) == ConvertTimeToTimezone(cfg, env2, s2, requested)
    ensures ConvertTimeToTimezone(cfg, env1, s1, requested)
         == Conversion("", ZeroTime, Some(InvalidTimezone(ResolveTimezone(cfg, requested))))
  {
  }

  /** What RFC 3339 rendering keeps of `t`: the text is non-empty and
      parses back to the same instant truncated to the whole second (the
      layout prints no fractional seconds). The zone of the parsed time is
      a fixed offset, not `t`'s named location, and is not constrained.
      Go meets this for years 0000 to 9999 in zones whose offset is a whole
      number of minutes. */
  ghost predicate RendersToSecond(env: TimeEnv, t: Time) {
    && env.format(t) != ""
    && env.parse(env.format(t)).Some?
    && env.parse(env.format(t)).value.instant == t.instant - t.instant % NanosPerSecond
  }

  /** Converting the rendered result of a conversion once more, to the same
      zone, keeps the zone and the location and drops only the sub-second
      part of the instant; for a whole-second instant nothing changes. */
  lemma ReconvertingIsStable(cfg: TimeConfig, env: TimeEnv, timeStr: string, requested: string)
    requires ConvertTimeToTimezone(cfg, env, timeStr, requested).error.None?
    requires RendersToSecond(env, ConvertTimeToTimezone(cfg, env, timeStr, requested).time)
    ensures var c := ConvertTimeToTimezone(cfg, env, timeStr, requested);
            var again := ConvertTimeToTimezone(cfg, env, env.format(c.time), requested);
            && again.error.None?
            && again.timezone == c.timezone
            && again.time.location == c.time.location
            && again.time.instant == c.time.instant - c.time.instant % NanosPerSecond
            && (c.time.instant % NanosPerSecond == 0 ==> again == c)
  {
  }

  /** Converting the rendering of a conversion into a second zone gives the
      same zone and location as converting the original timestamp there
      directly, and the same instant up to its sub-second part: only the
      zone the instant is shown in changes. */
  lemma ConversionsCompose(cfg: TimeConfig, env: TimeEnv, timeStr: string, first: string, second: string)
    requires ConvertTimeToTimezone(cfg, env, timeStr, first).error.None?
    requires RendersToSecond(env, ConvertTimeToTimezone(cfg, env, timeStr, first).time)
    requires ResolveTimezone(cfg, second) in env.zones
    ensures var c := ConvertTimeToTimezone(cfg, env, timeStr, first);
            var via := ConvertTimeToTimezone(cfg, env, env.format(c.time), second);
            var direct := ConvertTimeToTimezone(cfg, env, timeStr, second);
            && via.error.None? && direct.error.None?
            && via.timezone == direct.timezone
            && via.time.location == direct.time.location
            && via.time.instant == direct.time.instant - direct.time.instant % NanosPerSecond
            && (direct.time.instant % NanosPerSecond == 0 ==> via == direct)
  {
  }
}
