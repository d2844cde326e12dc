/**
 * The birth-instant zone rule of `calculate_chart`: a parsed timestamp is
 * localized with the requested zone only when it carries no UTC offset, and
 * any failure to look the zone up or to localize stamps the unchanged
 * wall-clock fields as UTC.
 *
 * The zone database is abstract: a partial map from zone identifier to what
 * localizing a wall-clock reading in that zone attaches (None when
 * localizing raises).
 */
module BirthInstant {
  import opened Optional

  /** The calendar and clock fields of a datetime, without its zone. */
  datatype WallClock = WallClock(
    year: int, month: int, day: int,
    hour: int, minute: int, second: int, microsecond: int)

  /**
   * The zone information a datetime can carry: UTC itself, a fixed offset written in the
   * ISO-8601 text (such as "+02:00"), or an offset attached by localizing in a named zone.
   * Localizing in the zone named "UTC" attaches UTC itself in the library; the model
   * renders it as Localized("UTC", 0).
   */
  datatype TzInfo = Utc | FixedOffset(utcOffsetSeconds: int) | Localized(zoneId: string, utcOffsetSeconds: int)

  /** A datetime: wall-clock fields plus an optional zone (None: a naive datetime). */
  datatype Timestamp = Timestamp(wall: WallClock, tzinfo: Option<TzInfo>)

  /** Zone identifier -> the UTC offset localizing a wall-clock reading in that zone yields (None: localizing raises). */
  type ZoneDb = map<string, WallClock -> Option<int>>

  /**
   * The zone block of `calculate_chart`. A known zone localizes a naive
   * timestamp and leaves an aware one alone; an unknown zone, or a failed
   * localization, replaces the zone with UTC, discarding any offset the
   * timestamp already had.
   */
  function ResolveBirthInstant(ts: Timestamp, zoneId: string, zones: ZoneDb): (r: Timestamp)
    ensures r.wall == ts.wall
    ensures r.tzinfo.Some?
    ensures zoneId in zones && ts.tzinfo.None? && zones[zoneId](ts.wall).Some? ==>
              r.tzinfo == Some(Localized(zoneId, zones[zoneId](ts.wall).value))
    ensures zoneId in zones && ts.tzinfo.Some? ==> r == ts
    ensures zoneId !in zones || (ts.tzinfo.None? && zones[zoneId](ts.wall).None?) ==>
              r.tzinfo == Some(Utc)
  {
    if zoneId in zones then
      if ts.tzinfo.None? then
        match zones[zoneId](ts.wall)
        case Some(offset) => Timestamp(ts.wall, Some(Localized(zoneId, offset)))
        case None => Timestamp(ts.wall, Some(Utc))
      else
        ts
    else
      Timestamp(ts.wall, Some(Utc))
  }

  /** Resolving twice with the same zone gives the same instant as resolving once. */
  lemma ResolveIdempotent(ts: Timestamp, zoneId: string, zones: ZoneDb)
    ensures ResolveBirthInstant(ResolveBirthInstant(ts, zoneId, zones), zoneId, zones)
            == ResolveBirthInstant(ts, zoneId, zones)
  {
  }

  /**
   * An offset the timestamp already carries survives exactly when the zone is
   * known, or when it was UTC to begin with (the fallback writes UTC again).
   */
  lemma ExistingOffsetKept(ts: Timestamp, zoneId: string, zones: ZoneDb)
    requires ts.tzinfo.Some?
    ensures ResolveBirthInstant(ts, zoneId, zones).tzinfo == ts.tzinfo
            <==> zoneId in zones || ts.tzinfo == Some(Utc)
  {
  }
}
