/**
 * The `/calculate` handler: resolve the birth instant, build the ordered list
 * of ten planet records and the list of twelve house records, and turn any
 * failure into an HTTP 500 response.
 *
 * The foreign calls are parameters: the ISO-8601 parser, the zone database,
 * the per-body ecliptic longitude the ephemeris computes for an observer
 * (already in degrees), and the house-cusp sequence (also in degrees).
 */
module Chart {
  import opened Optional
  import opened Zodiac
  import opened BirthInstant

  /** The bodies of `ephem_objects`, in the dictionary's insertion order, which is the loop's order. */
  const PlanetNames: seq<string> :=
    ["Sun", "Moon", "Mercury", "Venus", "Mars",
     "Jupiter", "Saturn", "Uranus", "Neptune", "Pluto"]

  /** The request body. */
  datatype BirthData = BirthData(birthDateTime: string, latitude: real, longitude: real, zoneId: string)

  /** The ephemeris observer: geographic position and the resolved (zone-aware) birth instant. */
  datatype Observer = Observer(latitude: real, longitude: real, date: Timestamp)

  /** One element of `planets`. */
  datatype PlanetEntry = PlanetEntry(
    name: string, eclipticLongitude: real, sign: string, signDegree: real, isRetrograde: bool)

  /** One element of `houses`. */
  datatype HouseEntry = HouseEntry(
    houseNumber: int, eclipticLongitude: real, sign: string, signDegree: real)

  /** The handler's outcome: the chart, or the HTTPException raised by the catch-all. */
  datatype Response =
    | Chart(planets: seq<PlanetEntry>, houses: seq<HouseEntry>)
    | HttpError(statusCode: int)

  /** Ecliptic longitude in degrees of a named body for an observer (None: computing it raises). */
  type BodyEphemeris = (Observer, string) -> Option<real>

  /**
   * The house-cusp sequence in degrees for an observer, as the handler reads it after
   * taking element 0 of the cusp call's result. None: the call raises, or its result is
   * not a (cusps, ascmc) pair, so that element 0 is not a sequence and indexing it raises.
   */
  type CuspSource = Observer -> Option<seq<real>>

  /** The record built for one body from its own longitude only; retrograde motion is never reported. */
  predicate IsPlanetEntry(e: PlanetEntry, name: string, lon: real) {
    e.name == name && e.eclipticLongitude == lon &&
    e.sign == GetSign(lon) && e.signDegree == SignDegree(lon) &&
    !e.isRetrograde
  }

  /** The record built for house n from its own cusp only. */
  predicate IsHouseEntry(h: HouseEntry, n: int, lon: real) {
    h.houseNumber == n && h.eclipticLongitude == lon &&
    h.sign == GetSign(lon) && h.signDegree == SignDegree(lon)
  }

  /** The ephemeris computes every body of the list for this observer. */
  predicate AllBodiesComputed(ephemeris: BodyEphemeris, observer: Observer) {
    forall i :: 0 <= i < |PlanetNames| ==> ephemeris(observer, PlanetNames[i]).Some?
  }

  /** `planets` as the loop leaves it: one entry per body, in list order. */
  predicate IsPlanetList(ps: seq<PlanetEntry>, ephemeris: BodyEphemeris, observer: Observer) {
    |ps| == |PlanetNames| &&
    forall i :: 0 <= i < |PlanetNames| ==>
      ephemeris(observer, PlanetNames[i]).Some? &&
      IsPlanetEntry(ps[i], PlanetNames[i], ephemeris(observer, PlanetNames[i]).value)
  }

  /** `houses` as the loop leaves it: entry i is house i + 1 built from cusp i, for i < 12. */
  predicate IsHouseList(hs: seq<HouseEntry>, cusps: seq<real>) {
    |hs| == 12 && |cusps| >= 12 &&
    forall i :: 0 <= i < 12 ==> IsHouseEntry(hs[i], i + 1, cusps[i])
  }

  /** The planet loop: computes each body in turn; the first body the ephemeris cannot compute aborts the loop. */
  method BuildPlanets(observer: Observer, ephemeris: BodyEphemeris) returns (result: Option<seq<PlanetEntry>>)
    ensures result.Some? <==> AllBodiesComputed(ephemeris, observer)
    ensures result.Some? ==> IsPlanetList(result.value, ephemeris, observer)
  {
    var planets: seq<PlanetEntry> := [];
    for i := 0 to |PlanetNames|
      invariant |planets| == i
      invariant forall j :: 0 <= j < i ==>
        ephemeris(observer, PlanetNames[j]).Some? &&
        IsPlanetEntry(planets[j], PlanetNames[j], ephemeris(observer, PlanetNames[j]).value)
    {
      var name := PlanetNames[i];
      var lon := ephemeris(observer, name);
      if lon.None? {
        return None;
      }
      planets := planets + [PlanetEntry(name, lon.value, GetSign(lon.value), SignDegree(lon.value), false)];
    }
    return Some(planets);
  }

  /** The house loop over `range(12)`: fewer than twelve cusps raise IndexError; cusps past the twelfth are never read. */
  method BuildHouses(cusps: seq<real>) returns (result: Option<seq<HouseEntry>>)
    ensures result.Some? <==> |cusps| >= 12
    ensures result.Some? ==> IsHouseList(result.value, cusps)
  {
    var houses: seq<HouseEntry> := [];
    for i := 0 to 12
      invariant |houses| == i
      invariant i <= |cusps|
      invariant forall j :: 0 <= j < i ==> IsHouseEntry(houses[j], j + 1, cusps[j])
    {
      if i >= |cusps| {
        return None;
      }
      var lon := cusps[i];
      houses := houses + [HouseEntry(i + 1, lon, GetSign(lon), SignDegree(lon))];
    }
    return Some(houses);
  }

  /** The observer the handler builds once the timestamp has been parsed. */
  function ObserverFor(data: BirthData, ts: Timestamp, zones: ZoneDb): (o: Observer)
  {
    Observer(data.latitude, data.longitude, ResolveBirthInstant(ts, data.zoneId, zones))
  }

  /** Nothing in the handler raises: the timestamp parses, every body is computed and there are at least twelve cusps. */
  predicate ChartComputable(data: BirthData, parse: string -> Option<Timestamp>, zones: ZoneDb,
                            ephemeris: BodyEphemeris, houseCusps: CuspSource)
  {
    parse(data.birthDateTime).Some? &&
    var observer := ObserverFor(data, parse(data.birthDateTime).value, zones);
    AllBodiesComputed(ephemeris, observer) &&
    houseCusps(observer).Some? && |houseCusps(observer).value| >= 12
  }

  /**
   * `calculate_chart`: the whole chart, or HTTP 500 when any step raises;
   * never a partial chart.
   */
  method CalculateChart(data: BirthData, parse: string -> Option<Timestamp>, zones: ZoneDb,
                        ephemeris: BodyEphemeris, houseCusps: CuspSource)
    returns (response: Response)
    ensures response.HttpError? ==> response.statusCode == 500
    ensures response.Chart? <==> ChartComputable(data, parse, zones, ephemeris, houseCusps)
    ensures response.Chart? ==>
      var observer := ObserverFor(data, parse(data.birthDateTime).value, zones);
      IsPlanetList(response.planets, ephemeris, observer) &&
      IsHouseList(response.houses, houseCusps(observer).value)
  {
    var parsed := parse(data.birthDateTime);
    if parsed.None? {
      return HttpError(500);
    }
    var localDt := ResolveBirthInstant(parsed.value, data.zoneId, zones);
    var observer := Observer(data.latitude, data.longitude, localDt);
    var planets := BuildPlanets(observer, ephemeris);
    if planets.None? {
      return HttpError(500);
    }
    var cusps := houseCusps(observer);
    if cusps.None? {
      return HttpError(500);
    }
    var houses := BuildHouses(cusps.value);
    if houses.None? {
      return HttpError(500);
    }
    return Chart(planets.value, houses.value);
  }

  /** The planet list names the ten bodies in order, never reports retrograde motion, and keeps every degree in [0, 30). */
  lemma PlanetListShape(ps: seq<PlanetEntry>, ephemeris: BodyEphemeris, observer: Observer)
    requires IsPlanetList(ps, ephemeris, observer)
    ensures |ps| == 10
    ensures forall i :: 0 <= i < |ps| ==>
      ps[i].name == PlanetNames[i] && !ps[i].isRetrograde &&
      ps[i].sign in Signs && 0.0 <= ps[i].signDegree < 30.0
    ensures forall i, j :: 0 <= i < j < |ps| ==> ps[i].name != ps[j].name
  {
  }

  /** Entry i depends on body i's longitude only: two ephemerides that agree on that body give the same entry. */
  lemma PlanetEntryLocal(ps: seq<PlanetEntry>, ephemeris: BodyEphemeris, observer: Observer,
                         qs: seq<PlanetEntry>, ephemeris': BodyEphemeris, observer': Observer, i: int)
    requires IsPlanetList(ps, ephemeris, observer) && IsPlanetList(qs, ephemeris', observer')
    requires 0 <= i < |PlanetNames|
    requires ephemeris(observer, PlanetNames[i]) == ephemeris'(observer', PlanetNames[i])
    ensures ps[i] == qs[i]
  {
  }

  /** Given the ephemeris, the planet list is determined: the loop's result is the only list meeting its contract. */
  lemma PlanetListUnique(ps: seq<PlanetEntry>, qs: seq<PlanetEntry>, ephemeris: BodyEphemeris, observer: Observer)
    requires IsPlanetList(ps, ephemeris, observer) && IsPlanetList(qs, ephemeris, observer)
    ensures ps == qs
  {
    forall i | 0 <= i < |ps|
      ensures ps[i] == qs[i]
    {
      PlanetEntryLocal(ps, ephemeris, observer, qs, ephemeris, observer, i);
    }
  }

  /** For a body in [0, 360), its entry's sign names its 30-degree sector and the degree is the offset into it. */
  lemma PlanetEntryConsistent(e: PlanetEntry, name: string, lon: real)
    requires IsPlanetEntry(e, name, lon)
    requires 0.0 <= lon < 360.0
    ensures 0 <= Sector(lon) < 12
    ensures e.sign == Signs[Sector(lon)]
    ensures e.eclipticLongitude == Sector(lon) as real * 30.0 + e.signDegree
  {
    SignOfSector(lon);
  }

  /** The house numbers are 1..12 ascending, so the numbers used are exactly {1, ..., 12}. */
  lemma HouseNumbers(hs: seq<HouseEntry>, cusps: seq<real>)
    requires IsHouseList(hs, cusps)
    ensures forall i, j :: 0 <= i < j < |hs| ==> hs[i].houseNumber < hs[j].houseNumber
    ensures var numbers := set h | h in hs :: h.houseNumber;
            forall n :: n in numbers <==> 1 <= n <= 12
  {
    var numbers := set h | h in hs :: h.houseNumber;
    forall n | 1 <= n <= 12
      ensures n in numbers
    {
      assert hs[n - 1] in hs;
    }
  }

  /** Cusps past the twelfth play no part: the house list for a cusp sequence is the one for its first twelve cusps. */
  lemma HouseListIgnoresExtraCusps(hs: seq<HouseEntry>, cusps: seq<real>)
    requires |cusps| >= 12
    ensures IsHouseList(hs, cusps) <==> IsHouseList(hs, cusps[..12])
  {
  }

  /** A single body the ephemeris cannot compute fails the whole request: no body is skipped. */
  lemma OneMissingBodyFailsChart(data: BirthData, parse: string -> Option<Timestamp>, zones: ZoneDb,
                                 ephemeris: BodyEphemeris, houseCusps: CuspSource, i: int)
    requires parse(data.birthDateTime).Some?
    requires 0 <= i < |PlanetNames|
    requires ephemeris(ObserverFor(data, parse(data.birthDateTime).value, zones), PlanetNames[i]).None?
    ensures !ChartComputable(data, parse, zones, ephemeris, houseCusps)
  {
  }
}
