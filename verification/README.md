# Natal chart calculation: a Dafny model of the `/calculate` handler

This project models the computational core of a small natal-chart web service.
The `/calculate` endpoint takes a birth timestamp, a geographic position and a time-zone identifier.
It returns the ecliptic longitude of ten bodies (Sun to Pluto) and of twelve house cusps.
Each longitude comes with its zodiac sign and its degree within the sign.
Any failure is reported as an HTTP 500 response.

The model has four modules:

- `Optional` (`optional.dfy`): `Option`; `None` stands for a library call that raised.
- `Zodiac` (`zodiac.dfy`): `get_sign` and the `longitude % 30` sign degree, as functions on exact reals.
  Python's `int()` is modelled as truncation toward zero.
  Python's float `%` with the divisor 30 is modelled as floor modulo.
  The lemmas state what this gives for non-negative longitudes.
  For a negative longitude that is not a multiple of 30, the sign is one ahead of the sector the degree lies in.
  The +360 periodicity of the sign fails on (-30, 0).
- `BirthInstant` (`birth_instant.dfy`): the zone rule of the handler.
  A naive timestamp is localized in a known zone.
  An aware timestamp is kept as it is.
  An unknown zone, or a failed localization, stamps the wall-clock fields as UTC.
  The zone database is an abstract partial map.
- `Chart` (`chart.dfy`): the planet loop and the house loop as methods with loop invariants.
  The handler `CalculateChart` turns every failure into the single error outcome.
  The ephemeris, the house-cusp call and the timestamp parser are function parameters.

Facts about main.py that the model keeps:

- Longitudes are classified as they come; they are never normalised.
- `isRetrograde` is always false; the speed of a body is never consulted.
- A body the ephemeris cannot compute fails the whole request.
- A failed house computation fails the whole request, discarding the planets already computed.

## Model

| member | source | states |
|---|---|---|
| `Zodiac.TruncateTowardZero` | main.py:39 | `int(x)` is the integer part: for x >= 0 it is the greatest integer <= x, for x < 0 the least integer >= x |
| `Zodiac.Sector` | main.py:86 | the quotient Python's `% 30` rounds to: the unique q with 30 q <= x < 30 (q + 1) |
| `Zodiac.SignIndex` | main.py:39-40 | `int(lon / 30) % 12` is a valid index into the twelve names for every real longitude, negative and >= 360 included |
| `Zodiac.GetSign` | main.py:36-40 | `get_sign` returns one of the twelve sign names for every real longitude |
| `Zodiac.SignDegree` | main.py:86 | `lon % 30` always lies in [0, 30), also for negative longitudes |
| `Zodiac.SectorUnique` | main.py:86 | any k and d with x == 30 k + d and 0 <= d < 30 are exactly the sector and the sign degree of x |
| `Zodiac.SignIndexNonNegative` | main.py:39-40 | for lon >= 0, truncation equals flooring, so the sign index is floor(lon / 30) mod 12 |
| `Zodiac.SignOfSector` | main.py:37-40 | for 0 <= lon < 360, `get_sign(lon)` is the name at index floor(lon / 30) of the Aries..Pisces list |
| `Zodiac.SignDegreeAgrees` | main.py:82-86 | for lon >= 0, lon == 30 * int(lon / 30) + signDegree, so the sign and the degree describe the same point |
| `Zodiac.SignPeriodic` | main.py:39-40 | for lon >= 0, `get_sign(lon + 360) == get_sign(lon)` |
| `Zodiac.SignDegreePeriodic` | main.py:86 | the sign degree is unchanged by adding any whole number of 30-degree signs, for every real longitude |
| `Zodiac.NegativeLongitudeNearZero` | main.py:39-40 | for lon in (-30, 0) the sign is Aries, the degree is lon + 30, and lon + 360 is Pisces: periodicity fails on (-30, 0) |
| `Zodiac.NegativeSignAhead` | main.py:39-40 | for lon < 0, the sign index is the degree's sector mod 12 at a multiple of 30, and one ahead of it otherwise |
| `Zodiac.ClassifyRoundTrip` | main.py:36-40 | a longitude built as sign i plus degree d in [0, 30) classifies back to sign i and degree d |
| `BirthInstant.ResolveBirthInstant` | main.py:46-52 | wall clock never changes and the result is always zone-aware; a known zone localizes a naive timestamp and keeps an aware one; an unknown zone or failed localization gives UTC, replacing any prior offset |
| `BirthInstant.ResolveIdempotent` | main.py:47-52 | resolving an already resolved timestamp with the same zone changes nothing |
| `BirthInstant.ExistingOffsetKept` | main.py:47-52 | an offset the timestamp carries survives if and only if the zone is known or the offset was already UTC |
| `Chart.BuildPlanets` | main.py:76-90 | the list is produced exactly when every body is computed; it then has one entry per body in Sun..Pluto order, each entry built from its own longitude, with `isRetrograde` false |
| `Chart.BuildHouses` | main.py:107-114 | the list is produced exactly when there are at least 12 cusps; entry i is house i + 1 built from cusp i |
| `Chart.CalculateChart` | main.py:42-123 | the response is a chart exactly when parsing, every body and the cusp call succeed with at least 12 cusps; otherwise it is HTTP 500, never a partial chart |
| `Chart.PlanetListShape` | main.py:63-90 | the planet list has 10 entries named Sun..Pluto in order, distinct names, no retrograde flag, signs among the twelve and degrees in [0, 30) |
| `Chart.PlanetEntryLocal` | main.py:77-90 | entry i depends only on body i's longitude |
| `Chart.PlanetListUnique` | main.py:77-90 | the ephemeris determines the planet list completely |
| `Chart.PlanetEntryConsistent` | main.py:82-86 | for a body in [0, 360), its sign names its 30-degree sector and its longitude is sector start plus signDegree |
| `Chart.HouseNumbers` | main.py:107-114 | house numbers strictly ascend and are exactly {1, ..., 12} |
| `Chart.HouseListIgnoresExtraCusps` | main.py:107-108 | the house list for a cusp sequence is the one for its first twelve cusps |
| `Chart.OneMissingBodyFailsChart` | main.py:77-123 | one body the ephemeris cannot compute makes the whole request fail |

## Left out

- The web framework, CORS set-up, the validation of the request body and server start-up (main.py:1-34, main.py:137-139) are transport, not logic.
  The request body itself is kept as `BirthData`.
- The `/interpret`, `/synastry` and `/personal_horoscope` endpoints (main.py:125-135) return constant strings.
- Setting the Swiss Ephemeris data path (main.py:7-18) is environment set-up, and that library is otherwise unused.
- The ephemeris observer, `compute` and the radians-to-degrees conversion (main.py:55-58, main.py:78-80, main.py:108) are foreign calls.
  The per-body longitudes and the cusps are given in degrees by the function parameters instead.
- The house-cusp call (main.py:94) is foreign code.
  PyEphem has no `house` module, so this call raises in practice and every request then ends in HTTP 500.
- The handler's own probing of the call's result (main.py:101-105) is folded into the abstract cusp source.
  It takes element 0 of the result, which is the cusp list only when the result is a (cusps, ascmc) pair.
  A flat list of numbers makes element 0 a number, and indexing it at main.py:108 raises, giving HTTP 500.
  The cusp source's `None` covers both the call raising and a result that is not such a pair.
- ISO-8601 parsing and the conversion of the localized timestamp to UTC (main.py:46, main.py:58) belong to the date library.
  The parser is a parameter, and the ephemeris receives the zone-aware timestamp.
- Floating-point rounding is not modelled: longitudes are exact reals.
  For instance, Python gives `-1e-20 % 30 == 30.0`, while the model gives a degree just below 30.
- NaN and infinite longitudes are not modelled; `int()` at main.py:39 raises on them, which would give HTTP 500.
- The error detail text of the HTTP 500 response and the error print (main.py:122-123) are not modelled.
- `Chart.CalculateChart`: non-numeric cusp values (`float()` raising at main.py:108) are not modelled, because cusps are reals by type.
