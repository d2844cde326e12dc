/**
 * Zodiac classification of an ecliptic longitude given in degrees: the sign
 * name chosen by `get_sign` and the degree within the sign computed as
 * `longitude % 30`.
 *
 * Longitudes are modelled as exact reals. Python's `int(x)` truncates toward
 * zero and Python's `%` with a positive divisor is floor modulo; both are
 * written out below, because they disagree for negative longitudes.
 */
module Zodiac {

  /** The sign names in the order `get_sign` indexes them: sign k covers [30k, 30k + 30). */
  const Signs: seq<string> :=
    ["Aries", "Taurus", "Gemini", "Cancer", "Leo", "Virgo",
     "Libra", "Scorpio", "Sagittarius", "Capricorn", "Aquarius", "Pisces"]

  /** Python's `int(x)` on a float: the integer part, truncated toward zero. */
  function TruncateTowardZero(x: real): (r: int)
    ensures 0.0 <= x ==> 0 <= r && r as real <= x < r as real + 1.0
    ensures x < 0.0 ==> r <= 0 && r as real - 1.0 < x <= r as real
  {
    if x >= 0.0 then x.Floor else -((-x).Floor)
  }

  /** floor(longitude / 30): the quotient that Python's `longitude % 30` rounds to, the number of the 30-degree sector. */
  function Sector(longitude: real): (q: int)
    ensures q as real * 30.0 <= longitude < (q + 1) as real * 30.0
  {
    (longitude / 30.0).Floor
  }

  /** The index `get_sign` reads: `int(longitude / 30) % 12`; Dafny's `%` on int equals Python's for the divisor 12. */
  function SignIndex(longitude: real): (i: int)
    ensures 0 <= i < |Signs|
  {
    TruncateTowardZero(longitude / 30.0) % 12
  }

  /** `get_sign`: total on every real longitude, negative or beyond 360 included. */
  function GetSign(longitude: real): (s: string)
    ensures s in Signs
  {
    Signs[SignIndex(longitude)]
  }

  /** The `signDegree` field: `longitude % 30`, Python's floor modulo, so never negative. */
  function SignDegree(longitude: real): (d: real)
    ensures 0.0 <= d < 30.0
  {
    longitude - Sector(longitude) as real * 30.0
  }

  /** Floor modulo is characterised by its bounds: any k and d with x == 30 k + d and 0 <= d < 30 are the sector and the degree. */
  lemma SectorUnique(x: real, k: int, d: real)
    requires 0.0 <= d < 30.0
    requires x == k as real * 30.0 + d
    ensures Sector(x) == k
    ensures SignDegree(x) == d
  {
  }

  /** On a non-negative longitude, truncation is flooring, so the sign index is the 30-degree sector number modulo 12. */
  lemma SignIndexNonNegative(longitude: real)
    requires 0.0 <= longitude
    ensures TruncateTowardZero(longitude / 30.0) == Sector(longitude)
    ensures SignIndex(longitude) == Sector(longitude) % 12
  {
    var t := TruncateTowardZero(longitude / 30.0);
    assert t as real * 30.0 <= longitude < (t + 1) as real * 30.0;
    SectorUnique(longitude, t, longitude - t as real * 30.0);
  }

  /** For 0 <= longitude < 360 the sign is the name at index floor(longitude / 30) of the Aries..Pisces list. */
  lemma SignOfSector(longitude: real)
    requires 0.0 <= longitude < 360.0
    ensures 0 <= Sector(longitude) < 12
    ensures GetSign(longitude) == Signs[Sector(longitude)]
  {
    SignIndexNonNegative(longitude);
  }

  /** For a non-negative longitude the sign and the degree agree: longitude == 30 * int(longitude / 30) + signDegree. */
  lemma SignDegreeAgrees(longitude: real)
    requires 0.0 <= longitude
    ensures longitude == 30.0 * TruncateTowardZero(longitude / 30.0) as real + SignDegree(longitude)
  {
    SignIndexNonNegative(longitude);
  }

  /** Adding a full turn leaves the sign unchanged, for non-negative longitudes. */
  lemma SignPeriodic(longitude: real)
    requires 0.0 <= longitude
    ensures GetSign(longitude + 360.0) == GetSign(longitude)
  {
    var t := TruncateTowardZero(longitude / 30.0);
    var t' := TruncateTowardZero((longitude + 360.0) / 30.0);
    assert (longitude + 360.0) / 30.0 == longitude / 30.0 + 12.0;
    assert t' == t + 12;
    assert t' % 12 == t % 12;
  }

  /** The degree within the sign is unchanged by any whole number of signs, for every real longitude. */
  lemma SignDegreePeriodic(longitude: real, k: int)
    ensures SignDegree(longitude + k as real * 30.0) == SignDegree(longitude)
  {
    var q := Sector(longitude);
    SectorUnique(longitude + k as real * 30.0, q + k, SignDegree(longitude));
  }

  /**
   * Truncation toward zero maps every longitude in (-30, 0) to index 0: the sign is
   * Aries, while the degree is longitude + 30 (a position in the Pisces sector) and the
   * same point one turn later is classified Pisces, so the +360 periodicity fails on (-30, 0).
   */
  lemma NegativeLongitudeNearZero(longitude: real)
    requires -30.0 < longitude < 0.0
    ensures GetSign(longitude) == "Aries"
    ensures SignDegree(longitude) == longitude + 30.0
    ensures GetSign(longitude + 360.0) == "Pisces"
  {
    assert TruncateTowardZero(longitude / 30.0) == 0;
    SectorUnique(longitude, -1, longitude + 30.0);
    SignOfSector(longitude + 360.0);
    SectorUnique(longitude + 360.0, 11, longitude + 30.0);
  }

  /**
   * For every negative longitude, truncation rounds the quotient up where the degree
   * rounds it down: off the multiples of 30 the sign is one ahead of the sector the
   * degree lies in, while at a multiple of 30 the two agree.
   */
  lemma NegativeSignAhead(longitude: real)
    requires longitude < 0.0
    ensures SignDegree(longitude) == 0.0 ==> SignIndex(longitude) == Sector(longitude) % 12
    ensures SignDegree(longitude) != 0.0 ==> SignIndex(longitude) == (Sector(longitude) + 1) % 12
  {
    var t := TruncateTowardZero(longitude / 30.0);
    var q := Sector(longitude);
    if SignDegree(longitude) == 0.0 {
      assert longitude / 30.0 == q as real;
      assert t == q;
    } else {
      assert q as real < longitude / 30.0 < (q + 1) as real;
      assert t == q + 1;
    }
  }

  /** Classification inverts placing a degree d inside sign i: longitude 30 i + d reads back as sign i, degree d. */
  lemma ClassifyRoundTrip(i: int, d: real)
    requires 0 <= i < |Signs| && 0.0 <= d < 30.0
    ensures GetSign(i as real * 30.0 + d) == Signs[i]
    ensures SignDegree(i as real * 30.0 + d) == d
  {
    SectorUnique(i as real * 30.0 + d, i, d);
    SignIndexNonNegative(i as real * 30.0 + d);
  }
}
