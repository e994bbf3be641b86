/** The two lookup tables of the OpenWeatherMap normalizer: wind direction in
    degrees to a 16-point compass label, and OpenWeatherMap condition ids to
    the World Weather Online codes of the canonical schema. */
module Codes {
  import Numeric
  import opened Wrappers

  /** The 16 compass points, clockwise from north, 22.5 degrees apart. */
  const CompassPoints: seq<string> :=
    ["N", "NNE", "NE", "ENE", "E", "ESE", "SE", "SSE",
     "S", "SSW", "SW", "WSW", "W", "WNW", "NW", "NNW"]

  /** The 16-point label of a wind direction in degrees. */
  function Compass(degrees: real): (point: string)
    ensures point in CompassPoints
  {
    CompassPoints[Numeric.Round(degrees / 22.5) % 16]
  }

  /** For a whole number of degrees no direction lies exactly between two
      sectors, and the sector is `(4 * d + 45) div 90`, modulo 16. */
  lemma CompassOfWholeDegrees(d: int)
    ensures Compass(d as real) == CompassPoints[((4 * d + 45) / 90) % 16]
  {
    var q := (4 * d + 45) / 90;
    var r := 4 * d - 90 * q;
    SectorOffset(d);
    var x := d as real / 22.5;
    assert x - q as real == r as real / 90.0;
    assert -0.5 < r as real / 90.0 < 0.5;
    Numeric.RoundNearest(x, q);
  }

  /** How far `4 * d` lies from the nearest multiple of 90 below the
      midpoint: 4 * d is even and every midpoint 90 * q - 45 is odd, so the
      distance is strictly less than 45. */
  lemma SectorOffset(d: int)
    ensures -45 < 4 * d - 90 * ((4 * d + 45) / 90) < 45
  {
    var q := (4 * d + 45) / 90;
    var m := (4 * d + 45) % 90;
    assert 4 * d + 45 == 90 * q + m && 0 <= m < 90;
    // m is odd, so it is not 0.
    assert m == 2 * (2 * d - 45 * q + 22) + 1;
  }

  /** A full turn does not change the label. */
  lemma CompassPeriodic(degrees: real)
    ensures Compass(degrees + 360.0) == Compass(degrees)
  {
    var x := degrees / 22.5;
    assert (degrees + 360.0) / 22.5 == x + 16 as real;
    Numeric.RoundShift(x, 16);
    assert (Numeric.Round(x) + 16) % 16 == Numeric.Round(x) % 16;
  }

  /** North, a sector step, east, the halfway point 348.75 (a tie, rounded
      to 16, that is north again) and a full turn. */
  lemma CompassExamples()
    ensures Compass(0.0) == "N"
    ensures Compass(22.5) == "NNE"
    ensures Compass(90.0) == "E"
    ensures Compass(348.75) == "N"
    ensures Compass(360.0) == "N"
  {
    Numeric.RoundNearest(0.0, 0);
    Numeric.RoundNearest(1.0, 1);
    Numeric.RoundNearest(4.0, 4);
    Numeric.RoundNearest(16.0, 16);
    assert Numeric.RoundsTo(15.5, 16);
    Numeric.RoundsToUnique(15.5, Numeric.Round(15.5), 16);
  }

  /** The entries of wttr.in's mapping from OpenWeatherMap condition ids
      to World Weather Online codes; `None` for an id it does not list. */
  function ListedWwoCode(owmId: int): Option<int> {
    match owmId
    case 200 => Some(200) case 201 => Some(386) case 202 => Some(389) case 210 => Some(200) case 211 => Some(389)
    case 212 => Some(389) case 221 => Some(389) case 230 => Some(200) case 231 => Some(386) case 232 => Some(389)
    case 300 => Some(266) case 301 => Some(266) case 302 => Some(302) case 310 => Some(266) case 311 => Some(293)
    case 312 => Some(302) case 313 => Some(305) case 314 => Some(302) case 321 => Some(299)
    case 500 => Some(176) case 501 => Some(293) case 502 => Some(302) case 503 => Some(308) case 504 => Some(308)
    case 511 => Some(284) case 520 => Some(299) case 521 => Some(305) case 522 => Some(302) case 531 => Some(305)
    case 600 => Some(320) case 601 => Some(332) case 602 => Some(230) case 611 => Some(281) case 612 => Some(284)
    case 613 => Some(284) case 615 => Some(317) case 616 => Some(317) case 620 => Some(368) case 621 => Some(371)
    case 622 => Some(230)
    case 701 => Some(143) case 711 => Some(143) case 721 => Some(143) case 731 => Some(143) case 741 => Some(143)
    case 751 => Some(143) case 761 => Some(143) case 762 => Some(143) case 771 => Some(143) case 781 => Some(143)
    case 800 => Some(113) case 801 => Some(116) case 802 => Some(119) case 803 => Some(119) case 804 => Some(122)
    case _ => None
  }

  /** Every code the mapping can produce. */
  const WwoCodes: set<int> := {113, 116, 119, 122, 143, 176, 200, 230, 266, 281, 284, 293, 299, 302, 305, 308, 317, 320, 332, 368, 371, 386, 389}

  /** The canonical code of a clear sky, and the OpenWeatherMap id for it. */
  const ClearSky: int := 113
  const ClearSkyId: int := 800

  /** The canonical weather code of an OpenWeatherMap condition id. Total:
      an id the mapping does not list reads as a clear sky. */
  function WwoCode(owmId: int): (code: int)
    ensures code in WwoCodes
    ensures ListedWwoCode(owmId).Some? ==> code == ListedWwoCode(owmId).value
    ensures ListedWwoCode(owmId).None? ==> code == ClearSky == ListedWwoCode(ClearSkyId).value
  {
    ListedWwoCode(owmId).GetOr(ClearSky)
  }

  /** Table entries and the default: clear and overcast sky, a thunderstorm
      with rain, and two ids the table does not list. */
  lemma WwoCodeExamples()
    ensures WwoCode(800) == 113 && WwoCode(804) == 122 && WwoCode(201) == 386
    ensures WwoCode(0) == 113 && WwoCode(799) == 113
  {
  }
}
