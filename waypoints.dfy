/** Perpendicular-offset via-waypoints: two points on either side of the
    midpoint of start→end, at a fixed distance in degrees, that push the
    router onto corridors other than the direct one. Planar arithmetic on
    degrees, as the source does it. */
module Waypoints {
  import opened Common

  /** The offset distance in degrees (roughly 400–450 m in Mumbai). */
  const OffsetScale: real := 0.004

  datatype Offsets = Offsets(mid: GeoPoint, wayA: GeoPoint, wayB: GeoPoint)

  /** `len` is the Euclidean length of end − start and it is not zero.
      The source computes it with `Math.sqrt` and divides by it without
      checking; start == end makes it 0 and every waypoint NaN, so the
      model asks for a positive length instead. */
  predicate IsLength(start: GeoPoint, end: GeoPoint, len: real) {
    var latDiff, lngDiff := end.lat - start.lat, end.lng - start.lng;
    len > 0.0 && len * len == latDiff * latDiff + lngDiff * lngDiff
  }

  function Dot(aLat: real, aLng: real, bLat: real, bLng: real): real {
    aLat * bLat + aLng * bLng
  }

  /** Twice the signed area spanned by two vectors in the (lng, lat) plane,
      with lng as the east axis: positive when b turns counter-clockwise
      from a. */
  function Cross(aLat: real, aLng: real, bLat: real, bLng: real): real {
    aLng * bLat - aLat * bLng
  }

  /** The midpoint and the two via-waypoints of a trip. Both waypoints are
      reflections of each other through the midpoint, their offset from it
      is perpendicular to the trip and exactly `OffsetScale` long whatever
      the trip's direction, and waypoint A is the one counter-clockwise of
      the direction of travel (left of it on a north-up map). */
  function WaypointOffsets(start: GeoPoint, end: GeoPoint, len: real): (w: Offsets)
    requires IsLength(start, end, len)
    ensures start != end
    ensures 2.0 * w.mid.lat == start.lat + end.lat && 2.0 * w.mid.lng == start.lng + end.lng
    ensures w.wayA.lat + w.wayB.lat == 2.0 * w.mid.lat
    ensures w.wayA.lng + w.wayB.lng == 2.0 * w.mid.lng
    ensures Dot(w.wayA.lat - w.mid.lat, w.wayA.lng - w.mid.lng,
                end.lat - start.lat, end.lng - start.lng) == 0.0
    ensures Dot(w.wayA.lat - w.mid.lat, w.wayA.lng - w.mid.lng,
                w.wayA.lat - w.mid.lat, w.wayA.lng - w.mid.lng) == OffsetScale * OffsetScale
    ensures Dot(w.wayB.lat - w.mid.lat, w.wayB.lng - w.mid.lng,
                w.wayB.lat - w.mid.lat, w.wayB.lng - w.mid.lng) == OffsetScale * OffsetScale
    ensures Cross(end.lat - start.lat, end.lng - start.lng,
                  w.wayA.lat - w.mid.lat, w.wayA.lng - w.mid.lng) == OffsetScale * len
    ensures w.wayA != w.wayB
  {
    var latDiff := end.lat - start.lat;
    var lngDiff := end.lng - start.lng;
    var midLat := start.lat + latDiff * 0.5;
    var midLng := start.lng + lngDiff * 0.5;
    var uLat := latDiff / len;
    var uLng := lngDiff / len;
    var w := Offsets(GeoPoint(midLat, midLng),
                     GeoPoint(midLat + uLng * OffsetScale, midLng - uLat * OffsetScale),
                     GeoPoint(midLat - uLng * OffsetScale, midLng + uLat * OffsetScale));
    UnitVector(latDiff, lngDiff, len);
    assert Dot(uLng * OffsetScale, -uLat * OffsetScale, latDiff, lngDiff)
        == OffsetScale * (uLng * latDiff - uLat * lngDiff);
    assert uLng * latDiff == uLat * lngDiff by {
      assert uLng * latDiff == lngDiff * latDiff / len;
      assert uLat * lngDiff == latDiff * lngDiff / len;
    }
    assert Dot(uLng * OffsetScale, -uLat * OffsetScale, uLng * OffsetScale, -uLat * OffsetScale)
        == OffsetScale * OffsetScale * (uLat * uLat + uLng * uLng);
    assert Dot(-uLng * OffsetScale, uLat * OffsetScale, -uLng * OffsetScale, uLat * OffsetScale)
        == OffsetScale * OffsetScale * (uLat * uLat + uLng * uLng);
    assert Cross(latDiff, lngDiff, uLng * OffsetScale, -uLat * OffsetScale)
        == OffsetScale * (lngDiff * uLng + latDiff * uLat);
    assert lngDiff * uLng + latDiff * uLat == len by {
      assert lngDiff * uLng + latDiff * uLat == (lngDiff * lngDiff + latDiff * latDiff) / len;
    }
    assert w.wayA.lat - w.wayB.lat == 2.0 * uLng * OffsetScale;
    assert w.wayA.lng - w.wayB.lng == -2.0 * uLat * OffsetScale;
    w
  }

  /** (latDiff, lngDiff) / len is a unit vector. */
  lemma UnitVector(latDiff: real, lngDiff: real, len: real)
    requires len > 0.0 && len * len == latDiff * latDiff + lngDiff * lngDiff
    ensures (latDiff / len) * (latDiff / len) + (lngDiff / len) * (lngDiff / len) == 1.0
  {
    var inv := 1.0 / len;
    assert latDiff / len == latDiff * inv;
    assert lngDiff / len == lngDiff * inv;
    ScaledUnit(latDiff, lngDiff, len, inv);
  }

  lemma ScaledUnit(a: real, b: real, l: real, i: real)
    requires l * i == 1.0 && l * l == a * a + b * b
    ensures (a * i) * (a * i) + (b * i) * (b * i) == 1.0
  {
    calc {
      (a * i) * (a * i) + (b * i) * (b * i);
      (a * a + b * b) * (i * i);
      (l * l) * (i * i);
      (l * i) * (l * i);
      1.0;
    }
  }
}
