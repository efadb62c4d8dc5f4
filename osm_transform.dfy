/**
 * The transform step of the OpenStreetMap ingestion job: each raw Overpass
 * element becomes one service record, with defaults for missing tags.
 */
module OsmTransform {
  import opened Common

  /**
   * An Overpass element. `tags` is `None` when the element has no "tags" key;
   * `lat` and `lon` are `None` when the key is absent.
   */
  datatype OsmElement = OsmElement(tags: Option<map<string, string>>, lat: Option<Num>, lon: Option<Num>)

  /** The decoded Overpass answer: its "elements" list. */
  datatype OsmData = OsmData(elements: seq<OsmElement>)

  /** A service record ready for loading; coordinates may be missing. */
  datatype ServiceRecord = ServiceRecord(
    name: string,
    kind: string,
    latitude: Option<Num>,
    longitude: Option<Num>,
    address: string,
    contactInfo: string)

  /** `element.get('tags', {}).get(key, default)`. */
  function Tag(tags: Option<map<string, string>>, key: string, default: string): (r: string)
    ensures tags.Some? && key in tags.value ==> r == tags.value[key]
    ensures tags.None? || key !in tags.value ==> r == default
  {
    match tags
    case None => default
    case Some(t) => if key in t then t[key] else default
  }

  /** The record built for one element. */
  function TransformElement(e: OsmElement): (r: ServiceRecord)
    ensures r.latitude == e.lat && r.longitude == e.lon
    ensures e.tags.None? ==> r == ServiceRecord("Unknown", "Unknown", e.lat, e.lon, "", "")
    ensures e.tags.Some? ==>
      && r.name == (if "name" in e.tags.value then e.tags.value["name"] else "Unknown")
      && r.kind == (if "amenity" in e.tags.value then e.tags.value["amenity"] else "Unknown")
      && r.address == (if "addr:full" in e.tags.value then e.tags.value["addr:full"] else "")
      && r.contactInfo == (if "phone" in e.tags.value then e.tags.value["phone"] else "")
  {
    ServiceRecord(
      Tag(e.tags, "name", "Unknown"),
      Tag(e.tags, "amenity", "Unknown"),
      e.lat,
      e.lon,
      Tag(e.tags, "addr:full", ""),
      Tag(e.tags, "phone", ""))
  }

  /**
   * `transform_osm_data`: one record per element, in the elements' order.
   * Elements without coordinates are kept, with `None` coordinates.
   */
  method TransformOsmData(data: OsmData) returns (services: seq<ServiceRecord>)
    ensures |services| == |data.elements|
    ensures forall i :: 0 <= i < |data.elements| ==> services[i] == TransformElement(data.elements[i])
  {
    services := [];
    for i := 0 to |data.elements|
      invariant |services| == i
      invariant forall k :: 0 <= k < i ==> services[k] == TransformElement(data.elements[k])
    {
      var service := TransformElement(data.elements[i]);
      services := services + [service];
    }
  }
}
