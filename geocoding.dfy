/** Nominatim lookups: `geocode_coordinates` (coordinate to address record, with
    "Unknown" defaults) and the place search of `get_routes` (place name to a
    latitude/longitude pair). */
module Geocoding {

  import opened Values

  const ForbiddenDetail: string := "Nominatim API returned 403 Forbidden. Check your headers or rate limits."

  /** The detail of the 400 raised when a place search finds nothing. */
  function NotFoundDetail(location: string): string
  {
    "Location '" + location + "' not found."
  }

  /** `data.get("address", {}).get(key, "Unknown")` for the three keys; only
      `data` and its `address` value need to be dictionaries. */
  function AddressRecord(data: Value): (r: Result<Record>)
    ensures r.Ok? <==> data.Obj? && ("address" in data.fields ==> data.fields["address"].Obj?)
    ensures r.Ok? ==> r.value.Keys == {"address", "city", "state"}
    ensures r.Ok? && "address" !in data.fields ==>
      r.value["address"] == Unknown && r.value["city"] == Unknown && r.value["state"] == Unknown
    ensures r.Ok? && "address" in data.fields ==>
      var fields := data.fields["address"].fields;
      && r.value["address"] == (if "road" in fields then fields["road"] else Unknown)
      && r.value["city"] == (if "city" in fields then fields["city"] else Unknown)
      && r.value["state"] == (if "state" in fields then fields["state"] else Unknown)
  {
    var address :- DictGet(data, "address", Obj(map[]));
    if !address.Obj? then Err(AttributeError)
    else
      var fields := address.fields;
      Ok(map["address" := GetOr(fields, "road"), "city" := GetOr(fields, "city"), "state" := GetOr(fields, "state")])
  }

  /** `get(key, "Unknown")` on a dictionary. */
  function GetOr(fields: map<string, Value>, key: string): Value
  {
    if key in fields then fields[key] else Unknown
  }

  /** `geocode_coordinates(lat, lon)`: a 403 reply raises its own HTTPException,
      any other failed call or undecodable body raises, and a decoded reply is
      shaped by `AddressRecord`. */
  function ReverseGeocode(lat: Value, lon: Value, svc: Services): (r: Result<Record>)
    ensures svc.reverse(lat, lon).Reply? && svc.reverse(lat, lon).status == 403 ==> r == Err(HttpError(403, ForbiddenDetail))
    ensures r.Ok? <==> Fetch(svc.reverse(lat, lon)).Ok? && AddressRecord(Fetch(svc.reverse(lat, lon)).value).Ok?
    ensures r.Ok? ==> r.value == AddressRecord(Fetch(svc.reverse(lat, lon)).value).value
  {
    var reply := svc.reverse(lat, lon);
    if reply.Reply? && reply.status == 403 then Err(HttpError(403, ForbiddenDetail))
    else
      var data :- Fetch(reply);
      AddressRecord(data)
  }

  /** The inner `geocode(location)` of `get_routes`: a falsy decoded reply (an
      empty result list) raises the 400 naming the location; otherwise the
      first result's "lat" and "lon" are converted with `float`. */
  function Locate(location: string, svc: Services): (r: Result<seq<real>>)
    ensures r.Ok? ==> |r.value| == 2
    ensures Fetch(svc.search(location)).Ok? && !Truthy(Fetch(svc.search(location)).value) ==>
      r == Err(HttpError(400, NotFoundDetail(location)))
    ensures Fetch(svc.search(location)).Err? ==> r.Err? && r.error != HttpError(400, NotFoundDetail(location))
    ensures r.Ok? ==>
      var data := Fetch(svc.search(location)).value;
      && data.Arr? && data.items != [] && data.items[0].Obj?
      && "lat" in data.items[0].fields && "lon" in data.items[0].fields
      && ToFloat(data.items[0].fields["lat"], svc.parse).Ok?
      && ToFloat(data.items[0].fields["lon"], svc.parse).Ok?
      && r.value == [ToFloat(data.items[0].fields["lat"], svc.parse).value,
                     ToFloat(data.items[0].fields["lon"], svc.parse).value]
    ensures
      var data := Fetch(svc.search(location));
      data.Ok? && data.value.Arr? && data.value.items != [] && data.value.items[0].Obj?
      && "lat" in data.value.items[0].fields && "lon" in data.value.items[0].fields
      && ToFloat(data.value.items[0].fields["lat"], svc.parse).Ok?
      && ToFloat(data.value.items[0].fields["lon"], svc.parse).Ok?
      ==> r == Ok([ToFloat(data.value.items[0].fields["lat"], svc.parse).value,
                   ToFloat(data.value.items[0].fields["lon"], svc.parse).value])
  {
    var data :- Fetch(svc.search(location));
    if !Truthy(data) then Err(HttpError(400, NotFoundDetail(location)))
    else
      var first :- First(data);
      var latValue :- Subscript(first, "lat");
      var lat :- ToFloat(latValue, svc.parse);
      var lonValue :- Subscript(first, "lon");
      var lon :- ToFloat(lonValue, svc.parse);
      Ok([lat, lon])
  }
}
