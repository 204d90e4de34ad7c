/** `find_petrol_pumps`: one Overpass query per route segment, consumed in the
    order the queries complete; each element of a reply becomes a pump record
    enriched by reverse geocoding, and anything that raises abandons the rest of
    that segment only. */
module PetrolPumps {

  import opened Values
  import Geocoding
  import Segmenter
  import Overpass

  /** The keys of every pump record. */
  const PumpKeys: set<string> := {"name", "latitude", "longitude", "address", "city", "state"}

  /** The name a pump record takes from its element: the "name" tag, or
      "Unknown" when the tag or the whole "tags" dictionary is missing. */
  function TagName(fields: map<string, Value>): Value
    requires "tags" in fields ==> fields["tags"].Obj?
  {
    if "tags" in fields && "name" in fields["tags"].fields then fields["tags"].fields["name"] else Unknown
  }

  /** The body of the element loop for one element: read "lat" and "lon", build
      `pump_info` with the name, then merge in the reverse-geocoded address. */
  function PumpOf(element: Value, svc: Services): Result<Record>
  {
    var lat :- Subscript(element, "lat");
    var lon :- Subscript(element, "lon");
    var tags := if "tags" in element.fields then element.fields["tags"] else Obj(map[]);
    var name :- DictGet(tags, "name", Unknown);
    var pumpInfo := map["name" := name, "latitude" := lat, "longitude" := lon];
    var addressData :- Geocoding.ReverseGeocode(lat, lon, svc);
    Ok(pumpInfo + addressData)
  }

  /** An element raises exactly when it is not a dictionary with "lat" and
      "lon", its "tags" is not a dictionary, or reverse geocoding raises. */
  lemma PumpOfSucceeds(element: Value, svc: Services)
    ensures PumpOf(element, svc).Ok? <==>
      && element.Obj? && "lat" in element.fields && "lon" in element.fields
      && ("tags" in element.fields ==> element.fields["tags"].Obj?)
      && Geocoding.ReverseGeocode(element.fields["lat"], element.fields["lon"], svc).Ok?
  {
  }

  /** A pump record has the six pump keys: the element's coordinates, its name
      tag or "Unknown", and the address, city and state found for the
      coordinates. */
  lemma PumpOfRecord(element: Value, svc: Services)
    requires PumpOf(element, svc).Ok?
    ensures
      var r := PumpOf(element, svc).value;
      var fields := element.fields;
      var address := Geocoding.ReverseGeocode(fields["lat"], fields["lon"], svc).value;
      && r.Keys == PumpKeys
      && r["latitude"] == fields["lat"]
      && r["longitude"] == fields["lon"]
      && r["name"] == TagName(fields)
      && r["address"] == address["address"]
      && r["city"] == address["city"]
      && r["state"] == address["state"]
  {
    var fields := element.fields;
    var address := Geocoding.ReverseGeocode(fields["lat"], fields["lon"], svc).value;
    assert address.Keys == {"address", "city", "state"};
  }

  /** The records the element loop appends before the first element that
      raises: every element before it, in reply order, and none after it. */
  function PumpsUntilFailure(elements: seq<Value>, svc: Services): seq<Record>
  {
    if elements == [] then []
    else match PumpOf(elements[0], svc)
      case Err(_) => []
      case Ok(pump) => [pump] + PumpsUntilFailure(elements[1..], svc)
  }

  /** The records appended are those of the first elements, in order, and the
      element after the last record is one that raised. */
  lemma {:induction false} UntilFailurePrefix(elements: seq<Value>, svc: Services)
    ensures
      var r := PumpsUntilFailure(elements, svc);
      && |r| <= |elements|
      && (forall i :: 0 <= i < |r| ==> PumpOf(elements[i], svc) == Ok(r[i]))
      && (|r| < |elements| ==> PumpOf(elements[|r|], svc).Err?)
    decreases |elements|
  {
    if elements != [] && PumpOf(elements[0], svc).Ok? {
      var rest := elements[1..];
      UntilFailurePrefix(rest, svc);
      var r := PumpsUntilFailure(elements, svc);
      forall i | 1 <= i < |r| ensures PumpOf(elements[i], svc) == Ok(r[i]) {
        assert elements[i] == rest[i - 1];
      }
      if |r| < |elements| {
        assert elements[|r|] == rest[|r| - 1];
      }
    }
  }

  /** The elements of a decoded Overpass reply: `data.get("elements", [])`,
      iterated. */
  function Elements(data: Value): (r: Result<seq<Value>>)
    ensures r.Ok? <==> data.Obj? && ("elements" in data.fields ==> ItemsToSubscript(data.fields["elements"]).Ok?)
    ensures data.Obj? && "elements" !in data.fields ==> r == Ok([])
    ensures data.Obj? && "elements" in data.fields && data.fields["elements"].Arr? ==> r == Ok(data.fields["elements"].items)
  {
    var elements :- DictGet(data, "elements", Arr([]));
    ItemsToSubscript(elements)
  }

  /** What one pass of the `try` block appends for one completed query: nothing
      when the query failed or its reply has no readable elements list,
      otherwise the records up to the first element that raises. */
  function SegmentPumps(reply: HttpReply, svc: Services): (r: seq<Record>)
    ensures Fetch(reply).Err? ==> r == []
    ensures Fetch(reply).Ok? && Elements(Fetch(reply).value).Err? ==> r == []
    ensures Fetch(reply).Ok? && Elements(Fetch(reply).value).Ok? ==>
      r == PumpsUntilFailure(Elements(Fetch(reply).value).value, svc)
  {
    match Fetch(reply)
    case Err(_) => []
    case Ok(data) =>
      match Elements(data)
      case Err(_) => []
      case Ok(elements) => PumpsUntilFailure(elements, svc)
  }

  /** How many elements a reply holds for the loop to visit. */
  function ElementCount(reply: HttpReply): nat
  {
    match Fetch(reply)
    case Err(_) => 0
    case Ok(data) =>
      match Elements(data)
      case Err(_) => 0
      case Ok(elements) => |elements|
  }

  /** The completed query for one segment. */
  function SegmentReply(segment: seq<Point>, svc: Services): HttpReply
  {
    svc.overpass(Overpass.Query(segment, svc.show))
  }

  predicate InRange(order: seq<nat>, count: nat)
  {
    forall j :: 0 <= j < |order| ==> order[j] < count
  }

  /** What the `try` block appends for the segment with index `i`. */
  function Contribution(segments: seq<seq<Point>>, svc: Services): nat -> seq<Record>
  {
    (i: nat) => if i < |segments| then SegmentPumps(SegmentReply(segments[i], svc), svc) else []
  }

  /** The blocks `f(i)` appended one after the other, for `i` in `order`. */
  function Collect<R>(f: nat -> seq<R>, order: seq<nat>): seq<R>
  {
    if order == [] then [] else Collect(f, order[..|order| - 1]) + f(order[|order| - 1])
  }

  /** The records gathered when the segments' queries complete in `order`. */
  function Gathered(segments: seq<seq<Point>>, order: seq<nat>, svc: Services): seq<Record>
  {
    Collect(Contribution(segments, svc), order)
  }

  /** The segment indices 0, 1, ..., count - 1. */
  function Indices(count: nat): (r: seq<nat>)
    ensures |r| == count
    ensures forall i :: 0 <= i < count ==> r[i] == i
  {
    seq(count, i requires 0 <= i < count => i)
  }

  /** `as_completed` yields every submitted query exactly once, in some order. */
  predicate IsCompletionOrder(order: seq<nat>, count: nat)
  {
    multiset(order) == multiset(Indices(count))
  }

  lemma CompletionOrderInRange(order: seq<nat>, count: nat)
    requires IsCompletionOrder(order, count)
    ensures InRange(order, count)
  {
    forall j | 0 <= j < |order| ensures order[j] < count {
      assert order[j] in multiset(order);
      assert order[j] in multiset(Indices(count));
    }
  }

  /** The whole of `find_petrol_pumps` for a completion order of its queries. */
  function FindPumps(route: seq<Point>, segmentLength: int, order: seq<nat>, svc: Services): (r: Result<seq<Record>>)
    ensures r.Err? <==> segmentLength == 0
  {
    var segments :- Segmenter.SegmentRoute(route, segmentLength);
    Ok(Gathered(segments, order, svc))
  }

  /** Completing `a` and then `b` gathers what `a` gathers followed by what `b`
      gathers: each segment's records are appended as one block, whatever the
      other segments did. */
  lemma {:induction false} CollectAppend<R>(f: nat -> seq<R>, a: seq<nat>, b: seq<nat>)
    ensures Collect(f, a + b) == Collect(f, a) + Collect(f, b)
    decreases |b|
  {
    if b == [] {
      assert a + b == a;
    } else {
      var b' := b[..|b| - 1];
      assert (a + b)[..|a + b| - 1] == a + b';
      CollectAppend(f, a, b');
    }
  }

  lemma CollectOne<R>(f: nat -> seq<R>, x: nat)
    ensures Collect(f, [x]) == f(x)
  {
    assert [x][..0] == [];
  }

  /** A segment whose query failed contributes no records, and the segments
      completed before and after it still contribute theirs. */
  lemma FailedSegmentSkipped(segments: seq<seq<Point>>, before: seq<nat>, s: nat, after: seq<nat>, svc: Services)
    requires s < |segments|
    requires Fetch(SegmentReply(segments[s], svc)).Err?
    ensures Gathered(segments, before + [s] + after, svc) == Gathered(segments, before, svc) + Gathered(segments, after, svc)
  {
    var f := Contribution(segments, svc);
    assert f(s) == [];
    CollectOne(f, s);
    CollectAppend(f, before, [s]);
    CollectAppend(f, before + [s], after);
  }

  /** The records collected do not depend on the order, only on which indices
      occur in it: two orders with the same indices collect the same records,
      possibly in a different order. */
  lemma {:induction false} CollectPermutation<R>(f: nat -> seq<R>, o1: seq<nat>, o2: seq<nat>)
    requires multiset(o1) == multiset(o2)
    ensures multiset(Collect(f, o1)) == multiset(Collect(f, o2))
    decreases |o1|
  {
    if o1 == [] {
      assert |o2| == |multiset(o2)| == 0;
    } else {
      var x := o1[|o1| - 1];
      var rest1 := o1[..|o1| - 1];
      assert o1 == rest1 + [x];
      assert x in multiset(o2);
      var i :| 0 <= i < |o2| && o2[i] == x;
      var front, back := o2[..i], o2[i + 1..];
      assert o2 == front + [x] + back;
      RemoveOne(rest1, x, front, back);
      CollectPermutation(f, rest1, front + back);
      CollectOne(f, x);
      CollectAppend(f, front, [x]);
      CollectAppend(f, front + [x], back);
      CollectAppend(f, front, back);
      var cf, cb := Collect(f, front), Collect(f, back);
      assert Collect(f, o2) == cf + f(x) + cb;
      assert multiset(Collect(f, o2)) == multiset(cf) + multiset(f(x)) + multiset(cb);
    }
  }

  lemma RemoveOne(rest: seq<nat>, x: nat, front: seq<nat>, back: seq<nat>)
    requires multiset(rest + [x]) == multiset(front + [x] + back)
    ensures multiset(rest) == multiset(front + back)
  {
    var xs: seq<nat> := [x];
    assert multiset(rest + xs) == multiset(rest) + multiset(xs);
    assert multiset(front + xs + back) == multiset(front) + multiset(xs) + multiset(back);
    assert multiset(front + back) == multiset(front) + multiset(back);
    assert multiset(rest) == multiset(rest + xs) - multiset(xs);
  }

  /** For every completion order `as_completed` can produce, `find_petrol_pumps`
      returns the same records as when the queries complete in route order, up
      to their order. */
  lemma AnyCompletionOrder(route: seq<Point>, segmentLength: int, order: seq<nat>, svc: Services)
    requires IsCompletionOrder(order, Segmenter.SegmentCount(route, segmentLength))
    ensures FindPumps(route, segmentLength, order, svc).Ok? ==>
      multiset(FindPumps(route, segmentLength, order, svc).value)
      == multiset(FindPumps(route, segmentLength, Indices(Segmenter.SegmentCount(route, segmentLength)), svc).value)
  {
    var count := Segmenter.SegmentCount(route, segmentLength);
    if segmentLength != 0 {
      var segments := Segmenter.SegmentRoute(route, segmentLength).value;
      assert |segments| == count;
      CollectPermutation(Contribution(segments, svc), order, Indices(count));
    }
  }

  /** A failed query or an unreadable reply yields no records, and a readable
      one at most one record per element. */
  lemma SegmentPumpsBound(reply: HttpReply, svc: Services)
    ensures |SegmentPumps(reply, svc)| <= ElementCount(reply)
    ensures Fetch(reply).Err? ==> ElementCount(reply) == 0
  {
    var data := Fetch(reply);
    if data.Ok? && Elements(data.value).Ok? {
      UntilFailurePrefix(Elements(data.value).value, svc);
    }
  }

  /** The number of elements returned for the segment with index `i`. */
  function Returned(segments: seq<seq<Point>>, svc: Services): nat -> nat
  {
    (i: nat) => if i < |segments| then ElementCount(SegmentReply(segments[i], svc)) else 0
  }

  function Total(g: nat -> nat, order: seq<nat>): nat
  {
    if order == [] then 0 else Total(g, order[..|order| - 1]) + g(order[|order| - 1])
  }

  /** `find_petrol_pumps` returns at most one record per element returned. */
  lemma {:induction false} GatheredBound(segments: seq<seq<Point>>, order: seq<nat>, svc: Services)
    ensures |Gathered(segments, order, svc)| <= Total(Returned(segments, svc), order)
    decreases |order|
  {
    if order != [] {
      GatheredBound(segments, order[..|order| - 1], svc);
      var last := order[|order| - 1];
      if last < |segments| {
        SegmentPumpsBound(SegmentReply(segments[last], svc), svc);
      }
    }
  }

  /** The consumption loop of `find_petrol_pumps`: for each completed query, in
      completion order, one pass of the `try` block. */
  method FindPetrolPumps(route: seq<Point>, segmentLength: int, order: seq<nat>, svc: Services)
    returns (r: Result<seq<Record>>)
    requires IsCompletionOrder(order, Segmenter.SegmentCount(route, segmentLength))
    ensures r == FindPumps(route, segmentLength, order, svc)
  {
    var petrolPumps: seq<Record> := [];
    var segments :- Segmenter.SegmentRoute(route, segmentLength);
    CompletionOrderInRange(order, |segments|);
    ghost var f := Contribution(segments, svc);
    for j := 0 to |order|
      invariant petrolPumps == Gathered(segments, order[..j], svc)
    {
      assert order[..j + 1][..j] == order[..j];
      assert f(order[j]) == SegmentPumps(SegmentReply(segments[order[j]], svc), svc);
      petrolPumps := TrySegment(petrolPumps, SegmentReply(segments[order[j]], svc), svc);
    }
    assert order[..|order|] == order;
    r := Ok(petrolPumps);
  }

  /** The `try` block for one completed query: decode the reply, then append a
      record per element until one raises. */
  method TrySegment(petrolPumps: seq<Record>, reply: HttpReply, svc: Services) returns (r: seq<Record>)
    ensures r == petrolPumps + SegmentPumps(reply, svc)
  {
    r := petrolPumps;
    var data := Fetch(reply);
    if data.Ok? {
      var elements := Elements(data.value);
      if elements.Ok? {
        r := AppendPumps(r, elements.value, svc);
      }
    }
  }

  /** The element loop: `petrol_pumps.append(pump_info)` per element, left as
      soon as an element raises. */
  method AppendPumps(petrolPumps: seq<Record>, elements: seq<Value>, svc: Services) returns (r: seq<Record>)
    ensures r == petrolPumps + PumpsUntilFailure(elements, svc)
  {
    r := petrolPumps;
    var k := 0;
    while k < |elements|
      invariant 0 <= k <= |elements|
      invariant r + PumpsUntilFailure(elements[k..], svc) == petrolPumps + PumpsUntilFailure(elements, svc)
    {
      var pump := PumpOf(elements[k], svc);
      UntilFailureStep(elements, k, svc);
      if pump.Err? {
        break;
      }
      AppendStep(r, pump.value, PumpsUntilFailure(elements[k + 1..], svc));
      r := r + [pump.value];
      k := k + 1;
    }
  }

  /** The element loop's next pass: stop at an element that raises, or append
      its record and go on with the following elements. */
  lemma UntilFailureStep(elements: seq<Value>, k: nat, svc: Services)
    requires k < |elements|
    ensures PumpOf(elements[k], svc).Err? ==> PumpsUntilFailure(elements[k..], svc) == []
    ensures PumpOf(elements[k], svc).Ok? ==>
      PumpsUntilFailure(elements[k..], svc) == [PumpOf(elements[k], svc).value] + PumpsUntilFailure(elements[k + 1..], svc)
  {
    assert elements[k..][0] == elements[k];
    assert elements[k..][1..] == elements[k + 1..];
  }

  lemma AppendStep(r: seq<Record>, pump: Record, rest: seq<Record>)
    ensures r + ([pump] + rest) == (r + [pump]) + rest
  {
  }
}
