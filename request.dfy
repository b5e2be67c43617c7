/**
 * The route-calculation request parameters (`CalcRouteRequestParam`) and their
 * serialisation into the ordered query-string pairs sent to the routing service.
 *
 * The builder is an object whose setters update one field in place and return the
 * same object for chaining; `ToParams` builds its result by appending pairs one at
 * a time. Its specification, `Serialized`, is stated declaratively: in lookup mode
 * the single result-id pair; otherwise start, destination, and then one pair for
 * each SET field among six optional fields taken in a fixed order.
 */
module Request {
  import opened Wrappers
  import Codes
  import Decimal

  /** Fixed-width integers of the unread fields; f32 values are kept as their bit pattern. */
  newtype Int16 = x: int | -0x8000 <= x < 0x8000
  newtype Int32 = x: int | -0x8000_0000 <= x < 0x8000_0000
  newtype UInt8 = x: int | 0 <= x < 0x100
  type Float32 = bv32

  /** One query-string parameter: (key, value). */
  type Pair = (string, string)

  /** The optional keys `ToParams` consults, in the order it emits them. */
  const OptionalKeys: seq<string> := ["via", "cartype", "date", "resulttype", "vehicletype", "tollroad"]

  /** Names of the declared fields that `ToParams` never reads. */
  const UnreadFieldNames: set<string> := {
    "startangle", "priority", "tollway", "ferry", "smartic", "etc", "tolltarget",
    "normalspeed", "highwayspeed", "tollwayspeed", "ferryspeed",
    "height", "loadage", "weight", "width", "danger", "daytime", "generalroad",
    "regulations", "travel", "fmt"
  }

  /** The wire text of an enum value: the decimal text of its discriminant. */
  function CodeText(code: nat): string {
    Decimal.Render(code)
  }

  /** The pair a field contributes: one pair if it is set, none otherwise. */
  function Entry(field: (string, Option<string>)): seq<Pair> {
    if field.1.Some? then [(field.0, field.1.value)] else []
  }

  /** The pairs of the set fields among `fields`, in the order of `fields`. */
  function Present(fields: seq<(string, Option<string>)>): seq<Pair> {
    if fields == [] then [] else Present(fields[..|fields| - 1]) + Entry(fields[|fields| - 1])
  }

  /** Taking one more field adds exactly that field's entry at the end. */
  lemma PresentSnoc(fields: seq<(string, Option<string>)>, k: nat)
    requires k < |fields|
    ensures Present(fields[..k + 1]) == Present(fields[..k]) + Entry(fields[k])
  {
    assert fields[..k + 1][..k] == fields[..k];
  }

  /** `Present` of six fields after a prefix, unfolded one field at a time. */
  lemma PrefixedSix(head: seq<Pair>, fields: seq<(string, Option<string>)>)
    requires |fields| == 6
    ensures head + Present(fields) == head + Entry(fields[0]) + Entry(fields[1]) + Entry(fields[2]) +
      Entry(fields[3]) + Entry(fields[4]) + Entry(fields[5])
  {
    assert fields[..0] == [];
    PresentSnoc(fields, 0);
    assert head + Present(fields[..1]) == head + Entry(fields[0]);
    PresentSnoc(fields, 1);
    assert head + Present(fields[..2]) == head + Entry(fields[0]) + Entry(fields[1]);
    PresentSnoc(fields, 2);
    assert head + Present(fields[..3]) == head + Entry(fields[0]) + Entry(fields[1]) + Entry(fields[2]);
    PresentSnoc(fields, 3);
    assert head + Present(fields[..4]) == head + Entry(fields[0]) + Entry(fields[1]) + Entry(fields[2]) + Entry(fields[3]);
    PresentSnoc(fields, 4);
    assert head + Present(fields[..5]) == head + Entry(fields[0]) + Entry(fields[1]) + Entry(fields[2]) + Entry(fields[3]) + Entry(fields[4]);
    PresentSnoc(fields, 5);
    assert fields[..6] == fields;
  }

  /** Some pair of `ps` has key `k`. */
  predicate HasKey(ps: seq<Pair>, k: string) {
    exists i :: 0 <= i < |ps| && ps[i].0 == k
  }

  /** No key occurs twice. */
  predicate DistinctKeys(ps: seq<Pair>) {
    forall i, j :: 0 <= i < j < |ps| ==> ps[i].0 != ps[j].0
  }

  class CalcRouteRequestParam {
    var start: string
    var destination: string
    var startangle: Option<Int16>
    var via: Option<string>
    var date: Option<string>
    var priority: Option<Codes.Priority>
    var tollway: Option<Codes.Tollway>
    var ferry: Option<Codes.Ferry>
    var smartic: Option<Codes.OnOff>
    var etc: Option<Codes.OnOff>
    var tolltarget: Option<UInt8>
    var cartype: Option<Codes.CarType>
    var normalspeed: Option<Float32>
    var highwayspeed: Option<Float32>
    var tollwayspeed: Option<Float32>
    var ferryspeed: Option<Float32>
    var vehicletype: Option<Codes.VehicleType>
    var height: Option<Int32>
    var loadage: Option<Int32>
    var weight: Option<Int32>
    var width: Option<Int32>
    var danger: Option<UInt8>
    var daytime: Option<UInt8>
    var generalroad: Option<UInt8>
    var tollroad: Option<Codes.OnOff>
    var regulations: Option<Codes.OnOff>
    var travel: Option<Codes.OnOff>
    var resulttype: Option<Codes.OnOff>
    var routeresultid: Option<string>
    var fmt: Option<Codes.OutputFormat>

    /** Every optional field other than `routeresultid` is unset. */
    ghost predicate OptionsUnset()
      reads this
    {
      && startangle.None? && via.None? && date.None? && priority.None? && tollway.None?
      && ferry.None? && smartic.None? && etc.None? && tolltarget.None? && cartype.None?
      && normalspeed.None? && highwayspeed.None? && tollwayspeed.None? && ferryspeed.None?
      && vehicletype.None? && height.None? && loadage.None? && weight.None? && width.None?
      && danger.None? && daytime.None? && generalroad.None? && tollroad.None?
      && regulations.None? && travel.None? && resulttype.None? && fmt.None?
    }

    /** The derived default: empty start and destination, every option unset. */
    constructor Default()
      ensures start == "" && destination == ""
      ensures routeresultid.None? && OptionsUnset()
    {
      start, destination := "", "";
      startangle, via, date, priority, tollway, ferry := None, None, None, None, None, None;
      smartic, etc, tolltarget, cartype := None, None, None, None;
      normalspeed, highwayspeed, tollwayspeed, ferryspeed := None, None, None, None;
      vehicletype, height, loadage, weight, width := None, None, None, None, None;
      danger, daytime, generalroad, tollroad, regulations, travel := None, None, None, None, None, None;
      resulttype, routeresultid, fmt := None, None, None;
    }

    /** A fresh calculation from `start` to `destination` (already formatted "lon,lat"). */
    constructor New(start: string, destination: string)
      ensures this.start == start && this.destination == destination
      ensures routeresultid.None? && OptionsUnset()
    {
      this.start, this.destination := start, destination;
      startangle, via, date, priority, tollway, ferry := None, None, None, None, None, None;
      smartic, etc, tolltarget, cartype := None, None, None, None;
      normalspeed, highwayspeed, tollwayspeed, ferryspeed := None, None, None, None;
      vehicletype, height, loadage, weight, width := None, None, None, None, None;
      danger, daytime, generalroad, tollroad, regulations, travel := None, None, None, None, None, None;
      resulttype, routeresultid, fmt := None, None, None;
    }

    /** A lookup of an earlier result: only `routeresultid` is set, the rest is the default. */
    constructor NewWithResultId(resultId: string)
      ensures routeresultid == Some(resultId)
      ensures start == "" && destination == "" && OptionsUnset()
    {
      start, destination := "", "";
      startangle, via, date, priority, tollway, ferry := None, None, None, None, None, None;
      smartic, etc, tolltarget, cartype := None, None, None, None;
      normalspeed, highwayspeed, tollwayspeed, ferryspeed := None, None, None, None;
      vehicletype, height, loadage, weight, width := None, None, None, None, None;
      danger, daytime, generalroad, tollroad, regulations, travel := None, None, None, None, None, None;
      resulttype, routeresultid, fmt := None, Some(resultId), None;
    }

    /*
     * Setters: each may change its own field only (the `modifies` frame names that
     * one field) and returns the same object, so that calls can be chained.
     */

    method Via(via: string) returns (self: CalcRouteRequestParam)
      modifies this`via
      ensures self == this && this.via == Some(via)
    {
      this.via := Some(via);
      self := this;
    }

    method CarType(cartype: Codes.CarType) returns (self: CalcRouteRequestParam)
      modifies this`cartype
      ensures self == this && this.cartype == Some(cartype)
    {
      this.cartype := Some(cartype);
      self := this;
    }

    method VehicleType(vehicletype: Codes.VehicleType) returns (self: CalcRouteRequestParam)
      modifies this`vehicletype
      ensures self == this && this.vehicletype == Some(vehicletype)
    {
      this.vehicletype := Some(vehicletype);
      self := this;
    }

    method ResultType(resulttype: Codes.OnOff) returns (self: CalcRouteRequestParam)
      modifies this`resulttype
      ensures self == this && this.resulttype == Some(resulttype)
    {
      this.resulttype := Some(resulttype);
      self := this;
    }

    /** No check of the "yyyyMMdd_HHmmss" format is made: any text is stored as it is. */
    method Date(date: string) returns (self: CalcRouteRequestParam)
      modifies this`date
      ensures self == this && this.date == Some(date)
    {
      this.date := Some(date);
      self := this;
    }

    /** The six optional fields `ToParams` consults, with their wire values, in emission order. */
    function OptionalFields(): (fields: seq<(string, Option<string>)>)
      reads this
      ensures |fields| == |OptionalKeys|
      ensures forall i :: 0 <= i < |fields| ==> fields[i].0 == OptionalKeys[i]
    {
      [ ("via", via),
        ("cartype", if cartype.Some? then Some(CodeText(cartype.value.Code())) else None),
        ("date", date),
        ("resulttype", if resulttype.Some? then Some(CodeText(resulttype.value.Code())) else None),
        ("vehicletype", if vehicletype.Some? then Some(CodeText(vehicletype.value.Code())) else None),
        ("tollroad", if tollroad.Some? then Some(CodeText(tollroad.value.Code())) else None) ]
    }

    /** What `ToParams` returns for the current field values. */
    function Serialized(): seq<Pair>
      reads this
    {
      match routeresultid
      case Some(id) => [("routeresultid", id)]
      case None => [("start", start), ("destination", destination)] + Present(OptionalFields())
    }

    /** The query-string pairs for this request. */
    method ToParams() returns (p: seq<Pair>)
      ensures p == Serialized()
    {
      p := [];
      if routeresultid.Some? {
        p := p + [("routeresultid", routeresultid.value)];
      } else {
        ghost var fields := OptionalFields();
        p := p + [("start", start)];
        p := p + [("destination", destination)];
        ghost var head := p;
        assert head == [("start", start), ("destination", destination)];
        if via.Some? {
          p := p + [("via", via.value)];
        }
        assert p == head + Entry(fields[0]);
        if cartype.Some? {
          p := p + [("cartype", CodeText(cartype.value.Code()))];
        }
        assert p == head + Entry(fields[0]) + Entry(fields[1]);
        if date.Some? {
          p := p + [("date", date.value)];
        }
        assert p == head + Entry(fields[0]) + Entry(fields[1]) + Entry(fields[2]);
        if resulttype.Some? {
          p := p + [("resulttype", CodeText(resulttype.value.Code()))];
        }
        assert p == head + Entry(fields[0]) + Entry(fields[1]) + Entry(fields[2]) + Entry(fields[3]);
        if vehicletype.Some? {
          p := p + [("vehicletype", CodeText(vehicletype.value.Code()))];
        }
        assert p == head + Entry(fields[0]) + Entry(fields[1]) + Entry(fields[2]) + Entry(fields[3]) + Entry(fields[4]);
        if tollroad.Some? {
          p := p + [("tollroad", CodeText(tollroad.value.Code()))];
        }
        assert p == head + Entry(fields[0]) + Entry(fields[1]) + Entry(fields[2]) + Entry(fields[3]) + Entry(fields[4]) + Entry(fields[5]);
        PrefixedSix(head, fields);
        assert p == head + Present(fields);
      }
    }
  }

  /*
   * Properties of the "emit each set field, in order" rule, for any list of fields.
   */

  /** A pair is emitted exactly when its field is in the list and set to that value. */
  lemma {:induction false} PresentMember(fields: seq<(string, Option<string>)>, k: string, v: string)
    ensures (k, v) in Present(fields) <==> (k, Some(v)) in fields
  {
    if fields != [] {
      var init, last := fields[..|fields| - 1], fields[|fields| - 1];
      assert fields == init + [last];
      PresentMember(init, k, v);
    }
  }

  /**
   * Emission keeps the order of the fields: the fields behind any two emitted
   * pairs appear in the same order in the list.
   */
  lemma {:induction false} PresentOrder(fields: seq<(string, Option<string>)>, i: nat, j: nat)
    requires i < j < |Present(fields)|
    ensures exists a, b ::
      && 0 <= a < b < |fields|
      && fields[a] == (Present(fields)[i].0, Some(Present(fields)[i].1))
      && fields[b] == (Present(fields)[j].0, Some(Present(fields)[j].1))
  {
    var init, last := fields[..|fields| - 1], fields[|fields| - 1];
    var p := Present(fields);
    assert p == Present(init) + Entry(last);
    if j < |Present(init)| {
      PresentOrder(init, i, j);
      var a, b :| 0 <= a < b < |init|
        && init[a] == (Present(init)[i].0, Some(Present(init)[i].1))
        && init[b] == (Present(init)[j].0, Some(Present(init)[j].1));
      assert fields[a] == init[a] && fields[b] == init[b];
    } else {
      assert p[i] == Present(init)[i];
      assert p[i] in Present(init);
      PresentMember(init, p[i].0, p[i].1);
      var a :| 0 <= a < |init| && init[a] == (p[i].0, Some(p[i].1));
      assert fields[a] == init[a];
      assert fields[|fields| - 1] == (p[j].0, Some(p[j].1));
    }
  }

  /** The six optional keys are pairwise distinct and differ from the three other keys. */
  lemma OptionalKeysDistinct()
    ensures forall a, b :: 0 <= a < b < |OptionalKeys| ==> OptionalKeys[a] != OptionalKeys[b]
    ensures forall a :: 0 <= a < |OptionalKeys| ==>
      OptionalKeys[a] !in {"routeresultid", "start", "destination"}
  {
  }

  /*
   * Properties of `ToParams` (through its specification `Serialized`).
   */

  /** Without a result id, the output written out field by field. */
  lemma SerializedFresh(q: CalcRouteRequestParam)
    requires q.routeresultid.None?
    ensures q.Serialized() == [("start", q.start), ("destination", q.destination)]
      + (if q.via.Some? then [("via", q.via.value)] else [])
      + (if q.cartype.Some? then [("cartype", CodeText(q.cartype.value.Code()))] else [])
      + (if q.date.Some? then [("date", q.date.value)] else [])
      + (if q.resulttype.Some? then [("resulttype", CodeText(q.resulttype.value.Code()))] else [])
      + (if q.vehicletype.Some? then [("vehicletype", CodeText(q.vehicletype.value.Code()))] else [])
      + (if q.tollroad.Some? then [("tollroad", CodeText(q.tollroad.value.Code()))] else [])
  {
    PrefixedSix([("start", q.start), ("destination", q.destination)], q.OptionalFields());
  }

  /** With a result id set, the result id is the only parameter, whatever else is set. */
  lemma ResultIdSuppressesOthers(q: CalcRouteRequestParam)
    requires q.routeresultid.Some?
    ensures q.Serialized() == [("routeresultid", q.routeresultid.value)]
  {
  }

  /** Without a result id, start and then destination come first, even when empty. */
  lemma FreshModeStartsWithEndpoints(q: CalcRouteRequestParam)
    requires q.routeresultid.None?
    ensures |q.Serialized()| >= 2
    ensures q.Serialized()[0] == ("start", q.start)
    ensures q.Serialized()[1] == ("destination", q.destination)
  {
  }

  /** Without a result id, one of the six optional keys is emitted exactly when its field is set. */
  lemma {:induction false} FieldEmittedIff(q: CalcRouteRequestParam, m: nat)
    requires q.routeresultid.None? && m < |OptionalKeys|
    ensures HasKey(q.Serialized(), OptionalKeys[m]) <==> q.OptionalFields()[m].1.Some?
    ensures q.OptionalFields()[m].1.Some? ==>
      (OptionalKeys[m], q.OptionalFields()[m].1.value) in q.Serialized()
  {
    var fields, s := q.OptionalFields(), q.Serialized();
    var head := [("start", q.start), ("destination", q.destination)];
    var key := OptionalKeys[m];
    assert s == head + Present(fields);
    OptionalKeysDistinct();
    if HasKey(s, key) {
      var i :| 0 <= i < |s| && s[i].0 == key;
      assert i >= 2;
      var pair := Present(fields)[i - 2];
      assert pair == s[i] && pair in Present(fields);
      PresentMember(fields, pair.0, pair.1);
      var n :| 0 <= n < |fields| && fields[n] == (key, Some(pair.1));
      assert n == m;
    }
    if fields[m].1.Some? {
      var v := fields[m].1.value;
      assert fields[m] == (key, Some(v));
      PresentMember(fields, key, v);
      var i :| 0 <= i < |Present(fields)| && Present(fields)[i] == (key, v);
      assert s[i + 2] == (key, v);
    }
  }

  /**
   * Without a result id, each of via, cartype, date, resulttype, vehicletype and
   * tollroad yields a pair exactly when it is set; via and date pass through
   * unchanged and the enums are written as the decimal text of their codes.
   */
  lemma EachSetFieldEmitted(q: CalcRouteRequestParam)
    requires q.routeresultid.None?
    ensures HasKey(q.Serialized(), "via") <==> q.via.Some?
    ensures q.via.Some? ==> ("via", q.via.value) in q.Serialized()
    ensures HasKey(q.Serialized(), "cartype") <==> q.cartype.Some?
    ensures q.cartype.Some? ==> ("cartype", Decimal.Render(q.cartype.value.Code())) in q.Serialized()
    ensures HasKey(q.Serialized(), "date") <==> q.date.Some?
    ensures q.date.Some? ==> ("date", q.date.value) in q.Serialized()
    ensures HasKey(q.Serialized(), "resulttype") <==> q.resulttype.Some?
    ensures q.resulttype.Some? ==> ("resulttype", Decimal.Render(q.resulttype.value.Code())) in q.Serialized()
    ensures HasKey(q.Serialized(), "vehicletype") <==> q.vehicletype.Some?
    ensures q.vehicletype.Some? ==> ("vehicletype", Decimal.Render(q.vehicletype.value.Code())) in q.Serialized()
    ensures HasKey(q.Serialized(), "tollroad") <==> q.tollroad.Some?
    ensures q.tollroad.Some? ==> ("tollroad", Decimal.Render(q.tollroad.value.Code())) in q.Serialized()
  {
    FieldEmittedIff(q, 0);
    FieldEmittedIff(q, 1);
    FieldEmittedIff(q, 2);
    FieldEmittedIff(q, 3);
    FieldEmittedIff(q, 4);
    FieldEmittedIff(q, 5);
  }

  /** Without a result id, the output holds start, destination and one pair per set optional field. */
  lemma SerializedLength(q: CalcRouteRequestParam)
    requires q.routeresultid.None?
    ensures |q.Serialized()| == 2
      + (if q.via.Some? then 1 else 0) + (if q.cartype.Some? then 1 else 0)
      + (if q.date.Some? then 1 else 0) + (if q.resulttype.Some? then 1 else 0)
      + (if q.vehicletype.Some? then 1 else 0) + (if q.tollroad.Some? then 1 else 0)
  {
    var fields := q.OptionalFields();
    var head := [("start", q.start), ("destination", q.destination)];
    PrefixedSix(head, fields);
  }

  /**
   * Without a result id, the optional pairs appear in the fixed order via,
   * cartype, date, resulttype, vehicletype, tollroad.
   */
  lemma OptionalKeysInOrder(q: CalcRouteRequestParam, i: nat, j: nat)
    requires q.routeresultid.None? && 2 <= i < j < |q.Serialized()|
    ensures exists a, b ::
      && 0 <= a < b < |OptionalKeys|
      && q.Serialized()[i].0 == OptionalKeys[a]
      && q.Serialized()[j].0 == OptionalKeys[b]
  {
    var fields, s := q.OptionalFields(), q.Serialized();
    assert s == [("start", q.start), ("destination", q.destination)] + Present(fields);
    assert s[i] == Present(fields)[i - 2] && s[j] == Present(fields)[j - 2];
    PresentOrder(fields, i - 2, j - 2);
  }

  /**
   * Every key of an emitted pair is one of the nine keys `ToParams` knows: the
   * result id alone, or start, destination and then only optional keys.
   */
  lemma {:induction false} SerializedKeysKnown(q: CalcRouteRequestParam, i: nat)
    requires i < |q.Serialized()|
    ensures q.routeresultid.Some? ==> q.Serialized()[i].0 == "routeresultid"
    ensures q.routeresultid.None? && i == 0 ==> q.Serialized()[i].0 == "start"
    ensures q.routeresultid.None? && i == 1 ==> q.Serialized()[i].0 == "destination"
    ensures q.routeresultid.None? && i >= 2 ==>
      exists a :: 0 <= a < |OptionalKeys| && q.Serialized()[i].0 == OptionalKeys[a]
  {
    var s := q.Serialized();
    if q.routeresultid.None? && i >= 2 {
      var fields := q.OptionalFields();
      assert s == [("start", q.start), ("destination", q.destination)] + Present(fields);
      var pair := Present(fields)[i - 2];
      assert pair == s[i] && pair in Present(fields);
      PresentMember(fields, pair.0, pair.1);
      var n :| 0 <= n < |fields| && fields[n] == (pair.0, Some(pair.1));
      assert s[i].0 == OptionalKeys[n];
    }
  }

  /** No key is emitted twice, in either mode. */
  lemma SerializedKeysDistinct(q: CalcRouteRequestParam)
    ensures DistinctKeys(q.Serialized())
  {
    var s := q.Serialized();
    OptionalKeysDistinct();
    forall i, j | 0 <= i < j < |s|
      ensures s[i].0 != s[j].0
    {
      if q.routeresultid.None? {
        if i >= 2 {
          OptionalKeysInOrder(q, i, j);
        } else {
          SerializedKeysKnown(q, i);
          SerializedKeysKnown(q, j);
        }
      }
    }
  }

  /** None of the declared fields that `ToParams` does not read ever names an emitted pair. */
  lemma UnreadFieldsNeverEmitted(q: CalcRouteRequestParam)
    ensures forall i :: 0 <= i < |q.Serialized()| ==> q.Serialized()[i].0 !in UnreadFieldNames
  {
    forall i | 0 <= i < |q.Serialized()|
      ensures q.Serialized()[i].0 !in UnreadFieldNames
    {
      SerializedKeysKnown(q, i);
    }
  }

  /** The output depends on the nine fields `ToParams` reads and on nothing else. */
  lemma SerializedReadsNineFields(a: CalcRouteRequestParam, b: CalcRouteRequestParam)
    requires a.routeresultid == b.routeresultid && a.start == b.start && a.destination == b.destination
    requires a.via == b.via && a.cartype == b.cartype && a.date == b.date
    requires a.resulttype == b.resulttype && a.vehicletype == b.vehicletype && a.tollroad == b.tollroad
    ensures a.Serialized() == b.Serialized()
  {
  }
}
