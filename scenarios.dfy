/**
 * Concrete uses of the request builder: the two unit tests of the source, the
 * request the `route` subcommand builds, and the two construction modes. Each
 * allocates a builder, calls its setters and returns what `ToParams` gives.
 */
module Scenarios {
  import opened Wrappers
  import Codes
  import opened Request

  /** Enum values go on the wire as their codes: On is "1", Off is "0", BigSpecial is "11". */
  lemma EnumWireTexts()
    ensures CodeText(Codes.OnOff.On.Code()) == "1" && CodeText(Codes.OnOff.Off.Code()) == "0"
    ensures CodeText(Codes.VehicleType.BigCargo.Code()) == "2"
    ensures CodeText(Codes.VehicleType.BigSpecial.Code()) == "11"
    ensures CodeText(Codes.Priority.WalkerLessSteps.Code()) == "103"
  {
  }

  /** A default builder with only `tollroad` set emits empty endpoints and the switch's code. */
  method OnOffShouldBeNumber(flag: Codes.OnOff) returns (p: seq<Pair>)
    ensures p == [("start", ""), ("destination", ""), ("tollroad", if flag == Codes.On then "1" else "0")]
  {
    var q := new CalcRouteRequestParam.Default();
    q.tollroad := Some(flag);
    p := q.ToParams();
    SerializedFresh(q);
  }

  /** A default builder with only `date` set emits the date text unchanged. */
  method DateShouldBeDate() returns (p: seq<Pair>)
    ensures p == [("start", ""), ("destination", ""), ("date", "20221204_100000")]
  {
    var q := new CalcRouteRequestParam.Default();
    q.date := Some("20221204_100000");
    p := q.ToParams();
    SerializedFresh(q);
  }

  /** A builder made by `New` and left alone emits just its two endpoints. */
  method FreshBuilder(start: string, destination: string) returns (p: seq<Pair>)
    ensures p == [("start", start), ("destination", destination)]
  {
    var q := new CalcRouteRequestParam.New(start, destination);
    p := q.ToParams();
    SerializedFresh(q);
  }

  /**
   * The request of the `route` subcommand: the endpoints, the optional via
   * point and departure date, and always vehicle type BigCargo (code 2).
   */
  method RouteRequest(start: string, destination: string, via: Option<string>, date: Option<string>)
    returns (p: seq<Pair>)
    ensures p == [("start", start), ("destination", destination)]
      + (if via.Some? then [("via", via.value)] else [])
      + (if date.Some? then [("date", date.value)] else [])
      + [("vehicletype", "2")]
  {
    var q := new CalcRouteRequestParam.New(start, destination);
    var _ := q.VehicleType(Codes.BigCargo);
    if date.Some? {
      var _ := q.Date(date.value);
    }
    if via.Some? {
      var _ := q.Via(via.value);
    }
    p := q.ToParams();
    SerializedFresh(q);
  }

  /** A result lookup emits only the result id, even after chained setters. */
  method ResultLookup(id: string, via: string, date: string, car: Codes.CarType) returns (p: seq<Pair>)
    ensures p == [("routeresultid", id)]
  {
    var q := new CalcRouteRequestParam.NewWithResultId(id);
    var r := q.Via(via);
    r := r.Date(date);
    r := r.CarType(car);
    r := r.ResultType(Codes.On);
    p := q.ToParams();
  }
}
