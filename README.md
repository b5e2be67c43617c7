# Route request parameters of mapfanrs, in Dafny

mapfanrs is a command-line client for a route-calculation web API. This project
models its request-parameter builder, `CalcRouteRequestParam`, and the numeric
codes of the enums it serialises. It proves what the builder promises about the
query-string pairs it produces.

- `CalcRouteRequestParam` is a class with all 30 fields of the Rust struct.
- The derived `Default::default()`, `new` and `new_with_result_id` become three
  named constructors.
- The setters `via`, `car_type`, `vehicle_type`, `result_type` and `date` change
  one field in place and return the same object, so calls can be chained. Each
  setter's `modifies` frame names only its own field, so the verifier checks
  that no other field changes.
- `to_params` becomes `ToParams`. Like the source, it appends pairs to a local
  sequence one after another. Its contract ties the result to `Serialized`.
  `Serialized` is a declarative specification: in lookup mode, the single
  result-id pair; otherwise start, destination, then `Present` of the six
  optional fields it reads. `Present` keeps each field that is set and keeps the
  fields in their fixed order.
- Each request-side `#[repr]` enum (src/main.rs:299-363) is a datatype. Its
  `Code` gives the discriminant, and its `FromCode` is the derived
  `Deserialize_repr` direction, which accepts exactly the declared
  discriminants. On the wire, an enum value is the decimal text of its code
  (`Decimal.Render`). `Decimal.Value` is its inverse.

Modules: `Wrappers` (Option), `Decimal` (decimal text of codes), `Codes`
(the request enums), `Request` (the builder, its specification and its
properties), `Scenarios` (the source's unit tests and the request built by the
`route` subcommand, as methods that allocate a builder and call `ToParams`).

Points where the behaviour of `to_params` is narrower than the struct suggests:
- `to_params` (src/main.rs:120-165) reads only six of the optional fields that
  the struct declares at src/main.rs:169-289.
- It emits them in the order via, cartype, date, resulttype, vehicletype,
  tollroad. The struct declares them in a different order.
- The builder does not enforce the field comment at src/main.rs:283, which says
  that either start and destination or routeresultid must be set. The unit tests
  at src/main.rs:764-806 build a default that sets neither. Such a builder takes
  the start/destination branch and emits empty endpoints.

## Model

| member | source | states |
|---|---|---|
| `Decimal.Render` | src/main.rs:133-162 | the wire text of a code is non-empty and all digits; it begins with '0' exactly when the code is 0, and 0 is written "0" |
| `Decimal.ValueOfRender` | src/main.rs:133-162 | reading back the decimal text of a code gives the code again |
| `Decimal.RenderInjective` | src/main.rs:331-363 | two codes get the same wire text if and only if they are equal |
| `Decimal.RenderOfValue` | src/main.rs:133-162 | every canonical digit string (no leading zero) is the wire text of exactly the number it denotes |
| `Codes.Priority.Code` | src/main.rs:299-311 | every Priority discriminant fits the `repr(u16)` width |
| `Codes.Priority.FromCode` | src/main.rs:299-311 | decoding accepts exactly 0-4 and 100-103, and maps each to the variant with that code |
| `Codes.PriorityCodeRoundTrip` | src/main.rs:299-311 | decoding a variant's code gives the variant back, so no two variants share a code |
| `Codes.Tollway.Code` | src/main.rs:313-320 | every Tollway discriminant fits `repr(u8)` |
| `Codes.Tollway.FromCode` | src/main.rs:313-320 | decoding accepts exactly 0-3, mapping each to the variant with that code |
| `Codes.TollwayCodeRoundTrip` | src/main.rs:313-320 | code round trip; codes are distinct per variant |
| `Codes.Ferry.Code` | src/main.rs:322-329 | every Ferry discriminant fits `repr(u8)` |
| `Codes.Ferry.FromCode` | src/main.rs:322-329 | decoding accepts exactly 0-3, mapping each to the variant with that code |
| `Codes.FerryCodeRoundTrip` | src/main.rs:322-329 | code round trip; codes are distinct per variant |
| `Codes.CarType.Code` | src/main.rs:331-344 | every CarType discriminant fits `repr(u8)` |
| `Codes.CarType.FromCode` | src/main.rs:331-344 | decoding accepts exactly 0-4, mapping each to the variant with that code |
| `Codes.CarTypeCodeRoundTrip` | src/main.rs:331-344 | code round trip; codes are distinct per variant |
| `Codes.VehicleType.Code` | src/main.rs:346-356 | every VehicleType discriminant fits `repr(u8)` |
| `Codes.VehicleType.FromCode` | src/main.rs:346-356 | decoding accepts exactly 0, 1, 2 and 11 (not 3-10), mapping each to the variant with that code |
| `Codes.VehicleTypeCodeRoundTrip` | src/main.rs:346-356 | code round trip; codes are distinct per variant |
| `Codes.OnOff.Code` | src/main.rs:358-363 | the OnOff discriminant fits `repr(u8)` |
| `Codes.OnOff.FromCode` | src/main.rs:358-363 | decoding accepts exactly 0 and 1, mapping each to the variant with that code |
| `Codes.OnOffCodeRoundTrip` | src/main.rs:358-363 | code round trip; Off and On have distinct codes |
| `Request.CalcRouteRequestParam.Default` | src/main.rs:168-289 | the derived default has empty start and destination, and every optional field, the result id included, is unset |
| `Request.CalcRouteRequestParam.New` | src/main.rs:79-85 | sets start and destination as given; every optional field, the result id included, is unset, so the builder is in fresh mode |
| `Request.CalcRouteRequestParam.NewWithResultId` | src/main.rs:87-92 | sets only the result id; the endpoints are empty and every other option is unset |
| `Request.CalcRouteRequestParam.Via` | src/main.rs:94-97 | sets `via` to the given text and may change no other field; returns the same object |
| `Request.CalcRouteRequestParam.CarType` | src/main.rs:99-102 | sets `cartype` and may change no other field; returns the same object |
| `Request.CalcRouteRequestParam.VehicleType` | src/main.rs:104-107 | sets `vehicletype` and may change no other field; returns the same object |
| `Request.CalcRouteRequestParam.ResultType` | src/main.rs:109-112 | sets `resulttype` and may change no other field; returns the same object |
| `Request.CalcRouteRequestParam.Date` | src/main.rs:114-118 | stores any date text unchecked and may change no other field; returns the same object |
| `Request.CalcRouteRequestParam.OptionalFields` | src/main.rs:127-162 | the six fields `to_params` consults have the keys via, cartype, date, resulttype, vehicletype, tollroad, in that order |
| `Request.CalcRouteRequestParam.ToParams` | src/main.rs:120-165 | the appended pairs are exactly the specification `Serialized` of the current fields |
| `Request.PresentMember` | src/main.rs:127-162 | a pair is emitted if and only if its field is in the list and set to that value |
| `Request.PresentOrder` | src/main.rs:127-162 | emitted pairs keep the relative order of the fields they come from |
| `Request.ResultIdSuppressesOthers` | src/main.rs:122-123 | with a result id set, the output is exactly `[("routeresultid", id)]`, whatever else is set |
| `Request.FreshModeStartsWithEndpoints` | src/main.rs:124-126 | without a result id, the output starts with `("start", start)` and then `("destination", destination)`, even when they are empty |
| `Request.FieldEmittedIff` | src/main.rs:127-162 | without a result id, the key of the m-th optional field is present if and only if that field is set, and then it carries the field's wire value |
| `Request.EachSetFieldEmitted` | src/main.rs:127-162 | for each of via, cartype, date, resulttype, vehicletype and tollroad, its key is present if and only if it is set; no placeholder for unset fields; via and date pass through unchanged; enums are written as the decimal text of their code |
| `Request.SerializedLength` | src/main.rs:124-162 | without a result id, the output length is 2 plus the number of those six fields that are set |
| `Request.OptionalKeysInOrder` | src/main.rs:127-162 | any two emitted optional pairs follow the fixed order via, cartype, date, resulttype, vehicletype, tollroad |
| `Request.SerializedKeysKnown` | src/main.rs:120-165 | every emitted key is "routeresultid" (lookup mode), or "start", then "destination", then only optional keys |
| `Request.SerializedKeysDistinct` | src/main.rs:120-165 | no key is emitted twice, in either mode |
| `Request.UnreadFieldsNeverEmitted` | src/main.rs:169-289 | no field that `to_params` does not read (startangle, priority, tollway, ferry, smartic, etc, tolltarget, the speeds, the dimensions, danger, daytime, generalroad, regulations, travel, fmt) names an emitted pair |
| `Request.SerializedReadsNineFields` | src/main.rs:120-165 | two builders that agree on the nine fields `to_params` reads produce the same output, whatever their other fields hold |
| `Scenarios.EnumWireTexts` | src/main.rs:299-363 | On is written "1", Off "0", BigCargo "2", BigSpecial "11", WalkerLessSteps "103" |
| `Scenarios.OnOffShouldBeNumber` | src/main.rs:764-791 | a default builder with only tollroad set gives empty start and destination and then tollroad "1" for On or "0" for Off |
| `Scenarios.DateShouldBeDate` | src/main.rs:792-806 | a default builder with only the date set emits the date text unchanged after the empty endpoints |
| `Scenarios.FreshBuilder` | src/main.rs:79-85 | a builder from `new` with no setter called emits exactly its two endpoints |
| `Scenarios.RouteRequest` | src/main.rs:729-738 | the `route` subcommand's request is start, destination, the via point if given, the date if given, and vehicletype "2" |
| `Scenarios.ResultLookup` | src/main.rs:87-92 | a builder from `new_with_result_id` emits only the result id, even after chained setters |

## Left out

- `handle_route` (src/main.rs:701-758), except for how it builds the request: the API-key lookup in the environment, the HTTP GET, the status check, and printing or writing the result are I/O.
- Command-line parsing (src/main.rs:10-52) and `RequestHeader` (src/main.rs:54-70): command-line and environment glue.
- `Position` and its `f32` parsing and `format!` into "lon,lat" (src/main.rs:72-85, 704-728): this is floating-point text conversion. `New` takes the two endpoint strings as already formatted.
- The `f32` speed fields are kept as their 32-bit patterns. `to_params` never reads them.
- The response schema `RouteResult` and its nested records and enums (src/main.rs:365-699): parsing and re-serialising them is serde derive logic that cannot be seen here, over `f32`/`f64` fields. The packed `info` fields are never decoded in the source either.
- The serde `Serialize`/`Deserialize` derives of the whole request struct (with `skip_serializing_if`): `to_params` does not use them. The request-side `Deserialize_repr` of each enum is modelled as `FromCode`.
- `OutputFormat` is modelled only as a datatype, because `to_params` never reads it.
- `serde_json::to_string(...).unwrap()` on the enums is modelled as the decimal text of the discriminant. That call cannot fail on these values.
