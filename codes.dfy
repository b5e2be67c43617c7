/**
 * The `#[repr]` enums of the request parameters. Each variant carries the
 * discriminant the source assigns it (`Code`), which is what gets serialised;
 * `FromCode` is the derived `Deserialize_repr` direction, which accepts exactly
 * the declared discriminants.
 */
module Codes {
  import opened Wrappers

  /** Route search priority, `#[repr(u16)]`. */
  datatype Priority =
    | Normal | DistanceFirst | StraightFirst | SimpleWalker | RoadWidthFirst
    | NormalWalker | WalkerDistanceFirst | WalkerRoofFirst | WalkerLessSteps
  {
    function Code(): (c: nat)
      ensures c < 0x1_0000
    {
      match this
      case Normal => 0
      case DistanceFirst => 1
      case StraightFirst => 2
      case SimpleWalker => 3
      case RoadWidthFirst => 4
      case NormalWalker => 100
      case WalkerDistanceFirst => 101
      case WalkerRoofFirst => 102
      case WalkerLessSteps => 103
    }

    static function FromCode(n: int): (r: Option<Priority>)
      ensures r.Some? <==> (0 <= n <= 4 || 100 <= n <= 103)
      ensures r.Some? ==> r.value.Code() == n
    {
      match n
      case 0 => Some(Priority.Normal)
      case 1 => Some(Priority.DistanceFirst)
      case 2 => Some(Priority.StraightFirst)
      case 3 => Some(Priority.SimpleWalker)
      case 4 => Some(Priority.RoadWidthFirst)
      case 100 => Some(Priority.NormalWalker)
      case 101 => Some(Priority.WalkerDistanceFirst)
      case 102 => Some(Priority.WalkerRoofFirst)
      case 103 => Some(Priority.WalkerLessSteps)
      case _ => Option.None
    }
  }

  /** Toll-road preference, `#[repr(u8)]`. */
  datatype Tollway = Normal | Priority | Avoid | Never
  {
    function Code(): (c: nat)
      ensures c < 0x100
    {
      match this
      case Normal => 0
      case Priority => 1
      case Avoid => 2
      case Never => 3
    }

    static function FromCode(n: int): (r: Option<Tollway>)
      ensures r.Some? <==> 0 <= n <= 3
      ensures r.Some? ==> r.value.Code() == n
    {
      match n
      case 0 => Some(Tollway.Normal)
      case 1 => Some(Tollway.Priority)
      case 2 => Some(Tollway.Avoid)
      case 3 => Some(Tollway.Never)
      case _ => Option.None
    }
  }

  /** Ferry preference, `#[repr(u8)]`; the source declares it with the same variants and codes as `Tollway`. */
  datatype Ferry = Normal | Priority | Avoid | Never
  {
    function Code(): (c: nat)
      ensures c < 0x100
    {
      match this
      case Normal => 0
      case Priority => 1
      case Avoid => 2
      case Never => 3
    }

    static function FromCode(n: int): (r: Option<Ferry>)
      ensures r.Some? <==> 0 <= n <= 3
      ensures r.Some? ==> r.value.Code() == n
    {
      match n
      case 0 => Some(Ferry.Normal)
      case 1 => Some(Ferry.Priority)
      case 2 => Some(Ferry.Avoid)
      case 3 => Some(Ferry.Never)
      case _ => Option.None
    }
  }

  /** Vehicle class used for the toll price, `#[repr(u8)]`. */
  datatype CarType = Small | Normal | Middle | Big | SuperBig
  {
    function Code(): (c: nat)
      ensures c < 0x100
    {
      match this
      case Small => 0
      case Normal => 1
      case Middle => 2
      case Big => 3
      case SuperBig => 4
    }

    static function FromCode(n: int): (r: Option<CarType>)
      ensures r.Some? <==> 0 <= n <= 4
      ensures r.Some? ==> r.value.Code() == n
    {
      match n
      case 0 => Some(CarType.Small)
      case 1 => Some(CarType.Normal)
      case 2 => Some(CarType.Middle)
      case 3 => Some(CarType.Big)
      case 4 => Some(CarType.SuperBig)
      case _ => Option.None
    }
  }

  /** Vehicle class used for road regulations, `#[repr(u8)]`; note the gap before 11. */
  datatype VehicleType = None | Big | BigCargo | BigSpecial
  {
    function Code(): (c: nat)
      ensures c < 0x100
    {
      match this
      case None => 0
      case Big => 1
      case BigCargo => 2
      case BigSpecial => 11
    }

    static function FromCode(n: int): (r: Option<VehicleType>)
      ensures r.Some? <==> (0 <= n <= 2 || n == 11)
      ensures r.Some? ==> r.value.Code() == n
    {
      match n
      case 0 => Some(VehicleType.None)
      case 1 => Some(VehicleType.Big)
      case 2 => Some(VehicleType.BigCargo)
      case 11 => Some(VehicleType.BigSpecial)
      case _ => Option.None
    }
  }

  /** A switch, `#[repr(u8)]`: Off is 0 and On is 1. */
  datatype OnOff = Off | On
  {
    function Code(): (c: nat)
      ensures c < 0x100
    {
      match this
      case Off => 0
      case On => 1
    }

    static function FromCode(n: int): (r: Option<OnOff>)
      ensures r.Some? <==> 0 <= n <= 1
      ensures r.Some? ==> r.value.Code() == n
    {
      match n
      case 0 => Some(OnOff.Off)
      case 1 => Some(OnOff.On)
      case _ => Option.None
    }
  }

  /** Output format, serialised by name ("json" or "xml") rather than by code. */
  datatype OutputFormat = Json | Xml

  /*
   * Each enum's codes identify its variants: decoding a variant's code gives
   * the variant back, so no two variants share a code.
   */

  lemma PriorityCodeRoundTrip(p: Priority)
    ensures Priority.FromCode(p.Code()) == Some(p)
    ensures forall q: Priority :: q.Code() == p.Code() ==> q == p
  {
  }

  lemma TollwayCodeRoundTrip(t: Tollway)
    ensures Tollway.FromCode(t.Code()) == Some(t)
    ensures forall u: Tollway :: u.Code() == t.Code() ==> u == t
  {
  }

  lemma FerryCodeRoundTrip(f: Ferry)
    ensures Ferry.FromCode(f.Code()) == Some(f)
    ensures forall g: Ferry :: g.Code() == f.Code() ==> g == f
  {
  }

  lemma CarTypeCodeRoundTrip(c: CarType)
    ensures CarType.FromCode(c.Code()) == Some(c)
    ensures forall d: CarType :: d.Code() == c.Code() ==> d == c
  {
  }

  lemma VehicleTypeCodeRoundTrip(v: VehicleType)
    ensures VehicleType.FromCode(v.Code()) == Some(v)
    ensures forall w: VehicleType :: w.Code() == v.Code() ==> w == v
  {
  }

  lemma OnOffCodeRoundTrip(o: OnOff)
    ensures OnOff.FromCode(o.Code()) == Some(o)
    ensures forall p: OnOff :: p.Code() == o.Code() ==> p == o
  {
  }
}
