/** The string enumerations of `src/enums.py`: order stages, payment states, service slugs, Trello columns. */
module Enums {
  import opened Wrappers

  /** Lifecycle stage of an order; `Value()` is the name stored in the `order_statuses` table. */
  datatype OrderStatusName =
    | New | CourierPickup | PickedUp | Washing | Drying
    | Ironing | Packing | CourierDelivery | Delivered | Canceled
  {
    function Value(): string {
      match this
      case New => "new"
      case CourierPickup => "courier_pickup"
      case PickedUp => "picked_up"
      case Washing => "washing"
      case Drying => "drying"
      case Ironing => "ironing"
      case Packing => "packing"
      case CourierDelivery => "courier_delivery"
      case Delivered => "delivered"
      case Canceled => "canceled"
    }

    /** The Python member name, `status.name`. */
    function MemberName(): string {
      match this
      case New => "NEW"
      case CourierPickup => "COURIER_PICKUP"
      case PickedUp => "PICKED_UP"
      case Washing => "WASHING"
      case Drying => "DRYING"
      case Ironing => "IRONING"
      case Packing => "PACKING"
      case CourierDelivery => "COURIER_DELIVERY"
      case Delivered => "DELIVERED"
      case Canceled => "CANCELED"
    }
  }

  const AllStatuses: seq<OrderStatusName> :=
    [New, CourierPickup, PickedUp, Washing, Drying, Ironing, Packing, CourierDelivery, Delivered, Canceled]

  /** `OrderStatusName(s)`: the member whose value is `s`, or None where Python raises ValueError. */
  function ParseStatus(s: string): (r: Option<OrderStatusName>)
    ensures r.Some? ==> r.value.Value() == s
  {
    if s == "new" then Some(New)
    else if s == "courier_pickup" then Some(CourierPickup)
    else if s == "picked_up" then Some(PickedUp)
    else if s == "washing" then Some(Washing)
    else if s == "drying" then Some(Drying)
    else if s == "ironing" then Some(Ironing)
    else if s == "packing" then Some(Packing)
    else if s == "courier_delivery" then Some(CourierDelivery)
    else if s == "delivered" then Some(Delivered)
    else if s == "canceled" then Some(Canceled)
    else None
  }

  /** Parsing the value of a member gives the member back. */
  lemma StatusReadsBack(x: OrderStatusName)
    ensures ParseStatus(x.Value()) == Some(x)
  {
    match x
    case New => case CourierPickup => case PickedUp => case Washing => case Drying =>
    case Ironing => case Packing => case CourierDelivery => case Delivered => case Canceled =>
  }

  /** Exactly ten stages, listed once each, with pairwise distinct values; parsing inverts `Value`. */
  lemma StatusEnumeration()
    ensures |AllStatuses| == 10
    ensures forall x: OrderStatusName :: x in AllStatuses
    ensures forall i, j :: 0 <= i < j < |AllStatuses| ==> AllStatuses[i].Value() != AllStatuses[j].Value()
    ensures forall x: OrderStatusName :: ParseStatus(x.Value()) == Some(x)
    ensures forall s :: ParseStatus(s).None? <==> (forall x: OrderStatusName :: x.Value() != s)
  {
    forall x: OrderStatusName ensures x in AllStatuses && ParseStatus(x.Value()) == Some(x) {
      StatusReadsBack(x);
      match x
      case New => case CourierPickup => case PickedUp => case Washing => case Drying =>
      case Ironing => case Packing => case CourierDelivery => case Delivered => case Canceled =>
    }
    forall i, j | 0 <= i < j < |AllStatuses| ensures AllStatuses[i].Value() != AllStatuses[j].Value() {
      StatusReadsBack(AllStatuses[i]);
      StatusReadsBack(AllStatuses[j]);
    }
    forall s | ParseStatus(s).None? ensures forall x: OrderStatusName :: x.Value() != s {
      forall x: OrderStatusName ensures x.Value() != s {
        StatusReadsBack(x);
      }
    }
  }

  /** Payment state of an order. */
  datatype PaymentStatus = Pending | WaitingForCapture | Succeeded | PaymentCanceled
  {
    function Value(): string {
      match this
      case Pending => "pending"
      case WaitingForCapture => "waiting_for_capture"
      case Succeeded => "succeeded"
      case PaymentCanceled => "canceled"
    }
  }

  const AllPayments: seq<PaymentStatus> := [Pending, WaitingForCapture, Succeeded, PaymentCanceled]

  function ParsePayment(s: string): (r: Option<PaymentStatus>)
    ensures r.Some? ==> r.value.Value() == s
  {
    if s == "pending" then Some(Pending)
    else if s == "waiting_for_capture" then Some(WaitingForCapture)
    else if s == "succeeded" then Some(Succeeded)
    else if s == "canceled" then Some(PaymentCanceled)
    else None
  }

  /** Parsing the value of a member gives the member back. */
  lemma PaymentReadsBack(x: PaymentStatus)
    ensures ParsePayment(x.Value()) == Some(x)
  {
    match x
    case Pending => case WaitingForCapture => case Succeeded => case PaymentCanceled =>
  }

  /** Exactly the four payment states, with distinct values that parse back. */
  lemma PaymentEnumeration()
    ensures |AllPayments| == 4
    ensures forall x: PaymentStatus :: x in AllPayments
    ensures forall x: PaymentStatus :: ParsePayment(x.Value()) == Some(x)
    ensures forall s :: ParsePayment(s).None? <==> (forall x: PaymentStatus :: x.Value() != s)
  {
    forall x: PaymentStatus ensures x in AllPayments && ParsePayment(x.Value()) == Some(x) {
      PaymentReadsBack(x);
      match x
      case Pending => case WaitingForCapture => case Succeeded => case PaymentCanceled =>
    }
    forall s | ParsePayment(s).None? ensures forall x: PaymentStatus :: x.Value() != s {
      forall x: PaymentStatus ensures x.Value() != s {
        PaymentReadsBack(x);
      }
    }
  }

  /** A priced service; `Value()` is the slug, also the key `create_order` reads from its `services` dict. */
  datatype ServiceSlug = Base | IroningSvc | Conditioner | VacuumPack | ExactTime | Uv | WashBag
  {
    function Value(): string {
      match this
      case Base => "base"
      case IroningSvc => "ironing"
      case Conditioner => "conditioner"
      case VacuumPack => "vacuum_pack"
      case ExactTime => "exact_time"
      case Uv => "uv"
      case WashBag => "wash_bag"
    }
  }

  const AllSlugs: seq<ServiceSlug> := [Base, IroningSvc, Conditioner, VacuumPack, ExactTime, Uv, WashBag]

  function ParseSlug(s: string): (r: Option<ServiceSlug>)
    ensures r.Some? ==> r.value.Value() == s
  {
    if s == "base" then Some(Base)
    else if s == "ironing" then Some(IroningSvc)
    else if s == "conditioner" then Some(Conditioner)
    else if s == "vacuum_pack" then Some(VacuumPack)
    else if s == "exact_time" then Some(ExactTime)
    else if s == "uv" then Some(Uv)
    else if s == "wash_bag" then Some(WashBag)
    else None
  }

  /** Parsing the value of a member gives the member back. */
  lemma SlugReadsBack(x: ServiceSlug)
    ensures ParseSlug(x.Value()) == Some(x)
  {
    match x
    case Base => case IroningSvc => case Conditioner => case VacuumPack => case ExactTime => case Uv => case WashBag =>
  }

  /** Seven slugs including `base`, distinct values, and parsing inverts `Value`. */
  lemma SlugEnumeration()
    ensures |AllSlugs| == 7 && Base in AllSlugs
    ensures forall x: ServiceSlug :: x in AllSlugs
    ensures forall i, j :: 0 <= i < j < |AllSlugs| ==> AllSlugs[i].Value() != AllSlugs[j].Value()
    ensures forall x: ServiceSlug :: ParseSlug(x.Value()) == Some(x)
    ensures forall s :: ParseSlug(s).None? <==> (forall x: ServiceSlug :: x.Value() != s)
  {
    forall x: ServiceSlug ensures x in AllSlugs && ParseSlug(x.Value()) == Some(x) {
      SlugReadsBack(x);
      match x
      case Base => case IroningSvc => case Conditioner => case VacuumPack => case ExactTime => case Uv => case WashBag =>
    }
    forall i, j | 0 <= i < j < |AllSlugs| ensures AllSlugs[i].Value() != AllSlugs[j].Value() {
      SlugReadsBack(AllSlugs[i]);
      SlugReadsBack(AllSlugs[j]);
    }
    forall s | ParseSlug(s).None? ensures forall x: ServiceSlug :: x.Value() != s {
      forall x: ServiceSlug ensures x.Value() != s {
        SlugReadsBack(x);
      }
    }
  }

  /** A Trello list; its members carry the member names of `OrderStatusName` (see `MemberName`). */
  datatype TrelloColumn =
    | ColNew | ColCourierPickup | ColPickedUp | ColWashing | ColDrying
    | ColIroning | ColPacking | ColCourierDelivery | ColDelivered | ColCanceled
  {
    /** The Trello list id, the member's value. */
    function Id(): string {
      match this
      case ColNew => "6937fbb94729e78b4259f9ab"
      case ColCourierPickup => "6937fbbecd4f38c1355942e6"
      case ColPickedUp => "693ae340f54ee66d6e8e8590"
      case ColWashing => "6937fbac2dcd2ca31a7e3f0a"
      case ColDrying => "693ae31a19f29ad53f5e635a"
      case ColIroning => "693ae3132e84c05d441a16aa"
      case ColPacking => "693ae330c43f8bb0a4d5b957"
      case ColCourierDelivery => "693bf73ab7d5554458197c2d"
      case ColDelivered => "6937fbc6b8b81dd552509545"
      case ColCanceled => "6937fbcfaba20bba23941dd2"
    }

    function MemberName(): string {
      match this
      case ColNew => "NEW"
      case ColCourierPickup => "COURIER_PICKUP"
      case ColPickedUp => "PICKED_UP"
      case ColWashing => "WASHING"
      case ColDrying => "DRYING"
      case ColIroning => "IRONING"
      case ColPacking => "PACKING"
      case ColCourierDelivery => "COURIER_DELIVERY"
      case ColDelivered => "DELIVERED"
      case ColCanceled => "CANCELED"
    }
  }

  /** `TrelloColumns[name]`: the column with that member name, None where Python raises KeyError. */
  function ColumnByName(name: string): (r: Option<TrelloColumn>)
    ensures r.Some? ==> r.value.MemberName() == name
  {
    if name == "NEW" then Some(ColNew)
    else if name == "COURIER_PICKUP" then Some(ColCourierPickup)
    else if name == "PICKED_UP" then Some(ColPickedUp)
    else if name == "WASHING" then Some(ColWashing)
    else if name == "DRYING" then Some(ColDrying)
    else if name == "IRONING" then Some(ColIroning)
    else if name == "PACKING" then Some(ColPacking)
    else if name == "COURIER_DELIVERY" then Some(ColCourierDelivery)
    else if name == "DELIVERED" then Some(ColDelivered)
    else if name == "CANCELED" then Some(ColCanceled)
    else None
  }

  /** The status-to-column map, `TrelloColumns[status.name]`. */
  function ColumnFor(status: OrderStatusName): Option<TrelloColumn> {
    ColumnByName(status.MemberName())
  }

  /** Every stage has a column of the same member name, so the map never raises. */
  lemma ColumnMapTotal(status: OrderStatusName)
    ensures ColumnFor(status).Some?
    ensures ColumnFor(status).value.MemberName() == status.MemberName()
  {
  }

  /** The column each stage maps to, member by member. */
  function ColumnOf(status: OrderStatusName): TrelloColumn {
    match status
    case New => ColNew
    case CourierPickup => ColCourierPickup
    case PickedUp => ColPickedUp
    case Washing => ColWashing
    case Drying => ColDrying
    case Ironing => ColIroning
    case Packing => ColPacking
    case CourierDelivery => ColCourierDelivery
    case Delivered => ColDelivered
    case Canceled => ColCanceled
  }

  /** The lookup by member name finds the column of the same stage, so `ColumnFor` is `ColumnOf`. */
  lemma ColumnForIsColumnOf(status: OrderStatusName)
    ensures ColumnFor(status) == Some(ColumnOf(status))
  {
    match status
    case New => case CourierPickup => case PickedUp => case Washing => case Drying =>
    case Ironing => case Packing => case CourierDelivery => case Delivered => case Canceled =>
  }

  /** Which column an id belongs to, told by its characters at 3 and 8. */
  function ColumnOfId(id: string): Option<TrelloColumn>
    requires |id| > 8
  {
    match (id[3], id[8])
    case ('7', '4') => Some(ColNew)
    case ('7', 'c') => Some(ColCourierPickup)
    case ('a', 'f') => Some(ColPickedUp)
    case ('7', '2') => Some(ColWashing)
    case ('a', '1') => Some(ColDrying)
    case ('a', '2') => Some(ColIroning)
    case ('a', 'c') => Some(ColPacking)
    case ('b', 'b') => Some(ColCourierDelivery)
    case ('7', 'b') => Some(ColDelivered)
    case ('7', 'a') => Some(ColCanceled)
    case _ => None
  }

  /** Reading an id back gives its column, so no two columns share an id. */
  lemma ColumnIdReadsBack(c: TrelloColumn)
    ensures |c.Id()| == 24 && ColumnOfId(c.Id()) == Some(c)
  {
    match c
    case ColNew => case ColCourierPickup => case ColPickedUp => case ColWashing => case ColDrying =>
    case ColIroning => case ColPacking => case ColCourierDelivery => case ColDelivered => case ColCanceled =>
  }

  /** Different stages land in different columns, and different columns have different ids. */
  lemma ColumnMapInjective(a: OrderStatusName, b: OrderStatusName)
    requires a != b
    ensures ColumnOf(a) != ColumnOf(b)
    ensures ColumnOf(a).Id() != ColumnOf(b).Id()
  {
    ColumnIdReadsBack(ColumnOf(a));
    ColumnIdReadsBack(ColumnOf(b));
  }
}
