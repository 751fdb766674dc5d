/** The constant price table and the order total of `src/services/pricing.py`. */
module Pricing {
  import opened Wrappers
  import opened Enums
  import opened Models

  /** `Pricing.SERVICE_PRICES`, in roubles. */
  const ServicePrices: map<ServiceSlug, int> := map[
    Base := 990,
    IroningSvc := 990,
    Conditioner := 200,
    VacuumPack := 400,
    ExactTime := 300,
    Uv := 300,
    WashBag := 300
  ]

  datatype PricingError = PriceNotConfigured(key: string)

  /**
   * `Pricing.get_price(slug)`. The table is keyed by a string enumeration, so any
   * string key reaches it; one that is no configured slug raises ValueError instead
   * of defaulting to 0.
   */
  function GetPrice(key: string): (r: Result<int, PricingError>)
    ensures r.Success? ==> ParseSlug(key).Some? && ParseSlug(key).value in ServicePrices
                           && r.value == ServicePrices[ParseSlug(key).value]
    ensures r.Failure? ==> r.error == PriceNotConfigured(key)
  {
    match ParseSlug(key)
    case Some(slug) => if slug in ServicePrices then Success(ServicePrices[slug]) else Failure(PriceNotConfigured(key))
    case None => Failure(PriceNotConfigured(key))
  }

  /** Every slug has a table entry, so `get_price` succeeds exactly on slug names. */
  lemma GetPriceDefinedExactlyOnSlugs(key: string)
    ensures GetPrice(key).Success? <==> ParseSlug(key).Some?
    ensures forall s: ServiceSlug :: GetPrice(s.Value()) == Success(ServicePrices[s])
  {
    SlugEnumeration();
  }

  /** The price of a slug; its contract is the proof that `get_price` does not raise for it. */
  function Price(slug: ServiceSlug): (p: int)
    ensures GetPrice(slug.Value()) == Success(p)
  {
    AllSlugsPriced(slug);
    ServicePrices[slug]
  }

  lemma AllSlugsPriced(slug: ServiceSlug)
    ensures slug in ServicePrices
  {
    match slug
    case Base => case IroningSvc => case Conditioner => case VacuumPack => case ExactTime => case Uv => case WashBag =>
  }

  /** The seven entries of the table, read through `Price`. */
  lemma PriceValues()
    ensures Price(Base) == 990 && Price(IroningSvc) == 990 && Price(Conditioner) == 200
    ensures Price(VacuumPack) == 400 && Price(ExactTime) == 300 && Price(Uv) == 300 && Price(WashBag) == 300
  {
  }

  /** The keyword arguments of `calculate_order_total`. */
  datatype ServiceFlags = ServiceFlags(
    needIroning: bool,
    needConditioner: bool,
    needVacuumPack: bool,
    needUv: bool,
    needWashBag: bool,
    deliveryExactTime: Option<DateTime>)

  /** All arguments at their defaults. */
  const NoFlags: ServiceFlags := ServiceFlags(false, false, false, false, false, None)

  /** The slugs a selection pays for besides the base wash, in the order the source adds them. */
  function Selected(f: ServiceFlags): seq<ServiceSlug> {
    (if f.needIroning then [IroningSvc] else [])
    + (if f.needConditioner then [Conditioner] else [])
    + (if f.needVacuumPack then [VacuumPack] else [])
    + (if f.needUv then [Uv] else [])
    + (if f.needWashBag then [WashBag] else [])
    + (if f.deliveryExactTime.Some? then [ExactTime] else [])
  }

  function SumPrices(s: seq<ServiceSlug>): int {
    if s == [] then 0 else Price(s[0]) + SumPrices(s[1..])
  }

  /** The reference total: the base price plus the price of every selected service. */
  function OrderTotal(f: ServiceFlags): int {
    Price(Base) + SumPrices(Selected(f))
  }

  lemma {:induction false} SumPricesAppend(a: seq<ServiceSlug>, b: seq<ServiceSlug>)
    ensures SumPrices(a + b) == SumPrices(a) + SumPrices(b)
  {
    if a == [] {
      assert a + b == b;
    } else {
      assert (a + b)[1..] == a[1..] + b;
      SumPricesAppend(a[1..], b);
    }
  }

  lemma SumPricesSnoc(a: seq<ServiceSlug>, x: ServiceSlug)
    ensures SumPrices(a + [x]) == SumPrices(a) + Price(x)
  {
    SumPricesAppend(a, [x]);
  }

  lemma SumPricesRemove(b: seq<ServiceSlug>, j: int)
    requires 0 <= j < |b|
    ensures SumPrices(b) == Price(b[j]) + SumPrices(b[..j] + b[j + 1..])
  {
    var l, x, r := b[..j], b[j], b[j + 1..];
    assert b == l + [x] + r;
    SumPricesAppend(l + [x], r);
    SumPricesAppend(l, [x]);
    SumPricesAppend(l, r);
    assert SumPrices([x]) == Price(x) + SumPrices([]);
  }

  /** The sum does not depend on the order in which services were chosen. */
  lemma {:induction false} SumPricesPermutation(a: seq<ServiceSlug>, b: seq<ServiceSlug>)
    requires multiset(a) == multiset(b)
    ensures SumPrices(a) == SumPrices(b)
    decreases |a|
  {
    if a == [] {
      assert |b| == |multiset(b)| == 0;
    } else {
      var j := MatchFirst(a, b);
      SumPricesPermutation(a[1..], b[..j] + b[j + 1..]);
      SumPricesRemove(b, j);
    }
  }

  /** Where the first element of `a` stands in a permutation `b` of it, and what is left on both sides. */
  lemma MatchFirst<T>(a: seq<T>, b: seq<T>) returns (j: int)
    requires a != [] && multiset(a) == multiset(b)
    ensures 0 <= j < |b| && b[j] == a[0]
    ensures multiset(a[1..]) == multiset(b[..j] + b[j + 1..])
  {
    assert a[0] in multiset(b);
    j :| 0 <= j < |b| && b[j] == a[0];
    MultisetRemove(b, j);
    MultisetDropFirst(a);
  }

  lemma MultisetDropFirst<T>(a: seq<T>)
    requires a != []
    ensures multiset(a[1..]) == multiset(a) - multiset{a[0]}
  {
    assert a == [a[0]] + a[1..];
  }

  lemma MultisetRemove<T>(b: seq<T>, j: int)
    requires 0 <= j < |b|
    ensures multiset(b[..j] + b[j + 1..]) == multiset(b) - multiset{b[j]}
  {
    assert b == b[..j] + [b[j]] + b[j + 1..];
  }

  /** `calculate_order_total`: starts at the base price and adds each selected surcharge. */
  method CalculateOrderTotal(f: ServiceFlags) returns (total: int)
    ensures total == OrderTotal(f)
  {
    PriceValues();
    total := Price(Base);
    if f.needIroning {
      total := total + Price(IroningSvc);
    }
    if f.needConditioner {
      total := total + Price(Conditioner);
    }
    if f.needVacuumPack {
      total := total + Price(VacuumPack);
    }
    if f.needUv {
      total := total + Price(Uv);
    }
    if f.needWashBag {
      total := total + Price(WashBag);
    }
    if f.deliveryExactTime.Some? {
      total := total + Price(ExactTime);
    }
    SumFlags(f);
  }

  /** The total written out flag by flag with the table's numbers. */
  lemma SumFlags(f: ServiceFlags)
    ensures OrderTotal(f) == 990
      + (if f.needIroning then 990 else 0)
      + (if f.needConditioner then 200 else 0)
      + (if f.needVacuumPack then 400 else 0)
      + (if f.needUv then 300 else 0)
      + (if f.needWashBag then 300 else 0)
      + (if f.deliveryExactTime.Some? then 300 else 0)
  {
    PriceValues();
    var one := (if f.needIroning then [IroningSvc] else []);
    var two := (if f.needConditioner then [Conditioner] else []);
    var three := (if f.needVacuumPack then [VacuumPack] else []);
    var four := (if f.needUv then [Uv] else []);
    var five := (if f.needWashBag then [WashBag] else []);
    var six := (if f.deliveryExactTime.Some? then [ExactTime] else []);
    assert Selected(f) == one + two + three + four + five + six;
    assert SumPrices(one) == (if f.needIroning then 990 else 0);
    assert SumPrices(two) == (if f.needConditioner then 200 else 0);
    assert SumPrices(three) == (if f.needVacuumPack then 400 else 0);
    assert SumPrices(four) == (if f.needUv then 300 else 0);
    assert SumPrices(five) == (if f.needWashBag then 300 else 0);
    assert SumPrices(six) == (if f.deliveryExactTime.Some? then 300 else 0);
    SumPricesAppend(one, two);
    SumPricesAppend(one + two, three);
    SumPricesAppend(one + two + three, four);
    SumPricesAppend(one + two + three + four, five);
    SumPricesAppend(one + two + three + four + five, six);
  }

  /** With no option and no exact time the total is the base price, 990. */
  lemma NoOptionsIsBasePrice()
    ensures OrderTotal(NoFlags) == 990
  {
    SumFlags(NoFlags);
  }

  /** The exact-time surcharge of 300 is added if and only if a delivery time is given. */
  lemma ExactTimeSurcharge(f: ServiceFlags)
    ensures OrderTotal(f) == OrderTotal(f.(deliveryExactTime := None)) + (if f.deliveryExactTime.Some? then 300 else 0)
  {
    SumFlags(f);
    SumFlags(f.(deliveryExactTime := None));
  }

  /** 990 <= total <= 3480, the sum of all seven table entries. */
  lemma TotalBounds(f: ServiceFlags)
    ensures 990 <= OrderTotal(f) <= 3480
  {
    SumFlags(f);
  }

  /** Flag-wise inclusion of two selections. */
  predicate Includes(small: ServiceFlags, big: ServiceFlags) {
    && (small.needIroning ==> big.needIroning)
    && (small.needConditioner ==> big.needConditioner)
    && (small.needVacuumPack ==> big.needVacuumPack)
    && (small.needUv ==> big.needUv)
    && (small.needWashBag ==> big.needWashBag)
    && (small.deliveryExactTime.Some? ==> big.deliveryExactTime.Some?)
  }

  /** Switching options on never lowers the total. */
  lemma TotalMonotone(small: ServiceFlags, big: ServiceFlags)
    requires Includes(small, big)
    ensures OrderTotal(small) <= OrderTotal(big)
  {
    SumFlags(small);
    SumFlags(big);
  }

  /** The five on/off add-ons a customer toggles. */
  predicate IsAddOn(s: ServiceSlug) {
    s == IroningSvc || s == Conditioner || s == VacuumPack || s == Uv || s == WashBag
  }

  function Enabled(f: ServiceFlags, s: ServiceSlug): bool
    requires IsAddOn(s)
  {
    match s
    case IroningSvc => f.needIroning
    case Conditioner => f.needConditioner
    case VacuumPack => f.needVacuumPack
    case Uv => f.needUv
    case WashBag => f.needWashBag
  }

  /** Flips one add-on and leaves the other arguments alone. */
  function Flip(f: ServiceFlags, s: ServiceSlug): (g: ServiceFlags)
    requires IsAddOn(s)
    ensures Enabled(g, s) == !Enabled(f, s)
    ensures forall t :: IsAddOn(t) && t != s ==> Enabled(g, t) == Enabled(f, t)
    ensures g.deliveryExactTime == f.deliveryExactTime
  {
    match s
    case IroningSvc => f.(needIroning := !f.needIroning)
    case Conditioner => f.(needConditioner := !f.needConditioner)
    case VacuumPack => f.(needVacuumPack := !f.needVacuumPack)
    case Uv => f.(needUv := !f.needUv)
    case WashBag => f.(needWashBag := !f.needWashBag)
  }

  /** Flipping an add-on moves the total by exactly its price; flipping it back restores selection and total. */
  lemma FlipChangesTotalByPrice(f: ServiceFlags, s: ServiceSlug)
    requires IsAddOn(s)
    ensures OrderTotal(Flip(f, s)) == OrderTotal(f) + (if Enabled(f, s) then -Price(s) else Price(s))
    ensures Flip(Flip(f, s), s) == f
  {
    PriceValues();
    SumFlags(f);
    var g := Flip(f, s);
    SumFlags(g);
    match s
    case IroningSvc => assert g == f.(needIroning := !f.needIroning);
    case Conditioner => assert g == f.(needConditioner := !f.needConditioner);
    case VacuumPack => assert g == f.(needVacuumPack := !f.needVacuumPack);
    case Uv => assert g == f.(needUv := !f.needUv);
    case WashBag => assert g == f.(needWashBag := !f.needWashBag);
  }

  /** Worked cases: ironing + conditioner + exact time is 2480; ironing + UV is 2280, and UV alone 1290. */
  lemma WorkedExamples(t: DateTime)
    ensures OrderTotal(NoFlags.(needIroning := true, needConditioner := true, deliveryExactTime := Some(t))) == 2480
    ensures OrderTotal(NoFlags.(needIroning := true, needUv := true)) == 2280
    ensures OrderTotal(Flip(NoFlags.(needIroning := true, needUv := true), IroningSvc)) == 1290
  {
    SumFlags(NoFlags.(needIroning := true, needConditioner := true, deliveryExactTime := Some(t)));
    SumFlags(NoFlags.(needIroning := true, needUv := true));
    assert Flip(NoFlags.(needIroning := true, needUv := true), IroningSvc) == NoFlags.(needUv := true);
    SumFlags(NoFlags.(needUv := true));
  }
}
