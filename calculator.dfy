/**
  The shipping-price calculator of the calculator page: the distance table
  and its symmetric lookup, the service tiers, the quote formula and the
  guard that refuses a route whose two ends are the same city.
 */
module Calculator {
  import opened Wrappers

  // ---------------------------------------------------------------------------
  // Cities and the distance table
  // ---------------------------------------------------------------------------

  /** The ten cities the table knows. The form posts their codes as strings. */
  datatype City = Moscow | Spb | Kazan | Ekb | Novosibirsk | Nnov | Samara | Rostov | Krasnodar | Voronezh

  /** The code a city goes by in the form and in the table's keys. */
  function Code(c: City): string {
    match c
    case Moscow => "moscow"
    case Spb => "spb"
    case Kazan => "kazan"
    case Ekb => "ekb"
    case Novosibirsk => "novosibirsk"
    case Nnov => "nnov"
    case Samara => "samara"
    case Rostov => "rostov"
    case Krasnodar => "krasnodar"
    case Voronezh => "voronezh"
  }

  /** The city whose code is `code`, if there is one. */
  function CityOf(code: string): (r: Option<City>)
    ensures r.Some? ==> Code(r.value) == code
  {
    if code == "moscow" then Some(Moscow)
    else if code == "spb" then Some(Spb)
    else if code == "kazan" then Some(Kazan)
    else if code == "ekb" then Some(Ekb)
    else if code == "novosibirsk" then Some(Novosibirsk)
    else if code == "nnov" then Some(Nnov)
    else if code == "samara" then Some(Samara)
    else if code == "rostov" then Some(Rostov)
    else if code == "krasnodar" then Some(Krasnodar)
    else if code == "voronezh" then Some(Voronezh)
    else None
  }

  /** `CityOf` inverts `Code`. */
  lemma CityOfCode(c: City)
    ensures CityOf(Code(c)) == Some(c)
  {
  }

  /**
    The table entry stored under the key `a-b`, in kilometres. Each pair is
    stored once, in the orientation listed; the other orientation is absent.
   */
  function Km(a: City, b: City): Option<nat> {
    match (a, b)
    case (Moscow, Spb) => Some(700)
    case (Moscow, Kazan) => Some(800)
    case (Moscow, Ekb) => Some(1800)
    case (Moscow, Novosibirsk) => Some(3200)
    case (Moscow, Nnov) => Some(400)
    case (Moscow, Samara) => Some(1050)
    case (Moscow, Rostov) => Some(1100)
    case (Moscow, Krasnodar) => Some(1350)
    case (Moscow, Voronezh) => Some(500)
    case (Spb, Kazan) => Some(1500)
    case (Spb, Ekb) => Some(2500)
    case (Spb, Novosibirsk) => Some(3900)
    case (Spb, Nnov) => Some(1100)
    case (Spb, Samara) => Some(1750)
    case (Spb, Rostov) => Some(1800)
    case (Spb, Krasnodar) => Some(2050)
    case (Spb, Voronezh) => Some(1200)
    case (Kazan, Ekb) => Some(1000)
    case (Kazan, Novosibirsk) => Some(2400)
    case (Kazan, Nnov) => Some(400)
    case (Kazan, Samara) => Some(350)
    case (Kazan, Rostov) => Some(1300)
    case (Kazan, Krasnodar) => Some(1550)
    case (Kazan, Voronezh) => Some(800)
    case (Ekb, Novosibirsk) => Some(1500)
    case (Ekb, Nnov) => Some(1400)
    case (Ekb, Samara) => Some(850)
    case (Ekb, Rostov) => Some(2300)
    case (Ekb, Krasnodar) => Some(2550)
    case (Ekb, Voronezh) => Some(1700)
    case (Novosibirsk, Nnov) => Some(2800)
    case (Novosibirsk, Samara) => Some(2150)
    case (Novosibirsk, Rostov) => Some(3700)
    case (Novosibirsk, Krasnodar) => Some(3950)
    case (Novosibirsk, Voronezh) => Some(3100)
    case (Nnov, Samara) => Some(650)
    case (Nnov, Rostov) => Some(1100)
    case (Nnov, Krasnodar) => Some(1350)
    case (Nnov, Voronezh) => Some(500)
    case (Samara, Rostov) => Some(1150)
    case (Samara, Krasnodar) => Some(1400)
    case (Samara, Voronezh) => Some(800)
    case (Rostov, Krasnodar) => Some(270)
    case (Rostov, Voronezh) => Some(600)
    case (Krasnodar, Voronezh) => Some(850)
    case _ => None
  }

  /** The key under which the table stores the pair (`${cityFrom}-${cityTo}`). */
  function Key(from: string, to: string): string {
    from + "-" + to
  }

  /**
    A table key determines both codes: since no city code contains `-`,
    `Key(s, t)` can equal the key of a listed pair only for that very pair.
    This is why the lookup by composite key is modelled as a lookup by pair.
   */
  lemma KeyDeterminesPair(s: string, t: string, a: City, b: City)
    requires Key(s, t) == Key(Code(a), Code(b))
    ensures s == Code(a) && t == Code(b)
  {
    var u, v := Code(a), Code(b);
    var k := Key(s, t);
    assert '-' !in u && '-' !in v by {
      assert forall c: City :: '-' !in Code(c);
    }
    if |s| < |u| {
      KeyAt(s, t, |s|);
      KeyAt(u, v, |s|);
      assert false;
    } else if |s| > |u| {
      KeyAt(s, t, |s|);
      KeyAt(u, v, |s|);
      assert false;
    }
    assert s == k[..|s|] == u;
    assert t == k[|s| + 1..] == v;
  }

  /** The character at position `i` of a key. */
  lemma KeyAt(s: string, t: string, i: nat)
    ensures i < |Key(s, t)| ==>
      Key(s, t)[i] == if i < |s| then s[i] else if i == |s| then '-' else t[i - |s| - 1]
  {
  }

  /** `distances[Key(from, to)]`: the stored entry, `None` where JavaScript gives `undefined`. */
  function Listed(from: string, to: string): Option<nat> {
    match (CityOf(from), CityOf(to))
    case (Some(a), Some(b)) => Km(a, b)
    case _ => None
  }

  /** JavaScript's `entry || fallback` on a number-or-undefined. */
  function OrElse(entry: Option<nat>, fallback: nat): nat {
    if entry.Some? && entry.value != 0 then entry.value else fallback
  }

  /** Distance charged for a pair the table does not list. */
  const DefaultKm: nat := 1000

  /** `getDistance(cityFrom, cityTo)`. */
  function Distance(from: string, to: string): (km: nat)
    ensures from == to ==> km == 0
    ensures from != to && Listed(from, to).None? && Listed(to, from).None? ==> km == DefaultKm
  {
    if from == to then 0
    else OrElse(Listed(from, to), OrElse(Listed(to, from), DefaultKm))
  }

  /** Every stored distance is positive, and no pair is stored in both orientations. */
  lemma TableWellFormed(a: City, b: City)
    ensures Km(a, b).Some? ==> Km(a, b).value > 0
    ensures Km(a, b).Some? ==> Km(b, a).None?
    ensures Km(a, a).None?
  {
  }

  /** The table is complete: every pair of distinct known cities is stored in one orientation. */
  lemma TableComplete(a: City, b: City)
    requires a != b
    ensures Km(a, b).Some? || Km(b, a).Some?
  {
  }

  /** The distance between two known cities is the stored one, whichever way round it is asked. */
  lemma {:induction false} DistanceOfKnownCities(a: City, b: City)
    requires a != b
    ensures Distance(Code(a), Code(b)) == if Km(a, b).Some? then Km(a, b).value else Km(b, a).value
    ensures Distance(Code(a), Code(b)) > 0
  {
    TableWellFormed(a, b);
    TableWellFormed(b, a);
    TableComplete(a, b);
    CityOfCode(a);
    CityOfCode(b);
    assert Code(a) != Code(b) by {
      assert CityOf(Code(a)) != CityOf(Code(b));
    }
  }

  /** `getDistance` is symmetric: the `||` chain never reaches a second stored entry. */
  lemma {:induction false} DistanceSymmetric(from: string, to: string)
    ensures Distance(from, to) == Distance(to, from)
  {
    if from != to && Listed(from, to).Some? && Listed(to, from).Some? {
      var a, b := CityOf(from).value, CityOf(to).value;
      TableWellFormed(a, b);
      assert false;
    }
  }

  /** A code outside the table is charged the default distance to any other code. */
  lemma {:induction false} UnknownCityDefaultDistance(from: string, to: string)
    requires from != to
    requires CityOf(from).None? || CityOf(to).None?
    ensures Distance(from, to) == DefaultKm
  {
  }

  // ---------------------------------------------------------------------------
  // Service tiers and extras
  // ---------------------------------------------------------------------------

  /** The entries of `serviceTypes`; a closed type, so the lookup by tier cannot miss. */
  datatype Tier = Standard | Express | Economy {
    function Multiplier(): real {
      match this
      case Standard => 1.0
      case Express => 1.5
      case Economy => 0.8
    }

    function Name(): string {
      match this
      case Standard => "Стандартная"
      case Express => "Экспресс"
      case Economy => "Эконом"
    }

    function Days(): string {
      match this
      case Standard => "3-5 дней"
      case Express => "1-2 дня"
      case Economy => "5-7 дней"
    }
  }

  /** The optional services, in the order the quote lists them. */
  datatype ExtraService = Insurance | Packaging | Loading | DoorToDoor {
    function Name(): string {
      match this
      case Insurance => "Страхование груза"
      case Packaging => "Упаковка"
      case Loading => "Погрузка/разгрузка"
      case DoorToDoor => "От двери до двери"
    }

    /** Position in the fixed listing order. */
    function Rank(): nat {
      match this
      case Insurance => 0
      case Packaging => 1
      case Loading => 2
      case DoorToDoor => 3
    }
  }

  /** One entry of `extras`: the service (whose `Name()` is the entry's name) and its unrounded price. */
  datatype Extra = Extra(service: ExtraService, price: real)

  /**
    The form data handed to `calculatePrice`, with `weight` and `volume`
    already parsed.
   */
  datatype PriceRequest = PriceRequest(
    cityFrom: string,
    cityTo: string,
    weight: real,
    volume: real,
    serviceType: Tier,
    insurance: bool,
    packaging: bool,
    loading: bool,
    doorToDoor: bool)
  {
    /** Whether the checkbox of `s` is ticked. */
    predicate Wants(s: ExtraService) {
      match s
      case Insurance => insurance
      case Packaging => packaging
      case Loading => loading
      case DoorToDoor => doorToDoor
    }
  }

  /** The object `calculatePrice` returns. */
  datatype Quote = Quote(
    distance: nat,
    weight: real,
    volume: real,
    billableWeight: real,
    basePrice: int,
    extrasPrice: int,
    totalPrice: int,
    extras: seq<Extra>,
    service: Tier)

  // ---------------------------------------------------------------------------
  // The quote formula
  // ---------------------------------------------------------------------------

  const Density: real := 250.0            // kg per cubic metre, for volumetric weight
  const RatePer100Km: real := 15.0        // per kg per 100 km
  const MinimumPrice: real := 1500.0      // applied before the tier multiplier
  const InsuranceRate: real := 0.02

  /** `Math.max` on two reals. */
  function Max(a: real, b: real): (m: real)
    ensures m >= a && m >= b && (m == a || m == b)
  {
    if a >= b then a else b
  }

  /** `Math.round`: the nearest integer, halves rounded up. */
  function Round(x: real): (n: int)
    ensures n as real - 0.5 <= x < n as real + 0.5
  {
    (x + 0.5).Floor
  }

  /** Billable weight: the larger of the declared and the volumetric weight. */
  function BillableWeight(weight: real, volume: real): (w: real)
    ensures w >= weight && w >= volume * Density
    ensures w == weight || w == volume * Density
  {
    Max(weight, volume * Density)
  }

  /** The distance-and-weight price before the minimum and the tier. */
  function RawPrice(billable: real, km: nat): real {
    billable * (km as real / 100.0) * RatePer100Km
  }

  /** The unrounded base price: the raw price floored at the minimum, then scaled by the tier. */
  function BaseCharge(billable: real, km: nat, tier: Tier): real {
    Max(RawPrice(billable, km), MinimumPrice) * tier.Multiplier()
  }

  /** The price of one extra service, from the post-multiplier base, the declared weight and the distance. */
  function ExtraPrice(s: ExtraService, base: real, weight: real, km: nat): real {
    match s
    case Insurance => base * InsuranceRate
    case Packaging => Max(500.0, weight * 10.0)
    case Loading => Max(1000.0, weight * 5.0)
    case DoorToDoor => 800.0 + (km as real / 100.0) * 50.0
  }

  /** The entry for `s` if its checkbox is ticked, else nothing. */
  function ExtraIfWanted(req: PriceRequest, s: ExtraService, base: real, km: nat): seq<Extra> {
    if req.Wants(s) then [Extra(s, ExtraPrice(s, base, req.weight, km))] else []
  }

  /** The `extras` list: one entry per ticked box, in the fixed order. */
  function ExtrasFor(req: PriceRequest, base: real, km: nat): seq<Extra> {
    ExtraIfWanted(req, Insurance, base, km)
    + ExtraIfWanted(req, Packaging, base, km)
    + ExtraIfWanted(req, Loading, base, km)
    + ExtraIfWanted(req, DoorToDoor, base, km)
  }

  /** Sum of the prices of a list of extras. */
  function Sum(extras: seq<Extra>): real {
    if extras == [] then 0.0 else Sum(extras[..|extras| - 1]) + extras[|extras| - 1].price
  }

  /** The quote `calculatePrice` returns for `req`. */
  function QuoteFor(req: PriceRequest): Quote {
    var km := Distance(req.cityFrom, req.cityTo);
    var billable := BillableWeight(req.weight, req.volume);
    var base := BaseCharge(billable, km, req.serviceType);
    var extras := ExtrasFor(req, base, km);
    Quote(km, req.weight, req.volume, billable,
          Round(base), Round(Sum(extras)), Round(base + Sum(extras)),
          extras, req.serviceType)
  }

  /** `calculatePrice(formData)`, step by step as the script computes it. */
  method CalculatePrice(req: PriceRequest) returns (q: Quote)
    ensures q == QuoteFor(req)
  {
    var distance := Distance(req.cityFrom, req.cityTo);
    var weight := req.weight;
    var volume := req.volume;

    // Volumetric weight
    var volumetricWeight := volume * Density;
    var billableWeight := Max(weight, volumetricWeight);

    // Base price, its minimum, then the tier multiplier
    var basePrice := billableWeight * (distance as real / 100.0) * RatePer100Km;
    basePrice := Max(basePrice, MinimumPrice);
    var serviceMultiplier := req.serviceType.Multiplier();
    basePrice := basePrice * serviceMultiplier;
    BaseChargeUnfold(billableWeight, distance, req.serviceType);
    assert basePrice == BaseCharge(BillableWeight(weight, volume), distance, req.serviceType);

    var extras, extrasPrice := AdditionalServices(req, basePrice, distance);

    q := Quote(distance, weight, volume, billableWeight,
               Round(basePrice), Round(extrasPrice), Round(basePrice + extrasPrice),
               extras, req.serviceType);
  }

  /**
    One block of the additional services: when the box for `s` is ticked,
    `extrasPrice += cost` and `extras.push({ name, price: cost })`, with the
    cost formula of that service.
   */
  method AddIfWanted(req: PriceRequest, s: ExtraService, basePrice: real, distance: nat,
                     extras: seq<Extra>, extrasPrice: real)
    returns (extras': seq<Extra>, extrasPrice': real)
    requires extrasPrice == Sum(extras)
    ensures extras' == extras + ExtraIfWanted(req, s, basePrice, distance)
    ensures extrasPrice' == Sum(extras')
  {
    if req.Wants(s) {
      var cost := ExtraPrice(s, basePrice, req.weight, distance);
      extrasPrice' := extrasPrice + cost;
      SumSnoc(extras, Extra(s, cost));
      extras' := extras + [Extra(s, cost)];
    } else {
      extras', extrasPrice' := extras, extrasPrice;
      assert extras + [] == extras;
    }
  }

  /**
    The additional-services section of `calculatePrice`: insurance,
    packaging, loading and door-to-door, in that order.
   */
  method AdditionalServices(req: PriceRequest, basePrice: real, distance: nat)
    returns (extras: seq<Extra>, extrasPrice: real)
    ensures extras == ExtrasFor(req, basePrice, distance)
    ensures extrasPrice == Sum(extras)
  {
    extrasPrice := 0.0;
    extras := [];
    extras, extrasPrice := AddIfWanted(req, Insurance, basePrice, distance, extras, extrasPrice);
    assert extras == ExtraIfWanted(req, Insurance, basePrice, distance);
    extras, extrasPrice := AddIfWanted(req, Packaging, basePrice, distance, extras, extrasPrice);
    extras, extrasPrice := AddIfWanted(req, Loading, basePrice, distance, extras, extrasPrice);
    extras, extrasPrice := AddIfWanted(req, DoorToDoor, basePrice, distance, extras, extrasPrice);
  }

  lemma BaseChargeUnfold(billable: real, km: nat, tier: Tier)
    ensures BaseCharge(billable, km, tier)
         == Max(billable * (km as real / 100.0) * RatePer100Km, MinimumPrice) * tier.Multiplier()
  {
  }

  lemma SumSnoc(extras: seq<Extra>, e: Extra)
    ensures Sum(extras + [e]) == Sum(extras) + e.price
  {
    assert (extras + [e])[..|extras|] == extras;
  }

  // ---------------------------------------------------------------------------
  // Properties of the quote
  // ---------------------------------------------------------------------------

  /** The minimum applies before the multiplier, so its effect depends on the tier. */
  lemma {:induction false} BaseChargeFloor(billable: real, km: nat, tier: Tier)
    ensures BaseCharge(billable, km, tier) >= MinimumPrice * tier.Multiplier()
    ensures RawPrice(billable, km) <= MinimumPrice ==> BaseCharge(billable, km, tier) == MinimumPrice * tier.Multiplier()
    ensures RawPrice(billable, km) >= MinimumPrice ==> BaseCharge(billable, km, tier) == RawPrice(billable, km) * tier.Multiplier()
  {
    var raw := RawPrice(billable, km);
    var m := tier.Multiplier();
    assert m > 0.0;
    if raw >= MinimumPrice {
      assert Max(raw, MinimumPrice) == raw;
      assert raw * m >= MinimumPrice * m;
    }
  }

  /** The effective minimum base price of each tier: 1500, 2250 and 1200. */
  lemma TierMinimum(tier: Tier)
    ensures MinimumPrice * tier.Multiplier() == match tier
      case Standard => 1500.0
      case Express => 2250.0
      case Economy => 1200.0
  {
  }

  /** The services of a list of extras, in order. */
  function ServicesOf(e: seq<Extra>): (r: seq<ExtraService>)
    ensures |r| == |e| && forall i | 0 <= i < |e| :: r[i] == e[i].service
  {
    seq(|e|, i requires 0 <= i < |e| => e[i].service)
  }

  /**
    The extras list holds one entry per ticked box and no other, in the fixed
    order insurance, packaging, loading, door-to-door (strictly increasing rank).
   */
  lemma {:induction false} ExtrasOnePerTickedBox(req: PriceRequest, base: real, km: nat)
    ensures var r := ServicesOf(ExtrasFor(req, base, km));
      && (forall i, j | 0 <= i < j < |r| :: r[i].Rank() < r[j].Rank())
      && (forall s: ExtraService :: s in r <==> req.Wants(s))
  {
    var e1 := ExtraIfWanted(req, Insurance, base, km);
    var e2 := ExtraIfWanted(req, Packaging, base, km);
    var e3 := ExtraIfWanted(req, Loading, base, km);
    var e4 := ExtraIfWanted(req, DoorToDoor, base, km);
    var s1, s2, s3, s4 := ServicesOf(e1), ServicesOf(e2), ServicesOf(e3), ServicesOf(e4);
    var r := ServicesOf(ExtrasFor(req, base, km));
    assert r == s1 + s2 + s3 + s4 by {
      ServicesOfAppend(e1, e2);
      ServicesOfAppend(e1 + e2, e3);
      ServicesOfAppend(e1 + e2 + e3, e4);
    }
    OneIfWanted(req, Insurance, base, km);
    OneIfWanted(req, Packaging, base, km);
    OneIfWanted(req, Loading, base, km);
    OneIfWanted(req, DoorToDoor, base, km);
    RankedAppend(s1, s2, 0, 1, 2);
    RankedAppend(s1 + s2, s3, 0, 2, 3);
    RankedAppend(s1 + s2 + s3, s4, 0, 3, 4);
    forall t: ExtraService ensures t in r <==> req.Wants(t) {
      assert t in r <==> t in s1 || t in s2 || t in s3 || t in s4;
    }
  }

  /** The list for one box holds that service when the box is ticked, and nothing else. */
  lemma OneIfWanted(req: PriceRequest, s: ExtraService, base: real, km: nat)
    ensures var r := ServicesOf(ExtraIfWanted(req, s, base, km));
      && Ranked(r, s.Rank(), s.Rank() + 1)
      && forall t: ExtraService :: t in r <==> t == s && req.Wants(s)
  {
    var r := ServicesOf(ExtraIfWanted(req, s, base, km));
    assert r == if req.Wants(s) then [s] else [];
  }

  lemma ServicesOfAppend(a: seq<Extra>, b: seq<Extra>)
    ensures ServicesOf(a + b) == ServicesOf(a) + ServicesOf(b)
  {
  }

  /** The services of `r` are in strictly increasing rank, all within `lo` to `hi - 1`. */
  predicate Ranked(r: seq<ExtraService>, lo: nat, hi: nat) {
    && (forall i, j | 0 <= i < j < |r| :: r[i].Rank() < r[j].Rank())
    && (forall i | 0 <= i < |r| :: lo <= r[i].Rank() < hi)
  }

  lemma RankedAppend(a: seq<ExtraService>, b: seq<ExtraService>, lo: nat, mid: nat, hi: nat)
    requires lo <= mid <= hi && Ranked(a, lo, mid) && Ranked(b, mid, hi)
    ensures Ranked(a + b, lo, hi)
  {
    forall i, j | 0 <= i < j < |a + b| ensures (a + b)[i].Rank() < (a + b)[j].Rank() {
      if j < |a| {
        assert (a + b)[i] == a[i] && (a + b)[j] == a[j];
      } else if i >= |a| {
        assert (a + b)[i] == b[i - |a|] && (a + b)[j] == b[j - |a|];
      } else {
        assert (a + b)[i] == a[i] && (a + b)[j] == b[j - |a|];
      }
    }
    forall i | 0 <= i < |a + b| ensures lo <= (a + b)[i].Rank() < hi {
      if i < |a| {
        assert (a + b)[i] == a[i];
      } else {
        assert (a + b)[i] == b[i - |a|];
      }
    }
  }

  /** Each entry carries the price its formula gives; the count is the number of ticked boxes. */
  lemma {:induction false} ExtrasPriced(req: PriceRequest, base: real, km: nat)
    ensures var e := ExtrasFor(req, base, km);
      && (forall i | 0 <= i < |e| :: e[i].price == ExtraPrice(e[i].service, base, req.weight, km))
      && |e| == (if req.insurance then 1 else 0) + (if req.packaging then 1 else 0)
              + (if req.loading then 1 else 0) + (if req.doorToDoor then 1 else 0)
  {
    var e1 := ExtraIfWanted(req, Insurance, base, km);
    var e2 := ExtraIfWanted(req, Packaging, base, km);
    var e3 := ExtraIfWanted(req, Loading, base, km);
    var e4 := ExtraIfWanted(req, DoorToDoor, base, km);
    assert ExtrasFor(req, base, km) == e1 + e2 + e3 + e4;
  }

  /** The unrounded extras total is the sum of the listed prices, in terms of the formulas. */
  lemma {:induction false} ExtrasTotal(req: PriceRequest, base: real, km: nat)
    ensures Sum(ExtrasFor(req, base, km))
         == (if req.insurance then ExtraPrice(Insurance, base, req.weight, km) else 0.0)
          + (if req.packaging then ExtraPrice(Packaging, base, req.weight, km) else 0.0)
          + (if req.loading then ExtraPrice(Loading, base, req.weight, km) else 0.0)
          + (if req.doorToDoor then ExtraPrice(DoorToDoor, base, req.weight, km) else 0.0)
  {
    var e1 := ExtraIfWanted(req, Insurance, base, km);
    var e2 := ExtraIfWanted(req, Packaging, base, km);
    var e3 := ExtraIfWanted(req, Loading, base, km);
    var e4 := ExtraIfWanted(req, DoorToDoor, base, km);
    SumAppend(e1, e2);
    SumAppend(e1 + e2, e3);
    SumAppend(e1 + e2 + e3, e4);
    SumIfWanted(req, Insurance, base, km);
    SumIfWanted(req, Packaging, base, km);
    SumIfWanted(req, Loading, base, km);
    SumIfWanted(req, DoorToDoor, base, km);
  }

  /** The list for one box sums to that service's price when the box is ticked, and to 0 otherwise. */
  lemma SumIfWanted(req: PriceRequest, s: ExtraService, base: real, km: nat)
    ensures Sum(ExtraIfWanted(req, s, base, km)) == if req.Wants(s) then ExtraPrice(s, base, req.weight, km) else 0.0
  {
    var e := ExtraIfWanted(req, s, base, km);
    if req.Wants(s) {
      assert e[..0] == [];
    }
  }

  lemma {:induction false} SumAppend(a: seq<Extra>, b: seq<Extra>)
    ensures Sum(a + b) == Sum(a) + Sum(b)
  {
    if b == [] {
      assert a + b == a;
    } else {
      var last := b[|b| - 1];
      assert a + b == (a + b[..|b| - 1]) + [last];
      SumSnoc(a + b[..|b| - 1], last);
      SumAppend(a, b[..|b| - 1]);
    }
  }

  /** With no box ticked there are no extras and the total is the rounded base price. */
  lemma NoExtrasNoCharge(req: PriceRequest)
    requires !req.insurance && !req.packaging && !req.loading && !req.doorToDoor
    ensures QuoteFor(req).extras == []
    ensures QuoteFor(req).extrasPrice == 0
    ensures QuoteFor(req).totalPrice == QuoteFor(req).basePrice
  {
  }

  /** Rounding a sum differs from summing the roundings by at most one. */
  lemma RoundOfSum(a: real, b: real)
    ensures -1 <= Round(a + b) - (Round(a) + Round(b)) <= 1
  {
  }

  /**
    The quote: billable weight is the larger of both weights; the base price
    is at least the tier's minimum; the total rounds the unrounded sum, so it
    is within one of the sum of the two rounded fields.
   */
  lemma {:induction false} QuoteProperties(req: PriceRequest)
    ensures var q := QuoteFor(req);
      && q.distance == Distance(req.cityFrom, req.cityTo)
      && q.billableWeight == Max(req.weight, req.volume * Density)
      && q.basePrice >= Round(MinimumPrice * req.serviceType.Multiplier())
      && -1 <= q.totalPrice - (q.basePrice + q.extrasPrice) <= 1
      && q.service == req.serviceType
  {
    var km := Distance(req.cityFrom, req.cityTo);
    var billable := BillableWeight(req.weight, req.volume);
    var base := BaseCharge(billable, km, req.serviceType);
    BaseChargeFloor(billable, km, req.serviceType);
    RoundMonotone(MinimumPrice * req.serviceType.Multiplier(), base);
    RoundOfSum(base, Sum(ExtrasFor(req, base, km)));
  }

  lemma RoundMonotone(a: real, b: real)
    requires a <= b
    ensures Round(a) <= Round(b)
  {
  }

  /** Pricing a route the other way round gives the same quote. */
  lemma {:induction false} ReverseRouteSameQuote(req: PriceRequest)
    ensures QuoteFor(req.(cityFrom := req.cityTo, cityTo := req.cityFrom)) == QuoteFor(req)
  {
    DistanceSymmetric(req.cityFrom, req.cityTo);
  }

  /** Moscow to Saint Petersburg, 500 kg, standard, no extras: 52500. */
  lemma {:induction false} ScenarioStandard()
    ensures var q := QuoteFor(PriceRequest("moscow", "spb", 500.0, 0.0, Standard, false, false, false, false));
      q.distance == 700 && q.billableWeight == 500.0 && q.basePrice == 52500 && q.totalPrice == 52500
  {
    DistanceOfKnownCities(Moscow, Spb);
  }

  /** Moscow to Saint Petersburg, 10 kg, economy: the minimum applies, 1500 * 0.8 = 1200. */
  lemma {:induction false} ScenarioEconomyMinimum()
    ensures var q := QuoteFor(PriceRequest("moscow", "spb", 10.0, 0.0, Economy, false, false, false, false));
      q.distance == 700 && q.basePrice == 1200 && q.totalPrice == 1200
  {
    DistanceOfKnownCities(Moscow, Spb);
  }

  /**
    Moscow to Kazan, 0 kg but 2 cubic metres, express, with insurance and
    door-to-door: base 90000, insurance 1800, door-to-door 1200, total 93000.
   */
  lemma {:induction false} ScenarioExpressVolumetric()
    ensures var q := QuoteFor(PriceRequest("moscow", "kazan", 0.0, 2.0, Express, true, false, false, true));
      && q.distance == 800 && q.billableWeight == 500.0 && q.basePrice == 90000
      && q.extras == [Extra(Insurance, 1800.0), Extra(DoorToDoor, 1200.0)]
      && q.extrasPrice == 3000 && q.totalPrice == 93000
  {
    DistanceOfKnownCities(Moscow, Kazan);
    var req := PriceRequest("moscow", "kazan", 0.0, 2.0, Express, true, false, false, true);
    ExtrasTotal(req, 90000.0, 800);
  }

  /**
    Moscow to Saint Petersburg, 1000.1 kg, standard, with loading: base
    105010.5 and loading 5000.5 round to 105011 and 5001, but the total
    rounds their exact sum, 110011, one less than the sum of the two fields.
   */
  lemma {:induction false} ScenarioTotalRoundsExactSum()
    ensures var q := QuoteFor(PriceRequest("moscow", "spb", 1000.1, 0.0, Standard, false, false, true, false));
      && q.basePrice == 105011 && q.extrasPrice == 5001 && q.totalPrice == 110011
      && q.totalPrice == q.basePrice + q.extrasPrice - 1
  {
    DistanceOfKnownCities(Moscow, Spb);
    var req := PriceRequest("moscow", "spb", 1000.1, 0.0, Standard, false, false, true, false);
    assert BaseCharge(BillableWeight(1000.1, 0.0), 700, Standard) == 105010.5;
    ExtrasTotal(req, 105010.5, 700);
  }

  // ---------------------------------------------------------------------------
  // The submit handler's guard
  // ---------------------------------------------------------------------------

  /** Why the calculator form refuses to price a request. */
  datatype CalcError = SameCities

  /**
    The submit handler: a route whose two ends are the same code is refused
    (the page shows an alert); any other request is priced.
   */
  method OnCalculate(req: PriceRequest) returns (r: Result<Quote, CalcError>)
    ensures r.Failure? <==> req.cityFrom == req.cityTo
    ensures r.Success? ==> r.value == QuoteFor(req) && r.value.distance > 0
  {
    if req.cityFrom == req.cityTo {
      return Failure(SameCities);
    }
    var calculation := CalculatePrice(req);
    DistancePositive(req.cityFrom, req.cityTo);
    return Success(calculation);
  }

  /** Two different codes are always a positive distance apart. */
  lemma {:induction false} DistancePositive(from: string, to: string)
    requires from != to
    ensures Distance(from, to) > 0
  {
    match (CityOf(from), CityOf(to))
    case (Some(a), Some(b)) =>
      DistanceOfKnownCities(a, b);
    case _ =>
  }

  // ---------------------------------------------------------------------------
  // Volume from dimensions
  // ---------------------------------------------------------------------------

  /**
    `calculateVolume`: cubic metres from three dimensions in centimetres, or
    0 unless all three are positive.
   */
  function DerivedVolume(length: real, width: real, height: real): (v: real)
    ensures v >= 0.0
    ensures v > 0.0 <==> length > 0.0 && width > 0.0 && height > 0.0
    ensures v > 0.0 ==> v * 1000000.0 == length * width * height
  {
    if length > 0.0 && width > 0.0 && height > 0.0 then (length * width * height) / 1000000.0 else 0.0
  }
}
