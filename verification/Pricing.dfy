/** Fares: each component is rounded to whole paise, the minimum fare is applied, and the total is split with the driver. */
module Pricing {
  import opened Wrappers

  datatype Settings = Settings(
    baseFare: real,
    perKm: real,
    perMinute: real,
    waitingPerMinute: real,
    minimumFare: real,
    commissionPercent: real,
    averageSpeed: real)

  datatype Fare = Fare(
    rideType: string,
    distanceKm: real,
    durationMin: real,
    waitingMin: real,
    baseFare: real,
    distanceCharge: real,
    durationCharge: real,
    waitingCharge: real,
    minimumFare: real,
    minimumApplied: bool,
    totalFare: real,
    commissionPercent: real,
    commissionAmount: real,
    driverEarning: real)

  predicate ValidSettings(p: Settings) {
    && 0.0 <= p.baseFare && 0.0 <= p.perKm && 0.0 <= p.perMinute && 0.0 <= p.waitingPerMinute
    && 0.0 <= p.minimumFare && 0.0 <= p.commissionPercent <= 100.0
  }

  // ----- rounding -----

  function Rupees(paise: int): real {
    paise as real / 100.0
  }

  /** `toFixed(2)`: the nearest hundredth, the larger one on a tie; a negative number is rounded by magnitude. */
  function Paise(x: real): int {
    if x < 0.0 then -(0.5 - x * 100.0).Floor else (x * 100.0 + 0.5).Floor
  }

  function RoundCurrency(x: real): real {
    Rupees(Paise(x))
  }

  ghost predicate WholePaise(x: real) {
    exists n :: x == Rupees(n)
  }

  function Abs(x: real): real {
    if x < 0.0 then -x else x
  }

  function Max(x: real, y: real): real {
    if x >= y then x else y
  }

  ghost predicate NearestPaise(x: real, r: real) {
    WholePaise(r) && if x < 0.0 then -0.005 <= r - x < 0.005 else -0.005 < r - x <= 0.005
  }

  /** Rounding gives the nearest whole number of paise, ties going away from zero, and nothing else does. */
  lemma RoundIsNearest(x: real, r: real)
    ensures NearestPaise(x, r) <==> r == RoundCurrency(x)
  {
    if NearestPaise(x, r) {
      var n :| r == Rupees(n);
      assert n == Paise(x);
    }
  }

  lemma RoundFacts(x: real)
    ensures WholePaise(RoundCurrency(x)) && Abs(RoundCurrency(x) - x) <= 0.005
    ensures 0.0 <= x ==> 0.0 <= RoundCurrency(x)
    ensures WholePaise(x) ==> RoundCurrency(x) == x
  {
    RoundIsNearest(x, RoundCurrency(x));
    RoundIsNearest(x, x);
  }

  lemma RoundMonotone(x: real, y: real)
    requires x <= y
    ensures RoundCurrency(x) <= RoundCurrency(y)
  {
    assert Paise(x) <= Paise(y);
  }

  lemma WholeSum(x: real, y: real)
    requires WholePaise(x) && WholePaise(y)
    ensures WholePaise(x + y) && WholePaise(x - y)
  {
    var n, m :| x == Rupees(n) && y == Rupees(m);
    assert x + y == Rupees(n + m) && x - y == Rupees(n - m);
  }

  lemma WholeGap(x: real, y: real)
    requires WholePaise(x) && WholePaise(y) && x <= y < x + 0.01
    ensures x == y
  {
    var n, m :| x == Rupees(n) && y == Rupees(m);
    assert n == m;
  }

  // ----- estimates -----

  function FareMultiplier(rideType: string): real {
    if rideType == "PREMIUM" then 1.5 else if rideType == "AUTO" then 0.85 else 1.0
  }

  function SpeedMultiplier(rideType: string): real {
    if rideType == "PREMIUM" then 0.95 else if rideType == "AUTO" then 0.85 else 1.0
  }

  function Speed(p: Settings, rideType: string): (kmph: real)
    ensures kmph >= 8.0
  {
    Max(p.averageSpeed * SpeedMultiplier(rideType), 8.0)
  }

  function Ceil(x: real): int {
    -((-x).Floor)
  }

  function EstimateEtaMinutes(p: Settings, distanceKm: real, rideType: string): real {
    Max(1.0, Ceil(distanceKm / Speed(p, rideType) * 60.0) as real)
  }

  /** The components of a fare before rounding. */
  datatype Parts = Parts(base: real, distance: real, duration: real, waiting: real)

  function PartsOf(p: Settings, distanceKm: real, durationMin: real, waitingMin: real, m: real): Parts {
    Parts(p.baseFare * m, distanceKm * p.perKm * m, durationMin * p.perMinute * m, waitingMin * p.waitingPerMinute * m)
  }

  function Subtotal(x: Parts): real {
    RoundCurrency(RoundCurrency(x.base) + RoundCurrency(x.distance) + RoundCurrency(x.duration) + RoundCurrency(x.waiting))
  }

  /** The commission before rounding. */
  function Share(p: Settings, total: real): real {
    total * p.commissionPercent / 100.0
  }

  function TotalFare(p: Settings, x: Parts): real {
    RoundCurrency(Max(Subtotal(x), p.minimumFare))
  }

  function EstimateFare(p: Settings, distanceKm: real, durationMin: real, waitingMin: real, rideType: string): Fare {
    var x := PartsOf(p, distanceKm, durationMin, waitingMin, FareMultiplier(rideType));
    var subtotal := Subtotal(x);
    var totalFare := Max(subtotal, p.minimumFare);
    var commissionAmount := RoundCurrency(Share(p, totalFare));
    Fare(rideType, RoundCurrency(distanceKm), RoundCurrency(durationMin), RoundCurrency(waitingMin),
         RoundCurrency(x.base), RoundCurrency(x.distance), RoundCurrency(x.duration), RoundCurrency(x.waiting),
         RoundCurrency(p.minimumFare), totalFare > subtotal, TotalFare(p, x), RoundCurrency(p.commissionPercent),
         commissionAmount, RoundCurrency(totalFare - commissionAmount))
  }

  // ----- rounding does not lose money -----

  lemma WholeSumOfFour(a: real, b: real, c: real, d: real)
    requires WholePaise(a) && WholePaise(b) && WholePaise(c) && WholePaise(d)
    ensures WholePaise(a + b + c + d)
  {
    WholeSum(a, b);
    WholeSum(a + b, c);
    WholeSum(a + b + c, d);
  }

  /** The components are rounded on their own; the rounded ones add up to the subtotal. */
  lemma SubtotalIsSum(x: Parts)
    ensures WholePaise(Subtotal(x))
    ensures Subtotal(x) == RoundCurrency(x.base) + RoundCurrency(x.distance) + RoundCurrency(x.duration) + RoundCurrency(x.waiting)
  {
    RoundFacts(x.base);
    RoundFacts(x.distance);
    RoundFacts(x.duration);
    RoundFacts(x.waiting);
    WholeSumOfFour(RoundCurrency(x.base), RoundCurrency(x.distance), RoundCurrency(x.duration), RoundCurrency(x.waiting));
    RoundFacts(RoundCurrency(x.base) + RoundCurrency(x.distance) + RoundCurrency(x.duration) + RoundCurrency(x.waiting));
  }

  /** Rounding moves the subtotal by two paise at most. */
  lemma SubtotalNearExact(x: Parts)
    ensures Abs(Subtotal(x) - (x.base + x.distance + x.duration + x.waiting)) <= 0.02
  {
    SubtotalIsSum(x);
    RoundFacts(x.base);
    RoundFacts(x.distance);
    RoundFacts(x.duration);
    RoundFacts(x.waiting);
  }

  lemma PartsNearest(f: Fare, a: real, b: real, c: real, d: real)
    requires f.baseFare == RoundCurrency(a) && f.distanceCharge == RoundCurrency(b)
    requires f.durationCharge == RoundCurrency(c) && f.waitingCharge == RoundCurrency(d)
    ensures NearestPaise(a, f.baseFare) && NearestPaise(b, f.distanceCharge)
    ensures NearestPaise(c, f.durationCharge) && NearestPaise(d, f.waitingCharge)
    ensures Abs(f.baseFare + f.distanceCharge + f.durationCharge + f.waitingCharge - (a + b + c + d)) <= 0.02
  {
    RoundIsNearest(a, f.baseFare);
    RoundIsNearest(b, f.distanceCharge);
    RoundIsNearest(c, f.durationCharge);
    RoundIsNearest(d, f.waitingCharge);
    FourRoundings(a, b, c, d, f.baseFare, f.distanceCharge, f.durationCharge, f.waitingCharge);
  }

  lemma FourRoundings(a: real, b: real, c: real, d: real, ra: real, rb: real, rc: real, rd: real)
    requires NearestPaise(a, ra) && NearestPaise(b, rb) && NearestPaise(c, rc) && NearestPaise(d, rd)
    ensures Abs(ra + rb + rc + rd - (a + b + c + d)) <= 0.02
  {
  }

  /**
   * Every charge is its quantity times its rate times the multiplier of the ride type (1.5 for PREMIUM, 0.85 for AUTO, else 1),
   * to the nearest paisa; the four together are within two paise of the exact sum.
   */
  lemma ChargesFollowRates(p: Settings, distanceKm: real, durationMin: real, waitingMin: real, rideType: string, m: real, x: Parts)
    requires m == if rideType == "PREMIUM" then 1.5 else if rideType == "AUTO" then 0.85 else 1.0
    requires x == Parts(p.baseFare * m, distanceKm * p.perKm * m, durationMin * p.perMinute * m, waitingMin * p.waitingPerMinute * m)
    ensures var f := EstimateFare(p, distanceKm, durationMin, waitingMin, rideType);
            && NearestPaise(x.base, f.baseFare) && NearestPaise(x.distance, f.distanceCharge)
            && NearestPaise(x.duration, f.durationCharge) && NearestPaise(x.waiting, f.waitingCharge)
            && Abs(f.baseFare + f.distanceCharge + f.durationCharge + f.waitingCharge
                   - m * (p.baseFare + distanceKm * p.perKm + durationMin * p.perMinute + waitingMin * p.waitingPerMinute)) <= 0.02
  {
    var f := EstimateFare(p, distanceKm, durationMin, waitingMin, rideType);
    PartsWritten(p, distanceKm, durationMin, waitingMin, m, x);
    ChargesOfParts(p, distanceKm, durationMin, waitingMin, rideType, m, x);
    PartsNearest(f, x.base, x.distance, x.duration, x.waiting);
    Distributes(p.baseFare, distanceKm * p.perKm, durationMin * p.perMinute, waitingMin * p.waitingPerMinute, m);
  }

  lemma PartsWritten(p: Settings, distanceKm: real, durationMin: real, waitingMin: real, m: real, x: Parts)
    requires x == Parts(p.baseFare * m, distanceKm * p.perKm * m, durationMin * p.perMinute * m, waitingMin * p.waitingPerMinute * m)
    ensures x == PartsOf(p, distanceKm, durationMin, waitingMin, m)
  {
  }

  lemma ChargesOfParts(p: Settings, distanceKm: real, durationMin: real, waitingMin: real, rideType: string, m: real, x: Parts)
    requires m == FareMultiplier(rideType) && x == PartsOf(p, distanceKm, durationMin, waitingMin, m)
    ensures var f := EstimateFare(p, distanceKm, durationMin, waitingMin, rideType);
            && f.baseFare == RoundCurrency(x.base) && f.distanceCharge == RoundCurrency(x.distance)
            && f.durationCharge == RoundCurrency(x.duration) && f.waitingCharge == RoundCurrency(x.waiting)
  {
  }

  lemma Distributes(a: real, b: real, c: real, d: real, m: real)
    ensures m * (a + b + c + d) == a * m + b * m + c * m + d * m
  {
  }

  /** The fare also repeats, to the nearest paisa, what it was computed from. */
  lemma FareRepeatsInputs(p: Settings, distanceKm: real, durationMin: real, waitingMin: real, rideType: string)
    ensures var f := EstimateFare(p, distanceKm, durationMin, waitingMin, rideType);
            && f.rideType == rideType && NearestPaise(distanceKm, f.distanceKm) && NearestPaise(durationMin, f.durationMin)
            && NearestPaise(waitingMin, f.waitingMin) && NearestPaise(p.minimumFare, f.minimumFare)
            && NearestPaise(p.commissionPercent, f.commissionPercent)
  {
    RoundIsNearest(distanceKm, RoundCurrency(distanceKm));
    RoundIsNearest(durationMin, RoundCurrency(durationMin));
    RoundIsNearest(waitingMin, RoundCurrency(waitingMin));
    RoundIsNearest(p.minimumFare, RoundCurrency(p.minimumFare));
    RoundIsNearest(p.commissionPercent, RoundCurrency(p.commissionPercent));
  }

  /** The commission is its percentage of the total, to the nearest paisa, and the driver earns the rest of it. */
  lemma CommissionFollowsPercentage(p: Settings, distanceKm: real, durationMin: real, waitingMin: real, rideType: string, total: real)
    requires var f := EstimateFare(p, distanceKm, durationMin, waitingMin, rideType);
             var sum := f.baseFare + f.distanceCharge + f.durationCharge + f.waitingCharge;
             total == if sum >= p.minimumFare then sum else p.minimumFare
    ensures var f := EstimateFare(p, distanceKm, durationMin, waitingMin, rideType);
            && NearestPaise(total, f.totalFare) && NearestPaise(total * p.commissionPercent / 100.0, f.commissionAmount)
            && NearestPaise(total - f.commissionAmount, f.driverEarning)
  {
    var f := EstimateFare(p, distanceKm, durationMin, waitingMin, rideType);
    SubtotalIsSum(PartsOf(p, distanceKm, durationMin, waitingMin, FareMultiplier(rideType)));
    ShareNearest(p, f, total);
  }

  lemma ShareNearest(p: Settings, f: Fare, total: real)
    requires f.totalFare == RoundCurrency(total)
    requires f.commissionAmount == RoundCurrency(Share(p, total)) && f.driverEarning == RoundCurrency(total - f.commissionAmount)
    ensures NearestPaise(total, f.totalFare) && NearestPaise(total * p.commissionPercent / 100.0, f.commissionAmount)
    ensures NearestPaise(total - f.commissionAmount, f.driverEarning)
  {
    SplitNearest(f, total, Share(p, total));
  }

  lemma SplitNearest(f: Fare, total: real, share: real)
    requires f.totalFare == RoundCurrency(total)
    requires f.commissionAmount == RoundCurrency(share) && f.driverEarning == RoundCurrency(total - f.commissionAmount)
    ensures NearestPaise(total, f.totalFare) && NearestPaise(share, f.commissionAmount)
    ensures NearestPaise(total - f.commissionAmount, f.driverEarning)
  {
    RoundIsNearest(total, f.totalFare);
    RoundIsNearest(share, f.commissionAmount);
    RoundIsNearest(total - f.commissionAmount, f.driverEarning);
  }

  /** Commission and driver's earning, as recorded, add up to the fare as recorded. */
  predicate AddsUp(total: real, share: real) {
    RoundCurrency(share) + RoundCurrency(total - RoundCurrency(share)) == RoundCurrency(total)
  }

  /** The amount is half a paisa short of a whole one. */
  ghost predicate HalfPaisaShort(x: real) {
    WholePaise(x + 0.005)
  }

  lemma HalfPaisaShortIff(x: real)
    requires 0.0 <= x
    ensures HalfPaisaShort(x) <==> RoundCurrency(x) - x == 0.005
  {
    RoundIsNearest(x, RoundCurrency(x));
    RoundIsNearest(x, x + 0.005);
  }

  /** Exactly when the split adds up, and exactly when the driver's share is not negative: not if a half-paisa total is all commission. */
  lemma SplitExactIff(total: real, share: real)
    requires 0.0 <= share <= total
    ensures AddsUp(total, share) <==> !(HalfPaisaShort(total) && share == total)
    ensures 0.0 <= RoundCurrency(total - RoundCurrency(share)) <==> !(HalfPaisaShort(total) && share == total)
  {
    var commission, rounded := RoundCurrency(share), RoundCurrency(total);
    RoundMonotone(share, total);
    RoundFacts(share);
    RoundIsNearest(total, rounded);
    HalfPaisaShortIff(total);
    if commission <= total {
      WholeSum(rounded, commission);
      RoundIsNearest(total - commission, rounded - commission);
      RoundFacts(total - commission);
    } else {
      WholeGap(commission, rounded);
      JustBelowZero(total - commission);
      RoundIsNearest(share, rounded);
    }
  }

  lemma JustBelowZero(x: real)
    requires -0.005 <= x < 0.0
    ensures RoundCurrency(x) == if x == -0.005 then -0.01 else 0.0
  {
    assert Rupees(0) == 0.0 && Rupees(-1) == -0.01;
    RoundIsNearest(x, Rupees(0));
    RoundIsNearest(x, Rupees(-1));
  }

  lemma ShareAtMostTotal(p: Settings, total: real)
    requires 0.0 <= total && ValidSettings(p)
    ensures 0.0 <= Share(p, total) <= total
  {
    var percent := p.commissionPercent;
    ProductMonotone(percent, 100.0, total);
    ProductMonotone(0.0, percent, total);
    assert 0.0 <= total * percent <= total * 100.0;
  }

  /** Only a commission of 100 percent takes the whole of it. */
  lemma FullShareIff(p: Settings, total: real)
    requires 0.0 < total && ValidSettings(p)
    ensures Share(p, total) == total <==> p.commissionPercent == 100.0
  {
    var percent := p.commissionPercent;
    if percent < 100.0 {
      StrictProduct(percent, 100.0, total);
      assert total * percent < total * 100.0;
    }
  }

  lemma SharesOf(p: Settings, f: Fare, total: real)
    requires 0.0 <= total && ValidSettings(p) && f.totalFare == RoundCurrency(total)
    requires f.commissionAmount == RoundCurrency(Share(p, total)) && f.driverEarning == RoundCurrency(total - f.commissionAmount)
    ensures 0.0 <= f.commissionAmount
    ensures f.commissionAmount + f.driverEarning == f.totalFare && 0.0 <= f.driverEarning
       <==> !(HalfPaisaShort(total) && p.commissionPercent == 100.0)
  {
    ShareAtMostTotal(p, total);
    SplitFacts(f, total, Share(p, total));
    if HalfPaisaShort(total) {
      HalfPaisaShortIff(total);
      ZeroIsWhole();
      FullShareIff(p, total);
    }
  }

  lemma ZeroIsWhole()
    ensures RoundCurrency(0.0) == 0.0
  {
    assert Rupees(0) == 0.0;
    RoundIsNearest(0.0, 0.0);
  }

  lemma SplitFacts(f: Fare, total: real, share: real)
    requires 0.0 <= share <= total && f.totalFare == RoundCurrency(total)
    requires f.commissionAmount == RoundCurrency(share) && f.driverEarning == RoundCurrency(total - f.commissionAmount)
    ensures 0.0 <= f.commissionAmount
    ensures f.commissionAmount + f.driverEarning == f.totalFare && 0.0 <= f.driverEarning
       <==> !(HalfPaisaShort(total) && share == total)
  {
    RoundFacts(share);
    SplitExactIff(total, share);
  }

  /** The settings that lose money on this trip: all commission, and a minimum fare half a paisa short of a whole one that applies. */
  ghost predicate LosesHalfPaisa(p: Settings, x: Parts) {
    p.commissionPercent == 100.0 && HalfPaisaShort(p.minimumFare) && Subtotal(x) < p.minimumFare
  }

  lemma HalfPaisaTotal(p: Settings, x: Parts)
    ensures HalfPaisaShort(Max(Subtotal(x), p.minimumFare)) <==> HalfPaisaShort(p.minimumFare) && Subtotal(x) < p.minimumFare
  {
    SubtotalIsSum(x);
    if HalfPaisaShort(Subtotal(x)) {
      WholeSum(Subtotal(x) + 0.005, Subtotal(x));
      HalfIsNotWhole();
    }
  }

  lemma HalfIsNotWhole()
    ensures !WholePaise(0.005)
  {
    if n :| 0.005 == Rupees(n) {
      assert n <= 0 || n >= 1;
    }
  }

  /** Exactly when the fare of a trip splits without loss, neither share being negative. */
  lemma SharesAddUpIff(p: Settings, distanceKm: real, durationMin: real, waitingMin: real, rideType: string)
    requires ValidSettings(p)
    ensures var f := EstimateFare(p, distanceKm, durationMin, waitingMin, rideType);
            var x := PartsOf(p, distanceKm, durationMin, waitingMin, FareMultiplier(rideType));
            && 0.0 <= f.commissionAmount
            && (f.commissionAmount + f.driverEarning == f.totalFare && 0.0 <= f.driverEarning <==> !LosesHalfPaisa(p, x))
  {
    var x := PartsOf(p, distanceKm, durationMin, waitingMin, FareMultiplier(rideType));
    HalfPaisaTotal(p, x);
    SharesOf(p, EstimateFare(p, distanceKm, durationMin, waitingMin, rideType), Max(Subtotal(x), p.minimumFare));
  }

  lemma HalfPaisaSettings() returns (p: Settings)
    ensures ValidSettings(p) && p.commissionPercent == 100.0 && p.minimumFare == 0.005
    ensures LosesHalfPaisa(p, PartsOf(p, 0.0, 0.0, 0.0, 1.0))
  {
    p := Settings(0.0, 0.0, 0.0, 0.0, 0.005, 100.0, 28.0);
    HalfIsShort();
    NothingLoses(p, PartsOf(p, 0.0, 0.0, 0.0, 1.0));
  }

  lemma NothingLoses(p: Settings, x: Parts)
    requires p.commissionPercent == 100.0 && p.minimumFare == 0.005 && x == Parts(0.0, 0.0, 0.0, 0.0) && HalfPaisaShort(0.005)
    ensures LosesHalfPaisa(p, x)
  {
    NothingCostsNothing();
  }

  lemma HalfIsShort()
    ensures HalfPaisaShort(0.005)
  {
    assert 0.005 + 0.005 == Rupees(1);
  }

  /** Settings with a loss: no rates, a minimum fare of half a paisa, all of it commission. */
  lemma HalfPaisaLost() returns (p: Settings)
    ensures ValidSettings(p) && p.commissionPercent == 100.0 && p.minimumFare == 0.005
    ensures var f := EstimateFare(p, 0.0, 0.0, 0.0, "STANDARD");
            !(f.commissionAmount + f.driverEarning == f.totalFare && 0.0 <= f.driverEarning)
  {
    p := HalfPaisaSettings();
    SharesAddUpIff(p, 0.0, 0.0, 0.0, "STANDARD");
  }

  lemma NothingCostsNothing()
    ensures Subtotal(Parts(0.0, 0.0, 0.0, 0.0)) == 0.0
  {
    SubtotalIsSum(Parts(0.0, 0.0, 0.0, 0.0));
    ZeroIsWhole();
  }

  /** With a minimum fare in whole paise nothing is lost between the driver and the platform. */
  lemma SharesAddUp(p: Settings, distanceKm: real, durationMin: real, waitingMin: real, rideType: string)
    requires ValidSettings(p) && WholePaise(p.minimumFare)
    ensures var f := EstimateFare(p, distanceKm, durationMin, waitingMin, rideType);
            f.commissionAmount + f.driverEarning == f.totalFare && 0.0 <= f.commissionAmount && 0.0 <= f.driverEarning
  {
    var x := PartsOf(p, distanceKm, durationMin, waitingMin, FareMultiplier(rideType));
    if HalfPaisaShort(p.minimumFare) {
      WholeSum(p.minimumFare + 0.005, p.minimumFare);
      HalfIsNotWhole();
    }
    SharesAddUpIff(p, distanceKm, durationMin, waitingMin, rideType);
  }

  /** The minimum fare is charged, in whole paise, exactly when the rounded components add up to less; the flag tells which. */
  lemma MinimumApplies(p: Settings, distanceKm: real, durationMin: real, waitingMin: real, rideType: string)
    ensures var f := EstimateFare(p, distanceKm, durationMin, waitingMin, rideType);
            var subtotal := f.baseFare + f.distanceCharge + f.durationCharge + f.waitingCharge;
            && (f.minimumApplied <==> subtotal < p.minimumFare)
            && f.totalFare == if f.minimumApplied then f.minimumFare else subtotal
  {
    var x := PartsOf(p, distanceKm, durationMin, waitingMin, FareMultiplier(rideType));
    SubtotalIsSum(x);
    RoundFacts(Subtotal(x));
  }

  // ----- comparing fares -----

  predicate NoLarger(x: Parts, y: Parts) {
    x.base <= y.base && x.distance <= y.distance && x.duration <= y.duration && x.waiting <= y.waiting
  }

  lemma TotalMonotone(p: Settings, x: Parts, y: Parts)
    requires NoLarger(x, y)
    ensures TotalFare(p, x) <= TotalFare(p, y)
  {
    RoundMonotone(x.base, y.base);
    RoundMonotone(x.distance, y.distance);
    RoundMonotone(x.duration, y.duration);
    RoundMonotone(x.waiting, y.waiting);
    SubtotalIsSum(x);
    SubtotalIsSum(y);
    RoundMonotone(Max(Subtotal(x), p.minimumFare), Max(Subtotal(y), p.minimumFare));
  }

  lemma ProductMonotone(x: real, y: real, rate: real)
    requires x <= y && 0.0 <= rate
    ensures x * rate <= y * rate && rate * x <= rate * y
  {
  }

  lemma ChargeMonotone(x: real, y: real, rate: real, m: real, n: real)
    requires x <= y && 0.0 <= rate && 0.0 <= m <= n && (m == n || 0.0 <= y)
    ensures x * rate * m <= y * rate * n
  {
    ProductMonotone(x, y, rate);
    ProductMonotone(x * rate, y * rate, m);
    if m != n {
      ProductMonotone(0.0, y, rate);
      ProductMonotone(m, n, y * rate);
    }
  }

  /** A longer, slower or more delayed ride of the same type never costs less. */
  lemma FareMonotone(p: Settings, d1: real, t1: real, w1: real, d2: real, t2: real, w2: real, rideType: string)
    requires ValidSettings(p) && d1 <= d2 && t1 <= t2 && w1 <= w2
    ensures EstimateFare(p, d1, t1, w1, rideType).totalFare <= EstimateFare(p, d2, t2, w2, rideType).totalFare
  {
    var m := FareMultiplier(rideType);
    ChargeMonotone(d1, d2, p.perKm, m, m);
    ChargeMonotone(t1, t2, p.perMinute, m, m);
    ChargeMonotone(w1, w2, p.waitingPerMinute, m, m);
    TotalMonotone(p, PartsOf(p, d1, t1, w1, FareMultiplier(rideType)), PartsOf(p, d2, t2, w2, FareMultiplier(rideType)));
  }

  lemma CeilIsLeast(x: real)
    ensures Ceil(x) as real - 1.0 < x <= Ceil(x) as real
  {
  }

  lemma QuotientTimes(x: real, y: real)
    requires y > 0.0
    ensures x / y * y == x
  {
  }

  /**
   * The arrival estimate is the least whole number of minutes, at least one, in which the distance can be driven at the average
   * speed (times 0.95 for PREMIUM and 0.85 for AUTO), which counts as 8 kilometres an hour at least.
   */
  lemma EtaIsLeast(p: Settings, distanceKm: real, rideType: string, k: real, speed: real)
    requires 0.0 <= distanceKm && k == if rideType == "PREMIUM" then 0.95 else if rideType == "AUTO" then 0.85 else 1.0
    requires speed == if p.averageSpeed * k >= 8.0 then p.averageSpeed * k else 8.0
    ensures var eta, perMinute := EstimateEtaMinutes(p, distanceKm, rideType), speed / 60.0;
            && eta == eta.Floor as real && 1.0 <= eta
            && distanceKm <= eta * perMinute
            && (eta == 1.0 || (eta - 1.0) * perMinute < distanceKm)
  {
    assert speed == Speed(p, rideType);
    MinutesTimesSpeed(distanceKm, speed);
    LeastWhole(distanceKm, distanceKm / speed * 60.0, speed / 60.0);
  }

  lemma MinutesTimesSpeed(distanceKm: real, speed: real)
    requires 0.0 < speed
    ensures distanceKm / speed * 60.0 * (speed / 60.0) == distanceKm
  {
    QuotientTimes(distanceKm, speed);
  }

  lemma LeastWhole(distanceKm: real, minutes: real, perMinute: real)
    requires 0.0 < perMinute && minutes * perMinute == distanceKm
    ensures var eta := Max(1.0, Ceil(minutes) as real);
            && eta == eta.Floor as real && 1.0 <= eta
            && distanceKm <= eta * perMinute
            && (eta == 1.0 || (eta - 1.0) * perMinute < distanceKm)
  {
    CeilIsLeast(minutes);
    OneLess(distanceKm, minutes, perMinute, Ceil(minutes) as real);
    ProductMonotone(minutes, Max(1.0, Ceil(minutes) as real), perMinute);
  }

  lemma OneLess(distanceKm: real, minutes: real, perMinute: real, whole: real)
    requires 0.0 < perMinute && minutes * perMinute == distanceKm && whole - 1.0 < minutes
    ensures (whole - 1.0) * perMinute < distanceKm
  {
    StrictProduct(whole - 1.0, minutes, perMinute);
  }

  lemma StrictProduct(x: real, y: real, rate: real)
    requires x < y && 0.0 < rate
    ensures x * rate < y * rate
  {
  }

  lemma SlowerTakesLonger(p: Settings, distanceKm: real, type1: string, type2: string)
    requires 0.0 <= distanceKm && Speed(p, type2) <= Speed(p, type1)
    ensures EstimateEtaMinutes(p, distanceKm, type1) <= EstimateEtaMinutes(p, distanceKm, type2)
  {
    QuotientAntitone(distanceKm, Speed(p, type2), Speed(p, type1));
    CeilMonotone(distanceKm / Speed(p, type1) * 60.0, distanceKm / Speed(p, type2) * 60.0);
  }

  lemma QuotientAntitone(x: real, slow: real, fast: real)
    requires 0.0 <= x && 0.0 < slow <= fast
    ensures x / fast <= x / slow
  {
    var q := x / fast;
    QuotientTimes(x, slow);
    QuotientTimes(x, fast);
    ProductMonotone(slow, fast, q);
    if x / slow < q {
      StrictProduct(x / slow, q, slow);
    }
  }

  lemma CeilMonotone(x: real, y: real)
    requires x <= y
    ensures Ceil(x) <= Ceil(y)
  {
    CeilIsLeast(x);
    CeilIsLeast(y);
  }

  /** The whole estimate for a requested trip: its duration depends on the ride type as well. */
  function TripFare(p: Settings, distanceKm: real, rideType: string): Fare {
    EstimateFare(p, distanceKm, EstimateEtaMinutes(p, distanceKm, rideType), 0.0, rideType)
  }

  /** A premium trip is priced higher by the kilometre and the minute, and is estimated to take no less time. */
  lemma PremiumNotCheaper(p: Settings, distanceKm: real)
    requires ValidSettings(p) && 0.0 <= p.averageSpeed && 0.0 <= distanceKm
    ensures TripFare(p, distanceKm, "STANDARD").totalFare <= TripFare(p, distanceKm, "PREMIUM").totalFare
  {
    SlowerTakesLonger(p, distanceKm, "STANDARD", "PREMIUM");
    var t1, t2 := EstimateEtaMinutes(p, distanceKm, "STANDARD"), EstimateEtaMinutes(p, distanceKm, "PREMIUM");
    PartsGrow(p, distanceKm, t1, t2, 1.0, 1.5);
    TotalMonotone(p, PartsOf(p, distanceKm, t1, 0.0, 1.0), PartsOf(p, distanceKm, t2, 0.0, 1.5));
  }

  lemma PartsGrow(p: Settings, distanceKm: real, t1: real, t2: real, m: real, n: real)
    requires ValidSettings(p) && 0.0 <= distanceKm && 0.0 <= t1 <= t2 && 0.0 <= m <= n
    ensures NoLarger(PartsOf(p, distanceKm, t1, 0.0, m), PartsOf(p, distanceKm, t2, 0.0, n))
  {
    ChargeMonotone(distanceKm, distanceKm, p.perKm, m, n);
    ChargeMonotone(t1, t2, p.perMinute, m, n);
    ChargeMonotone(0.0, 0.0, p.waitingPerMinute, m, n);
    ProductMonotone(m, n, p.baseFare);
  }

  // ----- the fare of a completed ride -----

  /** The fields of a ride that its final fare depends on; times in milliseconds. */
  datatype Trip = Trip(
    rideType: string,
    estimatedDistanceKm: real,
    estimatedDurationMin: real,
    acceptedAt: Option<int>,
    createdAt: Option<int>,
    actualDistanceKm: real,
    actualDurationMin: real)

  /** What `requestRide` stores. */
  function Requested(p: Settings, distanceKm: real, rideType: string, now: int): Trip {
    Trip(rideType, distanceKm, EstimateEtaMinutes(p, distanceKm, rideType), None, Some(now), 0.0, 0.0)
  }

  function ResolveActualDurationMinutes(trip: Trip, now: int): real {
    var from := if trip.acceptedAt.Some? then trip.acceptedAt else trip.createdAt;
    if from.None? || now - from.value <= 0 then trip.estimatedDurationMin
    else RoundCurrency((now - from.value) as real / 60000.0)
  }

  /** `value || fallback` on numbers. */
  function Or(value: real, fallback: real): real {
    if value == 0.0 then fallback else value
  }

  /** The transition to COMPLETED, with the options its caller gives. */
  function CompletedFare(p: Settings, trip: Trip, distance: Option<real>, duration: Option<real>, waitingMin: real, now: int): Fare {
    var actualDistanceKm := Or(if distance.Some? then distance.value else trip.actualDistanceKm, trip.estimatedDistanceKm);
    var actualDurationMin :=
      Or(if duration.Some? then duration.value else trip.actualDurationMin, ResolveActualDurationMinutes(trip, now));
    EstimateFare(p, actualDistanceKm, actualDurationMin, waitingMin, trip.rideType)
  }

  /** `completeRide`, which gives none. */
  function CompleteRide(p: Settings, trip: Trip, now: int): Fare {
    CompletedFare(p, trip, None, None, 0.0, now)
  }

  /** The time on the meter is the time since acceptance, to the hundredth of a minute. */
  lemma MeteredTime(trip: Trip, now: int)
    requires trip.acceptedAt.Some? && trip.acceptedAt.value < now
    ensures Abs(ResolveActualDurationMinutes(trip, now) - (now - trip.acceptedAt.value) as real / 60000.0) <= 0.005
    ensures 0.0 <= ResolveActualDurationMinutes(trip, now)
  {
    RoundFacts((now - trip.acceptedAt.value) as real / 60000.0);
  }

  /** It counts from the request when the acceptance is not on record, and is the estimate when no time has passed or none is on record. */
  lemma MeterFallsBack(trip: Trip, now: int)
    requires trip.acceptedAt.Some? ==> now <= trip.acceptedAt.value
    ensures if trip.acceptedAt.None? && trip.createdAt.Some? && trip.createdAt.value < now
            then NearestPaise((now - trip.createdAt.value) as real / 60000.0, ResolveActualDurationMinutes(trip, now))
            else ResolveActualDurationMinutes(trip, now) == trip.estimatedDurationMin
  {
    if trip.acceptedAt.None? && trip.createdAt.Some? {
      var minutes := (now - trip.createdAt.value) as real / 60000.0;
      RoundIsNearest(minutes, RoundCurrency(minutes));
    }
  }

  /**
   * A completion is charged for the distance and time given or, failing that, on record, unless they are 0: then for the estimated
   * distance, and for the time on the meter. The waiting time is charged as given.
   */
  lemma GivenValuesAreCharged(p: Settings, trip: Trip, distance: Option<real>, duration: Option<real>, waitingMin: real, now: int,
                              distanceKm: real, durationMin: real)
    requires distanceKm == if distance.Some? then distance.value else trip.actualDistanceKm
    requires durationMin == if duration.Some? then duration.value else trip.actualDurationMin
    ensures CompletedFare(p, trip, distance, duration, waitingMin, now)
         == EstimateFare(p, if distanceKm != 0.0 then distanceKm else trip.estimatedDistanceKm,
                         if durationMin != 0.0 then durationMin else ResolveActualDurationMinutes(trip, now), waitingMin, trip.rideType)
  {
  }

  /** Totals that differ in the duration component only differ by at most that, and one paisa. */
  lemma TotalSpread(p: Settings, x: Parts, y: Parts)
    requires y == x.(duration := y.duration)
    ensures Abs(TotalFare(p, x) - TotalFare(p, y)) <= Abs(x.duration - y.duration) + 0.01
  {
    RoundFacts(x.duration);
    RoundFacts(y.duration);
    SubtotalIsSum(x);
    SubtotalIsSum(y);
    AtLeastSpread(Subtotal(x), Subtotal(y), p.minimumFare);
  }

  /** Taking the larger of two whole amounts and a third one, and rounding, does not drive them further apart. */
  lemma AtLeastSpread(x: real, y: real, least: real)
    requires WholePaise(x) && WholePaise(y)
    ensures Abs(RoundCurrency(Max(x, least)) - RoundCurrency(Max(y, least))) <= Abs(x - y)
  {
    RoundFacts(x);
    RoundFacts(y);
    if least < x {
      RoundMonotone(least, x);
    } else {
      RoundMonotone(x, least);
    }
    if least < y {
      RoundMonotone(least, y);
    } else {
      RoundMonotone(y, least);
    }
  }

  lemma ProductSpread(x: real, y: real, rate: real, m: real)
    requires 0.0 <= rate && 0.0 <= m
    ensures Abs(x * rate * m - y * rate * m) == rate * m * Abs(x - y)
  {
    var k := rate * m;
    ProductMonotone(0.0, rate, m);
    assert x * rate * m == x * k && y * rate * m == y * k;
    assert x * k - y * k == (x - y) * k;
    ProductMonotone(0.0, Abs(x - y), k);
    assert Abs((x - y) * k) == Abs(x - y) * k;
  }

  lemma PartsSpread(p: Settings, distanceKm: real, t1: real, t2: real, m: real)
    requires 0.0 <= p.perMinute && 0.0 <= m
    ensures var x, y := PartsOf(p, distanceKm, t1, 0.0, m), PartsOf(p, distanceKm, t2, 0.0, m);
            y == x.(duration := y.duration) && Abs(x.duration - y.duration) == p.perMinute * m * Abs(t1 - t2)
  {
    ProductSpread(t1, t2, p.perMinute, m);
  }

  lemma TotalsSpread(p: Settings, f: real, g: real, distanceKm: real, t1: real, t2: real, m: real)
    requires 0.0 <= p.perMinute && 0.0 <= m
    requires f == TotalFare(p, PartsOf(p, distanceKm, t1, 0.0, m))
    requires g == TotalFare(p, PartsOf(p, distanceKm, t2, 0.0, m))
    ensures Abs(f - g) <= p.perMinute * m * Abs(t1 - t2) + 0.01
  {
    PartsSpread(p, distanceKm, t1, t2, m);
    TotalSpread(p, PartsOf(p, distanceKm, t1, 0.0, m), PartsOf(p, distanceKm, t2, 0.0, m));
  }

  lemma FareSpread(p: Settings, distanceKm: real, t1: real, t2: real, rideType: string)
    requires ValidSettings(p)
    ensures Abs(EstimateFare(p, distanceKm, t1, 0.0, rideType).totalFare - EstimateFare(p, distanceKm, t2, 0.0, rideType).totalFare)
            <= p.perMinute * FareMultiplier(rideType) * Abs(t1 - t2) + 0.01
  {
    TotalsSpread(p, EstimateFare(p, distanceKm, t1, 0.0, rideType).totalFare, EstimateFare(p, distanceKm, t2, 0.0, rideType).totalFare,
                 distanceKm, t1, t2, FareMultiplier(rideType));
  }

  lemma CompletedAs(p: Settings, trip: Trip, now: int, minutes: real)
    requires trip.actualDistanceKm == 0.0 && trip.actualDurationMin == 0.0 && minutes == ResolveActualDurationMinutes(trip, now)
    ensures CompleteRide(p, trip, now) == EstimateFare(p, trip.estimatedDistanceKm, minutes, 0.0, trip.rideType)
  {
  }

  /**
   * A ride is completed for what was estimated when it was requested, but for the price of the minutes it took longer
   * or shorter than estimated, and one paisa.
   */
  lemma FinalFareNearEstimate(p: Settings, trip: Trip, now: int, minutes: real)
    requires ValidSettings(p)
    requires trip.actualDistanceKm == 0.0 && trip.actualDurationMin == 0.0 && minutes == ResolveActualDurationMinutes(trip, now)
    ensures Abs(CompleteRide(p, trip, now).totalFare
                - EstimateFare(p, trip.estimatedDistanceKm, trip.estimatedDurationMin, 0.0, trip.rideType).totalFare)
            <= p.perMinute * FareMultiplier(trip.rideType) * Abs(minutes - trip.estimatedDurationMin) + 0.01
  {
    FareSpread(p, trip.estimatedDistanceKm, minutes, trip.estimatedDurationMin, trip.rideType);
    CompletedAs(p, trip, now, minutes);
  }

  /** The fields of a requested trip; the estimate shown at request time is the fare of what is stored. */
  lemma RequestedTripFare(p: Settings, distanceKm: real, rideType: string, requestedAt: int)
    ensures var trip := Requested(p, distanceKm, rideType, requestedAt);
            && trip.estimatedDistanceKm == distanceKm && trip.rideType == rideType
            && trip.actualDistanceKm == 0.0 && trip.actualDurationMin == 0.0
            && TripFare(p, distanceKm, rideType) == EstimateFare(p, trip.estimatedDistanceKm, trip.estimatedDurationMin, 0.0, trip.rideType)
  {
  }

  lemma FareNearQuote(p: Settings, trip: Trip, now: int, minutes: real, quote: Fare)
    requires ValidSettings(p) && trip.actualDistanceKm == 0.0 && trip.actualDurationMin == 0.0
    requires minutes == ResolveActualDurationMinutes(trip, now)
    requires quote == EstimateFare(p, trip.estimatedDistanceKm, trip.estimatedDurationMin, 0.0, trip.rideType)
    ensures Abs(CompleteRide(p, trip, now).totalFare - quote.totalFare)
            <= p.perMinute * FareMultiplier(trip.rideType) * Abs(minutes - trip.estimatedDurationMin) + 0.01
  {
    FinalFareNearEstimate(p, trip, now, minutes);
  }

  /** So the final fare of a ride, whenever it was accepted, stays that close to the estimate shown when it was requested. */
  lemma FinalFareNearQuote(p: Settings, distanceKm: real, rideType: string, requestedAt: int, acceptedAt: int, now: int,
                           trip: Trip, minutes: real)
    requires ValidSettings(p) && trip == Requested(p, distanceKm, rideType, requestedAt).(acceptedAt := Some(acceptedAt))
    requires minutes == ResolveActualDurationMinutes(trip, now)
    ensures Abs(CompleteRide(p, trip, now).totalFare - TripFare(p, distanceKm, rideType).totalFare)
            <= p.perMinute * FareMultiplier(trip.rideType) * Abs(minutes - trip.estimatedDurationMin) + 0.01
  {
    RequestedTripFare(p, distanceKm, rideType, requestedAt);
    FareNearQuote(p, trip, now, minutes, TripFare(p, distanceKm, rideType));
  }
}
