/**
  Benefit calculator of the EcoRide demo: the cost, CO2 and travel time of
  four transport options for one trip, and the savings, CO2 avoided and
  points earned by choosing an option other than the private car.

  Every magnitude (CLP, km, kg CO2, minutes) is an exact `real`; the
  points are an `int`.
 */
module Logic {

  // ---------------------------------------------------------------- constants

  /** Average fuel price, CLP per litre. */
  const FuelPriceClp: real := 1300.0
  /** Fuel efficiency of a private car, km per litre. */
  const FuelEfficiencyKmPerL: real := 12.0
  /** Car emissions, kg CO2 per km. */
  const CarCo2KgPerKm: real := 0.192
  /** Bus emissions, kg CO2 per passenger-km. */
  const BusCo2KgPerKm: real := 0.089
  /** Bus fare prorated per km, CLP. */
  const BusCostClpPerKm: real := 80.0
  /** One point per 10 CLP saved. */
  const ClpToPoints: real := 0.1
  /** Five points per kg of CO2 avoided. */
  const Co2ToPoints: real := 5.0
  /** Average urban speed used for every travel time, km/h. */
  const AvgSpeedKmPerH: real := 35.0

  // --------------------------------------------------------------- data model

  datatype Mode = Auto | Bus | Carpool | Bicicleta

  /** The result of evaluating one transport option for a trip. */
  datatype OptionResult = OptionResult(mode: Mode, costClp: real, co2Kg: real, timeMin: real)

  /** What choosing an option gains against the car: (ahorro, co2_ev, puntos). */
  datatype Benefit = Benefit(savingsClp: real, co2AvoidedKg: real, points: int)

  // ------------------------------------------------------------ the formulas

  /** Litres burnt over the distance times the price of a litre. */
  function CarCost(distanceKm: real, fuelPrice: real): real
  {
    var litres := distanceKm / FuelEfficiencyKmPerL;
    litres * fuelPrice
  }

  function CarCo2(distanceKm: real): real
  {
    distanceKm * CarCo2KgPerKm
  }

  function BusCost(distanceKm: real): real
  {
    distanceKm * BusCostClpPerKm
  }

  function BusCo2(distanceKm: real): real
  {
    distanceKm * BusCo2KgPerKm
  }

  /** Cost per passenger when the car is shared by `nPassengers`. */
  function CarpoolCost(distanceKm: real, nPassengers: int, fuelPrice: real): real
    requires nPassengers >= 1
  {
    CarCost(distanceKm, fuelPrice) / (nPassengers as real)
  }

  /** Emissions per passenger when the car is shared by `nPassengers`. */
  function CarpoolCo2(distanceKm: real, nPassengers: int): real
    requires nPassengers >= 1
  {
    CarCo2(distanceKm) / (nPassengers as real)
  }

  /** Minutes needed at the average urban speed. */
  function TravelTimeBase(distanceKm: real): real
  {
    distanceKm / AvgSpeedKmPerH * 60.0
  }

  /**
    The four options for a trip, in the order Auto, Bus, Carpool, Bicicleta.
    Carpool splits the car's cost and emissions among the passengers and
    takes the car's time; the bus takes 20% longer and the bicycle twice as
    long, for free and without emissions.
   */
  function CalculateOptions(distanceKm: real, nPassengers: int, fuelPrice: real): (opts: seq<OptionResult>)
    requires nPassengers >= 1
    ensures |opts| == 4
    ensures opts[0].mode == Auto && opts[1].mode == Bus && opts[2].mode == Carpool && opts[3].mode == Bicicleta
    ensures opts[0].costClp * FuelEfficiencyKmPerL == distanceKm * fuelPrice
    ensures opts[0].co2Kg == distanceKm * CarCo2KgPerKm
    ensures opts[0].timeMin * AvgSpeedKmPerH == distanceKm * 60.0
    ensures opts[1].costClp == distanceKm * BusCostClpPerKm && opts[1].co2Kg == distanceKm * BusCo2KgPerKm
    ensures opts[2].costClp * (nPassengers as real) == opts[0].costClp
    ensures opts[2].co2Kg * (nPassengers as real) == opts[0].co2Kg
    ensures opts[3].costClp == 0.0 && opts[3].co2Kg == 0.0
    ensures opts[1].timeMin == opts[0].timeMin * 1.2
    ensures opts[2].timeMin == opts[0].timeMin
    ensures opts[3].timeMin == opts[0].timeMin * 2.0
  {
    var base := TravelTimeBase(distanceKm);
    [ OptionResult(Auto, CarCost(distanceKm, fuelPrice), CarCo2(distanceKm), base),
      OptionResult(Bus, BusCost(distanceKm), BusCo2(distanceKm), base * 1.2),
      OptionResult(Carpool, CarpoolCost(distanceKm, nPassengers, fuelPrice), CarpoolCo2(distanceKm, nPassengers), base),
      OptionResult(Bicicleta, 0.0, 0.0, base * 2.0) ]
  }

  // ------------------------------------------------------------------ points

  /** Python's `int(x)` on a float: truncation toward zero. */
  function TruncToInt(x: real): (r: int)
    ensures 0.0 <= x ==> r as real <= x < r as real + 1.0
    ensures x < 0.0 ==> r as real - 1.0 < x <= r as real
  {
    if x >= 0.0 then x.Floor else -((-x).Floor)
  }

  /** `max(int(raw), 0)`: the points awarded for a raw score. */
  function ClampedPoints(raw: real): (p: int)
    ensures p >= 0
    ensures raw < 1.0 ==> p == 0
    ensures raw >= 0.0 ==> p as real <= raw < p as real + 1.0
  {
    var t := TruncToInt(raw);
    if t > 0 then t else 0
  }

  /** Reference definition of the points: the floor of the raw score, never below zero. */
  ghost function ClampedFloor(raw: real): int
  {
    if raw.Floor > 0 then raw.Floor else 0
  }

  /** Once clamped at zero, truncation toward zero and the floor agree. */
  lemma ClampedPointsIsClampedFloor(raw: real)
    ensures ClampedPoints(raw) == ClampedFloor(raw)
  {
  }

  /**
    Savings and CO2 avoided of `chosen` against the car over the same trip,
    and the points they earn: one per 10 CLP saved plus five per kg avoided,
    rounded down and never negative.
   */
  function BenefitsVsAuto(distanceKm: real, chosen: OptionResult, nPassengers: int, fuelPrice: real): (b: Benefit)
    requires nPassengers >= 1
    ensures b.savingsClp == CalculateOptions(distanceKm, nPassengers, fuelPrice)[0].costClp - chosen.costClp
    ensures b.co2AvoidedKg == CalculateOptions(distanceKm, nPassengers, fuelPrice)[0].co2Kg - chosen.co2Kg
    ensures b.points >= 0
    ensures b.points == ClampedFloor(b.savingsClp * ClpToPoints + b.co2AvoidedKg * Co2ToPoints)
  {
    var auto := CalculateOptions(distanceKm, nPassengers, fuelPrice)[0];
    var savings := auto.costClp - chosen.costClp;
    var avoided := auto.co2Kg - chosen.co2Kg;
    var raw := savings * ClpToPoints + avoided * Co2ToPoints;
    ClampedPointsIsClampedFloor(raw);
    Benefit(savings, avoided, ClampedPoints(raw))
  }

  // ---------------------------------------------------------------- properties

  /** A carpool of one is the car itself. */
  lemma CarpoolOfOneIsCar(distanceKm: real, fuelPrice: real)
    ensures CarpoolCost(distanceKm, 1, fuelPrice) == CarCost(distanceKm, fuelPrice)
    ensures CarpoolCo2(distanceKm, 1) == CarCo2(distanceKm)
  {
  }

  /** Choosing the car yields no savings, no CO2 avoided and no points. */
  lemma AutoAgainstItselfIsZero(distanceKm: real, nPassengers: int, fuelPrice: real)
    requires nPassengers >= 1
    ensures BenefitsVsAuto(distanceKm, CalculateOptions(distanceKm, nPassengers, fuelPrice)[0], nPassengers, fuelPrice)
         == Benefit(0.0, 0.0, 0)
  {
  }

  /**
    Over a non-negative distance at a non-negative fuel price, sharing the
    car never costs or emits more than driving alone, so choosing Carpool
    never yields negative savings or negative CO2 avoided.
   */
  lemma CarpoolNeverLoses(distanceKm: real, nPassengers: int, fuelPrice: real)
    requires distanceKm >= 0.0 && nPassengers >= 1 && fuelPrice >= 0.0
    ensures CarpoolCost(distanceKm, nPassengers, fuelPrice) <= CarCost(distanceKm, fuelPrice)
    ensures CarpoolCo2(distanceKm, nPassengers) <= CarCo2(distanceKm)
    ensures var b := BenefitsVsAuto(distanceKm, CalculateOptions(distanceKm, nPassengers, fuelPrice)[2], nPassengers, fuelPrice);
            b.savingsClp >= 0.0 && b.co2AvoidedKg >= 0.0
  {
    var n := nPassengers as real;
    var car := CarCost(distanceKm, fuelPrice);
    var co2 := CarCo2(distanceKm);
    assert car >= 0.0 && co2 >= 0.0;
    assert car / n <= car by { assert (car / n) * n == car; }
    assert co2 / n <= co2 by { assert (co2 / n) * n == co2; }
  }

  /**
    A 10 km trip at 1300 CLP/L with three passengers, taking the bus:
    283.33 CLP saved, 1.03 kg CO2 avoided, 33 points.
   */
  lemma BusTenKmExample()
    ensures BenefitsVsAuto(10.0, CalculateOptions(10.0, 3, FuelPriceClp)[1], 3, FuelPriceClp)
         == Benefit(850.0 / 3.0, 1.03, 33)
  {
  }
}
