/**
  The session ledger of the EcoRide dashboard: accumulated savings, CO2
  avoided and points, the history of point totals (one entry per simulated
  trip) and the merchants the points were redeemed at.

  `Ledger` is the ledger as a value and `Apply`/`Replay` its transitions;
  class `Session` is the mutable session state the dashboard updates in
  place, and each of its methods is specified by one `Apply` step.
 */
module App {
  import opened Logic

  datatype Ledger = Ledger(
    totalSavingsClp: real,
    totalCo2Kg: real,
    totalPoints: int,
    pointsHistory: seq<int>,
    redeemed: seq<string>)

  /** What can happen to a session: a simulated trip or a redemption attempt. */
  datatype Event =
    | Trip(distanceKm: real, chosen: OptionResult, nPassengers: int)
    | Redemption(requiredPoints: int, merchant: string)

  /** The ledger of a session that has just started. */
  function InitialLedger(): (l: Ledger)
    ensures Sound(l)
    ensures l.totalSavingsClp == 0.0 && l.totalCo2Kg == 0.0
    ensures l.totalPoints == 0 && l.pointsHistory == [] && l.redeemed == []
  {
    Ledger(0.0, 0.0, 0, [], [])
  }

  /** The ledger invariant: no point total, current or past, is negative. */
  predicate Sound(l: Ledger)
  {
    l.totalPoints >= 0 && forall i :: 0 <= i < |l.pointsHistory| ==> l.pointsHistory[i] >= 0
  }

  /** The redeem button is enabled only when the points cover the merchant's requirement. */
  predicate CanRedeem(l: Ledger, requiredPoints: int)
  {
    !(l.totalPoints < requiredPoints)
  }

  predicate WellFormed(e: Event)
  {
    e.Trip? ==> e.nPassengers >= 1
  }

  /**
    One event. A trip adds its benefit to the three totals and records the
    new point total; a redemption that is allowed deducts the requirement
    and records the merchant, one that is not leaves the ledger as it was.
   */
  function Apply(l: Ledger, e: Event): Ledger
    requires WellFormed(e)
  {
    match e
    case Trip(distanceKm, chosen, nPassengers) =>
      var b := BenefitsVsAuto(distanceKm, chosen, nPassengers, FuelPriceClp);
      var points := l.totalPoints + b.points;
      Ledger(l.totalSavingsClp + b.savingsClp, l.totalCo2Kg + b.co2AvoidedKg,
             points, l.pointsHistory + [points], l.redeemed)
    case Redemption(requiredPoints, merchant) =>
      if CanRedeem(l, requiredPoints) then
        l.(totalPoints := l.totalPoints - requiredPoints, redeemed := l.redeemed + [merchant])
      else
        l
  }

  /** The ledger after the events, in order. */
  function Replay(l: Ledger, events: seq<Event>): Ledger
    requires forall i :: 0 <= i < |events| ==> WellFormed(events[i])
    decreases |events|
  {
    if events == [] then l else Replay(Apply(l, events[0]), events[1..])
  }

  function TripCount(events: seq<Event>): nat
  {
    if events == [] then 0 else (if events[0].Trip? then 1 else 0) + TripCount(events[1..])
  }

  /** The benefit an event brings to the totals: a trip's against the car, none for a redemption. */
  function EventBenefit(e: Event): Benefit
    requires WellFormed(e)
  {
    match e
    case Trip(d, chosen, n) => BenefitsVsAuto(d, chosen, n, FuelPriceClp)
    case Redemption(_, _) => Benefit(0.0, 0.0, 0)
  }

  /** Total savings of the trips among the events. */
  function TripSavings(events: seq<Event>): real
    requires forall i :: 0 <= i < |events| ==> WellFormed(events[i])
  {
    if events == [] then 0.0 else EventBenefit(events[0]).savingsClp + TripSavings(events[1..])
  }

  /** Total CO2 avoided by the trips among the events. */
  function TripCo2(events: seq<Event>): real
    requires forall i :: 0 <= i < |events| ==> WellFormed(events[i])
  {
    if events == [] then 0.0 else EventBenefit(events[0]).co2AvoidedKg + TripCo2(events[1..])
  }

  // ---------------------------------------------------------------- one step

  /**
    A trip raises each total by exactly the trip's benefit, adds one history
    entry equal to the new point total and keeps the ledger sound.
   */
  lemma TripStep(l: Ledger, distanceKm: real, chosen: OptionResult, nPassengers: int)
    requires Sound(l) && nPassengers >= 1
    ensures var b := BenefitsVsAuto(distanceKm, chosen, nPassengers, FuelPriceClp);
            var l' := Apply(l, Trip(distanceKm, chosen, nPassengers));
            && l'.totalSavingsClp == l.totalSavingsClp + b.savingsClp
            && l'.totalCo2Kg == l.totalCo2Kg + b.co2AvoidedKg
            && l'.totalPoints == l.totalPoints + b.points
            && l'.pointsHistory[..|l.pointsHistory|] == l.pointsHistory
            && |l'.pointsHistory| == |l.pointsHistory| + 1
            && l'.pointsHistory[|l.pointsHistory|] == l'.totalPoints
            && l'.redeemed == l.redeemed
            && Sound(l')
  {
  }

  /**
    A redemption happens exactly when the points cover the requirement; it
    then deducts exactly the requirement and appends the merchant. Savings,
    CO2 and the point history never change, and the ledger stays sound.
   */
  lemma RedemptionStep(l: Ledger, requiredPoints: int, merchant: string)
    requires Sound(l)
    ensures var l' := Apply(l, Redemption(requiredPoints, merchant));
            && l'.totalSavingsClp == l.totalSavingsClp
            && l'.totalCo2Kg == l.totalCo2Kg
            && l'.pointsHistory == l.pointsHistory
            && (l.totalPoints >= requiredPoints ==>
                  l'.totalPoints == l.totalPoints - requiredPoints && l'.redeemed == l.redeemed + [merchant])
            && (l.totalPoints < requiredPoints ==> l' == l)
            && Sound(l')
  {
  }

  // --------------------------------------------------------------- sessions

  /**
    Across any sequence of trips and redemptions the ledger stays sound, the
    history gains one entry per trip, and savings and CO2 grow by exactly
    the trips' benefits.
   */
  lemma {:induction false} ReplayKeepsSound(l: Ledger, events: seq<Event>)
    requires Sound(l)
    requires forall i :: 0 <= i < |events| ==> WellFormed(events[i])
    ensures Sound(Replay(l, events))
    ensures |Replay(l, events).pointsHistory| == |l.pointsHistory| + TripCount(events)
    ensures Replay(l, events).pointsHistory[..|l.pointsHistory|] == l.pointsHistory
    ensures Replay(l, events).totalSavingsClp == l.totalSavingsClp + TripSavings(events)
    ensures Replay(l, events).totalCo2Kg == l.totalCo2Kg + TripCo2(events)
    decreases |events|
  {
    if events != [] {
      var e := events[0];
      match e {
        case Trip(d, chosen, n) => TripStep(l, d, chosen, n);
        case Redemption(req, m) => RedemptionStep(l, req, m);
      }
      var next := Apply(l, e);
      ReplayKeepsSound(next, events[1..]);
      var r := Replay(next, events[1..]);
      assert r == Replay(l, events);
      assert r.pointsHistory[..|l.pointsHistory|] == next.pointsHistory[..|next.pointsHistory|][..|l.pointsHistory|];
    }
  }

  /** Replaying one more event is one more step from where the replay ended. */
  lemma {:induction false} ReplayAppend(l: Ledger, events: seq<Event>, e: Event)
    requires forall i :: 0 <= i < |events| ==> WellFormed(events[i])
    requires WellFormed(e)
    ensures forall i :: 0 <= i < |events + [e]| ==> WellFormed((events + [e])[i])
    ensures Replay(l, events + [e]) == Apply(Replay(l, events), e)
    decreases |events|
  {
    var all := events + [e];
    assert forall i :: 0 <= i < |all| ==> WellFormed(all[i]) by {
      forall i | 0 <= i < |all| ensures WellFormed(all[i]) {
        if i < |events| { assert all[i] == events[i]; }
      }
    }
    if events == [] {
      assert all == [e];
    } else {
      assert all[0] == events[0];
      assert all[1..] == events[1..] + [e];
      ReplayAppend(Apply(l, events[0]), events[1..], e);
    }
  }

  /**
    A session started afresh never holds negative points, and its history
    has exactly one entry per simulated trip.
   */
  lemma SessionFromStart(events: seq<Event>)
    requires forall i :: 0 <= i < |events| ==> WellFormed(events[i])
    ensures Replay(InitialLedger(), events).totalPoints >= 0
    ensures |Replay(InitialLedger(), events).pointsHistory| == TripCount(events)
    ensures Replay(InitialLedger(), events).totalSavingsClp == TripSavings(events)
  {
    ReplayKeepsSound(InitialLedger(), events);
  }

  // ---------------------------------------------------------- mutable state

  /**
    The session state of one dashboard session, updated in place. The ghost
    `log` records every trip and redemption attempt so far; the fields are
    always the replay of that log from a fresh session.
   */
  class Session {
    var totalSavingsClp: real
    var totalCo2Kg: real
    var totalPoints: int
    var pointsHistory: seq<int>
    var redeemed: seq<string>
    ghost var log: seq<Event>

    function Snapshot(): Ledger
      reads this
    {
      Ledger(totalSavingsClp, totalCo2Kg, totalPoints, pointsHistory, redeemed)
    }

    ghost predicate Valid()
      reads this
    {
      && (forall i :: 0 <= i < |log| ==> WellFormed(log[i]))
      && Snapshot() == Replay(InitialLedger(), log)
      && Sound(Snapshot())
      && |pointsHistory| == TripCount(log)
    }

    constructor ()
      ensures Valid()
      ensures Snapshot() == InitialLedger()
      ensures totalSavingsClp == 0.0 && totalCo2Kg == 0.0 && totalPoints == 0
      ensures pointsHistory == [] && redeemed == [] && log == []
    {
      totalSavingsClp := 0.0;
      totalCo2Kg := 0.0;
      totalPoints := 0;
      pointsHistory := [];
      redeemed := [];
      log := [];
    }

    /**
      Simulates a trip with the chosen option: adds the option's benefit
      against the car to the totals and records the new point total.
     */
    method SimulateTrip(distanceKm: real, chosen: OptionResult, nPassengers: int) returns (b: Benefit)
      requires Valid() && nPassengers >= 1
      modifies this
      ensures Valid()
      ensures b == BenefitsVsAuto(distanceKm, chosen, nPassengers, FuelPriceClp)
      ensures totalSavingsClp == old(totalSavingsClp) + b.savingsClp
      ensures totalCo2Kg == old(totalCo2Kg) + b.co2AvoidedKg
      ensures totalPoints == old(totalPoints) + b.points
      ensures pointsHistory == old(pointsHistory) + [totalPoints]
      ensures redeemed == old(redeemed)
      ensures Snapshot() == Apply(old(Snapshot()), Trip(distanceKm, chosen, nPassengers))
      ensures log == old(log) + [Trip(distanceKm, chosen, nPassengers)]
    {
      b := BenefitsVsAuto(distanceKm, chosen, nPassengers, FuelPriceClp);
      totalSavingsClp := totalSavingsClp + b.savingsClp;
      totalCo2Kg := totalCo2Kg + b.co2AvoidedKg;
      totalPoints := totalPoints + b.points;
      pointsHistory := pointsHistory + [totalPoints];
      Record(Trip(distanceKm, chosen, nPassengers));
    }

    /**
      Redeems `requiredPoints` at `merchant` when the points cover them;
      otherwise the button is disabled and nothing changes.
     */
    method Redeem(requiredPoints: int, merchant: string) returns (granted: bool)
      requires Valid()
      modifies this
      ensures Valid()
      ensures granted <==> old(totalPoints) >= requiredPoints
      ensures granted ==> totalPoints == old(totalPoints) - requiredPoints && redeemed == old(redeemed) + [merchant]
      ensures !granted ==> totalPoints == old(totalPoints) && redeemed == old(redeemed)
      ensures totalSavingsClp == old(totalSavingsClp) && totalCo2Kg == old(totalCo2Kg)
      ensures pointsHistory == old(pointsHistory)
      ensures Snapshot() == Apply(old(Snapshot()), Redemption(requiredPoints, merchant))
      ensures log == old(log) + [Redemption(requiredPoints, merchant)]
    {
      granted := !(totalPoints < requiredPoints);
      if granted {
        totalPoints := totalPoints - requiredPoints;
        redeemed := redeemed + [merchant];
      }
      Record(Redemption(requiredPoints, merchant));
    }

    /** Appends `e` to the log once the fields already hold its effect. */
    ghost method Record(e: Event)
      requires WellFormed(e)
      requires forall i :: 0 <= i < |log| ==> WellFormed(log[i])
      requires Snapshot() == Apply(Replay(InitialLedger(), log), e)
      modifies this`log
      ensures log == old(log) + [e]
      ensures Valid()
    {
      ReplayAppend(InitialLedger(), log, e);
      log := log + [e];
      ReplayKeepsSound(InitialLedger(), log);
    }
  }
}
