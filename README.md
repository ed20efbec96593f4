# EcoRide benefit calculator and session ledger

EcoRide is a small dashboard that compares four ways of making a trip
(private car "Auto", "Bus", shared car "Carpool", "Bicicleta") by cost in
CLP, kg of CO2 and minutes, and turns the savings against the car into
"Ecopoints" that can be redeemed at merchants.

This project models two parts of it:

- `logic.dfy`, module `Logic` (from `logic.py`): the configuration
  constants, the `OptionResult` record, the per-mode formulas
  (`CarCost`, `CarCo2`, `BusCost`, `BusCo2`, `CarpoolCost`, `CarpoolCo2`,
  `TravelTimeBase`), `CalculateOptions` and `BenefitsVsAuto`, all pure
  functions over exact `real` magnitudes. Python's `int()` (truncation
  toward zero) is `TruncToInt`; the clamped score `max(int(x), 0)` is
  `ClampedPoints`, proved equal to the reference `max(floor(x), 0)`.
- `app.dfy`, module `App` (from the session-state lines of `app.py`): the
  ledger as a value (`Ledger`, `Apply`, `Replay` over trip and redemption
  events) with lemmas about one step and about any sequence of steps, and
  class `Session`, the mutable session state, whose `SimulateTrip` and
  `Redeem` methods update its fields in place. A ghost log of events keeps
  the fields equal to the replay of that log from a fresh session, so the
  invariant "points are never negative" and "one history entry per trip"
  hold of every reachable session.

`logic.py` divides by the passenger count without a guard, so every member
that divides requires `nPassengers >= 1`. Points are `max(int(x), 0)`,
which truncates toward zero, and `ClampedPointsIsClampedFloor` proves this
equals `max(floor(x), 0)`. `SimulateTrip` uses the default fuel price
`FuelPriceClp`, as `app.py` calls `benefits_vs_auto` without one.

## Model

| member | source | states |
|---|---|---|
| `Logic.CalculateOptions` | logic.py:78-96 | exactly four options, in the order Auto, Bus, Carpool, Bicicleta; car cost is litres at 12 km/L times the fuel price and car CO2 is 0.192 kg/km; bus cost is 80 CLP/km and bus CO2 is 0.089 kg/km; car time is the distance at 35 km/h in minutes; carpool cost and CO2 times the passenger count give the car's; Bicicleta costs and emits nothing; bus time is 1.2×, carpool time 1× and Bicicleta time 2× the car's |
| `Logic.CarCost` | logic.py:49-52 | litres at 12 km/L times the fuel price; its value is fixed by the Auto clause of `CalculateOptions` |
| `Logic.CarCo2` | logic.py:55-57 | 0.192 kg per km; fixed by the Auto clause of `CalculateOptions` |
| `Logic.BusCost` | logic.py:60-61 | 80 CLP per km; fixed by the Bus clause of `CalculateOptions` |
| `Logic.BusCo2` | logic.py:64-65 | 0.089 kg per km; fixed by the Bus clause of `CalculateOptions` |
| `Logic.CarpoolCost` | logic.py:68-70 | the car's cost shared among n ≥ 1 passengers; fixed by the Carpool clause of `CalculateOptions`, bounded by `CarpoolNeverLoses`, equal to the car's for n = 1 by `CarpoolOfOneIsCar` |
| `Logic.CarpoolCo2` | logic.py:73-75 | the car's CO2 shared among n ≥ 1 passengers; same clauses and lemmas as `CarpoolCost` |
| `Logic.TravelTimeBase` | logic.py:84 | minutes at 35 km/h; fixed by the Auto time clause of `CalculateOptions` |
| `Logic.TruncToInt` | logic.py:115 | Python's `int()`: the result lies within one unit of the input, on the side toward zero |
| `Logic.ClampedPoints` | logic.py:115-116 | `max(int(raw), 0)` is never negative, is 0 below a raw score of 1, and for a non-negative raw score is its whole part |
| `Logic.ClampedPointsIsClampedFloor` | logic.py:115-116 | after the clamp at zero, truncation toward zero equals `max(floor(raw), 0)` |
| `Logic.BenefitsVsAuto` | logic.py:101-116 | savings and CO2 avoided are the car's cost and CO2 for the same trip minus the chosen option's; points are never negative and equal `max(0, floor(savings × 0.1 + co2_avoided × 5))` |
| `Logic.CarpoolOfOneIsCar` | logic.py:68-75 | with one passenger the carpool's cost and CO2 are the car's |
| `Logic.AutoAgainstItselfIsZero` | logic.py:111-116 | choosing the car option computed for the same trip yields savings 0, CO2 avoided 0 and 0 points |
| `Logic.CarpoolNeverLoses` | logic.py:68-75 | for a non-negative distance and fuel price and n ≥ 1, carpool cost and CO2 do not exceed the car's, so choosing Carpool never gives negative savings or CO2 avoided |
| `Logic.BusTenKmExample` | logic.py:14-26 | 10 km by bus at 1300 CLP/L gives savings 850/3 (≈ 283.33) CLP, 1.03 kg CO2 avoided and 33 points |
| `App.InitialLedger` | app.py:36-40 | a fresh ledger is sound: savings 0, CO2 0, points 0, an empty history and no redemptions |
| `App.Apply` | app.py:76-112 | one trip or redemption step; its effect is stated by `TripStep` (app.py:76-80) and `RedemptionStep` (app.py:108-112) |
| `App.CanRedeem` | app.py:108 | the redeem button is enabled exactly when points ≥ the requirement (its `disabled=` flag is `total_puntos < puntos_necesarios`); stated by `RedemptionStep` and `Session.Redeem` |
| `App.TripStep` | app.py:76-80 | a trip adds exactly the benefit's savings, CO2 and points to the totals, keeps the earlier history, appends one entry equal to the new point total, leaves `redeemed` alone and keeps points non-negative |
| `App.RedemptionStep` | app.py:108-112 | a redemption proceeds exactly when points ≥ the requirement, then deducts exactly the requirement and appends the merchant; otherwise nothing changes; savings, CO2 and history never change; points stay non-negative |
| `App.ReplayKeepsSound` | app.py:76-112 | over any sequence of trips and redemptions points and every history entry stay non-negative, the history keeps its prefix and gains one entry per trip, and savings and CO2 grow by exactly the trips' benefits |
| `App.ReplayAppend` | app.py:76-112 | replaying one more event is one more step from where the replay ended |
| `App.SessionFromStart` | app.py:36-40 | from a fresh session, points are never negative, the history has one entry per trip and total savings are the sum of the trips' savings |
| `App.Session.constructor` | app.py:36-40 | a fresh session has savings 0, CO2 0, points 0, an empty history and no redemptions |
| `App.Session.SimulateTrip` | app.py:70-80 | returns the chosen option's benefit against the car; adds exactly its savings, CO2 and points to the totals; appends the new point total to the history; leaves `redeemed` unchanged; keeps the session invariant |
| `App.Session.Redeem` | app.py:108-112 | granted exactly when points ≥ the requirement; then deducts exactly the requirement and appends the merchant, otherwise changes nothing; savings, CO2 and history unchanged; keeps the session invariant |

## Left out

- The Streamlit page: layout, metrics, data frames and tables, the radio
  button, select box and slider wiring, success messages and `st.rerun`
  (app.py:17-33, 42-60, 62-69, 81-107 and 113-156) are display code. The
  `calculate_options` call at app.py:61 and the choice at app.py:67-68 are
  the caller's side of `SimulateTrip`: the chosen option and the passenger
  count are its parameters.
- The folium map (app.py:85-88): decorative, drawn by a foreign library.
- `OptionResult.as_dict` (logic.py:38-44) and the other display rounding:
  presentation of floats only.
- `random_distance` (logic.py:121-123) and mock_data.py as a whole (route
  generation through `random`, the static merchant catalog): random
  fixtures and static data. A redemption takes the merchant's required
  points and name as parameters instead.
- IEEE-754 rounding: every magnitude is an exact real, so for instance the
  CO2 avoided in the bus example is exactly 1.03.
- A passenger count below 1: `logic.py` divides by it unguarded (a
  division by zero at 0, a negative share below 0); every member that
  divides requires `nPassengers >= 1`. No caller passes such a count: the
  dashboard's slider offers 2 to 5 and the default is 3.
- The mode of an option is an enumeration rather than a free string; the
  only strings the source ever builds are the four names modelled.
- The `redeemed` list is created in `app.py` on the first redemption; the
  model starts it empty, which the dashboard cannot tell apart.
- Python's default arguments (`n_passengers=3`, `fuel_price=FUEL_PRICE_CLP`
  at logic.py:49, 68, 73, 78 and 104-105) are not modelled: every Dafny
  member takes the passenger count and the fuel price explicitly, and
  `SimulateTrip` passes `FuelPriceClp` where `app.py` relies on the default.
- App.Session.Redeem: treats the `disabled=` flag of the redeem button
  (app.py:108) as a check made when the redemption happens. In `app.py` the
  flag is computed when the page is drawn, and a redemption does not rerun
  the page, so a button drawn earlier in the same run shows the total from
  before that redemption; whether a click on such a button is still honoured
  depends on the widget library, which is not part of this model.
- Logic.CarpoolNeverLoses: also requires a non-negative fuel price, since
  with a negative price sharing the car costs more per passenger.
