/** A toy multi-car race: each car burns fuel while it drives at its top
    speed, may refuel at checkpoints every 300 km (which costs time, adds
    weight and degrades its speed and acceleration for good), and the race
    loop advances all cars in lockstep, one simulated minute per pass, until
    some car has covered the 900 km. */
module CarRacing {

  datatype Option<T> = None | Some(value: T)

  /** Length of every race, in km. */
  const RaceLength: real := 900.0
  /** Distance between two refuelling checkpoints, in km. */
  const CheckpointSpacing: real := 300.0
  /** The race loop advances every car by one simulated minute per pass. */
  const TimeStep: real := 1.0

  // ---------------------------------------------------------------------
  // Checkpoints
  // ---------------------------------------------------------------------

  /** The k-th checkpoint (k may be zero or negative). */
  function Checkpoint(k: int): real {
    (k as real) * CheckpointSpacing
  }

  /** `d` is a whole multiple of 300 km. */
  ghost predicate AtCheckpoint(d: real) {
    exists k: int :: d == Checkpoint(k)
  }

  /** The test as the program writes it, `d % 300 == 0`: the remainder of a
      floored division by 300 is zero exactly on the whole multiples of 300. */
  method OnCheckpoint(d: real) returns (b: bool)
    ensures b <==> AtCheckpoint(d)
  {
    var k := (d / CheckpointSpacing).Floor;
    b := d - (k as real) * CheckpointSpacing == 0.0;
    if b {
      assert d == Checkpoint(k);
    }
    if AtCheckpoint(d) {
      var j: int :| d == Checkpoint(j);
      assert d / CheckpointSpacing == j as real;
    }
  }

  // ---------------------------------------------------------------------
  // A car, as a value
  // ---------------------------------------------------------------------

  /** What the race is given to build one car: its identity and setup. */
  datatype Profile = Profile(
    carId: int,
    color: string,
    tankCapacity: real,
    fuelConsumptionPerKm: real,
    maxSpeed: real,
    initialAcceleration: real,
    brakingAcceleration: real,
    initialFuel: real,
    weight: real)

  /** The whole state of one car: its setup plus its race state. */
  datatype Car = Car(
    carId: int,
    color: string,
    tankCapacity: real,
    fuelConsumptionPerKm: real,
    maxSpeed: real,
    initialAcceleration: real,
    brakingAcceleration: real,
    fuel: real,
    weight: real,
    distanceCovered: real,
    remainingDistance: real,
    time: real,
    fuelLog: seq<real>,
    waitTime: real)

  /** The snapshot `status()` hands out for reporting. */
  datatype StatusReport = StatusReport(
    carId: int,
    color: string,
    distanceCovered: real,
    remainingDistance: real,
    fuel: real,
    time: real,
    waitTime: real)

  /** The invariant every car keeps: the remaining distance is what is left
      of the 900 km, and the last fuel reading in the log is the current fuel. */
  predicate Consistent(c: Car) {
    && c.remainingDistance == RaceLength - c.distanceCovered
    && |c.fuelLog| > 0
    && c.fuelLog[|c.fuelLog| - 1] == c.fuel
  }

  /** The attributes that no operation ever changes. */
  predicate SameIdentity(a: Car, b: Car) {
    && a.carId == b.carId
    && a.color == b.color
    && a.tankCapacity == b.tankCapacity
    && a.fuelConsumptionPerKm == b.fuelConsumptionPerKm
    && a.brakingAcceleration == b.brakingAcceleration
  }

  /** A car at the start line, built from its profile. */
  function NewCar(p: Profile): (r: Car)
    ensures Consistent(r)
    ensures r.carId == p.carId && r.color == p.color && r.tankCapacity == p.tankCapacity
    ensures r.fuelConsumptionPerKm == p.fuelConsumptionPerKm && r.maxSpeed == p.maxSpeed
    ensures r.initialAcceleration == p.initialAcceleration && r.brakingAcceleration == p.brakingAcceleration
    ensures r.weight == p.weight && r.fuel == p.initialFuel
    ensures r.distanceCovered == 0.0 && r.remainingDistance == RaceLength
    ensures r.time == 0.0 && r.waitTime == 0.0 && r.fuelLog == [p.initialFuel]
  {
    Car(p.carId, p.color, p.tankCapacity, p.fuelConsumptionPerKm, p.maxSpeed,
        p.initialAcceleration, p.brakingAcceleration, p.initialFuel, p.weight,
        0.0, RaceLength, 0.0, [p.initialFuel], 0.0)
  }

  /** The car after driving `t` minutes at its top speed (km/h). */
  function Moved(c: Car, t: real): (r: Car)
    ensures Consistent(r)
    ensures SameIdentity(c, r)
    ensures r.maxSpeed == c.maxSpeed && r.initialAcceleration == c.initialAcceleration
    ensures r.weight == c.weight && r.waitTime == c.waitTime
    ensures r.distanceCovered == c.distanceCovered + c.maxSpeed * t / 60.0
    // the fuel burnt is the consumption rate times the distance driven, with no floor at zero
    ensures c.fuel - r.fuel == c.fuelConsumptionPerKm * (r.distanceCovered - c.distanceCovered)
    ensures r.time == c.time + t
    ensures r.fuelLog == c.fuelLog + [r.fuel]
  {
    var fuelConsumed := c.fuelConsumptionPerKm * (c.maxSpeed / 60.0) * t;
    var fuel := c.fuel - fuelConsumed;
    var distance := c.distanceCovered + c.maxSpeed * t / 60.0;
    c.(fuel := fuel,
       distanceCovered := distance,
       remainingDistance := RaceLength - distance,
       time := c.time + t,
       fuelLog := c.fuelLog + [fuel])
  }

  /** `v` reduced by the fraction `f`: `v * (1 - f)`. */
  function Reduced(v: real, f: real): (r: real)
    ensures 0.0 <= v && 0.0 <= f ==> r <= v
    ensures 0.0 <= v && f <= 1.0 ==> 0.0 <= r
  {
    v * (1.0 - f)
  }

  /** The car after asking for `n` litres. Off a checkpoint nothing happens;
      at one the tank is filled up to its capacity, the refuel costs `n`
      of waiting time, and the car becomes heavier, slower and less agile. */
  ghost function Refueled(c: Car, n: real): (r: Car)
    ensures !AtCheckpoint(c.distanceCovered) ==> r == c
    ensures AtCheckpoint(c.distanceCovered) ==>
      && SameIdentity(c, r)
      && r.distanceCovered == c.distanceCovered
      && r.remainingDistance == c.remainingDistance
      // the new fuel is min(fuel + n, tank capacity)
      && r.fuel <= c.tankCapacity && r.fuel <= c.fuel + n
      && (r.fuel == c.tankCapacity || r.fuel == c.fuel + n)
      && r.fuelLog == c.fuelLog + [r.fuel]
      && r.waitTime == c.waitTime + n
      && r.time == c.time + n
    ensures Consistent(c) ==> Consistent(r)
  {
    if AtCheckpoint(c.distanceCovered) then
      var topped := c.fuel + n;
      var fuel := if topped > c.tankCapacity then c.tankCapacity else topped;
      c.(fuel := fuel,
         fuelLog := c.fuelLog + [fuel],
         waitTime := c.waitTime + n,
         time := c.time + n,
         weight := c.weight + n * 0.8,
         maxSpeed := Reduced(c.maxSpeed, n * 0.01),
         initialAcceleration := Reduced(c.initialAcceleration, n * 0.005))
    else
      c
  }

  /** Each litre taken at a checkpoint adds 0.8 to the weight and takes 1% off
      the top speed and 0.5% off the acceleration, so a refuelled car is never
      lighter, faster or more agile than before. */
  lemma RefuelPenalties(c: Car, n: real)
    requires AtCheckpoint(c.distanceCovered)
    requires 0.0 <= n && 0.0 <= c.maxSpeed && 0.0 <= c.initialAcceleration
    ensures var r := Refueled(c, n);
        && r.weight >= c.weight
        && r.maxSpeed <= c.maxSpeed
        && r.initialAcceleration <= c.initialAcceleration
  {
  }

  /** At a checkpoint, `n` litres add `0.8 * n` to the weight, scale the top
      speed by `1 - 0.01 * n` and the acceleration by `1 - 0.005 * n`. */
  lemma RefuelCosts(c: Car, n: real)
    requires AtCheckpoint(c.distanceCovered)
    ensures Refueled(c, n).weight == c.weight + n * 0.8
    ensures Refueled(c, n).maxSpeed == c.maxSpeed * (1.0 - n * 0.01)
    ensures Refueled(c, n).initialAcceleration == c.initialAcceleration * (1.0 - n * 0.005)
  {
  }

  /** Ten litres at a checkpoint: 8 more weight, 90% of the top speed and
      95% of the acceleration. */
  lemma RefuelTenLitres(c: Car)
    requires AtCheckpoint(c.distanceCovered)
    ensures Refueled(c, 10.0).weight == c.weight + 8.0
    ensures Refueled(c, 10.0).maxSpeed == c.maxSpeed * 0.9
    ensures Refueled(c, 10.0).initialAcceleration == c.initialAcceleration * 0.95
  {
    RefuelCosts(c, 10.0);
  }

  /** The `status()` snapshot of a car. */
  function StatusOf(c: Car): (r: StatusReport)
    ensures r.carId == c.carId && r.color == c.color
    ensures r.distanceCovered == c.distanceCovered && r.remainingDistance == c.remainingDistance
    ensures r.fuel == c.fuel
    // a consistent car reports distances that add up to the race length,
    // and the fuel it reports is the last reading in its log
    ensures Consistent(c) ==> r.distanceCovered + r.remainingDistance == RaceLength
    ensures Consistent(c) ==> r.fuel == c.fuelLog[|c.fuelLog| - 1]
    ensures r.time == c.time && r.waitTime == c.waitTime
  {
    StatusReport(c.carId, c.color, c.distanceCovered, c.remainingDistance, c.fuel, c.time, c.waitTime)
  }

  // ---------------------------------------------------------------------
  // A car, as an object updated in place
  // ---------------------------------------------------------------------

  class RaceCar {
    var carId: int
    var color: string
    var tankCapacity: real
    var fuelConsumptionPerKm: real
    var maxSpeed: real
    var initialAcceleration: real
    var brakingAcceleration: real
    var fuel: real
    var weight: real
    var distanceCovered: real
    var remainingDistance: real
    var time: real
    var fuelLog: seq<real>
    var waitTime: real

    /** The car's fields, as one value. */
    function State(): Car
      reads this
    {
      Car(carId, color, tankCapacity, fuelConsumptionPerKm, maxSpeed,
          initialAcceleration, brakingAcceleration, fuel, weight,
          distanceCovered, remainingDistance, time, fuelLog, waitTime)
    }

    ghost predicate Valid()
      reads this
    {
      Consistent(State())
    }

    constructor (carId: int, color: string, tankCapacity: real, fuelConsumptionPerKm: real,
                 maxSpeed: real, initialAcceleration: real, brakingAcceleration: real,
                 initialFuel: real, weight: real)
      ensures State() == NewCar(Profile(carId, color, tankCapacity, fuelConsumptionPerKm, maxSpeed,
                                        initialAcceleration, brakingAcceleration, initialFuel, weight))
      ensures Valid()
    {
      this.carId := carId;
      this.color := color;
      this.tankCapacity := tankCapacity;
      this.fuelConsumptionPerKm := fuelConsumptionPerKm;
      this.maxSpeed := maxSpeed;
      this.initialAcceleration := initialAcceleration;
      this.brakingAcceleration := brakingAcceleration;
      this.fuel := initialFuel;
      this.weight := weight;
      this.distanceCovered := 0.0;
      this.remainingDistance := RaceLength;
      this.time := 0.0;
      this.fuelLog := [initialFuel];
      this.waitTime := 0.0;
    }

    method Move(timeStep: real)
      modifies this
      ensures State() == Moved(old(State()), timeStep)
      ensures Valid()
    {
      var fuelConsumed := fuelConsumptionPerKm * (maxSpeed / 60.0) * timeStep;
      fuel := fuel - fuelConsumed;
      distanceCovered := distanceCovered + maxSpeed * timeStep / 60.0;
      remainingDistance := RaceLength - distanceCovered;
      time := time + timeStep;
      fuelLog := fuelLog + [fuel];
    }

    method Refuel(fuelNeeded: real)
      modifies this
      ensures State() == Refueled(old(State()), fuelNeeded)
      ensures old(Valid()) ==> Valid()
    {
      ghost var before := State();
      var atStop := OnCheckpoint(distanceCovered);
      if atStop {
        fuel := fuel + fuelNeeded;
        if fuel > tankCapacity {
          fuel := tankCapacity;
        }
        fuelLog := fuelLog + [fuel];
        waitTime := waitTime + fuelNeeded;
        time := time + fuelNeeded;
        weight := weight + fuelNeeded * 0.8;
        maxSpeed := Reduced(maxSpeed, fuelNeeded * 0.01);
        initialAcceleration := Reduced(initialAcceleration, fuelNeeded * 0.005);
      }
      assert State() == Refueled(before, fuelNeeded);
      assert Consistent(before) ==> Consistent(State());
    }

    function Status(): (r: StatusReport)
      reads this
      ensures r == StatusOf(State())
    {
      StatusReport(carId, color, distanceCovered, remainingDistance, fuel, time, waitTime)
    }
  }

  // ---------------------------------------------------------------------
  // The refuel decision
  // ---------------------------------------------------------------------

  /** The answers `lower()` turns into "yes": "yes" in any mix of cases. */
  predicate IsYes(s: string) {
    && |s| == 3
    && (s[0] == 'y' || s[0] == 'Y')
    && (s[1] == 'e' || s[1] == 'E')
    && (s[2] == 's' || s[2] == 'S')
  }

  function LowerChar(ch: char): char {
    if 'A' <= ch <= 'Z' then (ch as int + 32) as char else ch
  }

  /** `str.lower()` on ASCII letters. */
  function Lower(s: string): (r: string)
    ensures |r| == |s|
    ensures forall k :: 0 <= k < |s| ==> r[k] == LowerChar(s[k])
  {
    if s == [] then [] else [LowerChar(s[0])] + Lower(s[1..])
  }

  /** Whether `ask_for_refuel` puts its question to the user (and so reads
      one answer): the car still has fuel and is within 300 km of the finish. */
  predicate Prompts(fuel: real, remaining: real) {
    fuel > 0.0 && remaining <= CheckpointSpacing
  }

  /** `ask_for_refuel`, with the user's answer passed in. */
  function AskForRefuel(fuel: real, remaining: real, response: string): (r: bool)
    // an empty tank always asks for fuel, whatever the answer
    ensures fuel <= 0.0 ==> r
    // otherwise only a "yes" within the last 300 km does
    ensures fuel > 0.0 ==> (r <==> remaining <= CheckpointSpacing && IsYes(response))
    // the answer matters only when the question is asked
    ensures !Prompts(fuel, remaining) ==> r == (fuel <= 0.0)
  {
    if fuel <= 0.0 then
      true
    else if remaining <= CheckpointSpacing then
      LowerIsYes(response);
      Lower(response) == "yes"
    else
      false
  }

  lemma LowerIsYes(s: string)
    ensures Lower(s) == "yes" <==> IsYes(s)
  {
    if IsYes(s) {
      assert Lower(s) == [LowerChar(s[0]), LowerChar(s[1]), LowerChar(s[2])];
    }
    if Lower(s) == "yes" {
      assert |s| == |Lower(s)| == 3;
      assert Lower(s)[0] == LowerChar(s[0]) == 'y';
      assert Lower(s)[1] == LowerChar(s[1]) == 'e';
      assert Lower(s)[2] == LowerChar(s[2]) == 's';
    }
  }

  /** The question is put exactly when the answer can change the decision. */
  lemma PromptedExactlyWhenAnswerMatters(fuel: real, remaining: real)
    ensures Prompts(fuel, remaining) <==> AskForRefuel(fuel, remaining, "yes") != AskForRefuel(fuel, remaining, "no")
  {
    assert IsYes("yes") && !IsYes("no");
  }

  // ---------------------------------------------------------------------
  // The race, as a specification on values
  // ---------------------------------------------------------------------

  /** The race loop's state: the cars, the winner so far, and how many
      answers have been read from the user. */
  datatype RaceState = RaceState(cars: seq<Car>, winner: Option<int>, asked: nat)

  /** How a race loop stops: every car was still running when the budget of
      passes ran out, or some car had finished. */
  datatype RaceEnd = Finished(state: RaceState) | OutOfSteps(state: RaceState)

  /** The answer to the k-th question; past the end of the answers, an empty line. */
  function Answer(answers: seq<string>, k: nat): string {
    if k < |answers| then answers[k] else ""
  }

  /** The answers left once the first n have been read. */
  function Rest(answers: seq<string>, n: nat): (r: seq<string>)
    ensures forall k: nat :: Answer(r, k) == Answer(answers, n + k)
  {
    if n <= |answers| then answers[n..] else []
  }

  predicate AllRunning(cars: seq<Car>) {
    forall k :: 0 <= k < |cars| ==> cars[k].remainingDistance > 0.0
  }

  /** Car j is the first in list order to have reached the finish. */
  predicate FirstFinisher(cars: seq<Car>, j: int) {
    && 0 <= j < |cars|
    && cars[j].remainingDistance <= 0.0
    && forall k :: 0 <= k < j ==> cars[k].remainingDistance > 0.0
  }

  /** The first of the first n cars to have reached the finish, if any. */
  function FirstDone(cars: seq<Car>, n: nat): (r: Option<nat>)
    requires n <= |cars|
    ensures r.Some? ==> r.value < n && FirstFinisher(cars, r.value)
    ensures r.None? ==> forall k :: 0 <= k < n ==> cars[k].remainingDistance > 0.0
  {
    if n == 0 then None
    else if FirstDone(cars, n - 1).Some? then FirstDone(cars, n - 1)
    else if cars[n - 1].remainingDistance <= 0.0 then Some(n - 1)
    else None
  }

  /** The id of the first of the first n cars to have finished, if any. */
  function WinnerAmong(cars: seq<Car>, n: nat): Option<int>
    requires n <= |cars|
  {
    match FirstDone(cars, n)
    case None => None
    case Some(j) => Some(cars[j].carId)
  }

  /** A car's own part of its turn: it moves one step and, at a checkpoint,
      refuels with 300 km worth of fuel at its consumption rate if the
      refuel decision on `answer` says so. */
  ghost function Drive(c: Car, answer: string): (r: Car)
    ensures r.carId == c.carId
    ensures Consistent(r)
    ensures var m := Moved(c, TimeStep);
      r == m || r == Refueled(m, c.fuelConsumptionPerKm * 300.0)
  {
    var m := Moved(c, TimeStep);
    if AtCheckpoint(m.distanceCovered) && AskForRefuel(m.fuel, m.remainingDistance, answer)
    then Refueled(m, m.fuelConsumptionPerKm * 300.0)
    else m
  }

  /** Whether the driver of `c` is asked a question in its turn: after the
      move it is at a checkpoint with fuel left and at most 300 km to go. */
  ghost predicate Asks(c: Car)
  {
    var m := Moved(c, TimeStep);
    AtCheckpoint(m.distanceCovered) && Prompts(m.fuel, m.remainingDistance)
  }

  /** When the driver is not asked, the answer plays no part: the car
      refuels only if it reached a checkpoint with an empty tank. */
  lemma DriveWithoutQuestion(c: Car, answer: string)
    requires !Asks(c)
    ensures var m := Moved(c, TimeStep);
      Drive(c, answer) == (if AtCheckpoint(m.distanceCovered) && m.fuel <= 0.0
                           then Refueled(m, c.fuelConsumptionPerKm * 300.0) else m)
  {
  }

  /** A turn reads an answer exactly when that answer can change the car. */
  lemma AsksExactlyWhenAnswerMatters(c: Car)
    ensures Asks(c) <==> Drive(c, "yes") != Drive(c, "no")
  {
    var m := Moved(c, TimeStep);
    PromptedExactlyWhenAnswerMatters(m.fuel, m.remainingDistance);
    if Asks(c) {
      var refuelled := Refueled(m, m.fuelConsumptionPerKm * 300.0);
      assert |refuelled.fuelLog| == |m.fuelLog| + 1;
      assert Drive(c, "yes") == refuelled && Drive(c, "no") == m;
    } else {
      DriveWithoutQuestion(c, "yes");
      DriveWithoutQuestion(c, "no");
    }
  }

  /** A turn refuels the car exactly when it is on a checkpoint after its
      move and the refuel decision on the answer says so. */
  lemma DriveRefuelsExactly(c: Car, answer: string)
    ensures var m := Moved(c, TimeStep);
      Drive(c, answer) != m <==> AtCheckpoint(m.distanceCovered) && AskForRefuel(m.fuel, m.remainingDistance, answer)
  {
    var m := Moved(c, TimeStep);
    if AtCheckpoint(m.distanceCovered) {
      assert |Refueled(m, m.fuelConsumptionPerKm * 300.0).fuelLog| == |m.fuelLog| + 1;
    }
  }

  /** One car's turn in a pass: it drives (moves, maybe refuels), consumes
      an answer if it was asked, and becomes the winner if it is the first
      to finish. */
  ghost function Turn(s: RaceState, i: nat, answers: seq<string>): (r: RaceState)
    requires i < |s.cars|
    ensures |r.cars| == |s.cars|
    ensures r.cars == s.cars[i := r.cars[i]]
    ensures r.cars[i].carId == s.cars[i].carId
    ensures Consistent(r.cars[i])
    // the winner is assigned at most once
    ensures s.winner.Some? ==> r.winner == s.winner
    ensures r.winner.Some? && s.winner.None? ==>
      r.cars[i].remainingDistance <= 0.0 && r.winner == Some(r.cars[i].carId)
    ensures s.winner.None? && r.cars[i].remainingDistance <= 0.0 ==> r.winner == Some(r.cars[i].carId)
    ensures r.asked == s.asked || r.asked == s.asked + 1
  {
    var c := Drive(s.cars[i], Answer(answers, s.asked));
    var asked := if Asks(s.cars[i]) then s.asked + 1 else s.asked;
    var winner := if c.remainingDistance <= 0.0 && s.winner.None? then Some(c.carId) else s.winner;
    RaceState(s.cars[i := c], winner, asked)
  }

  /** In its turn car i drives on the next unread answer, and that answer is
      consumed exactly when the driver is asked. */
  lemma TurnDrivesOnNextAnswer(s: RaceState, i: nat, answers: seq<string>)
    requires i < |s.cars|
    ensures Turn(s, i, answers).cars[i] == Drive(s.cars[i], Answer(answers, s.asked))
    ensures Turn(s, i, answers).asked == (if Asks(s.cars[i]) then s.asked + 1 else s.asked)
  {
  }

  /** The rest of one pass of the `for` loop, from car i on. */
  ghost function PassFrom(s: RaceState, i: nat, answers: seq<string>): (r: RaceState)
    requires i <= |s.cars|
    ensures |r.cars| == |s.cars|
    ensures s.winner.Some? ==> r.winner == s.winner
    decreases |s.cars| - i
  {
    if i == |s.cars| then s else PassFrom(Turn(s, i, answers), i + 1, answers)
  }

  /** The `while` loop, allowed at most `steps` more passes. */
  ghost function RaceFrom(s: RaceState, answers: seq<string>, steps: nat): (e: RaceEnd)
    ensures |e.state.cars| == |s.cars|
    ensures e.Finished? ==> !AllRunning(e.state.cars)
    ensures e.OutOfSteps? ==> AllRunning(e.state.cars)
    decreases steps
  {
    if !AllRunning(s.cars) then Finished(s)
    else if steps == 0 then OutOfSteps(s)
    else RaceFrom(PassFrom(s, 0, answers), answers, steps - 1)
  }

  /** The cars at the start line, no winner, no answer read yet. */
  function StartingGrid(profiles: seq<Profile>): (cars: seq<Car>)
    ensures |cars| == |profiles|
    ensures forall k :: 0 <= k < |cars| ==> cars[k] == NewCar(profiles[k])
  {
    if profiles == [] then [] else [NewCar(profiles[0])] + StartingGrid(profiles[1..])
  }

  function Start(profiles: seq<Profile>): RaceState {
    RaceState(StartingGrid(profiles), None, 0)
  }

  /** `run_race` on the given cars and answers, with at most `budget` passes. */
  ghost function Race(profiles: seq<Profile>, answers: seq<string>, budget: nat): (e: RaceEnd)
    ensures |e.state.cars| == |profiles|
    ensures e.Finished? ==> !AllRunning(e.state.cars)
    ensures e.OutOfSteps? ==> AllRunning(e.state.cars)
  {
    RaceFrom(Start(profiles), answers, budget)
  }

  // ---------------------------------------------------------------------
  // What the race promises
  // ---------------------------------------------------------------------

  /** During a pass that started with every car running and no winner, the
      winner recorded is the first car in list order that has finished. */
  lemma {:induction false} PassPicksFirstFinisher(s: RaceState, i: nat, answers: seq<string>)
    requires i <= |s.cars|
    requires forall k :: i <= k < |s.cars| ==> s.cars[k].remainingDistance > 0.0
    requires s.winner == WinnerAmong(s.cars, i)
    ensures PassFrom(s, i, answers).winner == WinnerAmong(PassFrom(s, i, answers).cars, |s.cars|)
    decreases |s.cars| - i
  {
    if i < |s.cars| {
      var t := Turn(s, i, answers);
      assert forall k :: 0 <= k < i ==> t.cars[k] == s.cars[k];
      assert FirstDone(t.cars, i) == FirstDone(s.cars, i);
      PassPicksFirstFinisher(t, i + 1, answers);
    }
  }

  /** `after` is `before` driven for one turn: just moved one minute, or
      moved and refuelled with 300 km worth of fuel. */
  ghost predicate Driven(before: Car, after: Car)
  {
    var m := Moved(before, TimeStep);
    after == m || after == Refueled(m, m.fuelConsumptionPerKm * 300.0)
  }

  /** A turn drives car i and touches no other car. */
  lemma TurnDrivesOneCar(s: RaceState, i: nat, answers: seq<string>)
    requires i < |s.cars|
    ensures var t := Turn(s, i, answers);
      t.cars == s.cars[i := t.cars[i]] && Driven(s.cars[i], t.cars[i])
  {
    TurnDrivesOnNextAnswer(s, i, answers);
  }

  /** A pass from car i leaves the cars before i alone and drives every car
      from i on exactly once. */
  lemma {:induction false} PassDrivesEveryCar(s: RaceState, i: nat, answers: seq<string>)
    requires i <= |s.cars|
    ensures var r := PassFrom(s, i, answers);
      && (forall k :: 0 <= k < i ==> r.cars[k] == s.cars[k])
      && (forall k :: i <= k < |s.cars| ==> Driven(s.cars[k], r.cars[k]))
    decreases |s.cars| - i
  {
    if i < |s.cars| {
      var t := Turn(s, i, answers);
      var r := PassFrom(t, i + 1, answers);
      assert r == PassFrom(s, i, answers);
      PassDrivesEveryCar(t, i + 1, answers);
      TurnDrivesOneCar(s, i, answers);
      forall k | 0 <= k < i
        ensures r.cars[k] == s.cars[k]
      {
        assert r.cars[k] == t.cars[k];
      }
      forall k | i <= k < |s.cars|
        ensures Driven(s.cars[k], r.cars[k])
      {
        if k == i {
          assert r.cars[i] == t.cars[i];
        } else {
          assert t.cars[k] == s.cars[k];
        }
      }
    }
  }

  /** What holds at the head of the `while` loop: no winner while every car
      runs, and once one has finished, the winner is the first finisher. */
  predicate WinnerSettled(s: RaceState) {
    if AllRunning(s.cars) then s.winner.None? else s.winner == WinnerAmong(s.cars, |s.cars|)
  }

  lemma {:induction false} RaceFromKeepsWinnerSettled(s: RaceState, answers: seq<string>, steps: nat)
    requires WinnerSettled(s)
    ensures WinnerSettled(RaceFrom(s, answers, steps).state)
    decreases steps
  {
    if AllRunning(s.cars) && steps > 0 {
      assert WinnerAmong(s.cars, 0) == None;
      PassPicksFirstFinisher(s, 0, answers);
      var r := PassFrom(s, 0, answers);
      assert AllRunning(r.cars) ==> FirstDone(r.cars, |r.cars|) == None;
      RaceFromKeepsWinnerSettled(r, answers, steps - 1);
    }
  }

  /** Car k of `b` is car k of `a`, for every k. */
  predicate SameIds(a: seq<Car>, b: seq<Car>) {
    |a| == |b| && forall k :: 0 <= k < |a| ==> a[k].carId == b[k].carId
  }

  lemma {:induction false} PassKeepsIds(s: RaceState, i: nat, answers: seq<string>)
    requires i <= |s.cars|
    ensures SameIds(s.cars, PassFrom(s, i, answers).cars)
    decreases |s.cars| - i
  {
    if i < |s.cars| {
      var t := Turn(s, i, answers);
      PassKeepsIds(t, i + 1, answers);
      assert SameIds(s.cars, t.cars);
    }
  }

  lemma {:induction false} RaceFromKeepsIds(s: RaceState, answers: seq<string>, steps: nat)
    ensures SameIds(s.cars, RaceFrom(s, answers, steps).state.cars)
    decreases steps
  {
    if AllRunning(s.cars) && steps > 0 {
      PassKeepsIds(s, 0, answers);
      RaceFromKeepsIds(PassFrom(s, 0, answers), answers, steps - 1);
    }
  }

  /** The race ends with a winner exactly when some car has finished, and
      the winner is the first car in list order that has finished. */
  lemma RaceWinner(profiles: seq<Profile>, answers: seq<string>, budget: nat)
    ensures var e := Race(profiles, answers, budget);
      && |e.state.cars| == |profiles|
      && (e.Finished? <==> e.state.winner.Some?)
      && (e.Finished? ==>
            exists j :: FirstFinisher(e.state.cars, j)
                        && e.state.winner == Some(e.state.cars[j].carId)
                        && e.state.cars[j].carId == profiles[j].carId)
  {
    var s := Start(profiles);
    assert WinnerSettled(s);
    RaceFromKeepsWinnerSettled(s, answers, budget);
    RaceFromKeepsIds(s, answers, budget);
    var e := Race(profiles, answers, budget);
    if e.Finished? {
      var j := FirstDone(e.state.cars, |e.state.cars|).value;
      assert e.state.cars[j].carId == s.cars[j].carId;
    }
  }

  predicate AllConsistent(cars: seq<Car>) {
    forall k :: 0 <= k < |cars| ==> Consistent(cars[k])
  }

  lemma {:induction false} PassKeepsConsistent(s: RaceState, i: nat, answers: seq<string>)
    requires i <= |s.cars|
    requires AllConsistent(s.cars)
    ensures AllConsistent(PassFrom(s, i, answers).cars)
    decreases |s.cars| - i
  {
    if i < |s.cars| {
      var t := Turn(s, i, answers);
      forall k | 0 <= k < |t.cars| ensures Consistent(t.cars[k]) {
        if k != i { assert t.cars[k] == s.cars[k]; }
      }
      PassKeepsConsistent(t, i + 1, answers);
    }
  }

  lemma {:induction false} RaceFromKeepsConsistent(s: RaceState, answers: seq<string>, steps: nat)
    requires AllConsistent(s.cars)
    ensures AllConsistent(RaceFrom(s, answers, steps).state.cars)
    decreases steps
  {
    if AllRunning(s.cars) && steps > 0 {
      PassKeepsConsistent(s, 0, answers);
      RaceFromKeepsConsistent(PassFrom(s, 0, answers), answers, steps - 1);
    }
  }

  /** Whenever the race stops, every car still has its remaining distance
      equal to 900 minus its distance covered, and its fuel last in its log. */
  lemma EveryCarStaysConsistent(profiles: seq<Profile>, answers: seq<string>, budget: nat)
    ensures AllConsistent(Race(profiles, answers, budget).state.cars)
  {
    RaceFromKeepsConsistent(Start(profiles), answers, budget);
  }

  // ---------------------------------------------------------------------
  // The race, as the loops that run it
  // ---------------------------------------------------------------------

  function Reports(cars: seq<Car>): (r: seq<StatusReport>)
    ensures |r| == |cars|
    ensures forall k :: 0 <= k < |r| ==> r[k] == StatusOf(cars[k])
  {
    if cars == [] then [] else [StatusOf(cars[0])] + Reports(cars[1..])
  }

  /** The car objects stand for the car values `vals`, one distinct object per car. */
  ghost predicate Mirrors(cars: seq<RaceCar>, vals: seq<Car>)
    reads cars
  {
    && |cars| == |vals|
    && (forall k :: 0 <= k < |cars| ==> cars[k].State() == vals[k])
    && (forall j, k :: 0 <= j < k < |cars| ==> cars[j] != cars[k])
  }

  /** The moves and refuel of one car in the body of the `for` loop of
      `run_race`; `prompted` tells whether the driver was asked. */
  method DriveCar(car: RaceCar, answer: string) returns (prompted: bool)
    modifies car
    ensures car.State() == Drive(old(car.State()), answer)
    ensures prompted == Asks(old(car.State()))
  {
    car.Move(TimeStep);
    prompted := false;
    var atStop := OnCheckpoint(car.distanceCovered);
    if atStop {
      prompted := Prompts(car.fuel, car.remainingDistance);
      if AskForRefuel(car.fuel, car.remainingDistance, answer) {
        var fuelNeeded := car.fuelConsumptionPerKm * 300.0;
        car.Refuel(fuelNeeded);
      }
    }
  }

  /** The body of the `for` loop of `run_race`, for car i. */
  method TakeTurn(cars: seq<RaceCar>, i: nat, answers: seq<string>, ghost s: RaceState,
                  winner: Option<int>, asked: nat)
    returns (winner': Option<int>, asked': nat)
    requires i < |cars| && Mirrors(cars, s.cars)
    requires winner == s.winner && asked == s.asked
    modifies cars[i]
    ensures Mirrors(cars, Turn(s, i, answers).cars)
    ensures winner' == Turn(s, i, answers).winner && asked' == Turn(s, i, answers).asked
  {
    winner', asked' := winner, asked;
    var car := cars[i];
    var prompted := DriveCar(car, Answer(answers, asked));
    if prompted {
      asked' := asked' + 1;
    }
    if car.remainingDistance <= 0.0 && winner'.None? {
      winner' := Some(car.carId);
    }
  }

  /** One pass of the `for` loop of `run_race` over all cars. */
  method RunPass(cars: seq<RaceCar>, answers: seq<string>, ghost s: RaceState,
                 winner: Option<int>, asked: nat)
    returns (winner': Option<int>, asked': nat, ghost t: RaceState)
    requires Mirrors(cars, s.cars)
    requires winner == s.winner && asked == s.asked
    modifies cars
    ensures t == PassFrom(s, 0, answers)
    ensures Mirrors(cars, t.cars)
    ensures winner' == t.winner && asked' == t.asked
  {
    winner', asked' := winner, asked;
    t := s;
    for i := 0 to |cars|
      invariant |t.cars| == |cars|
      invariant Mirrors(cars, t.cars)
      invariant winner' == t.winner && asked' == t.asked
      invariant PassFrom(t, i, answers) == PassFrom(s, 0, answers)
    {
      winner', asked' := TakeTurn(cars, i, answers, t, winner', asked');
      t := Turn(t, i, answers);
    }
  }

  lemma RaceFromUnfold(s: RaceState, t: RaceState, answers: seq<string>, steps: nat, rest: nat)
    requires AllRunning(s.cars) && steps == rest + 1 && t == PassFrom(s, 0, answers)
    ensures RaceFrom(s, answers, steps) == RaceFrom(t, answers, rest)
  {
  }

  /** `all(car.remaining_distance > 0 for car in cars)`. */
  method AllRunningNow(cars: seq<RaceCar>, ghost vals: seq<Car>) returns (running: bool)
    requires Mirrors(cars, vals)
    ensures running == AllRunning(vals)
  {
    running := true;
    var k := 0;
    while k < |cars| && running
      invariant 0 <= k <= |cars|
      invariant running == forall j :: 0 <= j < k ==> vals[j].remainingDistance > 0.0
      invariant !running ==> 0 < k && vals[k - 1].remainingDistance <= 0.0
    {
      running := cars[k].remainingDistance > 0.0;
      k := k + 1;
    }
  }

  /** The list comprehension that builds one fresh car per profile. */
  method BuildCars(profiles: seq<Profile>) returns (cars: seq<RaceCar>)
    ensures forall k :: 0 <= k < |cars| ==> fresh(cars[k])
    ensures Mirrors(cars, Start(profiles).cars)
  {
    cars := [];
    for i := 0 to |profiles|
      invariant |cars| == i
      invariant forall k :: 0 <= k < i ==> fresh(cars[k]) && cars[k].State() == NewCar(profiles[k])
      invariant forall j, k :: 0 <= j < k < i ==> cars[j] != cars[k]
    {
      var p := profiles[i];
      var car := new RaceCar(p.carId, p.color, p.tankCapacity, p.fuelConsumptionPerKm, p.maxSpeed,
                             p.initialAcceleration, p.brakingAcceleration, p.initialFuel, p.weight);
      cars := cars + [car];
    }
  }

  /** The closing loop that takes every car's status. */
  method StatusAll(cars: seq<RaceCar>, ghost vals: seq<Car>) returns (report: seq<StatusReport>)
    requires Mirrors(cars, vals)
    ensures report == Reports(vals)
  {
    report := [];
    for k := 0 to |cars|
      invariant |report| == k
      invariant forall j :: 0 <= j < k ==> report[j] == StatusOf(vals[j])
    {
      report := report + [cars[k].Status()];
    }
  }

  /** The `while` loop of `run_race`, allowed at most `budget` passes. */
  method RaceLoop(cars: seq<RaceCar>, answers: seq<string>, ghost s0: RaceState,
                  winner0: Option<int>, asked0: nat, budget: nat)
    returns (winner: Option<int>, asked: nat, ghost s: RaceState)
    requires Mirrors(cars, s0.cars)
    requires winner0 == s0.winner && asked0 == s0.asked
    modifies cars
    ensures s == RaceFrom(s0, answers, budget).state
    ensures Mirrors(cars, s.cars)
    ensures winner == s.winner && asked == s.asked
  {
    s, winner, asked := s0, winner0, asked0;
    var steps := budget;
    ghost var goal := RaceFrom(s0, answers, budget);
    while true
      invariant Mirrors(cars, s.cars)
      invariant winner == s.winner && asked == s.asked
      invariant RaceFrom(s, answers, steps) == goal
      decreases steps
    {
      var running := AllRunningNow(cars, s.cars);
      if !running || steps == 0 {
        break;
      }
      ghost var before, stepsBefore := s, steps;
      winner, asked, s := RunPass(cars, answers, s, winner, asked);
      steps := steps - 1;
      RaceFromUnfold(before, s, answers, stepsBefore, steps);
    }
  }

  /** `run_race`: builds the cars, runs the loop for at most `budget` passes
      and returns the winner, the final status of every car and how many
      answers were read. */
  method RunRace(profiles: seq<Profile>, answers: seq<string>, budget: nat)
    returns (winner: Option<int>, report: seq<StatusReport>, asked: nat)
    ensures var e := Race(profiles, answers, budget);
      && winner == e.state.winner
      && report == Reports(e.state.cars)
      && asked == e.state.asked
  {
    var cars := BuildCars(profiles);
    ghost var s;
    winner, asked, s := RaceLoop(cars, answers, Start(profiles), None, 0, budget);
    report := StatusAll(cars, s.cars);
  }

  /** `run_multiple_races`: the winner of each race in turn; the races share
      one stream of answers. */
  ghost function Races(lineups: seq<seq<Profile>>, answers: seq<string>, budget: nat): (winners: seq<Option<int>>)
    ensures |winners| == |lineups|
    decreases |lineups|
  {
    if lineups == [] then []
    else
      var e := Race(lineups[0], answers, budget);
      [e.state.winner] + Races(lineups[1..], Rest(answers, e.state.asked), budget)
  }

  /** `w` names no car, or names a car entered in `lineup`. */
  predicate Entered(lineup: seq<Profile>, w: Option<int>)
  {
    w.Some? ==> exists j :: 0 <= j < |lineup| && lineup[j].carId == w.value
  }

  /** The winner of a single race is one of its entrants. */
  lemma RaceWinnerEntered(profiles: seq<Profile>, answers: seq<string>, budget: nat)
    ensures Entered(profiles, Race(profiles, answers, budget).state.winner)
  {
    RaceWinner(profiles, answers, budget);
  }

  /** Every winner `run_multiple_races` collects is one of the cars of its own race. */
  lemma {:induction false} RacesWinnersEntered(lineups: seq<seq<Profile>>, answers: seq<string>, budget: nat)
    ensures var winners := Races(lineups, answers, budget);
      forall r :: 0 <= r < |winners| ==> Entered(lineups[r], winners[r])
    decreases |lineups|
  {
    if lineups != [] {
      var e := Race(lineups[0], answers, budget);
      var rest := Rest(answers, e.state.asked);
      var winners := Races(lineups, answers, budget);
      var tail := Races(lineups[1..], rest, budget);
      RacesUnfold(lineups, answers, budget);
      RaceWinnerEntered(lineups[0], answers, budget);
      RacesWinnersEntered(lineups[1..], rest, budget);
      forall r | 0 <= r < |winners|
        ensures Entered(lineups[r], winners[r])
      {
        if r > 0 {
          assert winners[r] == tail[r - 1] && lineups[r] == lineups[1..][r - 1];
        }
      }
    }
  }

  lemma RacesUnfold(lineups: seq<seq<Profile>>, answers: seq<string>, budget: nat)
    requires lineups != []
    ensures var e := Race(lineups[0], answers, budget);
      Races(lineups, answers, budget)
        == [e.state.winner] + Races(lineups[1..], Rest(answers, e.state.asked), budget)
  {
  }

  lemma AppendAssociates<T>(a: seq<T>, b: seq<T>, c: seq<T>)
    ensures a + b + c == a + (b + c)
  {
  }

  method RunMultipleRaces(lineups: seq<seq<Profile>>, answers: seq<string>, budget: nat)
    returns (winners: seq<Option<int>>)
    ensures winners == Races(lineups, answers, budget)
  {
    winners := [];
    var rest := answers;
    ghost var goal := Races(lineups, answers, budget);
    var todo := lineups;
    while todo != []
      invariant winners + Races(todo, rest, budget) == goal
      decreases |todo|
    {
      RacesUnfold(todo, rest, budget);
      var winner, _, asked := RunRace(todo[0], rest, budget);
      ghost var later := Races(todo[1..], Rest(rest, asked), budget);
      assert Races(todo, rest, budget) == [winner] + later;
      AppendAssociates(winners, [winner], later);
      winners := winners + [winner];
      rest := Rest(rest, asked);
      todo := todo[1..];
    }
  }
}
