# Car racing, modelled in Dafny

`Car_racing.py` simulates a 900 km race between a few cars. Each car is a
`RaceCar` object that burns fuel while it drives at its top speed. Every
300 km there is a checkpoint where the car may refuel. Refuelling costs time
and leaves the car heavier, slower and less agile for the rest of the race.
`run_race` advances all cars in lockstep, one simulated minute per pass,
until some car has covered the 900 km, and returns the id of the first car
to finish. `run_multiple_races` runs several races and collects their
winners.

The model is one module, `CarRacing` in `car_racing.dfy`, in four parts:

- **A car as a value.** `Car` holds every attribute. `NewCar`, `Moved`,
  `Refueled` and `StatusOf` say what `__init__`, `move`, `refuel` and
  `status` do to it.
- **A car as an object.** Class `RaceCar` has the Python object's fields.
  Its constructor and its `Move`, `Refuel` and `Status` update or read those
  fields in place, and each is proved equal to the value function above.
- **The race as a specification.** `Turn` is one car's turn, `PassFrom` one
  pass of the `for` loop, `RaceFrom` the `while` loop, `Race` a whole race
  and `Races` a series of races. Lemmas prove who wins and what every car
  keeps true.
- **The race as loops.** `RunRace` and its helpers (`BuildCars`,
  `AllRunningNow`, `RunPass`, `TakeTurn`, `DriveCar`, `RaceLoop`,
  `StatusAll`) and `RunMultipleRaces` run the race on `RaceCar` objects, in
  the program's own order. Each is proved to compute what the specification
  says.

The user's typed answers to the refuel question are a parameter: a
sequence of strings consumed in order, one per question actually asked.

## Model

| member | source | states |
|---|---|---|
| CarRacing.OnCheckpoint | Car_racing.py:31 | the program's test `d % 300 == 0` (floored remainder zero) holds exactly when `d` is a whole multiple of 300 km |
| CarRacing.NewCar | Car_racing.py:6-20 | a new car carries its profile's identity and setup, starts at distance 0 with 900 km to go, zero time and wait, and a fuel log holding only the initial fuel; it satisfies the car invariant |
| CarRacing.RaceCar.constructor | Car_racing.py:6-20 | the object's fields are exactly `NewCar` of the arguments, and the car invariant holds |
| CarRacing.Moved | Car_racing.py:22-28 | a move of `t` minutes adds `maxSpeed * t / 60` km; the fuel burnt is the consumption rate times that distance, with no floor at zero; time grows by `t`; the new fuel is appended to the log; identity, speed, acceleration, weight and wait are unchanged; the invariant holds afterwards |
| CarRacing.RaceCar.Move | Car_racing.py:22-28 | the in-place update leaves the object equal to `Moved` of its old state and keeps the invariant |
| CarRacing.Refueled | Car_racing.py:30-40 | off a checkpoint nothing changes; at one the fuel becomes min(fuel + n, tank capacity), is appended to the log, and time and wait both grow by `n`; distance and identity are unchanged; the invariant is kept |
| CarRacing.Reduced | Car_racing.py:39-40 | scaling by `1 - f` never increases a non-negative value for `f >= 0` and never makes it negative for `f <= 1` |
| CarRacing.RefuelCosts | Car_racing.py:38-40 | at a checkpoint, `n` litres make the weight `weight + 0.8 * n`, the top speed `maxSpeed * (1 - 0.01 * n)` and the acceleration `initialAcceleration * (1 - 0.005 * n)` |
| CarRacing.RefuelTenLitres | Car_racing.py:38-40 | ten litres at a checkpoint add 8 to the weight and leave 90% of the top speed and 95% of the acceleration |
| CarRacing.RefuelPenalties | Car_racing.py:38-40 | refuelling a non-negative amount never makes a car whose top speed and acceleration are not negative lighter, faster or quicker to accelerate |
| CarRacing.RaceCar.Refuel | Car_racing.py:30-40 | the in-place update leaves the object equal to `Refueled` of its old state, and a car that kept the invariant still keeps it |
| CarRacing.StatusOf | Car_racing.py:42-51 | the report carries the car's own id, colour, distance covered, remaining distance, fuel, time and wait; for a consistent car the distances add up to 900 and the fuel reported is the last fuel logged |
| CarRacing.RaceCar.Status | Car_racing.py:42-51 | the object's report is `StatusOf` its state |
| CarRacing.Lower | Car_racing.py:73 | lower-casing keeps the length and maps each character on its own |
| CarRacing.LowerIsYes | Car_racing.py:73 | `response.lower() == 'yes'` holds exactly for "yes" in any mix of upper and lower case |
| CarRacing.AskForRefuel | Car_racing.py:67-75 | an empty (or negative) tank always refuels; otherwise the car refuels exactly when it is within 300 km of the finish and the answer is a yes; when no question is asked the answer plays no part |
| CarRacing.PromptedExactlyWhenAnswerMatters | Car_racing.py:68-72 | `Prompts` (fuel left and at most 300 km to go, the condition under which `input` is called) holds exactly when a "yes" and a "no" lead to different decisions |
| CarRacing.Rest | Car_racing.py:105 | the answers left after `n` have been read are the old answers shifted by `n` |
| CarRacing.FirstDone | Car_racing.py:82-92 | finds the first car in list order that has finished, or reports that none of the first `n` has |
| CarRacing.Drive | Car_racing.py:84-89 | after its turn a car keeps its id and the invariant, and is either just moved or moved and then refuelled with 300 km worth of fuel at its consumption rate |
| CarRacing.DriveWithoutQuestion | Car_racing.py:86-89 | when the driver is not asked, the car refuels only if it reached a checkpoint with an empty tank, whatever the answer |
| CarRacing.AsksExactlyWhenAnswerMatters | Car_racing.py:84-89 | `Asks` (the car reaches a checkpoint with fuel left and at most 300 km to go, so its turn reads an answer) holds exactly when a "yes" and a "no" leave the car in different states |
| CarRacing.DriveRefuelsExactly | Car_racing.py:86-89 | a turn leaves the car different from just moved exactly when it is on a checkpoint after the move and `ask_for_refuel` on the answer returns true |
| CarRacing.DriveCar | Car_racing.py:84-89 | moving and maybe refuelling the object leaves it equal to `Drive` of its old state, and `prompted` says whether the question was asked |
| CarRacing.Turn | Car_racing.py:84-92 | a turn changes only car `i` and keeps its id and invariant; a winner once set never changes; car `i` becomes the winner exactly when it has finished and there was no winner yet; at most one answer is read |
| CarRacing.TurnDrivesOnNextAnswer | Car_racing.py:84-89 | in its turn car `i` becomes `Drive` of its old state on the next unread answer, and that answer is consumed exactly when `Asks` holds (the question of line 72 is put) |
| CarRacing.TakeTurn | Car_racing.py:84-92 | the loop body on objects leaves the cars, winner and answer count equal to `Turn` |
| CarRacing.PassFrom | Car_racing.py:83-92 | a pass keeps the number of cars and never changes a winner once set; `PassDrivesEveryCar` states that it drives every car once |
| CarRacing.TurnDrivesOneCar | Car_racing.py:84-89 | a turn changes no car but car `i`, and car `i` ends just moved one minute, or moved and refuelled with 300 km worth of fuel |
| CarRacing.PassDrivesEveryCar | Car_racing.py:83-89 | a pass from car `i` leaves the cars before `i` alone and drives every car from `i` on once: each ends just moved one minute, or moved and refuelled with 300 km worth of fuel |
| CarRacing.RunPass | Car_racing.py:83-92 | the `for` loop over the objects computes `PassFrom` from the first car |
| CarRacing.PassPicksFirstFinisher | Car_racing.py:83-92 | in a pass that starts with every car running, the recorded winner is the first car in list order that has finished |
| CarRacing.RaceFrom | Car_racing.py:82-92 | the loop stops with `Finished` only when some car has no distance left, and with `OutOfSteps` only while all still run |
| CarRacing.RaceFromKeepsWinnerSettled | Car_racing.py:82-92 | at every head of the `while` loop there is no winner while all cars run, and afterwards the winner is the first finisher in list order |
| CarRacing.PassKeepsIds | Car_racing.py:83-92 | a pass keeps every car's id at its position |
| CarRacing.RaceFromKeepsIds | Car_racing.py:82-92 | the whole loop keeps every car's id at its position |
| CarRacing.PassKeepsConsistent | Car_racing.py:83-92 | a pass keeps the invariant of every car |
| CarRacing.RaceFromKeepsConsistent | Car_racing.py:82-92 | the whole loop keeps the invariant of every car |
| CarRacing.EveryCarStaysConsistent | Car_racing.py:77-99 | when a race stops, every car's remaining distance is 900 minus its distance covered, and its fuel is the last entry of its fuel log |
| CarRacing.Race | Car_racing.py:77-92 | a race keeps one car per profile and ends `Finished` only when some car has no distance left, `OutOfSteps` only while all still run |
| CarRacing.StartingGrid | Car_racing.py:78 | the starting cars are `NewCar` of each profile, in order |
| CarRacing.RaceWinner | Car_racing.py:77-99 | a race that stops has a winner exactly when some car finished; the winner is the id of the first car in list order that has finished, which is the id of the profile at that position |
| CarRacing.AllRunningNow | Car_racing.py:82 | the short-circuit scan returns true exactly when every car has distance left |
| CarRacing.BuildCars | Car_racing.py:78 | one fresh, distinct object per profile, each holding `NewCar` of its profile |
| CarRacing.Reports | Car_racing.py:95-97 | one report per car, in order, each `StatusOf` that car |
| CarRacing.StatusAll | Car_racing.py:95-97 | the closing loop collects `Reports` of the cars |
| CarRacing.RaceLoop | Car_racing.py:82-92 | the `while` loop over the objects ends in the state `RaceFrom` specifies |
| CarRacing.RunRace | Car_racing.py:77-99 | `run_race` returns the winner, the final reports and the number of answers read that `Race` specifies |
| CarRacing.Races | Car_racing.py:101-111 | one winner per race, in the order of the races |
| CarRacing.RaceWinnerEntered | Car_racing.py:91-92 | the winner of a race, if any, is one of its own cars |
| CarRacing.RacesWinnersEntered | Car_racing.py:101-111 | every winner collected is one of the cars of its own race |
| CarRacing.RunMultipleRaces | Car_racing.py:101-111 | the loop over the races returns the winners `Races` specifies |

## Left out

- `generate_random_car` (lines 53-65) draws random profiles. Each race is given a sequence of `Profile` values instead. The model allows any number of cars, not just the three cars with ids 1 to 3.
- `input` and `print`: the answers are a parameter, and the messages are not modelled. When the answers run out, the model reads an empty line, which is not a yes. Python would raise `EOFError` there instead.
- Floating point: distances, fuel and times are exact reals. So `% 300 == 0` is exact here, while IEEE arithmetic can miss a checkpoint by rounding.
- Termination: the `while` loop of `run_race` need not end, for example when every car has a top speed of zero. The model runs at most `budget` passes. A race that is still running when the budget runs out ends as `OutOfSteps` with no winner.
- Lower: `str.lower()` is modelled on ASCII letters only. Non-ASCII letters never lower-case to "yes", so the refuel decision is the same.
- The module-level call `run_multiple_races(1)` and the unused `numpy` and `matplotlib` imports are not modelled.
- `RunMultipleRaces` takes one profile list per race instead of a count `num_races`, because the cars come from the random generator.
- The units in the status message (wait time printed as "seconds" while it is counted in the same unit as `time`) are output text and are not modelled.
