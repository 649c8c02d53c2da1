# Elevator kernel module: model and proofs

`elevator_proc.c` is a Linux module that runs an elevator over ten floors: a queue of passengers on
each floor, a car limited to 30 weight units (weights are doubled) and 10 units of room, counters of
passengers served, three system calls (start, stop, issue a request) and a scheduler thread. This
project models that module and proves what it does over whole runs.

| file | what is in it |
|---|---|
| `Passengers.dfy` | passengers, lists of them, selecting and adding up |
| `Machine.dfy` | the globals as a value `State`, what each C function does to it, system calls and scheduler passes |
| `Runs.dfy` | runs (sequences of system calls and passes) and the control invariant that makes each pass terminate |
| `Books.dfy` | the bookkeeping invariant `Sound`: load counters, served counters, queue order, conservation |
| `Routines.dfy` | what loading, unloading and dispatching amount to |
| `Draining.dfy` | emptying a stopped car: termination, route, duration |
| `Liveness.dfy` | the measure by which everybody is eventually served |
| `Rides.dfy` | exact ride times and the ten-floor sweep |
| `Order.dfy` | first come, first served over all floors: when exactly |
| `Stopped.dfy` | what can change between a stop and the next start |
| `Interleaving.dfy` | the scheduler at a finer grain, with system calls landing inside a pass |
| `Requests.dfy` | requests landing anywhere inside a pass: timing and service are unchanged |
| `Counterexamples.dfy` | runs on which the elevator misbehaves |
| `Elevator.dfy` | the C program in its own form: a class updated in place, proved to do what `Machine` does |
| `Promises.dfy` | the main results, stated about runs |

## How the program is modelled

- The class `Elevators.Elevator` holds the globals as fields, the ten queues and the ten served
  counters as arrays, and keeps the loops and early returns of the C functions. Each method's contract
  says that `Model()`, the value of all fields, changes exactly as the function of `Machine` of the
  same step says. The bodies inside the two list loops, and the three branches of the scheduler, are
  methods of their own.
- A `list_head` list is a sequence; `list_add_tail`, `list_move_tail` and `list_del` are appends and
  removals. A passenger's `node` number stands for the address the allocator returned.
- `History` (a ghost field of the class) records what the C program does not: a clock advanced by each
  `ssleep`, all accepted requests, departures from queues and deliveries in order, when each rider
  boarded and alighted, the floors served by service passes, and the number of stops accepted (the
  epoch).
- In `Machine` and `Runs` one pass of the scheduler's loop is atomic and system calls land between
  passes. The C code does not enforce this: `stop_elevator` and `start_elevator` take no lock and
  requests are queued without one. `Interleaving` therefore repeats the safety results with system
  calls allowed between any two calls the scheduler makes, and shows that atomic passes are a special
  case. `Requests` repeats the timing, liveness and control results with requests landing anywhere in
  a pass and only starts and stops at the head of the loop. What a stop inside a pass can do is the
  subject of `Interleaving.StopSurvivesIff`.
- The repository's README speaks of sleeping 2 at each floor; the code sleeps 1 second there and 2 for
  each floor moved. The model follows the code (`Runs.AttendFrame`).

## Where the code does not do what it is meant to do

- The repository's README says all passengers are served once enough time has passed. With atomic
  passes this fails exactly for a running elevator that is idle with people onboard and nobody waiting
  (`Liveness.ServedIff`). Starting again before a stop has drained gets there
  (`Counterexamples.StrandedRun`). If every start that takes effect finds the car empty, everybody is
  served within 13 W + 11 B + 1 passes (`Promises.EverybodyIsServed`).
- The repository's README calls the scheduler FIFO. Each floor's queue is, and so is each pair of start
  and destination (`Promises.QueuesAreFifo`, `Promises.NobodyOvertakes`). Over all floors it is not: an
  idle car at floor 1 takes the second request, from floor 10, before the first, from floor 1
  (`Counterexamples.OvertakingRun`). A run is first come, first served over all floors if and only if
  before each service pass the oldest pending requests it will take all ask from the floor it serves
  (`Order.FirstComeFirstIff`; for one pass `Order.PassTakesOldestIff`, for a dispatch
  `Order.DispatchTakesOldestIff`).
- A stop that lands while a pass is unloading, dwelling or loading is overwritten by the pass, and the
  elevator runs on, marked as not started. `Interleaving.StopSurvivesIff` says for each point of the
  loop body, the drain included, when a stop survives; `Counterexamples.LostStopRun` is such a run.
- After such a lost stop, a start and a stop in quick succession send the scheduler into a drain
  without a saved direction. `min_onboard` then answers -1 for ever and nobody gets off
  (`Counterexamples.HangingRun`); the drain ends exactly if a direction was saved
  (`Draining.DrainEndsIff`). With atomic passes a direction always has been.

## Model

| member | source | states |
|---|---|---|
| Elevators.Elevator.constructor | elevator_proc.c:716-726 | the initial globals, field by field: offline, no direction saved, floor and next floor 0, all lists empty, all counters zero |
| Elevators.Elevator.StartElevator | elevator_proc.c:129-142 | refuses with 1 and no change if started; otherwise IDLE at floor 1 and started, with everything else, people onboard included, as it was |
| Elevators.Elevator.StopElevator | elevator_proc.c:145-160 | goes OFFLINE and not started, saves the direction if it was UP or DOWN and else leaves it, and touches nothing else; answers 1 and changes nothing if not started |
| Elevators.Elevator.IssueRequest | elevator_proc.c:163-182 | answers 0 exactly for types 1-4 and floors 1-10 and then queues one passenger as asked; otherwise 1 and no change |
| Elevators.Elevator.AddPassenger | elevator_proc.c:197-249 | the queue of the start floor gains one last passenger with the weight 2, 1, 4, 8, the room 1, 1, 2, 2 and the heading of the request; -1 and no change for an unknown type |
| Elevators.Elevator.AddLoad | elevator_proc.c:343-347 | adds a boarding passenger to the three load counters |
| Elevators.Elevator.RemoveLoad | elevator_proc.c:380-384 | takes an alighting passenger off the three load counters |
| Elevators.Elevator.CountServed | elevator_proc.c:385-386 | one more served at this floor and in total, the other floors unchanged |
| Elevators.Elevator.ServeHead | elevator_proc.c:334-338 | removes a passenger who asked for their own floor and counts them there |
| Elevators.Elevator.TakeHead | elevator_proc.c:343-349 | moves the head of the queue to the tail of the onboard list and adds up the load |
| Elevators.Elevator.LoadElevator | elevator_proc.c:316-363 | the in-place loop with its early return has the effect of Load; whoever is left at the head would exceed 30 weight units or 10 units of room, and a car within these limits stays within them; answers 0 only when the queue was not empty and now is |
| Elevators.Elevator.LetOff | elevator_proc.c:378-387 | removes the passenger under the cursor, takes off their load and counts them at this floor |
| Elevators.Elevator.UnloadElevator | elevator_proc.c:365-393 | the in-place loop has the effect of Unload; -1 and no change on another floor |
| Elevators.Elevator.MoveElevator | elevator_proc.c:466-485 | a move that goes anywhere ends there, with next_floor saying so, after two seconds a floor and nothing else changed; -1, no change and no time when already there |
| Elevators.Elevator.MinOnboard | elevator_proc.c:560-601 | the lowest destination onboard if UP was saved and the highest if DOWN was, 0 only when none lies less than ten floors ahead, -1 without a saved direction |
| Elevators.Elevator.DrainOnboard | elevator_proc.c:406-409 | the loop terminates whenever a direction was saved, with the effect of Drain |
| Elevators.Elevator.DispatchToFloors | elevator_proc.c:416-422 | the loop without a break has the effect that DispatchMeaning describes |
| Elevators.Elevator.UnloadAndDwell | elevator_proc.c:429-431 | unloading and one second at the floor |
| Elevators.Elevator.StopAtFloor | elevator_proc.c:428-434 | unloading, dwelling and loading at one floor, ending in UP |
| Elevators.Elevator.MoveOn | elevator_proc.c:439-442 | the car goes one floor up, or from 10 to 1 |
| Elevators.Elevator.ServeFloor | elevator_proc.c:428-459 | a service pass: attend to the floor, move on with wrap from 10 to 1, IDLE if the car is empty; the DOWN branch is never taken |
| Elevators.Elevator.SchedulerPass | elevator_proc.c:401-462 | one pass has the effect of Tick and re-establishes the control invariant |
| Elevators.Elevator.ReadWeight | elevator_proc.c:644-650 | the two printed numbers give the onboard weight exactly, because its parity is that of the number of children |
| Machine.NearestOnboard | elevator_proc.c:560-601 | min_onboard names the destination of somebody onboard, the lowest if UP was saved and the highest if DOWN was, and it is a floor, never 0 or -1 |
| Machine.DrainStepShrinks | elevator_proc.c:406-409 | each turn of the drain loop lets somebody off and keeps the loop's precondition |
| Runs.StepKeepsReady | elevator_proc.c:129-160 | every system call and every pass keeps the control invariant, including that a car with people in it is going up or has UP saved |
| Routines.UnloadMeaning | elevator_proc.c:376-390 | exactly those bound for this floor are delivered, in order; the others keep their order; only this floor's counter grows, by that number |
| Routines.LoadMeaning | elevator_proc.c:330-360 | loading takes a prefix of the queue, splits it in order into served and boarded, leaves the other queues alone, stops only at a passenger with whom the car would exceed 30 weight units or 10 units, and never exceeds them |
| Routines.LoadIsMaximal | elevator_proc.c:340-355 | a prefix of the queue fits within 30 and 10 if and only if it is no longer than the one taken |
| Routines.AttendClearsFloor | elevator_proc.c:428-434 | after unloading and loading, nobody onboard is bound for the floor just served |
| Routines.DispatchMeaning | elevator_proc.c:415-423 | an idle car goes to the lowest and then to the highest floor with a queue, in LOADING, in two seconds a floor |
| Routines.DispatchThenLoads | elevator_proc.c:415-434 | the pass after a dispatch shortens the queue of the floor it ended at |
| Books.ArriveSound | elevator_proc.c:244 | queuing a request keeps every bookkeeping invariant |
| Books.BoardSound | elevator_proc.c:340-351 | boarding keeps every bookkeeping invariant: counters, capacity, order, conservation |
| Books.ServeHereSound | elevator_proc.c:334-338 | serving somebody at their own floor keeps every bookkeeping invariant, order included |
| Books.AlightSound | elevator_proc.c:378-387 | letting the first passenger for a floor off keeps every bookkeeping invariant |
| Books.DrainStepSound | elevator_proc.c:406-409 | so does a turn of the drain loop, wherever the car was sent |
| Books.RunSound | elevator_proc.c:129-485 | the bookkeeping invariant holds after every run |
| Order.PendingQueue | elevator_proc.c:244 | of all pending requests, those from one floor are its queue |
| Order.PassTakesOldestIff | elevator_proc.c:428-434 | the passengers a service pass takes off the queue are the oldest pending requests if and only if those all ask from its floor |
| Order.DispatchTakesOldestIff | elevator_proc.c:415-434 | after a dispatch the head of the highest queue leaves first, and those who leave are the oldest requests if and only if those all ask from that floor |
| Order.FirstComeFirstIff | README.md:34 | a run is first come, first served over all floors if and only if that condition holds before each of its service passes |
| Draining.RouteCovers | elevator_proc.c:406-409 | the drain stops at a floor if and only if somebody onboard wants it |
| Draining.RouteSweeps | elevator_proc.c:569-593 | it stops in strictly increasing order if UP was saved and strictly decreasing if DOWN was |
| Draining.DrainCost | elevator_proc.c:466-485 | it lasts two seconds a floor to the first stop and from there to the last, where it ends with nobody onboard |
| Draining.DrainEndsIff | elevator_proc.c:406-409 | the drain loop ends if and only if the car is empty or a direction was saved |
| Liveness.UnloadPays | elevator_proc.c:376-390 | everybody who gets off lowers the measure by at least 2 |
| Liveness.LoadPays | elevator_proc.c:330-351 | so does everybody who leaves a queue |
| Liveness.PassPays | elevator_proc.c:395-464 | while there is work, every pass of a running elevator lowers the measure |
| Liveness.ServedWithinBound | elevator_proc.c:395-464 | W waiting and B onboard are served within 13 W + 11 B + 1 passes unless the car is stranded |
| Liveness.ServedIff | README.md:33-34 | a running elevator left alone serves everybody if and only if it is not idle with people onboard and nobody waiting |
| Liveness.ServedAccounts | elevator_proc.c:385-386 | when all are served, the total has grown by the people there were and each floor's counter by those bound for it |
| Liveness.PassPaysSeconds | elevator_proc.c:395-464 | every pass is paid for in seconds out of a potential that counts the way, the dispatches and the people left |
| Liveness.ServedWithinSeconds | elevator_proc.c:395-464 | until all are served the elevator sleeps at most 92 seconds for each waiting, 51 for each onboard, and 46 more |
| Rides.RunExact | elevator_proc.c:425-461 | on every run of atomic passes, each trip no stop interrupted took the seconds and service passes fixed by its two floors, and no rider is carried past their floor |
| Rides.RideEnds | elevator_proc.c:425-485 | a rider does get off, at exactly that time and pass, within 42 seconds, whatever is requested between the passes |
| Rides.WindowOnSchedule | elevator_proc.c:428-445 | in a stretch of atomic service passes the floors served and the time are fixed in advance, whatever is requested between them |
| Rides.TenPasses | elevator_proc.c:428-445 | ten consecutive service passes serve every floor once, end where they began and take 46 seconds, whatever is requested between them |
| Stopped.WhileStopped | elevator_proc.c:144-160 | after a stop nobody boards, queues only gain requests, and one pass delivers all who were onboard |
| Interleaving.MicroKeepsReady | elevator_proc.c:401-462 | at the fine grain too, floors are only indexed in range and the elevator is never DOWN |
| Interleaving.FineRunSound | elevator_proc.c:401-462 | the bookkeeping invariant holds when system calls land inside a pass |
| Interleaving.PassIsSteps | elevator_proc.c:401-462 | an atomic pass is a sequence of scheduler steps with nothing in between, and which pass it is depends on the mode alone |
| Interleaving.RunIsFineRun | elevator_proc.c:401-462 | every run with atomic passes is a run at the fine grain |
| Interleaving.StopSurvivesIff | elevator_proc.c:149-154 | for each point of the loop body, when an accepted stop is still in force at the end of the pass; in the drain it is after every step |
| Interleaving.StopBeforeMove | elevator_proc.c:437-445 | a stop before the test for UP keeps the car where it is, one after it does not |
| Interleaving.StartInsideDrain | elevator_proc.c:133-138 | a start during a drain with UP saved puts the car at floor 1 but leaves the drain running until all are off, and then the car is idle |
| Interleaving.DrainStaysOffline | elevator_proc.c:405-414 | no step of the drain writes the mode |
| Requests.TidyRunExact | elevator_proc.c:425-461 | with requests landing anywhere in a pass: the control invariant holds at every head of the loop, and every uninterrupted trip took its exact seconds and service passes |
| Requests.TidyRunServes | README.md:33-34 | from the head of the loop after such a run, a running elevator that is not stranded and is left alone serves everybody within the bounds in passes and seconds |
| Requests.RideEndsAnyway | elevator_proc.c:425-485 | a rider gets off at exactly that time and visit, at the latest three steps into that pass, wherever requests land meanwhile |
| Requests.WindowOnStepSchedule | elevator_proc.c:428-445 | in a stretch of service passes the point of the loop, the floor, the floors served and the time depend on the number of steps only |
| Requests.TenPassesAnyway | elevator_proc.c:428-445 | ten service passes serve every floor once, end where they began and take 46 seconds, wherever requests land among their steps |
| Counterexamples.StrandedRun | elevator_proc.c:136-138 | starting before the car has drained leaves a passenger onboard for ever |
| Counterexamples.OvertakingRun | README.md:34 | a run on which the second request, from another floor, leaves its queue before the first |
| Counterexamples.LostStopRun | elevator_proc.c:429-433 | a stop during the dwell is overwritten and no direction is saved |
| Counterexamples.HangingRun | elevator_proc.c:595-597 | a run after which the scheduler never leaves the drain loop |
| Promises.NeverOverfull | elevator_proc.c:340-347 | the load counters are those of the people onboard, at most 30 weight units and 10 units, so at most 10 ride; parity of weight and of children agree |
| Promises.QueuesAreFifo | elevator_proc.c:244 | those who left a floor's queue, then the queue, are the requests from there in order |
| Promises.NobodyOvertakes | elevator_proc.c:330-390 | delivered, onboard and waiting, restricted to one start and destination, concatenate to the requests for that journey |
| Promises.CountersAddUp | elevator_proc.c:385-386 | requests for a floor are its served counter plus those onboard and waiting for it; the total is the sum of the counters |
| Promises.EverybodyIsInOnePlace | elevator_proc.c:334-349 | every accepted passenger is in exactly one of the delivered history, the car and the queues |
| Promises.RequestIsQueued | elevator_proc.c:200-244 | on every run, a request within range adds exactly one passenger, last in its queue, with the weight, room and heading its numbers say |
| Promises.RequestIsRefused | elevator_proc.c:168-176 | any other request changes nothing |
| Promises.StartPutsAtOne | elevator_proc.c:133-139 | on every run, a start that takes effect puts the car at floor 1, idle, with everybody and everything else as it was; otherwise it changes nothing |
| Promises.StopKeepsPlace | elevator_proc.c:149-159 | on every run, a stop that takes effect leaves the car where it is, with everybody in it, and saves UP if that was its mode |
| Promises.StopThenDrain | elevator_proc.c:402-414 | the pass after a stop empties the car at the highest floor wanted, in two seconds a floor from where it was stopped to the lowest and up to the highest |
| Promises.NextFloorIsLastTarget | elevator_proc.c:476 | on every run next_floor is where the last move that took time led |
| Runs.ServiceShows | elevator_proc.c:437-445 | after a service pass next_floor is the floor the car stands on, and time has passed |
| Promises.ControlBetweenPasses | elevator_proc.c:129-160 | started exactly when not OFFLINE, never DOWN, UP only with people onboard, LOADING only with somebody to serve, floor within 1 to 10 from the first start on; on its way the car carries nobody bound for the floor it just served |
| Promises.FloorOnceStarted | elevator_proc.c:136-138 | once the elevator has been started, running or stopped, the car is at one of the floors 1 to 10 |
| Promises.PatientNeverIdlesLoaded | elevator_proc.c:133-138 | if the elevator is only started empty, it is never idle with people onboard |
| Promises.EverybodyIsServed | README.md:33-34 | then everybody is served within the bound, each counted at their own floor |
| Promises.ServedExactlyIf | README.md:33-34 | on any run, exactly when a running elevator left alone serves everybody |
| Promises.StoppedCarEmpties | elevator_proc.c:402-414 | one pass empties a stopped car, lowest wanted floor first, each once, in the time of that route |
| Promises.NobodyBoardsWhileStopped | elevator_proc.c:144-160 | the same as WhileStopped, after every run |

## Left out

- The /proc file (open, read, release, formatting, copying to user space) and all logging: input and output. Only the weight arithmetic is modelled.
- `kmalloc` failure, and locks that are not granted: allocation succeeds and `mutex_lock_interruptible` answers 0. `issue_request` ignores the result of `add_passenger`, so conservation is about passengers actually queued.
- The node that `add_passenger` leaks for an unknown type: `issue_request` never passes one.
- `list_head` itself: the kernel's lists are not part of this repository.
- `min_floor`: it is never called.
- Module set-up and removal, `delete_passenger` at unload, and the thread starting before the lists are initialised.
- Interleaving inside one call (between two list operations, or during the sleep of a move) and weak memory: at the fine grain each call of the scheduler is one step, and the two tests at the head of the loop are made on one reading of the state.
- `casey_elevator_proc.c` and `elevatorcami.c`: earlier drafts. `my_xtime.c`, `part1.c`, the system call stubs, `syscalls.h`, the Makefile and the configuration: they would add only easy members.
- Overflow of the C integers: the counters are unbounded.
- RunExact: for atomic passes; TidyRunExact states it with requests landing anywhere in a pass.
- RideEnds: for atomic passes; RideEndsAnyway states it with requests landing anywhere in a pass.
- WindowOnSchedule: for atomic passes; WindowOnStepSchedule states it with requests landing anywhere in a pass.
- TenPasses: for atomic passes; TenPassesAnyway states it with requests landing anywhere in a pass.
- TidyRunExact: starts and stops land at the head of the loop, as for TidyRunServes and RideEndsAnyway; LostStopRun and HangingRun show what they do elsewhere.
- Starvation of somebody waiting while requests never cease: a full car may pass a floor for ever, and the code does not promise otherwise.
