# Verification of the concurrency programs

A model, in Dafny 4.11, of the concurrent programs of this repository that carry a protocol or a numerical
claim, with proofs of what they promise. `dafny verify dfyconfig.toml` checks the whole project.

The project has four groups of modules.

- **Heat relaxation.** `HeatGrid` defines one state of a plate, and the equilibrium test, over exact reals.
  `SerialPlate` is the serial program (two-dimensional buffers, in place) and `FlatPlate` the flat buffers and
  their rounds, block after block; both are proved against `HeatGrid`. `BarrierPlate` is the pthread program as
  a step machine: cell updates, critical sections, and the two barriers, each used twice per round. `OmpTeam` is
  the OpenMP program as one: the `single`, the implicit barriers, the reduction, each thread's reading of the
  flag, and the explicit barrier. Every interleaving of either refines the serial iteration. `ProgramsAgree`
  finds when the serial and the parallel programs leave the same plate. `HeatAnalysis` bounds the number of
  states, `HeatStability` settles for which constants the simulation ends on every plate, and `HeatSteady` on
  which plates it ends exactly when nothing changes any more. `BlockMap` is the distribution of rows among
  threads, and of index ranges among MPI processes.
- **Network simulations.** `SemaphoreQueue` shows that the shared queue, action by action, is an atomic
  bounded FIFO. `LossyCycle` with `LossyRuns` (the cyclic network with packet loss) and `BoundPipeline` (many
  producers, bounded queues) take one queue action of one thread as a step, and range over all interleavings,
  targets and losses; `LossyCapacity` finds how large the queues of the cyclic network must be. `QueueNetwork`
  composes any threads with any number of such queues, where a queue action is a call that goes through the
  semaphores, and shows that this refines the network in which it is one step. `BoundThreads` and
  `LossyThreads` write the threads of the two networks that way and carry their results over. `BoundOutcomes`
  and `LossyOutcomes` say where every message goes, given the random numbers that were drawn for it, and that
  every such outcome is possible. `Messages` counts messages in queues.
- **MPI scheduler.** `MasterWorker` is the master and its workers, with one FIFO channel per direction and
  worker (the non-overtaking rule, section 3.5 of MPI 3.1).
- **Smaller programs.** `UnboundProdCons` and its heap-allocated `LinkedQueue`, `RingBuffer`, `Water` (the
  rendezvous that builds water), and `MergeSort` (in place, on an array) with `MergeTasks` (its tree of tasks,
  of which any may take the next step).

Runs are sequences of states from an initial one; a main result about a program holds in the last state
of every run, hence in every reachable state. "Stuck" means that no thread can take a step (in the networks
with atomic queues also when the assembler could still lose a message but has decided not to). Every machine
except the shared queue, whose threads may call it forever, has a rank that each step lowers, so runs are
finite (for the two team programs on plates that settle), and their lengths are bounded by an explicit number.

Where the code and its intention differ:

- The serial program stores the area of a cell in an unsigned integer (`homeworks/serial/src/plate.c:64`),
  the parallel ones do not. `ProgramsAgree.ProgramsAgreeExactly` says exactly when they leave the same plate.
- The initial loop of the MPI master uses a strict bound (`homeworks/omp_mpi/src/job.c:213-214`), so it hands
  out one plate less than it could, and with a single working process none at all.
  `MasterWorker.EndsProperlyExactly` says exactly when the program ends.
- The producer of the bounded program takes an extra permit
  (`pthreads/prod_cons_bound/src/prod_cons_bound.c:212`). `RingBuffer.CompletesExactly` says exactly when
  that does no harm.
- `calculate_start` on a reversed range takes the minimum with a negative remainder
  (`mpi/hybrid_distr_bcast/src/main.cpp:77`). `BlockMap.CalculateStartBegins` says exactly when the first
  process starts at `begin`.
- Nothing checks the constants of a simulation job. `HeatStability.EveryPlateSettlesExactly` says exactly for
  which constants the loop ends on all plates.
- The cyclic network gives all queues the largest capacity a semaphore allows
  (`taskc/network_simul_packet_loss_fix/src/ProducerConsumerTest.cpp:70`). `LossyCapacity.NetworkEndsExactly`
  says exactly which capacities are enough for a number of packages.
- Neither network checks its counts. `LossyCapacity.NetworkEndsExactly` and `BoundPipeline.PipelineEndsExactly`
  say exactly with which counts no run fails; targets of messages are 16 bits wide, and
  `LossyCapacity.CrashesExactly` and `BoundPipeline.CrashesExactly` say exactly when the dispatcher can throw.

## Model

| member | source | states |
|---|---|---|
| SerialPlate.PlateMatrix.InitAuxiliary | homeworks/serial/src/plate_matrix.c:38-64 | the border of the auxiliary matrix becomes that of the matrix, its interior and the matrix stay as they are |
| SerialPlate.PlateMatrix.SetAuxiliary | homeworks/serial/src/plate_matrix.c:68-80 | the two buffers trade places |
| SerialPlate.PlateMatrix.UpdateCell | homeworks/serial/src/plate_matrix.c:84-102 | one cell takes the value of the heat equation, nothing else changes |
| SerialPlate.Plate.UpdatePlate | homeworks/serial/src/plate.c:49-93 | one call is one state of the plate, and it reports equilibrium exactly when no interior cell went up or down by more than epsilon |
| SerialPlate.Plate.EquilibratePlate | homeworks/serial/src/job.c:83-99 | on a plate that settles, the loop leaves the first settled state and its number |
| SerialPlate.SerialCellArea | homeworks/serial/src/plate.c:64 | the area is the square of the side without its fraction |
| SerialPlate.SerialMult | homeworks/serial/src/plate.c:62-65 | times that area, the constant is the diffusivity times the interval |
| SerialPlate.ParallelMult | homeworks/omp_mpi/src/plate.c:109-116 | times the square of the side, the constant is the diffusivity times the interval |
| SerialPlate.MultConstantsAgree | homeworks/serial/src/plate.c:62-65 | the serial and the parallel constant agree exactly when the square of the side is a whole number or nothing diffuses |
| ProgramsAgree.SameResultExactly | homeworks/serial/src/job.c:83-99 | for epsilon positive: two constants lead to the same plate and number of states, on all plates that settle, if and only if they are equal |
| ProgramsAgree.SameResultWithoutTolerance | homeworks/serial/src/plate.c:87-90 | for epsilon not positive: two non-zero constants always lead to the same plate and number of states |
| HeatSteady.NextsCommute | homeworks/serial/src/plate_matrix.c:84-102 | steps with two constants commute, cell for cell |
| HeatSteady.StopsWithBoth | homeworks/serial/src/job.c:87-98 | a plate that stops changing with each of two different non-zero constants, after any numbers of states, was steady from the start |
| HeatSteady.SettlesWithBoth | homeworks/serial/src/job.c:87-98 | with epsilon zero, a plate on which both simulations end takes one state, which is the plate itself |
| ProgramsAgree.AreaVanishesBelowOne | homeworks/serial/src/plate.c:64-65 | the serial program divides by an area of zero exactly when the area is below one |
| ProgramsAgree.ProgramsAgreeExactly | homeworks/serial/src/plate.c:62-65 | for every non-zero area and every epsilon: the serial and the parallel programs leave the same plates and numbers of states if and only if the area is at least one, and a whole number unless nothing diffuses or epsilon is not positive |
| ProgramsAgree.TruncatedAreaDiffers | homeworks/serial/src/plate.c:64 | with cells of side 1.5 they do not |
| ProgramsAgree.BarrierLeavesSerialPlate | homeworks/optimized/pthread_optimized/src/job.c:83-118 | when they agree, every finished run of the pthread program leaves the plate and the number of states of the serial program |
| SerialPlate.TruncatedAreaExample | homeworks/serial/src/plate.c:64 | a cell of side 1.5, on which the two programs use different constants |
| HeatGrid.BiggestBeforeIsMax | homeworks/serial/src/plate.c:57-85 | the running biggest change bounds all visited cells and is attained by one of them |
| HeatGrid.BiggestChangeWithin | homeworks/serial/src/plate.c:87-90 | the test on the biggest change is the test of every cell |
| HeatGrid.AbsIsDistance | homeworks/serial/src/plate.c:78 | the difference of two temperatures is their distance |
| HeatGrid.WithinMeans | homeworks/serial/src/plate.c:78-90 | the equilibrium test holds exactly when every interior cell went up or down by at most epsilon |
| HeatGrid.SettledMeans | homeworks/serial/src/job.c:87-98 | so the loop stops at the first state that moves no interior cell of the one before by more than epsilon |
| HeatGrid.FirstSettledUpTo | homeworks/serial/src/job.c:87-98 | a plate that settles has a first settled state |
| HeatGrid.IndexInjective | homeworks/optimized/pthread_optimized/src/plate.c:62 | different cells have different flat indices |
| HeatGrid.IndexInBounds | homeworks/optimized/pthread_optimized/src/plate.c:62 | flat indices are within the buffer |
| HeatAnalysis.MaximumPrinciple | homeworks/serial/src/plate_matrix.c:84-102 | for mult in 0 .. 1/4 temperatures stay within the initial extremes, and the border never changes |
| HeatAnalysis.ChangeRecurrence | homeworks/serial/src/plate_matrix.c:84-102 | the changes of a round obey the heat equation with a border of zeros |
| HeatAnalysis.ChangeShrinks | homeworks/serial/src/plate_matrix.c:84-102 | the next change of a cell is bounded by the changes around it, row by row |
| HeatAnalysis.BiggestChangeNeverGrows | homeworks/serial/src/plate.c:78-83 | the biggest change of a round is at most that of any earlier round |
| HeatAnalysis.SettledForever | homeworks/serial/src/plate.c:87-92 | a plate in equilibrium stays in equilibrium in every later state |
| HeatAnalysis.GeometricDecay | homeworks/serial/src/job.c:90-95 | the change of round k is under a parabola times a power of 1 - 2 mult / peak |
| HeatAnalysis.SettlesInTime | homeworks/serial/src/job.c:90-95 | the loop ends no later than after an explicit number of states, in terms of rows, mult, epsilon and the first change |
| HeatStability.RelaxationEnds | homeworks/serial/src/job.c:83-99 | every plate settles for mult zero, or at most 1/4 with a positive epsilon |
| HeatStability.SwingsStayAbove | homeworks/serial/src/plate_matrix.c:84-102 | above 1/4, on a chessboard of temperatures of suitable size, every cell changes with alternating sign and at least by its initial height, in every round |
| HeatStability.ChessboardNeverSettles | homeworks/serial/src/job.c:90-95 | for every mult above 1/4 and every epsilon some plate is simulated forever |
| HeatStability.ZeroEpsilonNeverSettles | homeworks/serial/src/plate.c:87-90 | with epsilon zero and mult in (0, 1/4] some plate is simulated forever |
| HeatStability.EveryPlateSettlesExactly | homeworks/serial/src/job.c:83-99 | for all real constants: the simulation of every plate ends if and only if mult is zero, or at most 1/4 with epsilon positive (and epsilon is never negative) |
| BlockMap.BlocksTile | homeworks/optimized/pthread_optimized/src/threads.c:60-88 | every row has exactly one owner, and blocks hold nothing but rows |
| BlockMap.BlocksBalanced | homeworks/optimized/pthread_optimized/src/threads.c:82-88 | blocks differ by at most one row, larger ones first |
| BlockMap.BlockNotEmpty | homeworks/optimized/pthread_optimized/src/threads.c:36-40 | no block is empty when there are no more threads than rows |
| BlockMap.InitPrivateData | homeworks/optimized/pthread_optimized/src/threads.c:60-80 | the ranges of the threads are contiguous, non-empty, start at row 1 and end before the last row |
| BlockMap.CalculateStartIsFinishRow | mpi/hybrid_distr_bcast/src/main.cpp:75-82 | on ranges that are not reversed the MPI formula is the row distribution, shifted |
| BlockMap.CalculateStartBegins | mpi/hybrid_distr_bcast/src/main.cpp:75-82 | the last block always ends at end, the first starts at begin exactly when the range is not reversed or the workers divide it |
| BlockMap.CalculateStartReversed | mpi/hybrid_distr_bcast/src/main.cpp:75-82 | on a reversed range all processes are given the same number of indices, which is not positive, and the last one ends at end |
| BlockMap.CalculateStartReversedExample | mpi/hybrid_distr_bcast/src/main.cpp:77 | a reversed range on which the first process starts elsewhere |
| FlatPlate.FlatMatrix.InitAuxiliary | homeworks/optimized/pthread_optimized/src/plate_matrix.c:38-66 | on flat buffers: the border is copied, the rest stays |
| FlatPlate.FlatMatrix.SetAuxiliary | homeworks/optimized/pthread_optimized/src/plate_matrix.c:70-82 | the two flat buffers trade places |
| FlatPlate.FlatMatrix.UpdateCell | homeworks/optimized/pthread_optimized/src/plate_matrix.c:86-107 | one flat cell takes the value of the heat equation of its four neighbours |
| FlatPlate.FlatMatrix.EquilibrateRows | homeworks/optimized/pthread_optimized/src/plate.c:51-76 | a thread computes its rows, leaves all others alone, and its flag is exactly whether none of its cells went up or down by more than epsilon |
| FlatPlate.SweptIsNext | homeworks/optimized/pthread_optimized/src/plate.c:57-74 | flat buffers all of whose interior cells have been computed hold the next state |
| FlatPlate.FlatWithinIsWithin | homeworks/optimized/pthread_optimized/src/plate.c:70-72 | the test on flat buffers is the test on the plate |
| FlatPlate.BlockProgress | homeworks/omp_mpi/src/plate.c:79-99 | one more block, in any order, extends what is done and joins its flag, without touching finished blocks |
| FlatPlate.OmpPlate.Round | homeworks/omp_mpi/src/plate.c:71-99 | a round that swaps first and runs its blocks one after another, in any order, is one state of the plate and the equilibrium test |
| FlatPlate.OmpPlate.EquilibratePlate | homeworks/omp_mpi/src/plate.c:59-105 | for every number of blocks, such rounds leave the grid and count of states of the serial program |
| OmpTeam.InvStep | homeworks/omp_mpi/src/plate.c:65-104 | every step of every thread and every release of the team's barrier keep the invariant of the phase of the round |
| OmpTeam.ConstructsSeparatePhases | homeworks/omp_mpi/src/plate.c:71-102 | count, swap and reset of the flag happen in one thread while no other sweeps or has still to read the flag; all threads leave in the same round; the barrier releases only threads at the same construct |
| OmpTeam.TeamRefinesSerial | homeworks/omp_mpi/src/plate.c:59-105 | for every size of the team and every interleaving, the grid and count of states at the end of the region are those of the serial program |
| OmpTeam.TeamRunsEnd | homeworks/omp_mpi/src/plate.c:70-104 | on a plate that settles, runs are bounded by an explicit number of steps and stop only when all threads have left the region |
| BarrierPlate.TeamSize | homeworks/optimized/pthread_optimized/src/threads.c:36-40 | the team is as large as requested, or as the rows allow, whichever is less |
| BarrierPlate.TeamHasWork | homeworks/optimized/pthread_optimized/src/threads.c:36-88 | in the team the program makes, the rows of the threads follow each other from the first to the last, every thread has one, and they share evenly |
| BarrierPlate.WorkersMoveFreely | homeworks/optimized/pthread_optimized/src/plate.c:83-123 | nothing but the barriers holds a worker back, and the first barrier may single out any worker, in both its uses |
| BarrierPlate.InvStep | homeworks/optimized/pthread_optimized/src/plate.c:78-126 | every step of every worker keeps the invariant of its phase of the round |
| BarrierPlate.BarriersSeparatePhases | homeworks/optimized/pthread_optimized/src/plate.c:83-123 | swap, count and reset happen only while all others wait at a barrier; nobody leaves the loop while another starts a round; no barrier mixes its two uses |
| BarrierPlate.BarrierRefinesSerial | homeworks/optimized/pthread_optimized/src/job.c:83-118 | for every number of threads and every interleaving, after the join and the last swap the matrix is the serial one and the counter the number of states the serial program counts |
| BarrierPlate.BarrierRunsEnd | homeworks/optimized/pthread_optimized/src/plate.c:83-123 | on a plate that settles, runs are bounded by an explicit number of steps and stop only when all workers have left |
| SemaphoreQueue.FifoOrder | taskc/common/prodcons/Queue.hpp:46-65 | the specification: a bounded FIFO gives back its values in order and never holds more than its capacity |
| SemaphoreQueue.PermitsStep | taskc/common/prodcons/Queue.hpp:46-65 | every action keeps the sums: permits, elements and operations under way add up to the capacity |
| SemaphoreQueue.QueueIsLinearizable | taskc/common/prodcons/Queue.hpp:46-65 | for all threads and interleavings the operations, in the order of their effects, are a run of the atomic bounded FIFO with the same contents, and agree with what each thread has returned |
| SemaphoreQueue.LogGrows | taskc/common/prodcons/Queue.hpp:46-65 | the order of effects only grows |
| SemaphoreQueue.RealTimeOrder | taskc/common/prodcons/Queue.hpp:46-65 | an operation that has returned takes effect before every operation that is called later |
| SemaphoreQueue.SectionIsSafe | taskc/common/prodcons/Queue.hpp:48-62 | at most one thread is in the critical section, and the front is never taken of an empty queue |
| SemaphoreQueue.BlockedForAReason | taskc/common/prodcons/Queue.hpp:47-58 | when nothing moves, waiting dequeuers face an empty queue and waiting enqueuers a full one |
| QueueNetwork.MoveIsSeen | taskc/common/prodcons/Queue.hpp:46-65 | of the actions of an operation one is, to an observer of the whole network, the operation as one step, and the others change nothing |
| QueueNetwork.NetworkRefines | taskc/common/prodcons/Queue.hpp:46-65 | for any threads and queues: every run through semaphores and locks is a run with atomic queues, of at least a seventh of the length |
| QueueNetwork.StuckOnlyWhereAtomic | taskc/common/prodcons/Queue.hpp:46-58 | where no thread can move through semaphores and locks, none could with atomic queues |
| LossyCycle.RoutesKeys | taskc/network_simul_packet_loss_fix/src/ProducerConsumerTest.cpp:83-95 | the dispatcher's map holds the consumers under 1 .. C and the assembler under C + 1, which is also its size |
| LossyCycle.TargetsAreRoutable | taskc/network_simul_packet_loss_fix/src/ProducerTest.cpp:29-40 | every target drawn has a key if and only if C + 1 fits 16 bits |
| LossyCycle.RetargetedGoesToConsumer | taskc/network_simul_packet_loss_fix/src/AssemblerTest.cpp:36-41 | a message the assembler sends back has the key of a consumer |
| LossyCycle.StepConserves | taskc/network_simul_packet_loss_fix/src/DispatcherTest.cpp:10-31 | every step keeps, for every message number, how many such messages exist |
| LossyCycle.PhaseStep | taskc/network_simul_packet_loss_fix/src/DispatcherTest.cpp:13-23 | every step keeps the position of the stop token and the counters of consecutive stops |
| LossyRuns.OneTokenCirculates | taskc/network_simul_packet_loss_fix/src/AssemblerTest.cpp:14-21 | for all counts: exactly one stop circulates until the dispatcher leaves its loop, and no key is missing when the keys fit 16 bits |
| LossyRuns.NothingIsForgotten | taskc/network_simul_packet_loss_fix/src/DispatcherTest.cpp:10-31 | for all counts: once all threads have ended no data is left in any queue, every package was received once by its addressee or lost once, and the printed counts add up |
| LossyRuns.SentBackStaysAway | taskc/network_simul_packet_loss_fix/src/AssemblerTest.cpp:36-41 | in every run, once the assembler has sent a message back, neither its queue nor its hands hold that message again |
| LossyRuns.RunsAreBounded | taskc/network_simul_packet_loss_fix/src/AssemblerTest.cpp:14-42 | for all counts and capacities: no run takes more than 32 n + 2 C + 13 steps |
| LossyCapacity.SpaciousRunsEnd | taskc/network_simul_packet_loss_fix/src/DispatcherTest.cpp:10-26 | with enough room a run that cannot go on has ended all threads, also when the assembler never loses |
| LossyCapacity.CrowdJams | taskc/network_simul_packet_loss_fix/src/AssemblerTest.cpp:30-42 | with more than twice as many packages as a queue holds, dispatcher and assembler can end up waiting for each other |
| LossyCapacity.OneSlotJams | taskc/network_simul_packet_loss_fix/src/DispatcherTest.cpp:13-23 | with one slot and a package, the last stop of the broadcast can wait forever for an assembler that has ended |
| LossyCapacity.CrashesExactly | taskc/common/prodcons/Dispatcher.hpp:47-54 | a run in which the dispatcher throws exists if and only if there are packages, room, and more keys than 16 bits hold |
| LossyCapacity.NetworkEndsExactly | taskc/network_simul_packet_loss_fix/src/ProducerConsumerTest.cpp:66-95 | for all counts and capacities: no run throws, draws from nothing, or stops before all threads have ended, if and only if the capacity is at least two and half the packages and there are 1 to 65534 consumers, or there are no packages and some room |
| LossyOutcomes.ProduceSendsAsDrawn | taskc/network_simul_packet_loss_fix/src/ProducerTest.cpp:29-40 | a new message has the next number and leads to the consumer, or the assembler, that was drawn |
| LossyOutcomes.ForwardSendsAsDrawn | taskc/network_simul_packet_loss_fix/src/AssemblerTest.cpp:36-41 | a message that is sent back keeps number and source and leads to the consumer that was drawn |
| LossyOutcomes.ThreadsSendAsDrawn | taskc/network_simul_packet_loss_fix/src/AssemblerTest.cpp:36-41 | so does what producer and assembler hand to the queues in the network with semaphores |
| LossyOutcomes.MessagesGoWhereDrawn | taskc/network_simul_packet_loss_fix/src/ProducerConsumerTest.cpp:66-95 | in the end each message was received once by the consumer drawn for it, or by the one drawn when it was sent back, or lost by the assembler, and nobody has anything else |
| LossyOutcomes.EveryOutcome | taskc/network_simul_packet_loss_fix/src/AssemblerTest.cpp:30-42 | under the condition of NetworkEndsExactly, for all draws of the producer and the assembler and all choices of lost messages some run ends with exactly that |
| LossyOutcomes.AnyoneGetsSentBack | taskc/network_simul_packet_loss_fix/src/AssemblerTest.cpp:36-41 | every consumer can receive a message that was sent back |
| LossyThreads.ThreadsRefineNetwork | taskc/common/prodcons/Queue.hpp:46-65 | every run of the threads through the semaphores is, operation for operation, a run of the cyclic network |
| LossyThreads.ThreadsEnd | taskc/network_simul_packet_loss_fix/src/ProducerConsumerTest.cpp:66-95 | through the semaphores, for all counts and capacities, no run takes more than 224 n + 19 C + 106 actions; and under the condition of NetworkEndsExactly no thread waits forever: where none can move all have ended, and received and lost messages add up to n |
| BoundPipeline.TargetsAreRegistered | taskc/network_simul_bound/src/ProducerTest.cpp:48-59 | every target drawn has a queue if and only if the consumers fit 16 bits |
| BoundPipeline.TicketStep | taskc/network_simul_bound/src/ProducerTest.cpp:22-40 | every step keeps the accounting of tickets: drawn, late, and the one that carries the stop |
| BoundPipeline.NumberStep | taskc/network_simul_bound/src/ProducerTest.cpp:26-32 | every step keeps that each drawn number is held by one producer or enqueued once |
| BoundPipeline.StopComesLast | taskc/network_simul_bound/src/ProducerTest.cpp:22-40 | for all counts: packages 1 .. n are each enqueued once, and the one stop comes after all of them, although enqueueing is outside the lock |
| BoundPipeline.ConsumerStep | taskc/common/prodcons/Dispatcher.hpp:47-54 | every step keeps that a consumer's input is the forwarded messages addressed to it, in order, then a stop |
| BoundPipeline.PipelineDelivers | taskc/network_simul_bound/src/AssemblerTest.cpp:14-37 | for all counts: once all threads have ended every package was received once by its addressee or lost once, each consumer got exactly the forwarded messages for it, in order, and the counts add up |
| BoundPipeline.PipelineEnds | taskc/network_simul_bound/src/DispatcherTest.cpp:10-21 | for all counts no run exceeds 8 (n + P) + 2 C + 4 steps, and no key that fits 16 bits is missing; with room and consumers for the packages no run deadlocks, for every capacity from 1 on, also when the assembler never loses |
| BoundPipeline.CrashesExactly | taskc/common/prodcons/Dispatcher.hpp:47-54 | a run in which the dispatcher throws exists if and only if there are producers, packages, room, and more than 65535 consumers |
| BoundPipeline.PipelineEndsExactly | taskc/network_simul_bound/src/ProducerConsumerTest.cpp:74-110 | for all counts and capacities: no run throws, draws from nothing, or stops before all threads have ended, if and only if there are producers, room, and no packages or 1 to 65535 consumers |
| BoundOutcomes.DrawMakesMessage | taskc/network_simul_bound/src/ProducerTest.cpp:48-59 | the message a producer holds after its draw carries its ticket and leads to the consumer that was drawn |
| BoundOutcomes.PackagesGoWhereDrawn | taskc/network_simul_bound/src/ProducerTest.cpp:22-59 | in the end each package was lost, or received once by the consumer that was drawn for it, and nobody has anything else |
| BoundOutcomes.EveryOutcome | taskc/network_simul_bound/src/AssemblerTest.cpp:14-37 | under the condition of PipelineEndsExactly, for all draws and all choices of lost packages some run ends with exactly that |
| BoundThreads.ThreadsRefinePipeline | taskc/common/prodcons/Queue.hpp:46-65 | every run of the threads through the semaphores is, operation for operation, a run of the bounded network |
| BoundThreads.ThreadsEnd | taskc/network_simul_bound/src/ProducerConsumerTest.cpp:74-110 | through the semaphores, for all counts and capacities, no run takes more than 56 n + 61 P + 19 C + 38 actions; and under the condition of PipelineEndsExactly no thread waits forever: where none can move all have ended, and received and lost messages add up to n |
| MasterWorker.InvStep | homeworks/omp_mpi/src/job.c:201-294 | every step of the master or a worker keeps the invariant of master, workers, channels and plates |
| MasterWorker.WorkIsAccounted | homeworks/omp_mpi/src/job.c:201-257 | available workers and outstanding plates add up to the workers or the plates, whichever are less; no plate is with two workers or computed twice |
| MasterWorker.FirstPlates | homeworks/omp_mpi/src/job.c:207-221 | when the master leaves its initial loop, with n the lesser of workers and plates, exactly the first n - 1 workers have a plate, in order |
| MasterWorker.MessagesArePaired | homeworks/omp_mpi/src/job.c:224-242 | the receive from any source takes the index of the sender's plate, never a number of states, and the next receive takes the states of that plate |
| MasterWorker.EveryPlateOnce | homeworks/omp_mpi/src/job.c:221-257 | when the master has left its loop every plate was computed once, that result is recorded, and nothing is under way |
| MasterWorker.SimulationEnds | homeworks/omp_mpi/src/job.c:221-294 | with at least two working processes no run deadlocks, all processes stop, after at most 12 (plates + workers) + 2 steps |
| MasterWorker.NothingIsSent | homeworks/omp_mpi/src/job.c:207-221 | below two working processes no message is ever sent |
| MasterWorker.EndsProperlyExactly | homeworks/omp_mpi/src/job.c:201-294 | runs end properly if and only if there are at least three processes and two plates |
| MasterWorker.AnyResults | homeworks/omp_mpi/src/job.c:221-257 | with three processes and two plates or more, whatever numbers of states the plates take, some run ends properly with exactly them recorded |
| LinkedQueue.Queue.Enqueue | pthreads/prod_cons_unbound/src/queue.c:49-73 | appends at the tail; without memory it fails and changes nothing |
| LinkedQueue.Queue.Dequeue | pthreads/prod_cons_unbound/src/queue.c:75-94 | takes the first value, or fails exactly on the empty queue |
| LinkedQueue.Queue.RemoveFirstUnsafe | pthreads/prod_cons_unbound/src/queue.c:96-109 | the first node leaves the chain, and an empty queue has neither head nor tail |
| LinkedQueue.Queue.Clear | pthreads/prod_cons_unbound/src/queue.c:111-119 | leaves an empty queue, taking node after node from the head |
| LinkedQueue.Queue.IsEmpty | pthreads/prod_cons_unbound/src/queue.c:33-40 | tells whether there are no values |
| UnboundProdCons.InvStep | pthreads/prod_cons_unbound/src/producer.c:13-38 | every step of every thread keeps permits, claims and units accounted for |
| UnboundProdCons.ConsumersFindUnits | pthreads/prod_cons_unbound/src/consumer.c:29-35 | a consumer past the semaphore never finds the queue empty, units leave it in the order they entered, and claims never exceed the units |
| UnboundProdCons.EveryUnitOnce | pthreads/prod_cons_unbound/src/consumer.c:13-40 | in the end the units 1 .. n have been consumed, each once, and no permit or element is left |
| UnboundProdCons.EveryoneFinishes | pthreads/prod_cons_unbound/src/producer.c:8-41 | for any numbers of producers and consumers, runs stop exactly when all threads have finished, and all such runs take the same number of steps |
| RingBuffer.ItemsInOrder | pthreads/prod_cons_bound/src/prod_cons_bound.c:209-261 | the consumer reads 1, 2, 3, ... in order, items go round the slots, at most B - 1 of them are pending, and no slot is overwritten before it is read |
| RingBuffer.EverythingIsConsumed | pthreads/prod_cons_bound/src/prod_cons_bound.c:209-261 | with at least two slots no run deadlocks, and all rounds are read |
| RingBuffer.CompletesExactly | pthreads/prod_cons_bound/src/prod_cons_bound.c:209-219 | runs that cannot go on are complete if and only if the buffer has at least two slots |
| Water.CrewIsComplete | extra/build_h2o/src/main.cpp:39-58 | a completed phase of the barrier is two hydrogens and one oxygen, and nobody else holds a permit |
| Water.BondKeepsBonds | extra/build_h2o/src/main.cpp:61-80 | a call to bond keeps the calls grouped in molecules of one phase |
| Water.MoleculesDoNotMix | extra/build_h2o/src/main.cpp:39-80 | all completed phases are 2 H + 1 O, calls to bond come in threes of one phase with 2 H + 1 O, and those are the molecules counted |
| Water.AllWaterIsMade | extra/build_h2o/src/main.cpp:39-80 | for any atoms, a run that cannot go on has built min(h / 2, o) molecules, and all threads have ended if and only if h = 2 o |
| MergeSort.SortSorts | omp/omp_mergesort/src/mergesort.hpp:43 | the specification is a sorted permutation |
| MergeSort.SortedIsUnique | omp/omp_mergesort/src/mergesort.hpp:43 | and there is only one |
| MergeSort.MergeSortsWhole | omp/omp_mergesort/src/mergesort.hpp:32-39 | merging two sorted parts sorts the whole |
| MergeSort.LibraryMerge | omp/omp_mergesort/src/mergesort.hpp:33-37 | the loop of std::merge computes the merge of two adjacent ranges, without changing them |
| MergeTasks.ForksOrSorts | omp/omp_mergesort/src/mergesort.hpp:10-44 | ranges of up to 1025 elements go to the library sort, larger ones to two halves that differ by at most one element |
| MergeTasks.RightHalfMoves | omp/omp_mergesort/src/mergesort.hpp:16-25 | the right half can move before the left one is done exactly on ranges of more than 10000 elements |
| MergeTasks.TaskStaysInside | omp/omp_mergesort/src/mergesort.hpp:14-29 | no step of a task, or of a task it has forked, touches an element outside its range |
| MergeTasks.HoldsStep | omp/omp_mergesort/src/mergesort.hpp:8-45 | whichever task of the tree takes a step: untouched ranges stay untouched, merges and copies go on from sorted halves, and finished ranges stay sorted |
| MergeTasks.InterleavedTasksSort | omp/omp_mergesort/src/mergesort.hpp:8-57 | for every interleaving of the steps of all tasks, the values at the end are the sorted permutation |
| MergeTasks.TasksEnd | omp/omp_mergesort/src/mergesort.hpp:8-57 | some task can move until the whole is sorted, and all complete runs take the same number of steps |
| MergeSort.SortHalves | omp/omp_mergesort/src/mergesort.hpp:14-29 | when the two tasks run one after the other, in either order, both halves get sorted and nothing else changes |
| MergeSort.Mergesort | omp/omp_mergesort/src/mergesort.hpp:8-45 | the elements from left to right, both included, become their sorted permutation, and no other element changes, on both sides of the cutoff and for empty ranges |
| MergeSort.MergesortAll | omp/omp_mergesort/src/mergesort.hpp:48-57 | the whole vector, which may be empty, becomes its sorted permutation |

## Left out

- Floating point: temperatures are exact reals, so rounding, overflow and NaN are not modelled. With rounding the loop could stop earlier or later.
- Widths of counters: sizes and counts are unbounded, except the 16-bit targets of messages and the truncated cell area.
- Reading and writing of jobs, plates and reports, argument parsing, delays, logging and timing.
- Failures of thread creation, joining, semaphores, barriers and MPI calls; memory fails only in `LinkedQueue.Queue.Enqueue`.
- Mutexes, semaphores, barriers, OpenMP worksharing and MPI transfers are atomic steps with their documented meaning; spurious failures and fairness are not part of this model. MPI sends do not block.
- Random numbers are arbitrary within the range the program asks for.
- Drawing a random number from an empty range, which the library leaves undefined, counts as a failure of the run.
- ProgramsAgree.ProgramsAgreeExactly: compares the programs on the plates that both simulate to an end; with epsilon zero these are the steady ones, or all plates when nothing diffuses, and with a negative epsilon there are none.
- SerialPlate.MultConstantsAgree: a cell area below one, for which the serial program has no constant, is excluded; ProgramsAgree.ProgramsAgreeExactly includes it.
- SerialPlate.Plate.UpdatePlate: a cell area that truncates to zero is excluded, since the program divides by zero there and exact reals have no infinity.
- SerialPlate.Plate.EquilibratePlate: requires a plate that settles, since the loop runs forever otherwise; HeatStability says for which constants all plates do. A cell area that truncates to zero is excluded, as above.
- FlatPlate.OmpPlate.EquilibratePlate: requires a plate that settles, as above, and leaves the threads of the team to OmpTeam.
- BarrierPlate.BarrierRefinesSerial: teams have at least one thread; on plates of two rows the program makes a team of none, for which its barriers cannot be made, and on fewer it computes rows - 2 without sign.
- The threads of the network and producer/consumer programs are steps of a machine over values and not methods of objects: the order of steps of different threads is what the results are about.
- FlatPlate.OmpPlate.Round: the blocks of a round run one after another in any order; the team of threads, with all interleavings, is the subject of OmpTeam.
- MergeSort.SortHalves: the two tasks run one after the other in either order; all interleavings of all tasks are the subject of MergeTasks.
- MergeTasks.TaskStep: a task may move whenever its children allow it; which thread runs it, and how many threads there are, is not part of this model. The library sort of a small range is one step.
- OmpTeam.TeamRefinesSerial: assumes that the loop over the rows is divided by static blocks, as the program's comment does (`homeworks/omp_mpi/src/plate.c:79-80`); OpenMP leaves the division to the implementation when no schedule is given.
- QueueNetwork.NetworkRefines: one direction only; that the semaphores allow every run of the atomic network is not stated. The lock of the producers' shared counter is taken and released in one step.
- MergeSort.LibrarySort: std::sort is taken by its promise; its algorithm is not part of this model.
- LinkedQueue.Queue.Clear: freeing of nodes is modelled as their leaving the chain, not as a heap operation.
- A simulation started as a single process, which simulates its plates one after the other without messages (`homeworks/omp_mpi/src/job.c:296-310`).
- The plates of an MPI job are simulated by an arbitrary computation of a number of states; that this is the relaxation is the subject of the heat modules.
- Earlier variants of the programs modelled here (homeworks/pthread, the other network simulations), and the small exercises (hello, lottery, shot put, piñata, position race, relay, ping-pong, lucky number, readers/writers, dish stack, build tasks, dining philosophers): short invariants or fixed finite graphs.
