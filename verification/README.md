# Lane batching, batchification and plan execution, proved

tract can serve many streams with one model: `batchify` rewrites a dataflow graph so that
axis 0 carries independent seats, a worker thread packs the calls of many streams into turns
over one shared state, and an adapter hides the extra axis from callers that never asked for
it. Underneath, a plan runs the graph step by step and drops values as soon as nothing reads
them. This project models those parts and proves what they are for.

**The lane worker** (`core/src/lanes.rs`). `LaneTable`, `Queue` and `Worker` are classes
with the fields of the program's own, and every method is proved to compute a function of
the old state (`Turned`, `Requested`, `Landed`, ...). The world those functions act on is a
state machine over an arbitrary sequence of spawns, calls, hang-ups and turns; what the
interior model does is a parameter (reset, seat, run: any functions at all), so the
bookkeeping theorems (exactly-once answers, the lane ledger, fairness, what each call is
answered from what its seats were dealt) hold whatever it does. Two theorems need the
interior to be lane-wise, which the program trusts (`core/src/lanes.rs:144-147`); that is
the hypothesis `LaneWise`, spelled out in `LaneModels`.

**Batchification** (`core/src/batchify.rs`). Tensors are nested rows with an index function,
graphs are node lists in evaluation order, and the two passes of `batchify` are functions
which the imperative methods `PlanHosts`, `PadAll`, `WireAll` and `Transform` are proved to
compute. `Hosting` says when there is an answer, by the wires alone, and what the interface
becomes; `AxisValues`, `Contractions` and `NaryValues` what each op computes, element by
element. The law of lifting is proved outright for axis edits, einsums over any arithmetic,
elementwise ops with rank padding, and concatenation with broadcast; for any other op the
law of its own `change_axes` answer is the hypothesis `Truthful`. The theorem on graphs
follows by induction over the nodes.

**The adapter and the whole stack** (`core/src/unbatched.rs`). `Interface::of` accepts
exactly the interfaces that are the original's up to one prepended symbol, and
`LanedGraphs.StackIsOriginal` joins everything: over every run of the worker on the
batchified graph, a call made through the hidden axis and answered with outputs is answered
exactly what the original graph answers. `StackServices` adds when it is answered with
outputs: a turn of seats that fit goes through if and only if they agree on every shared
input and no failed turn left the batch symbol bound to another width; and calls that agree,
however many seats each asks for, are all served, in a bounded number of turns. The
interior's state is that width, as a failed run leaves it in the plan's state, and
`LeftWidths` follows it over every run: after one failed turn every turn of another width
fails, until one of that very width is answered.

**Plan execution** (`core/src/plan.rs`, `core/src/model/order.rs`). The class `SimpleState`
runs the turn; `eval_order_for_nodes`, `build_flush_list` and `symbol_deps` are the loops
they are, proved exact. Ops are handed the symbols bound so far, as they are in the program,
and the flushing executor refines naive recursive evaluation under the turn's own bindings,
turn after turn, for ops that find bound what they need; `SymbolReads` proves that in a plan
built with the dependencies symbols make they do, each symbol being a bare dimension where
it is defined. `PlanAnswers` has when a turn does answer, from the equations of the graph
alone, and `TurnStops` where one that does not stops and what it leaves. A failed turn
returns before it resets, so `PlanHistories` runs histories with failures in them. Constants
stay. Values left over show in no later answer if every step that reads no node is a model
input or does not look at what it is handed. Bindings left over do show: `FailedTurns` has
the exact condition for the next turn's inputs to get through, and a state no turn ever gets
out of; `LeftoverSymbols` the exact condition for the ops of a turn that answers to find
their symbols as a new state would bind them, namely that each leftover binding an op needs
is what this turn would bind it to, and that it then answers the same; `StaleSymbols` a plan
where it is not, and the answer is wrong.

**Self-contained algorithms.** The pivoted elimination and the non-negative least squares
fit (`cli/src/cost_model.rs`) over reals, the greedy glob (`cli/src/bench_suite.rs`), the
pulse stitching (`cli/src/compare.rs`) and the capacity search (`cli/src/bench.rs`). The fit
skips a face whose system it can not solve; nothing is lost by it, as some smaller face is
then as good (`LeastSquares.SlideOff`), so that `FitIsOptimal` needs no hypothesis on the
measures but weights of zero or more.

## What the environment provides

- `LaneModels.LaneWise`: reset blanks one lane and moves no other, seating moves nothing,
  a run moves each seated lane by its own seat's inputs and no other lane. Needed for
  isolation and for wide calls, nothing else.
- `maxSeats >= 1`. `wrap` clamps the number of seats from above only. Capped at zero the
  worker seats nobody, ever (`Fairness.SeatsSomebodyUnlessCappedAtZero`).
- A stream hangs up only after its calls are answered (`Streams.Allowed`): a handle's run
  blocks until then.
- `BatchRuns.Truthful` and `Graphs.Regular` for the ops the batch pass does not rewrite.
- `PlanTurns.Arity` and `SymbolReads.Ranked`: an op makes its node's outputs, in the ranks
  of their facts. `PlanTurns.ReadsOnly`: an op looks at no other bound symbol than those it
  needs (`required_bound_symbols`, `core/src/ops/mod.rs:220-233`, with those of its own
  dimensions).
- `LeftoverSymbols.PlanLegible`: each dimension of a plan is a bare symbol, or mentions only
  symbols that come up before it; what is left to solve for is then nothing.
- In `Symbols`, solving an equation for a symbol is a parameter.

## Where the program and its promises part

- A failed turn of a plan leaves its values and its symbol bindings in place
  (`core/src/plan.rs:615-635`). `FailedTurns.BindingSticks`: a source sized by a symbol, a
  turn on extent 3 that fails in an op, and every later turn is refused, where a fresh
  state answers extent 5. `FailedTurns.FailureShows`: a plan with a generator that looks at
  what it is handed, outside the condition of `PlanHistories.TurnsRefine`, answers 15 on 5
  from a fresh state and 16 after a failed turn on 0. The generator the repository has
  ignores it (`onnx-opl/src/random.rs:118-124`), and is inside the condition.
- A symbol an op mints is neither resolved nor checked once every symbol of the plan is
  bound (`core/src/plan.rs:674-679`), as it is from the start of the turn after a failed
  one. `StaleSymbols.FailureMisreads`: a plan inside every other condition, a turn that
  mints 3 and fails, and the next turn mints another length, is not refused, and answers 3;
  only the debug assertions (`core/src/plan.rs:757-781`) would notice.
- So one stream's bad call stops the others' good ones. The run of a laned turn that fails
  leaves the batch symbol bound to the width of the turn (`core/src/runtime.rs:171-174`,
  `core/src/plan.rs:615-635`), and a turn of another width is then a clash.
  `RefusingGraphs.OneStreamStopsAnother`: two streams share a turn, an op refuses the value
  of one, and the other, asking again alone, is refused too, and goes on being refused
  until some turn of exactly two seats is answered (`LeftWidths.StuckUntilAnswered`).
- A region strictly inside one pulse is stitched to the end of the pulse
  (`cli/src/compare.rs:376-387`): `Stitching.StitchesExactly` has the exact condition.
- An output the batch does not reach, whose fact carries the batch symbol further in
  because a shared input does, is moved (`core/src/batchify.rs:297-304`):
  `OutputMoves.SharedOutputMoves` is such a graph. `OutputMoves.UnmovedAnswers` is the
  exact condition under which no output is.

## Model

| member | source | states |
|---|---|---|
| LaneTables.SeatingAccepts | core/src/plan.rs:57-64 | a seating is built if and only if every lane is in range and none is listed twice, and it then lists the lanes as asked; otherwise the first seat whose lane is not so decides the error, by which of the two it is |
| LaneTables.BuildSeating | core/src/plan.rs:57-64 | the seat-by-seat loop with its quadratic duplicate check computes that seating, and the first offending seat decides the error |
| LaneTables.LaneTable.New | core/src/lanes.rs:196-201 | a table without a lane is refused; any other starts with every lane free |
| LaneTables.LaneTable.Take | core/src/lanes.rs:214-219 | hands out the lowest free lane and marks only that one; nothing, and no change, exactly when every lane is taken |
| LaneTables.LaneTable.GiveBack | core/src/lanes.rs:221-225 | refused exactly for a lane that is not held, out of range included, and then nothing changes |
| LaneTables.LaneTable.Seat | core/src/lanes.rs:234-244 | succeeds exactly on held lanes that are pairwise distinct |
| LaneTables.AllGivenBackClears | core/src/lanes.rs:885-887 | giving back the borrowed lanes one by one clears exactly those lanes |
| LaneTables.TakingCosts | core/src/lanes.rs:207-219 | taking a free lane leaves exactly one free lane fewer |
| Tensors.ConcatOfSingles | core/src/lanes.rs:998 | row i of a stack of one-row tensors is the row of the i-th of them |
| Tensors.StackUndoesSlicing | core/src/lanes.rs:713-727 | slicing a tensor row by row and stacking the slices gives the tensor back |
| Calls.ExplodeExactly | core/src/lanes.rs:686-728 | a call explodes if and only if its batched inputs are ranked and agree on a positive number of seats; seat i gets row i of each batched input and every shared one whole |
| Calls.ExplodedSeats | core/src/lanes.rs:709-712 | every seat of an exploded call is itself one seat wide, and there is at least one |
| Calls.ExplodeCall | core/src/lanes.rs:686-728 | the loop over inputs and the loop over seats compute that explosion |
| Calls.RefusedFor | core/src/lanes.rs:686-712 | a refused call is refused for the first thing wrong with it: the number of its inputs, else the first batched input that is a scalar or disagrees with the batched ones before it, else that they ask for no seat |
| Calls.AnswerIsRowByRow | core/src/lanes.rs:740-760 | an assembled answer carries seat i's row at row i of every batched output, and the first seat's shared outputs |
| Calls.AssembleExactly | core/src/lanes.rs:740-760 | a call is answered with outputs if and only if it asked for one seat, or on every batched output its seats are all ranked and agree off axis 0; one seat is answered its own outputs, and otherwise the first output that does not stack names the error |
| Queues.Queue.constructor | core/src/lanes.rs:767-775 | starts with no seat, no completer and no call |
| Queues.Queue.Push | core/src/lanes.rs:778-794 | one id used up either way; accepted, one empty slot and one queued seat per seat, in order, on the leased lane; refused, answered at once |
| Queues.Queue.Serve | core/src/lanes.rs:799-817 | an orphan changes nothing; a failure answers the call and drops every queued seat of it; the last seat to land answers it with the assembled outputs |
| Turns.FillingKeeps | core/src/lanes.rs:942-980 | seats are seated or left waiting as they were queued, save for a borrowed lane |
| Turns.StepsKeepFed | core/src/lanes.rs:852-936 | no step leaves a queued seat without all its inputs or without its slot, and ids are never handed out twice |
| ExactlyOnce.PushKeeps | core/src/lanes.rs:778-794 | accepting or refusing a call keeps empty slots and queued seats in bijection, and every id answered once or waiting |
| ExactlyOnce.LandKeeps | core/src/lanes.rs:799-817 | so does landing one seat, whether it is an orphan, fails, or completes its call |
| ExactlyOnce.LandAllKeeps | core/src/lanes.rs:888-904 | so does landing all the seats of a turn, several of one call and failures among them |
| ExactlyOnce.FillingSplits | core/src/lanes.rs:942-980 | `fill` splits the queue into seated and waiting, losing no seat and repeating none |
| ExactlyOnce.TurnKeeps | core/src/lanes.rs:870-904 | a whole turn keeps the bijection and the one answer per call |
| Fates.AnsweredAsDealt | core/src/lanes.rs:799-904 | over every run from a fresh worker, whatever the interior does, each answer is what the turns dealt the seats of its call: why it does not explode, the error of a turn that failed one of its seats, or all its seats' outputs assembled; and an open call holds just what its seats were dealt |
| Fates.AnsweredWithOutputs | core/src/lanes.rs:740-817 | so a call that explodes, of any number of seats, is answered with outputs if and only if no turn failed a seat of it and its batched outputs stack: row i is then seat i's, and the shared outputs the first seat's |
| Streams.FillKeepsLedger | core/src/lanes.rs:942-980 | while a turn fills, the borrowed lanes were free, differ from each other, and no lane is seated twice |
| Streams.BorrowingIsSound | core/src/lanes.rs:942-986 | what `fill` produced is never refused by `LaneTable::seat` nor by `Seating::new`, borrowed lanes belong to no stream, and giving them back restores the table, failed turn or not |
| Streams.StepKeepsSettled | core/src/lanes.rs:852-936 | every event keeps: taken lanes are the live leases, slots match seats, each seat is a slice of a call its own stream made, each answer goes to the channel of its call |
| Streams.RunsStaySettled | core/src/lanes.rs:852-936 | the same over every run |
| Streams.SettledCallsWaitOrAreAnswered | core/src/lanes.rs:799-817 | between turns a call either waits with exactly one queued seat for each empty slot, or was answered exactly once on its own channel |
| Streams.EveryRunAnswersOnce | core/src/lanes.rs:852-936 | over every run from a fresh worker, whatever the interior does, every call received waits or was answered exactly once, and the lanes taken are the live leases |
| Streams.SpawnFindsAnyFreeLane | core/src/lanes.rs:913-929 | between turns a spawn finds no lane if and only if every lane is leased; otherwise it gets the lowest unleased lane if that lane's reset succeeds, which alone is then taken and leased to it, and is refused for the reset, the table as it was, if it does not: borrowing never stands in its way |
| Fairness.HeadIsSeated | core/src/lanes.rs:942-980 | the head of the queue is seated by every turn, and every seat left waiting moves up |
| Fairness.SeatsSomebodyUnlessCappedAtZero | core/src/lanes.rs:425 | a turn over a non-empty queue seats somebody if and only if the cap is at least one; capped at zero the queue never moves |
| Fairness.FillIsMaximal | core/src/lanes.rs:942-980 | with resets succeeding, a seat waits only if the turn is full, or its lane is seated and no lane is free |
| Fairness.EveryLeasedLaneIsSeated | core/src/lanes.rs:942-980 | when a turn may be as wide as the table, the first waiting seat of every lane is seated by the next turn |
| Fairness.FirstOfItsLane | core/src/lanes.rs:948-968 | the pigeonhole behind it: distinct lanes can not fill the turn before a leased lane's first seat comes up |
| Fairness.TurnMovesUp | core/src/lanes.rs:870-904 | a turn serves a waiting seat or brings it strictly nearer the head, failed turns included |
| Fairness.NoStarvation | core/src/lanes.rs:852-904 | a seat with p seats ahead is out of the queue within p + 1 turns, whatever is asked meanwhile, and never queued again |
| Fairness.EveryCallIsAnswered | core/src/lanes.rs:852-904 | every call received is answered, exactly once, within as many turns as there are queued seats |
| TurnCount.LoneCallIsFilled | core/src/lanes.rs:942-980 | a turn of a lone call seats its first min(maxSeats, free lanes + 1) seats and no more |
| TurnCount.ExactTurnCount | core/src/lanes.rs:1271-1292 | alone in the queue with k seats to go and f lanes free, a call is answered by turn ceil(k / min(maxSeats, f + 1)) and by no earlier one |
| LaneModels.GatherKeepsSeats | core/src/lanes.rs:987-1010 | the turn's stacked inputs hold in seat i exactly what seat i feeds, shared inputs included |
| TurnRuns.GatherExactly | core/src/lanes.rs:987-1010 | the turn's inputs gather if and only if every batched one has one row in every seat, alike off axis 0, and every other is the same value in every seat; into just those rows and values; and the first input that does not says why |
| TurnRuns.TurnExactly | core/src/lanes.rs:985-1032 | whatever the interior: a turn is refused with the state as it was where a lane is not held or seated twice or the inputs do not gather, as the interior left it where that refuses the seating, and is otherwise the interior's run of them, each seat served its row of every batched output if there is one row a seat, and the first output there is not names the error |
| LaneModels.TurnIsLaneWise | core/src/lanes.rs:985-1032 | a turn moves each seated lane by its own seat's inputs, serves each seat its own lane's answer, and leaves every other lane alone |
| LaneModels.RefusedTurnMovesNobody | core/src/lanes.rs:986-1010 | a turn refused before its run leaves every lane as it was |
| LaneModels.FillIsLocal | core/src/lanes.rs:952-966 | filling a turn leaves every leased lane alone, and every lane it lends is freshly reset |
| Isolation.FillKeepsHome | core/src/lanes.rs:947-977 | a stream with one seat queued is never lent another lane, and nobody is lent its own |
| Isolation.TurnServesHome | core/src/lanes.rs:870-904 | a turn does nothing at all for a stream, or answers its one call with its own lane's step on its own inputs, or fails it |
| Isolation.StepIsolates | core/src/lanes.rs:852-936 | every event by anyone keeps a stream's lane what the stream's own answered calls alone would have made of it |
| Isolation.SoloRefinement | core/src/lanes.rs:852-1032 | over every interleaving, a stream asking for one seat at a time, no turn of its own having failed, has been answered call after call what the model answers to it alone from a blank lane |
| Isolation.SameAnswersInAnyCompany | core/src/lanes.rs:1137-1156 | over any two runs, of whatever two workers with the same lane model: two streams that kept to one seat at a time, failed no turn and asked the same have been answered the same, as far as both have been answered |
| WideCalls.TurnApplies | core/src/lanes.rs:985-1032 | with a stateless interior every seat a turn deals outputs is dealt the model applied to that seat's own inputs |
| WideCalls.WideCallsAreServed | core/src/lanes.rs:686-817 | over every run, an answered call of k seats, for any k, is answered with outputs if and only if no turn failed a seat of it and the model's outputs for its seats stack; row i is then the model applied to the call's own seat i, however its seats were split, mixed or lent lanes |
| WideCalls.WideCallsAreTransparent | core/src/lanes.rs:686-760 | in particular every call answered with outputs at all has exploded and is so answered, row by row |
| WideCalls.WaitingIsASuffix | core/src/lanes.rs:942-980 | with resets succeeding, if a seat of a call is left waiting so is every later one |
| WideCalls.LandedIsAlwaysAPrefix | core/src/lanes.rs:942-1032 | with resets succeeding, over every run, what has landed of a waiting call is its first so many seats |
| Workers.Worker.Serve | core/src/lanes.rs:911-936 | serving a request is the world's own step, the failed reset of a spawn giving its lane back |
| Workers.Worker.Fill | core/src/lanes.rs:942-980 | the loop popping the queue computes the filling the theorems speak of, and touches no completer |
| Workers.Worker.Gather | core/src/lanes.rs:988-1009 | one input of the turn, stacked or compared seat by seat |
| Workers.Worker.RunTurn | core/src/lanes.rs:985-1032 | the turn's state and every seat's outputs; the state untouched by every refusal before the run |
| Workers.Worker.Land | core/src/lanes.rs:888-904 | every seat of the turn lands in seat order, all of them failing with the turn |
| Workers.Worker.TakeTurn | core/src/lanes.rs:870-904 | fill, run, borrowed lanes given back, seats landed: the world's own turn |
| Workers.Worker.Work | core/src/lanes.rs:852-906 | the main loop plays some trace of steps that serves every request of the channel, in order, and returns only with nothing left to seat |
| Workers.RanIsPlayed | core/src/lanes.rs:852-906 | the streams' runs and the worker's own steps are one and the same |
| Workers.WorkAnswersEveryone | core/src/lanes.rs:852-906 | when the loop returns no completer is left and every call ever received was answered exactly once |
| AxisOps.ApplyAxis | core/src/ops/change_axes.rs:426-479 | an edit applies exactly when it asks for no more axes than there are and its canonical form fits the shape, and the result holds at every index the element the canonical form reads |
| AxisValues.AddExactly | core/src/ops/change_axes.rs:426-437 | an axis is added at any place up to the rank, of extent one, and the elements keep their row-major order |
| AxisValues.RmExactly | core/src/ops/change_axes.rs:426-438 | an axis is dropped exactly if it is of extent one, and the elements keep their row-major order |
| AxisValues.MoveExactly | core/src/ops/change_axes.rs:439-447 | any axis moves to any place; the shape is the old one with its extent moved, and each element is found at its index with that coordinate moved |
| AxisValues.ReshapeExactly | core/src/ops/change_axes.rs:356-397 | a reshape applies if and only if it names as many elements before as after, reaches no axis past the rank, and what it names is there or is all ones; the shape has what it makes there, and the elements keep their row-major order; one that only adds or drops an axis of one is that edit |
| AxisOps.ShiftedCanonical | core/src/ops/change_axes.rs:86-111 | canonical forms and shifting one axis up commute |
| AxisOps.ShiftedShape | core/src/ops/change_axes.rs:337-397 | shifted up, an edit fits a shape with the batch in front exactly when the edit fits the shape, and makes the same shape behind it |
| AxisOps.AxisOpLifts | core/src/batchify.rs:205-212 | the shifted edit of the stacked seats is the stack of the edited seats, for every edit, reshapes included |
| AxisOps.AddZeroInserts | core/src/batchify.rs:266-270 | the rank pad puts a leading axis of one in front, and nothing else changes |
| AxisOps.MoveUndone | core/src/batchify.rs:335-379 | moving an axis to the front and back is no edit, so the graph behind a source sees the layout it was built for |
| EinSums.ApplyEinSum | core/src/ops/einsum/eval.rs:77-152 | an einsum answers a tensor of the output's shape exactly when no read falls outside an input; what each element is, `Contractions.ContractsExactly` says |
| Contractions.ContractsExactly | core/src/ops/einsum/eval.rs:77-152 | an einsum answers if and only if every axis is labelled and as long as its label asks, or of extent one under an output label; every output extent is the first of its label's that is not one; and every element is the fold of `add`, from zero, over every assignment of the labels the output has not, once each, in row-major order with the labels in the order of their first axes, of the fold of `mul`, from one, over the inputs in order, each read at that assignment |
| Contractions.MatMulIsRowByColumn | core/src/ops/einsum/eval.rs:77-152 | for any extents, element (i, j) of a matrix product is the fold over all k, in order, of one times x[i,k] times y[k,j] |
| EinSums.Available | core/src/axes/mapping.rs:283-289 | the new label is used by no input and not by the output |
| EinSums.SummedLabelled | core/src/batchify.rs:187-198 | the batch label is summed over nowhere, and the labels that are stay the same, in the same order |
| EinSums.BatchedShape | core/src/ops/einsum/eval.rs:8-28 | the output shape of the batched sum is the seats' with their number in front |
| EinSums.EinSumLifts | core/src/batchify.rs:187-198 | the batched sum of the stacked inputs is the stack of the seats' sums, whichever inputs are stacked and however many seats, for any arithmetic at all |
| NaryOps.ApplyEach | core/src/ops/binary.rs:48-71 | an elementwise op answers a tensor of the broadcast shape exactly when its operands broadcast; what each element is, `NaryValues.EachExactly` says |
| NaryValues.EachExactly | core/src/ops/binary.rs:48-71 | an elementwise op applies if and only if its operands are of one rank and on every axis any two extents are equal or one of them is one; every extent is the operands' that is not one, and every element is the kernel of one element of each operand in order, at its own index, or at 0 across an extent of one |
| NaryOps.BroadcastLeads | core/src/broadcast.rs:5-25 | leading axes of one or n broadcast to n if some operand has it, and leave the broadcast of the rest as it was |
| NaryOps.EachLifts | core/src/batchify.rs:265-270 | with the unbatched operands rank-padded, the op on the stacked operands is the stack of the op seat by seat |
| NaryOps.ApplyConcat | core/src/ops/array/concat.rs:152-155 | a concatenation answers a tensor exactly when the operands agree off the axis; what each element is, `NaryValues.ConcatExactly` says |
| NaryValues.ConcatExactly | core/src/ops/array/concat.rs:152-155 | a concatenation applies if and only if there are operands, of one rank that has the axis, and they agree on every other; each element of operand s is found with its coordinate moved up by the extents of the operands before, and the axis ends with the last |
| NaryOps.SpreadCopies | core/src/batchify.rs:271-279 | a rank-padded operand broadcast over the turn is the stack of so many copies of it |
| NaryValues.SpreadExactly | core/src/ops/array/broadcast.rs:22-25 | a leading axis is broadcast to n if and only if it is of extent one or n, and every row is then the one row, or stays |
| NaryOps.ConcatLifts | core/src/ops/array/concat.rs:76-86 | one axis further up, on operands all stacked, a concatenation is the stack of the seats' |
| Batchify.Carrier | core/src/batchify.rs:131-133 | the first axis sized by the batch symbol, and none exactly when there is no such axis |
| Batchify.Pads | core/src/batchify.rs:173-180 | only slots the answer reaches that do not carry the batch are padded |
| BatchRuns.PadsEverywhere | core/src/ops/change_axes.rs:656-671 | an op that changes every wire has exactly its unbatched slots padded, once each |
| Batchify.PlanHosts | core/src/batchify.rs:96-124 | the first pass as it runs, node by node in evaluation order, stopping at the first op that refuses the axis, computes the plan of `Hosting.BatchifiedExactly` |
| Batchify.PadAll | core/src/batchify.rs:265-281 | the loop over the padded slots wires the pads and, for a concatenation, the broadcasts behind them |
| Batchify.WireAll | core/src/batchify.rs:248-294 | the second pass rebuilds every node on the mapped wires |
| Batchify.Transform | core/src/batchify.rs:80-125 | the transformation is the two passes; when it answers and what with, `Hosting.BatchifiedExactly` and `Hosting.InterfaceFacts` say |
| Batchify.PlanFits | core/src/batchify.rs:145-182 | every padded slot is an input of its node |
| BatchRuns.AxisHosted | core/src/batchify.rs:154-160 | a hosted axis edit answers the stacked answers |
| BatchRuns.EinSumHosted | core/src/batchify.rs:151-153 | so does an einsum with a label list for every input, whichever of them carry the batch, and it is always hosted |
| BatchRuns.EachHosted | core/src/ops/binary.rs:262-283 | so does an elementwise op with its pads, and it is always hosted |
| BatchRuns.ConcatHosted | core/src/batchify.rs:121 | so does a concatenation with its pads and broadcasts, and it is always hosted |
| BatchRuns.HostLifts | core/src/batchify.rs:145-182 | whatever op `host` accepts, hosting it on the gathered, padded inputs stacks the seats' answers |
| BatchGraphs.PadsRun | core/src/batchify.rs:265-281 | the wired pads run, leave every earlier value as it was, and put on the wires the padded values |
| BatchGraphs.SourceRuns | core/src/batchify.rs:335-379 | feeding the interface of a source puts on the wire behind it what the seats read, an axis already carried moved back in place |
| BatchGraphs.PlanSaysSo | core/src/batchify.rs:98-124 | a source is carried exactly when it gains the axis, any other node exactly when one of its inputs is, and it is then hosted |
| BatchGraphs.BatchedRunStacksSeats | core/src/batchify.rs:80-127 | whenever every seat's run of the original succeeds the batched graph runs, carries the stack of the seats' values on every outlet the batch reaches, and the one common value on every other |
| BatchGraphs.BatchedAnswers | core/src/batchify.rs:295-312 | every output of the batched model, in order: the seats' stack, or the common value, moved to the front exactly where the axis given for its wire is further in |
| GraphRuns.RunExactly | core/src/plan.rs:656-792 | the run of a graph the theorems speak of answers exactly the values in which every node holds what its op answers to what its wires carry, in their order, and a source what it is given: none if there are none |
| OutputMoves.UnmovedAnswers | core/src/batchify.rs:295-312 | no output is moved if and only if no output's fact carries the batch anywhere but in front; a reached one is then answered the seats' stack, any other the one value the seats have |
| OutputMoves.SharedOutputMoves | core/src/batchify.rs:297-304 | a shared input of shape 2 by batch that is an output: every seat of the original answers it as it is, the batchified graph with its axes swapped, in another shape for any number of seats but 2 |
| Batchify.MoveAll | core/src/batchify.rs:296-310 | the loop over the outputs wires exactly those moves |
| Batchify.TransformAll | core/src/batchify.rs:80-127 | the passes, then the outputs mapped to their wires and moved; nothing exactly when the passes answer nothing |
| Hosting.BatchifiedExactly | core/src/batchify.rs:80-182 | batchify answers if and only if every shared name is an input's and every op the axis reaches along the wires takes it: an axis edit, an elementwise op and a concatenation always, an einsum with a label list for every input, any other op exactly when its `change_axes` answers for the first slot reached and carries `Add(0)` to every output; the nodes that carry the axis are then the inputs given it and all that reads them, each op of these hosted |
| Hosting.HostTakes | core/src/batchify.rs:145-182 | a reached op is hosted if and only if it takes the axis; a library op is replaced as it answers, with a pad on each slot the answer changes and the axis does not reach, in the answer's order; an elementwise op's and a concatenation's unreached operands are all padded, and broadcast for a concatenation alone |
| Hosting.InterfaceFacts | core/src/batchify.rs:335-379 | the sources of the batchified graph are the interfaces of the original's, one each and in their order: a shared one, or one with the batch in front, keeps its fact; one with it further in has it moved to the front; one that joins another's batch has it in place of its leading one; any other has it put in front |
| Unbatched.InterfaceOf | core/src/unbatched.rs:49-96 | the two loops over facts settle the symbol and the flags they should |
| Unbatched.AcceptsExactly | core/src/unbatched.rs:49-96 | an interface is accepted if and only if it is the original's up to one common symbol in front of some facts, at least one, and the flags say of which |
| Unbatched.DropUndoesAdd | core/src/unbatched.rs:132-157 | dropping the batch axis undoes adding it, on exactly the flagged values |
| Unbatched.DropsExactly | core/src/unbatched.rs:132-157 | the axis is dropped if and only if it is of extent one on every flagged value, and each of these is then its one row and every other value itself |
| WholeStack.MemorylessIsLaneWise | core/src/lanes.rs:144-147 | an interior answering every seat alone is lane-wise with nothing in any lane |
| WholeStack.AddedAsksOne | core/src/unbatched.rs:152-157 | asked through the hidden axis a call explodes to the one seat that was asked for |
| WholeStack.HiddenLanedIsOriginal | core/src/unbatched.rs:152-157 | over every run of the worker, a call made through the hidden axis and answered with outputs has the axis one wide wherever it is removed, and what is left is the original's answer |
| LanedGraphs.TurnServes | core/src/batchify.rs:80-127 | a turn of n seats that fit and the original runs on goes through the batchified graph and serves seat i the original's own answer to seat i |
| LanedGraphs.GraphRunAsked | core/src/plan.rs:615-635 | a turn asking for n seats over any other width left bound is refused and leaves that width; else, if it fits, it is the batchified graph's own run, leaving n bound if that fails and nothing if it answers |
| GraphTurns.AnswerExactly | core/src/plan.rs:615-635 | the original runs exactly where there is a run of its graph on the tensors its inputs are fed, and answers what that carries on its outputs |
| GraphTurns.TurnExactly | core/src/plan.rs:615-635 | a turn of n seats on the batchified graph answers if and only if its inputs fit and there is a run of that graph on them, and answers what that carries on its outputs |
| GraphTurns.GraphRunExactly | core/src/plan.rs:794-882 | whatever a turn is fed and whatever width was left bound: it is refused where its inputs pass at no width, leaving bound what was, or the rows of a flagged input up to the first that does not pass; otherwise it is that run at the width they pass at, which stays bound if there is none |
| LanedGraphs.GraphServesSeats | core/src/lanes.rs:144-147 | so the batchified graph is lane-wise on every turn whose seats the original runs on |
| SameRuns.RunsAgree | core/src/lanes.rs:852-1032 | two interiors alike on every turn made of seats actually asked for play the very same run |
| LanedGraphs.StackIsOriginal | core/src/unbatched.rs:32-40 | end to end: hidden, laned and batchified, the model answers every call it answers what the original graph answers, whichever turns failed in between, the original running on the seats received |
| StackServices.FittingTurnRuns | core/src/lanes.rs:985-1032 | a turn of seats that fit the facts and the original runs on goes through if and only if they feed one and the same value of every input that is not batched and no other width is left bound; it leaves none bound if it goes through, and what was if not |
| LeftWidths.OtherWidthFails | core/src/plan.rs:840-845 | over a width left bound a turn of any other fails, whatever its seats feed, and the width stays |
| LeftWidths.WidthStaysOrGoes | core/src/plan.rs:615-635 | from a width left bound a turn leaves that width and has failed, or none and was itself of that width |
| LeftWidths.FailedTurnBlocks | core/src/runtime.rs:171-174 | seats that fit and agree, on which the graph fails, leave their number bound; seats that fit and agree and the original runs on are then refused if they are not as many, where they would have gone through |
| LeftWidths.StuckUntilAnswered | core/src/lanes.rs:870-904 | over every run after that: as long as no turn of exactly that width is answered by the graph the width stays bound and every answer sent, to whatever stream, is a failure |
| RefusingGraphs.OneStreamStopsAnother | core/src/plan.rs:615-635 | a batchifiable graph with an op refusing zero: a zero and another stream's value share a turn and it fails; the other value alone is then refused, and from a fresh state answered |
| StackServices.EveryCallIsServed | core/src/lanes.rs:852-904 | from a fresh worker, when the calls made, of any number of seats each, fit the facts, the original runs on every seat and they agree on shared inputs: none is ever answered with a failure, and each is answered, once and within as many turns as there are queued seats, on every output of its own, seat i in row i, what the original graph answers seat i |
| StackServices.EveryHiddenCallIsServed | core/src/unbatched.rs:152-157 | and called through the hidden axis, one seat at a time, it is answered with outputs from which the axis drops, leaving exactly what the original graph answers |
| LinearSystems.Solve | cli/src/cost_model.rs:189-210 | the elimination loop, pivot search and row swaps included, computes the recursive elimination |
| LinearSystems.SwapKeeps | cli/src/cost_model.rs:194-195 | swapping two equations keeps the solutions, both ways |
| LinearSystems.ClearKeeps | cli/src/cost_model.rs:199-207 | clearing a column keeps the solutions, both ways |
| LinearSystems.SolveIsExact | cli/src/cost_model.rs:189-210 | `solve` answers if and only if the system has exactly one solution, and answers that one; otherwise some direction is noticed by no equation |
| LinearSystems.KernelNotUnique | cli/src/cost_model.rs:196-198 | such a direction makes a second solution of any first |
| LeastSquares.Accumulate | cli/src/cost_model.rs:219-228 | the accumulation loops sum the normal equations |
| LeastSquares.FaceOf | cli/src/cost_model.rs:231-242 | one face: its subsystem solved, refused if some coefficient is negative, scattered back otherwise |
| LeastSquares.CostIsResidual | cli/src/cost_model.rs:243-248 | what the fit compares is the weighted residual less that of no coefficients at all |
| LeastSquares.TowardStationary | cli/src/cost_model.rs:212-254 | on its face, moving toward a stationary point never raises the residual |
| LeastSquares.SlideOff | cli/src/cost_model.rs:235 | where the face's system has no single solution, some feasible point on fewer coefficients is exactly as good |
| LeastSquares.Descend | cli/src/cost_model.rs:212-254 | any feasible point comes down, never raising the residual, to the candidate of some face or to the origin |
| LeastSquares.FitIsOptimal | cli/src/cost_model.rs:212-254 | no non-negative coefficients have a smaller weighted residual than the fit's, for every set of measures with non-negative weights |
| LeastSquares.FitNnls | cli/src/cost_model.rs:218-254 | the method's own answer is feasible and is that optimum |
| Symbols.SubstitutedIsWorth | core/src/plan.rs:824-860 | evaluated with all its symbols bound, a dimension is its value |
| Symbols.ResolveKeepsBindings | core/src/plan.rs:824-860 | resolving keeps every binding, and lets a fully bound dimension through exactly when it is worth the extent |
| Symbols.ResolveExactly | core/src/plan.rs:824-860 | a bare unbound symbol takes the extent; a dimension whose symbols are all bound passes exactly if it is worth the extent; one with one symbol left binds it to the value the solver finds for what is left of the dimension, if any; one with more left passes and binds nothing |
| Symbols.SubstitutedMeansSame | core/src/plan.rs:824-860 | what is left of a dimension once the bound symbols are replaced is worth what the dimension is, under any bindings that extend these |
| Symbols.ResolvedAgrees | core/src/plan.rs:862-882 | once a tensor is through, each of its dimensions bound before equals its extent |
| FlushLists.BuildFlushList | core/src/model/order.rs:86-113 | one list per step and one for the end; a node is listed at exactly the last step that reads it, never at step zero, never a constant, an output only at the end |
| FlushLists.FlushedExactly | core/src/model/order.rs:107-111 | a node is in a flush list if and only if it is needed until that step, is no constant and the step is not zero |
| FlushLists.FlushedLast | core/src/model/order.rs:86-113 | and it is needed until the end exactly if it is an output, and otherwise until the one step that reads it after which none does |
| EvalOrders.DepsExactly | core/src/model/order.rs:49-71 | the chained precursors of a node are exactly its inputs and its extra dependencies |
| EvalOrders.Visit | core/src/model/order.rs:44-82 | the depth-first walk on an explicit stack ends, extends the order topologically to the target by nothing the target does not want, or has found a loop |
| EvalOrders.EvalOrder | core/src/model/order.rs:27-84 | refused if and only if some walk from an output comes back to a node it went through; otherwise exactly the nodes some walk from an output comes to, each once, after all it depends on |
| PlanBuilding.Build | core/src/plan.rs:421-427 | the order with its constants retained out, with its flush lists and the symbols of all shapes, is a well-built plan whose steps are exactly the nodes some output wants, less the constants, and in which, for every dependency given, the step comes after what it depends on, a step too unless a constant; refused exactly when the dependencies loop |
| PlanBuilding.BuildWithSymbols | core/src/plan.rs:405-427 | with the derived dependencies: refused if and only if the tensor edges loop, or they loop together with the given and the derived dependencies; otherwise a step mentioning a symbol comes after the symbol's definer, a step too, unless the definer is a model input or waits for the step along tensor edges itself |
| PlanBuilding.SymbolsOfNodes | core/src/plan.rs:424-432 | the loops collect the symbols of every output shape of every node |
| SymbolReads.BuiltProvides | core/src/plan.rs:283-289 | in a plan so built, each symbol an op needs, being bare in a model input or in the node that defines it, is bare in a model input or in an earlier step |
| SymbolReads.ProvidedIsBound | core/src/plan.rs:736-756 | whatever state a turn starts from, its inputs through: each such symbol is bound when the op that needs it runs, resolved just before or by a failed turn |
| SymbolReads.BuiltTurnRefines | core/src/plan.rs:615-635 | so in such a plan every turn that answers and finds nothing stale answers naive evaluation on its own inputs under its own bindings, which bind all its ops need, whatever bindings were left |
| PlanTurns.Dropped | core/src/plan.rs:693-696 | flushing empties exactly the listed nodes |
| PlanRefinement.WireHeld | core/src/plan.rs:684-692 | a wire still to be read holds what naive evaluation of it gives |
| PlanRefinement.DropsOnlyDone | core/src/plan.rs:693-696 | a step never flushes a constant, its own node or anything a later step reads |
| PlanRefinement.StepsRefine | core/src/plan.rs:656-792 | no step ever finds a precursor missing, and a step fails only where naive evaluation fails, under any bindings its ops can not tell from those they are handed |
| PlanRefinement.OutputsHeld | core/src/plan.rs:904-914 | after the last step every output is there and is naive evaluation's |
| PlanRefinement.TurnRefines | core/src/plan.rs:615-635 | from a state nothing stale is left in, ops finding bound what they need, a turn that answers gives naive recursive evaluation's outputs on its own inputs under its own bindings, steps each op's state once, and leaves the state clean |
| PlanAnswers.SolvedTurnAnswers | core/src/plan.rs:615-792 | a turn from nothing stale does answer whenever its inputs suit some bindings the state's own can grow to, the graph's equations have a solution under these, each node holding what its op makes of what its wires carry, and the solution's values have the extents the facts are worth: and it answers that solution's outputs |
| PlanAnswers.AnswersAreSolutions | core/src/plan.rs:615-792 | and whatever such a turn answers are the outputs of a solution of the equations under its own bindings |
| TurnStops.UnansweredStops | core/src/plan.rs:607-635 | a turn that does not answer was given another number of inputs and leaves all as it was; or stopped at an input, those before it in; or at a step, its flush list emptied and its op's state stepped, or nothing changed where a wire held nothing; or at an output nothing holds; and is never reset |
| TurnStops.RefusedSomewhere | core/src/plan.rs:824-860 | a tensor is refused at one dimension whose symbols were all bound by then and which is not worth its extent, and leaves bound what the dimensions before it bound |
| PlanHistories.ConstantsStay | core/src/plan.rs:537-560 | through any history of turns, failed anywhere or answered, the constants stay seeded |
| PlanHistories.TurnsRefine | core/src/plan.rs:537-635 | over any history, whenever a turn answers, its ops finding bound what they need, and either every turn before it answered or every step that reads no node is a model input or an op deaf to what it is handed, it answers naive evaluation on its own inputs under its own bindings, from the op states alone, steps them once, and leaves the state clean |
| PlanRefinement.StepsKeepBindings | core/src/plan.rs:736-756 | through a turn's steps a bound symbol keeps its value, failed or not |
| PlanHistories.TurnKeepsBindings | core/src/plan.rs:615-635 | from its first input to its last step a turn keeps every binding it started with; it ends with none when it answers |
| PlanHistories.BoundUntilAnswered | core/src/plan.rs:546-635 | a binding left by a failed turn stays through every turn until one answers |
| PlanHistories.InputsAgree | core/src/plan.rs:862-882 | of inputs that got through, every dimension bound when its tensor came, and every bare symbol, is worth the extent under the bindings the steps start from |
| PlanHistories.StepAgrees | core/src/plan.rs:736-756 | of the outputs of a step, while some symbol is unbound, every dimension bound when the step began, and every bare symbol, is worth the extent under the bindings the turn ends with |
| Symbols.ResolvedBinds | core/src/plan.rs:824-860 | a tensor let through leaves each bare symbol bound to its extent, and each bound dimension worth its own |
| Symbols.LegibleResolves | core/src/plan.rs:824-860 | a tensor let through whose dimensions leave nothing to solve leaves bound just the symbols there were and its own, and fits them |
| Symbols.FittingResolves | core/src/plan.rs:824-860 | and such a tensor is let through as soon as some bindings those there are can grow to fit it |
| SimpleStates.SimpleState.constructor | core/src/plan.rs:515-524 | a new state is clean |
| SimpleStates.SimpleState.ReadyTurn | core/src/plan.rs:537-544 | makes room once and seeds the constants |
| SimpleStates.SimpleState.ResetTurn | core/src/plan.rs:546-560 | every step's values and every binding gone |
| SimpleStates.SimpleState.ResolveDim | core/src/plan.rs:824-860 | binds a bare symbol, checks a value, solves for a last unbound symbol, or lets it pass |
| SimpleStates.SimpleState.SetInputs | core/src/plan.rs:794-806 | the inputs in order up to the first that clashes, their number checked first |
| SimpleStates.SimpleState.Exec | core/src/plan.rs:656-792 | the loop over the steps is the function the refinement is about |
| SimpleStates.SimpleState.RunStep | core/src/plan.rs:681-784 | one step: inputs read, flush list emptied, op evaluated on them and the symbols bound so far, output dimensions resolved, value kept |
| SimpleStates.SimpleState.Run | core/src/plan.rs:615-635 | inputs, steps, outputs, reset; a part that fails returns at once, before the reset; constants stay seeded either way |
| FailedTurns.LeftoverBindingsDecide | core/src/plan.rs:868-872 | a tensor whose symbols are all bound is let through if and only if each dimension is still worth its extent, and binds nothing |
| FailedTurns.LeftoverBindingsDecideTurn | core/src/plan.rs:794-882 | after a turn that failed anywhere, while setting inputs included: the next turn's inputs get through if and only if the leftover bindings extend to some under which every input has its type, its rank and its extents, for inputs that leave nothing to solve |
| FailedTurns.RefusedByLeftovers | core/src/plan.rs:615-635 | until a turn answers, every turn is refused that has an extent other than the leftover bindings make of a dimension they bind |
| FailedTurns.LeftoverValueIsHandedIn | core/src/plan.rs:721-734 | a step that reads no node and is no model input computes what naive evaluation does if and only if its op answers the value left there as it answers nothing; it fails exactly where its op does |
| FailedTurns.FailureShows | core/src/plan.rs:615-635 | a plan outside the condition of `TurnsRefine`: its turn on 5 answers 15 from a fresh state and 16 after a failed turn on 0 |
| FailedTurns.BindingSticks | core/src/plan.rs:615-635 | a source sized by a symbol and an op refusing 3: a fresh state answers 5; after the failed turn on 3 the turn on 5 is refused, and so is every turn after it, whatever its inputs, for good |
| LeftoverSymbols.LeftoverSymbolsDecide | core/src/plan.rs:607-635 | a turn that answers over leftover bindings and would answer from a new state: its ops find the symbols they need as the new state would bind them if and only if each leftover binding an op needs is what the new turn ends with; it then answers and steps the op states as the new turn does |
| LeftoverSymbols.AgreeingLeftoversAnswer | core/src/plan.rs:794-882 | where every leftover binding is what the new turn ends with, the turn does answer, and the same |
| LeftoverSymbols.HistoryDecides | core/src/plan.rs:546-635 | the same after any history of a plan whose inputless steps are inputs or deaf and whose ops' needs are provided for |
| StaleSymbols.FailureMisreads | core/src/plan.rs:674-756 | such a plan, well built: a turn on 3 fails and leaves its minted symbol bound; the next turn, on any other number, answers 3 where a new state answers that number |
| SymbolDeps.Ancestors | core/src/plan.rs:385-394 | the worklist stops, and finds exactly the nodes that come before the definer |
| SymbolDeps.DefinerMap | core/src/plan.rs:308-336 | a symbol's definer is the first model input, in their order, with the symbol in its shape; if no input has it, the first node of the dataflow order that mints and has it; and it has none exactly if there is neither |
| SymbolDeps.SymbolDeps | core/src/plan.rs:290-402 | the derived pairs are exactly (live consumer, that definer of a symbol it mentions) with the definer another node, no model input, no direct precursor, not given already and not waiting for the consumer; each once |
| SymbolDeps.NoCycle | core/src/plan.rs:379-398 | no derived pair closes a cycle with tensor edges |
| SymbolDeps.AncestorClosesCycle | core/src/plan.rs:379-398 | every pair left out for waiting would close one |
| Globs.GlobMatch | cli/src/bench_suite.rs:826-840 | the loop accepts a name if and only if some substrings for the stars make the pattern the name |
| Globs.GreedyLosesNothing | cli/src/bench_suite.rs:831-838 | the leftmost occurrence of each middle part is as good as any |
| Globs.GreedyIsComplete | cli/src/bench_suite.rs:826-840 | greedy matching and the meaning of the pattern agree, both ways |
| CapacitySearch.Double | cli/src/bench.rs:217-230 | doubling stops with the ceiling held or a bracket around the first break |
| CapacitySearch.Bisect | cli/src/bench.rs:231-244 | bisecting closes the bracket to neighbours in logarithmically many trials |
| CapacitySearch.DoublingsAreLog | cli/src/bench.rs:212-247 | the number of doublings the bounds are in is the logarithm to base two, rounded up |
| CapacitySearch.Search | cli/src/bench.rs:212-247 | the floor is zero or a load that held, kept with its own measurements; it is the ceiling or the next load broke; at most 1 + 2 log2(ceiling) trials, rounded up |
| CapacitySearch.FloorIsCapacity | cli/src/bench.rs:212-247 | if holding is downward closed the floor is exactly the largest load that holds |
| Stitching.Feed | cli/src/compare.rs:348-358 | the pulses fed are the whole signal, in order, blank past its end |
| Stitching.Stitch | cli/src/compare.rs:376-421 | the slices end to end are one contiguous run of the output stream from the delay on, no gap and no overlap |
| Stitching.StitchesExactly | cli/src/compare.rs:376-395 | that run ends at the region's end if and only if the region is not strictly inside one pulse, and at that pulse's end if it is |
| Stitching.EnoughPulses | cli/src/compare.rs:267-346 | the pulses run cover the signal and every delayed region of it with one whole pulse to spare and no more; the signal is longer than the longest delay by three and a half pulses, the half rounded down |
| Stitching.HandleStream | cli/src/compare.rs:346-426 | pulse by pulse, a node at the input's rate is stitched to exactly positions delay to delay + len of its output stream, for every length from a pulse to the whole signal |

## Left out

- Threads, channels, linger sleeps, metrics, knobs, the join on drop and `wrap`'s choice of the batch symbol in `core/src/lanes.rs`: an arbitrary sequence of requests and turns stands for them.
- Workers.Worker.Work: what the channel carries is an inbox, and how much of it has arrived by each turn an arbitrary list of counts; it needs `maxSeats >= 1`, without which the loop does not end.
- Workers.Worker.RunTurn: a scalar where a batched output is due is a panic in the program and an error of the turn here; a seat with fewer outputs than the first one is an error of the answer here. Tensors hold one type of elements.
- Isolation.SoloRefinement: claims nothing for a stream whose turn failed inside the run, nor for several calls at once through clones of one handle, whose second seat may be lent another lane. A turn refused before its run moves nobody (`LaneModels.RefusedTurnMovesNobody`).
- Streams.SpawnFindsAnyFreeLane: a lane granted to a caller that stopped listening is never given back in the program; here every spawn's answer is received.
- TurnCount.ExactTurnCount: with resets succeeding and every turn going through, as the count is about width only.
- Batchify.TransformAll: leaves out labels, properties and pulse axes, the final `check`, the symbolic shapes of facts; it works on nodes in evaluation order, and which axis of an output's fact carries the batch is given.
- Batchify.Transform: the two passes of it.
- BatchGraphs.BatchedRunStacksSeats: assumes no input that is not shared carries the batch already together with one collapsed to a leading one, a resizing convention of exports; a source that carries it further in is covered. An op's `change_axes` answer is taken at its word (`BatchRuns.Truthful`) except for the ops proved.
- BatchGraphs.BatchedAnswers: which axis of an output's fact carries the batch is a parameter, as facts' symbolic shapes are not modelled.
- EinSums.ApplyEinSum: the plain kernel; the quantized one is not modelled.
- LeftoverSymbols.LeftoverSymbolsDecide: for dimensions that leave nothing to solve, as what an equation solved for depends on every other binding in it.
- LanedGraphs.StackIsOriginal: the graph makes no batch of its own, and at least one input is flagged. Of the plan underneath, what a failed turn leaves is the batch symbol; every other extent is fixed, and ops without inputs ignore what is left at their node.
- Unbatched.InterfaceOf: a dimension is a known extent, a symbol or some other expression; datum types and properties are not part of it.
- PlanHistories.TurnsRefine: scenarios, turn handlers, seatings inside ops, symbols bound by op states before the first step and the debug assertions on shapes are left out. Dimensions are operator trees that fold when every operand is a value; simplifications that make a symbol disappear are not modelled.
- SimpleStates.SimpleState.Run: turn handlers and symbols bound by op states before the first step are not part of the turn.
- PlanBuilding.Build: the plain order only, of the two the options choose from; the memory-saving order is not modelled.
- SymbolDeps.SymbolDeps: the symbols a node mentions, mints and has in its shape are given. Acyclicity of all derived pairs together is not claimed, and the program does not guard it.
- LinearSystems.Solve: over reals, with a pivot that is not zero in place of the threshold of 1e-40; rounding is left out.
- LeastSquares.FitNnls: over reals, the first candidate standing where the program starts from the largest float.
- Globs.GlobMatch: folding case is a parameter, and strings are characters rather than bytes.
- CapacitySearch.Search: a trial is a function of its load, as the search never tries a load twice; the pacing itself is left out.
- Stitching.HandleStream: nodes at another rate than the input's, chunk symbols, skipped nodes and the comparison itself; tensors are streams along the streaming axis.
- Cost features, padded work, medians, scoring and reporting helpers: they would only add easy members.
