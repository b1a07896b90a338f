/** What a fallible step answers with, and the causes the worker tells apart. */
module Outcomes {

  datatype Option<+T> = None | Some(value: T)

  datatype Error =
    | NoLanes
    | LaneNotTaken(lane: nat)
    | LaneOutOfRange(lane: nat)
    | LaneSeatedTwice(lane: nat)
    | EveryLaneTaken
    | ResetFailed
    | WrongInputCount
    | ScalarBatch(input: nat)
    | SeatsDisagree(input: nat)
    | NoSeatAsked
    | NotOneSeat(input: nat)
    | StackFailed(slot: nat)
    | SharedInputsDiffer(input: nat)
    | SeatingRefused
    | RunFailed
    | WrongOccupancy(output: nat)
    | TurnFailed(cause: Error)

  datatype Result<+T> = Ok(value: T) | Err(error: Error)
}
