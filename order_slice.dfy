/**
 * The `orders` Redux slice: the current order and a four-state request status driven
 * by the pending / fulfilled / rejected cases of `createOrder` and `fetchOrderById`.
 * Both thunks have identical cases, so each case is one method here.
 */
module OrderSlice {
  import opened Wrappers

  datatype Status = Idle | Loading | Succeeded | Failed

  /** The order record the server returns; its content is not inspected by the slice. */
  datatype ServerOrder = ServerOrder(id: int, reference: string, status: string)

  /** The status a case moves to: the slice's state machine, independent of where it starts. */
  datatype Event = Pending | Fulfilled | Rejected | Clear

  function Step(s: Status, e: Event): Status
  {
    match e
    case Pending => Loading
    case Fulfilled => Succeeded
    case Rejected => Failed
    case Clear => s
  }

  /** Every settled request ends in Succeeded or Failed, whatever came before. */
  lemma SettledAfterPending(s: Status, settle: Event)
    requires settle == Fulfilled || settle == Rejected
    ensures Step(s, Pending) == Loading
    ensures Step(Step(s, Pending), settle) in {Succeeded, Failed}
    ensures Step(Step(s, Pending), settle) == Succeeded <==> settle == Fulfilled
  {
  }

  /** The status after a run of cases, applied left to right. */
  function Run(s: Status, events: seq<Event>): Status
    decreases events
  {
    if events == [] then s else Run(Step(s, events[0]), events[1..])
  }

  /** Once any request case has fired, the status never returns to Idle, whatever follows. */
  lemma {:induction false} NeverIdleAgain(s: Status, events: seq<Event>)
    requires exists j :: 0 <= j < |events| && events[j] != Clear
    ensures Run(s, events) != Idle
    decreases events
  {
    var j :| 0 <= j < |events| && events[j] != Clear;
    if j == 0 {
      LeavesIdle(Step(s, events[0]), events[1..]);
    } else {
      assert events[1..][j - 1] != Clear;
      NeverIdleAgain(Step(s, events[0]), events[1..]);
    }
  }

  lemma {:induction false} LeavesIdle(s: Status, events: seq<Event>)
    requires s != Idle
    ensures Run(s, events) != Idle
    decreases events
  {
    if events != [] {
      LeavesIdle(Step(s, events[0]), events[1..]);
    }
  }

  class Slice {
    var currentOrder: Option<ServerOrder>
    var status: Status
    /** `rejectWithValue(error.message)`: the message, which may be missing. */
    var error: Option<string>

    constructor ()
      ensures currentOrder == None && status == Idle && error == None
    {
      currentOrder, status, error := None, Idle, None;
    }

    method ClearCurrentOrder()
      modifies this
      ensures currentOrder == None && error == None
      ensures status == old(status) == Step(old(status), Clear)
    {
      currentOrder, error := None, None;
    }

    method Pending()
      modifies this
      ensures status == Step(old(status), Event.Pending) == Loading && error == None
      ensures currentOrder == old(currentOrder)
    {
      status, error := Loading, None;
    }

    method Fulfilled(payload: ServerOrder)
      modifies this
      ensures status == Step(old(status), Event.Fulfilled) == Succeeded && currentOrder == Some(payload)
      ensures error == old(error)
    {
      status, currentOrder := Succeeded, Some(payload);
    }

    method Rejected(message: Option<string>)
      modifies this
      ensures status == Step(old(status), Event.Rejected) == Failed && error == message
      ensures currentOrder == old(currentOrder)
    {
      status, error := Failed, message;
    }
  }
}
