/** The event sink the filters report to (types.EventCenter). Only the part
    the filters use is modelled: Notify, which records the event. */
module Events {
  import opened Types

  datatype Event =
    | BlockVerifyFailed(err: Error)
    | TxVerifySucceeded(tx: Transaction)
    | TxVerifyFailed(err: Error)

  class EventCenter {
    /** Every event notified so far, oldest first. */
    var notified: seq<Event>
    /** What this sink answers to every Notify: the filters never look at it. */
    const answer: Option<Error>

    constructor (answer: Option<Error>)
      ensures notified == [] && this.answer == answer
    {
      notified := [];
      this.answer := answer;
    }

    method Notify(e: Event) returns (err: Option<Error>)
      modifies this
      ensures notified == old(notified) + [e]
      ensures err == answer
    {
      notified := notified + [e];
      err := answer;
    }
  }
}
