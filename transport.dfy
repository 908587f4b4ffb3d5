/**
 * What a flow does to the outside world, as an append-only log of actions. The Discord
 * responses are reduced to which response path carried which output or error; calls into the
 * external data clients are logged so that the flows can be shown to make them, or not.
 */
module Transport {
  import opened Errors

  /**
   * The response paths: utils.InteractionRespondV2 (an immediate reply), utils.WebhookEditRespond
   * (an edit of a deferred reply), utils.InteractionRespondEditComplex, and the legacy
   * utils.HandleError used by the dispatcher and the vndb/erogs option errors.
   */
  datatype Channel = Respond | WebhookEdit | EditComplex | Legacy

  datatype Action<O> =
    | DeferredAck                  // InteractionResponseDeferredChannelMessageWithSource
    | DeferredUpdate               // InteractionResponseDeferredMessageUpdate
    | Send(via: Channel, out: O)   // components delivered on a response path
    | Loading                      // the "please wait" edit sent before a detail fetch
    | Report(err: Err, via: Channel)  // utils.HandleErrorV2 / HandleError on a response path
    | Search                       // the searcher closure of a list search was called
    | FetchId(id: int)             // an external client was asked for one record by id
    | FetchKey(key: string)        // an external client was asked by keyword
    | Crash                        // a Go runtime panic (slice bounds, index of an empty slice)
    | Handoff(flow: string)        // control passed to a flow of another handler, not modelled here

  /** What a component builder produces: components, an error, or a runtime panic. */
  datatype Outcome<O> = Built(out: O) | BuildFailed(err: Err) | Panics

  /** The action that delivers a builder's outcome: output on `okVia`, an error on `errVia`. */
  function Deliver<O>(b: Outcome<O>, okVia: Channel, errVia: Channel): (a: Action<O>)
    ensures b.Built? <==> a.Send?
    ensures a.Send? ==> a.via == okVia && a.out == b.out
    ensures b.BuildFailed? ==> a == Report(b.err, errVia)
    ensures b.Panics? <==> a.Crash?
  {
    match b
    case Built(o) => Send(okVia, o)
    case BuildFailed(e) => Report(e, errVia)
    case Panics => Crash
  }

  /** The interaction's log of actions, in the order they were taken. */
  class Transcript<O> {
    var actions: seq<Action<O>>

    constructor ()
      ensures actions == []
    {
      actions := [];
    }

    method Emit(a: Action<O>)
      modifies this
      ensures actions == old(actions) + [a]
    {
      actions := actions + [a];
    }
  }
}
