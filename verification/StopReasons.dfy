/** Why an actor stops, and what the default hooks decide (src/error.rs, src/actor.rs). */
module StopReasons {
  import opened Common

  datatype PanicReason = HandlerPanic | OnMessage | OnStart | OnPanic | OnLinkDied | OnLinkEstablished | OnStop

  datatype StopReason =
    | Normal
    | Killed
    | Panicked(why: PanicReason)
    | LinkDied(id: ActorId, reason: StopReason)
    | PeerDisconnected

  datatype Flow = Continue | Break(reason: StopReason)

  /** The default `on_link_died`: only a normal death of a sibling is survived. */
  function DefaultOnLinkDied(id: ActorId, reason: StopReason): Flow {
    match reason
    case Normal => Continue
    case PeerDisconnected => Break(PeerDisconnected)
    case _ => Break(LinkDied(id, reason))
  }

  /** The default `on_panic`: a panic ends the actor. */
  function DefaultOnPanic(why: PanicReason): Flow {
    Break(Panicked(why))
  }
}
