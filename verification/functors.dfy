/** The functors that the library posts to event loops, and who they are about. */
module Functors {
  import opened Basics

  type LoopId = nat   // also the id of the loop's thread
  type ConnId = nat   // the number in the connection's name
  type Tid = nat

  datatype Functor =
    | Establish(c: ConnId)
    | RemoveInLoop(c: ConnId)
    | Destroy(c: ConnId)
    | Deliver(c: ConnId, sender: Tid, data: seq<Byte>)
}
