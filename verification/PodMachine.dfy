/**
 The reference machine of a pod's lease lifecycle: what POST /lease, DELETE /lease and
 the expiry of the pod's one cancellable timer do. A state that waits for the timer
 is left either by the expiry or by a cancelling release; there is no timer to go stale.
 */
module PodMachine {

  /** The body of POST /lease. */
  datatype Request = Request(lease: string, node: string, gpu: int, model: string)

  datatype Answer = Accepted | NodeMismatch | LeaseConflict

  datatype Timer = WarmupTimer | TeardownTimer

  datatype Machine =
    | Warm
    | WarmingUp(req: Request)
    | Hot(req: Request)
    | TearingDown(req: Request)
  {
    /** The pod computes, or is about to, on the requested GPU. */
    predicate Active() {
      WarmingUp? || Hot?
    }

    predicate ActiveOn(lease: string) {
      Active() && req.lease == lease
    }

    predicate Waiting() {
      WarmingUp? || TearingDown?
    }

    function Running(): Timer
      requires Waiting()
    {
      if WarmingUp? then WarmupTimer else TeardownTimer
    }

    /** POST /lease on a pod of node `own`. */
    function Activate(r: Request, own: string): (Machine, Answer) {
      if r.node != own then (this, NodeMismatch)
      else if Warm? then (WarmingUp(r), Accepted)
      else if Active() && req.lease == r.lease then (this, Accepted)
      else (this, LeaseConflict)
    }

    /** DELETE /lease. */
    function Release(): Machine {
      match this
      case Warm => Warm
      case WarmingUp(_) => Warm
      case Hot(r) => TearingDown(r)
      case TearingDown(r) => TearingDown(r)
    }

    function Expire(): Machine
      requires Waiting()
    {
      if WarmingUp? then Hot(req) else Warm
    }
  }

  /**
   The life of a lease on a pod: accepted while warm, hot when warmed up, torn down when released, and warm
   again afterwards; a release during the warm-up cancels it at once. Until it is warm again the pod takes no
   other lease, and repeating a call changes nothing.
   */
  lemma Lifecycle(r: Request, other: Request)
    requires other.lease != r.lease
    ensures Warm.Activate(r, r.node) == (WarmingUp(r), Accepted)
    ensures WarmingUp(r).Expire() == Hot(r) && WarmingUp(r).Release() == Warm
    ensures Hot(r).Release() == TearingDown(r) == TearingDown(r).Release() && TearingDown(r).Expire() == Warm && Warm.Release() == Warm
    ensures forall m :: m == WarmingUp(r) || m == Hot(r) ==>
      m.Activate(r, r.node) == (m, Accepted) && m.Activate(other, other.node) == (m, LeaseConflict)
    ensures TearingDown(r).Activate(r, r.node) == (TearingDown(r), LeaseConflict)
    ensures forall m: Machine, own :: r.node != own ==> m.Activate(r, own) == (m, NodeMismatch)
  {
  }
}
