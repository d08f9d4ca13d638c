/** The deadlines of a cleanup, which every interested party may only bring forward. */
module Runner {
  import opened Common

  /** A process the runner launched; its identity is never reused. */
  type Process = nat

  /** Half a second of grace between the two signals. */
  const GRACE := 500

  function Earlier(a: Option<int>, b: Option<int>): Option<int> {
    match (a, b)
    case (None, _) => b
    case (_, None) => a
    case (Some(x), Some(y)) => Some(Min(x, y))
  }

  /** `a` is at least as strict a deadline as `b`; None never expires. */
  predicate AtMost(a: Option<int>, b: Option<int>) {
    b == None || (a.Some? && a.value <= b.value)
  }

  /** The deadline and the changed flag after a party asked for `wanted`. */
  function Adopt(deadline: Option<int>, changed: bool, wanted: Option<int>): (Option<int>, bool) {
    if wanted == None || (deadline.Some? && deadline.value <= wanted.value) then (deadline, changed)
    else (wanted, true)
  }

  /** Adopting only brings a deadline forward, and says so when it does. */
  lemma AdoptIsEarlier(deadline: Option<int>, changed: bool, wanted: Option<int>)
    ensures var (d, c) := Adopt(deadline, changed, wanted);
            && d == Earlier(deadline, wanted) && AtMost(d, deadline) && AtMost(d, wanted)
            && (c <==> changed || d != deadline)
            && Adopt(d, c, wanted) == (d, c)
  {
  }

  /** The cleanup deadline of a run: its own and the shutdown's, whichever is earlier. */
  function RunCleanupDeadline(own: Option<int>, shutdown: Option<int>): Option<int> {
    if own == None then shutdown
    else if shutdown.Some? then Some(Min(own.value, shutdown.value))
    else own
  }
}
