/** Operations on stored state as sequences of atomic steps, any of which may fail and after
    any of which the process may stop. What such an operation must guarantee concerns every
    state on the way, so operations are functions from histories to histories. */
module StopPoints {

  /** The current stored state and all earlier ones, oldest first. */
  datatype History<D> = History(past: seq<D>, now: D) {

    /** One atomic step: it does its work, or fails without effect. */
    function Step(works: bool, next: D): History<D> {
      History(past + [now], if works then next else now)
    }

    function States(): seq<D> {
      past + [now]
    }
  }

  function Start<D>(d: D): History<D> {
    History([], d)
  }

  /** An operation's history together with what it returned. */
  datatype Outcome<D, T> = Outcome(history: History<D>, result: T)
}
