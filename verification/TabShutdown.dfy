/** Shutting down: the loader runs dry and stops. */
module TabShutdown {
  import opened Results
  import opened TabMachine
  import opened TabOrder

  /** The steps by which the loader hands loads on. */
  predicate Hands(e: Step) {
    e.Take? || e.CompleteStart? || e.Activate? || e.Reap?
  }

  function Drain(s: State): nat {
    3 * |s.queue| + (if s.hand.Some? then 2 else 0) + |s.active|
  }

  /** While the app stops, every step but a load's own end and a network failure, which change no
      place, brings the loader closer to its exit, and such a step or the exit is possible until the
      loader is gone; nothing else can happen. */
  lemma {:induction false} StoppingDrains(s: State, e: Step)
    requires Good(s) && s.stopping && !s.exited && Enabled(s, e)
    ensures Hands(e) ==> Drain(Next(s, e)) < Drain(s)
    ensures Hands(e) || e.FinishLoad? || e.NetworkFails? || (e.Exit? && Drain(s) == 0)
    ensures !Hands(e) ==> Drain(Next(s, e)) == Drain(s)
  {
    hide Windowed, Ordered;
  }

  lemma {:induction false} StoppingMoves(s: State) returns (e: Step)
    requires Good(s) && s.stopping && !s.exited
    ensures Enabled(s, e) && (if Drain(s) == 0 then e.Exit? else Hands(e))
  {
    hide Windowed, Ordered;
    if s.hand.Some? {
      e := CompleteStart(None);
    } else if s.queue != [] {
      e := Take;
    } else if s.active != [] {
      e := Reap(0);
    } else {
      e := Exit;
    }
  }
}
