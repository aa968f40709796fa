/** The attempt loop one turn at a time: the equation that the proofs about
    transfers and the engine's own loop unfold. */
module TransferLoop {

  import opened Basics
  import opened TransferProtocol
  import opened TransferSpec

  /** The head of the attempt loop. */
  datatype Head = Head(n: nat, current: Option<ResumeState>, status: Option<nat>, got: nat, env: Env)

  predicate Shown(b: bool) { b }

  /** t is the transfer from this head on. The definition is used only where
      Shown(true) is asserted. */
  ghost predicate IsFrom(x: Setup, h: Head, t: Transferred) {
    0 < h.n <= x.limits.maxAttempts &&
    forall b {:trigger Shown(b)} | Shown(b) :: t == From(x, h.n, h.current, h.status, h.got, h.env)
  }

  /** a is the end of the attempt at this head; hidden in the same way. */
  ghost predicate IsAttempt(x: Setup, h: Head, a: AttemptEnd) {
    forall b {:trigger Shown(b)} | Shown(b) :: a == Attempt(x, x.scripts(h.n), h.current, h.env)
  }

  function NextHead(x: Setup, h: Head, a: AttemptEnd): Head
    requires h.n > 0 && a.verdict.Failed?
  {
    var loss := Lose(x, h.n, a, h.status);
    Head(h.n + 1, loss.kept, loss.terminal.status, h.got + a.received, Pause(x, loss.terminal, loss.env).env)
  }

  /** The transfer t is one attempt, then its end or the transfer `rest`. */
  ghost predicate Turns(x: Setup, h: Head, a: AttemptEnd, t: Transferred, rest: Transferred) {
    h.n > 0 &&
    var began := Began(RunningTransition(h.n, h.current));
    if a.verdict.Staged? then
      t == Transferred(Returned(Result(Complete, Downloaded, false, h.got + a.received, Some(a.verdict.bytes), None, a.status)),
                       [began, Ended(Terminal(h.n, Complete, Failure(Downloaded, false), a, a.status))], [], a.env)
    else if Overruns(a, x.identity) then t == Transferred(RaisedValueError, [began], [], a.env)
    else
      var loss := Lose(x, h.n, a, h.status);
      var events := LossEvents(x, h.n, h.current, loss, h.got + a.received);
      var p := Pause(x, loss.terminal, loss.env);
      if p.Sleep? then IsFrom(x, NextHead(x, h, a), rest) && t == Transferred(rest.end, events + rest.events, [p.nap] + rest.naps, rest.env)
      else t == Transferred(Returned(GivenUp(loss, p.TooLate?, h.got + a.received)), events, [], p.env)
  }

  /** The attempt at this head failed, and another one follows. */
  predicate GoesOn(x: Setup, h: Head, a: AttemptEnd) {
    && h.n > 0 && a.verdict.Failed? && !Overruns(a, x.identity)
    && var loss := Lose(x, h.n, a, h.status); Pause(x, loss.terminal, loss.env).Sleep?
  }

  lemma SameAttempt(x: Setup, h: Head, a: AttemptEnd, b: AttemptEnd)
    requires IsAttempt(x, h, a) && IsAttempt(x, h, b)
    ensures a == b
  {
    assert Shown(true);
  }

  lemma Unfold(x: Setup, h: Head, t: Transferred) returns (a: AttemptEnd, rest: Transferred)
    requires IsFrom(x, h, t)
    ensures IsAttempt(x, h, a) && Turns(x, h, a, t, rest)
  {
    assert Shown(true);
    a := Attempt(x, x.scripts(h.n), h.current, h.env);
    rest := UnfoldAfter(x, h, a, t);
  }

  lemma UnfoldAfter(x: Setup, h: Head, a: AttemptEnd, t: Transferred) returns (rest: Transferred)
    requires 0 < h.n <= x.limits.maxAttempts && t == After(x, h.n, h.current, h.status, h.got, a)
    ensures Turns(x, h, a, t, rest)
  {
    rest := t;
    if a.verdict.Failed? && !Overruns(a, x.identity) {
      var loss := Lose(x, h.n, a, h.status);
      var p := Pause(x, loss.terminal, loss.env);
      if p.Sleep? { rest := From(x, h.n + 1, loss.kept, loss.terminal.status, h.got + a.received, p.env); }
    }
  }
}
