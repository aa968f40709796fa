/** The observers of one transfer: every attempt and every partial it reports
    becomes a commit, until one of them cannot be recorded. */
module AcquisitionObserver {

  import opened Basics
  import opened TransferProtocol
  import opened AcquisitionTables
  import opened AcquisitionSteps
  import opened AcquisitionLedger
  import Spec = TransferSpec
  import Records = TransferRecords
  import Properties = TransferProperties
  import Results = TransferResults

  /** Only attempts and partials of item i differ, and its open row is known. */
  ghost predicate Within(a: Durable, b: Durable, i: nat, current: Option<nat>) {
    && b == a.(attempts := b.attempts, ledger := b.ledger)
    && AttemptsKept(a.attempts, b.attempts, i) && OthersKept(a.ledger, b.ledger, i, None) && OpenFor(b.ledger, i, current)
  }

  ghost predicate WithinSome(a: Durable, b: Durable, i: nat) {
    exists current :: Within(a, b, i, current)
  }

  /** The row goes back to the partial the transfer started from, or to none. */
  predicate RowFrom(row: LedgerRow, start: Option<ResumeState>, n: nat) {
    && row.seen <= n
    && row.taken == if start.Some? && row.resume.partial.name == start.value.partial.name then |start.value.partial.bytes| else 0
  }

  /** Before attempt n: the open row shows the pending partial, if there is one. */
  ghost predicate Ready(b: Durable, i: nat, n: nat, current: Option<nat>, pending: Option<ResumeState>,
                        start: Option<ResumeState>, bound: nat) {
    && |AttemptsOf(b.attempts, i)| + 1 == n && !CutShort(AttemptsOf(b.attempts, i)) && Below(b.ledger, bound)
    && OpenFor(b.ledger, i, current) && (current.Some? ==> RowFrom(b.ledger[current.value], start, n - 1))
    && (pending.Some? ==> current.Some? && b.ledger[current.value].resume == pending.value && b.ledger[current.value].seen == n - 1)
  }

  /** The same while attempt n runs, until it shows a partial. */
  ghost predicate Started(b: Durable, i: nat, n: nat, current: Option<nat>, pending: Option<ResumeState>,
                          start: Option<ResumeState>, bound: nat) {
    && |AttemptsOf(b.attempts, i)| == n && LastRuns(AttemptsOf(b.attempts, i)) && Below(b.ledger, bound)
    && OpenFor(b.ledger, i, current) && (current.Some? ==> RowFrom(b.ledger[current.value], start, n - 1))
    && (pending.Some? ==> current.Some? && b.ledger[current.value].resume == pending.value)
  }

  method Begin(d: Database, ghost a: Durable, i: nat, n: nat, current: Option<nat>, ghost pending: Option<ResumeState>,
               ghost start: Option<ResumeState>, ghost bound: nat, t: Spec.Transition) returns (ok: bool)
    requires d.Valid() && ActiveItem(d.db, i) && Within(a, d.db, i, current) && n > 0
    requires Ready(d.db, i, n, current, pending, start, bound) && t == Spec.RunningTransition(n, pending)
    modifies d`db, d`log
    ensures d.Valid() && Within(a, d.db, i, current) && (ok <==> Records.AttemptRecordable(t))
    ensures if ok then Started(d.db, i, n, current, pending, start, bound) && AttemptsOf(d.db.attempts, i) == AttemptsOf(old(d.db).attempts, i) + [t]
            else d.db == old(d.db)
  {
    ok := Records.AttemptRecordable(t);
    if ok { d.RecordAttempt(i, t); }
  }

  method Show(d: Database, ghost a: Durable, i: nat, n: nat, current: Option<nat>, ghost pending: Option<ResumeState>,
              ghost start: Option<ResumeState>, ghost bound: nat, k: Spec.Event, ghost t: Spec.Transition, ghost got: nat) returns (ok: bool, p: nat)
    requires d.Valid() && ActiveItem(d.db, i) && Within(a, d.db, i, current) && n > 0
    requires Started(d.db, i, n, current, pending, start, bound) && k.KeptPartial?
    requires Properties.KeepsPartial(k, t, n, pending, start, got, bound)
    requires k.resume.partial.name < d.files && HonestPartial(d.trust, k.resume)
    requires start.Some? ==> start.value.partial.name < bound && |start.value.partial.bytes| > 0
    modifies d`db, d`log
    ensures d.Valid() && (ok <==> Records.PartialRecordable(k.resume)) && d.db.attempts == old(d.db).attempts
    ensures Within(a, d.db, i, if ok then Some(p) else if SameFile(old(d.db).ledger, current, k.resume) then current else None)
    ensures ok ==> Below(d.db.ledger, Properties.Beyond(bound, k.resume.partial.name)) && RowFrom(d.db.ledger[p], start, n)
    ensures ok ==> d.db.ledger[p].resume == k.resume && d.db.ledger[p].seen == n && d.db.ledger[p].got == k.got
  {
    hide OthersKept, AttemptsKept;
    ghost var before := d.db;
    ok, p := d.ObservePartial(i, current, k.resume, k.got);
    LeftBehindOpen(before.ledger, i, current, k.resume);
    if ok { ShownOpen(before, i, current, k.resume, k.got, p, bound); }
    ChainOthers(a.ledger, before.ledger, d.db.ledger, i);
  }

  lemma ChainOthers(a: map<nat, LedgerRow>, b: map<nat, LedgerRow>, c: map<nat, LedgerRow>, i: nat)
    requires OthersKept(a, b, i, None)
    ensures OthersKept(b, c, i, None) ==> OthersKept(a, c, i, None)
  {
  }

  method End(d: Database, ghost a: Durable, i: nat, n: nat, current: Option<nat>, ghost kept: Option<ResumeState>,
             ghost start: Option<ResumeState>, ghost bound: nat, t: Spec.Transition) returns (ok: bool)
    requires d.Valid() && ActiveItem(d.db, i) && Within(a, d.db, i, current) && n > 0 && Properties.EndsAttempt(t, n)
    requires |AttemptsOf(d.db.attempts, i)| == n && LastRuns(AttemptsOf(d.db.attempts, i)) && Below(d.db.ledger, bound)
    requires current.Some? ==> RowFrom(d.db.ledger[current.value], start, if kept.Some? then n else n - 1)
    requires kept.Some? ==> && current.Some? && d.db.ledger[current.value].resume == kept.value && d.db.ledger[current.value].seen == n
                            && (t.size.None? || t.size == kept.value.size)
                            && d.db.ledger[current.value].got == Spec.TotalOf(AttemptsOf(d.db.attempts, i)[..n - 1]) + t.received
    modifies d`db, d`log
    ensures d.Valid() && Within(a, d.db, i, current) && (ok <==> Records.AttemptRecordable(t))
    ensures if ok then Ready(d.db, i, n + 1, current, kept, start, bound) && d.db.ledger == old(d.db).ledger
                       && AttemptsOf(d.db.attempts, i) == AttemptsOf(old(d.db).attempts, i)[..n - 1] + [t]
            else d.db == old(d.db)
  {
    ok := Records.AttemptRecordable(t);
    if ok {
      ghost var rows := AttemptsOf(d.db.attempts, i);
      d.RecordAttempt(i, t);
      assert rows[n - 1 := t] == rows[..n - 1] + [t];
    }
  }

  // ----- one attempt's events, then all of them -----

  /** How many events belong to the first attempt. */
  function Own(rest: seq<Spec.Event>): nat {
    if |rest| <= 1 then |rest| else if rest[1].KeptPartial? && |rest| > 2 then 3 else 2
  }

  function KeptIn(rest: seq<Spec.Event>): Option<ResumeState> {
    if Own(rest) == 3 && rest[1].KeptPartial? then Some(rest[1].resume) else None
  }

  function BoundAfter(rest: seq<Spec.Event>, bound: nat): nat {
    if KeptIn(rest).Some? then Properties.Beyond(bound, KeptIn(rest).value.partial.name) else bound
  }

  function GotAfter(rest: seq<Spec.Event>, got: nat): nat {
    if KeptIn(rest).Some? && rest[1].KeptPartial? then rest[1].got
    else if Own(rest) == 2 && rest[1].Ended? then got + rest[1].transition.received else got
  }

  /** Every partial shown is a beginning of what its ETag names. */
  ghost predicate ShowsHonest(trust: Option<Naming>, events: seq<Spec.Event>) {
    forall k | 0 <= k < |events| && events[k].KeptPartial? :: HonestPartial(trust, events[k].resume)
  }

  predicate StartOk(start: Option<ResumeState>, bound: nat) {
    start.Some? ==> start.value.partial.name < bound && |start.value.partial.bytes| > 0
  }

  /** The row shows the partial that was kept, and in which attempt. */
  predicate Shows(db: Durable, i: nat, current: Option<nat>, resume: ResumeState, n: nat) {
    current.Some? && current.value in db.ledger && db.ledger[current.value].resume == resume && db.ledger[current.value].seen == n
  }

  lemma OwnRecordable(rest: seq<Spec.Event>)
    requires |rest| > 0
    ensures Records.AllRecordable(rest[..Own(rest)]) <==>
              && Records.Recordable(rest[0]) && (Own(rest) >= 2 ==> Records.Recordable(rest[1]))
              && (Own(rest) == 3 ==> Records.Recordable(rest[2]))
  {
    var own := rest[..Own(rest)];
    assert own[0] == rest[0] && (|own| >= 2 ==> own[1] == rest[1]) && (|own| == 3 ==> own[2] == rest[2]);
  }

  /** The partial is shown, then the attempt ends. */
  method ShowAndEnd(d: Database, ghost a: Durable, i: nat, n: nat, current: Option<nat>, ghost pending: Option<ResumeState>,
                    ghost start: Option<ResumeState>, ghost got: nat, ghost bound: nat, k: Spec.Event, t: Spec.Transition)
    returns (ok: bool, p: nat)
    requires d.Valid() && ActiveItem(d.db, i) && Within(a, d.db, i, current) && n > 0 && StartOk(start, bound)
    requires Started(d.db, i, n, current, pending, start, bound) && k.KeptPartial? && Properties.EndsAttempt(t, n)
    requires Properties.KeepsPartial(k, t, n, pending, start, got, bound)
    requires k.resume.partial.name < d.files && HonestPartial(d.trust, k.resume)
    requires got == Spec.TotalOf(AttemptsOf(d.db.attempts, i)[..n - 1])
    modifies d`db, d`log
    ensures d.Valid() && (ok <==> Records.PartialRecordable(k.resume) && Records.AttemptRecordable(t))
    ensures if ok then Within(a, d.db, i, Some(p)) else WithinSome(a, d.db, i)
    ensures ok ==> Ready(d.db, i, n + 1, Some(p), Some(k.resume), start, Properties.Beyond(bound, k.resume.partial.name))
    ensures ok ==> AttemptsOf(d.db.attempts, i) == AttemptsOf(old(d.db).attempts, i)[..n - 1] + [t]
    ensures ok ==> Shows(d.db, i, Some(p), k.resume, n)
  {
    ok, p := Show(d, a, i, n, current, pending, start, bound, k, t, got);
    if ok { ok := End(d, a, i, n, Some(p), Some(k.resume), start, Properties.Beyond(bound, k.resume.partial.name), t); }
  }

  /** The rest of an attempt that was begun. */
  method ObserveEnd(d: Database, ghost a: Durable, i: nat, n: nat, current: Option<nat>, ghost pending: Option<ResumeState>,
                    ghost start: Option<ResumeState>, ghost got: nat, ghost bound: nat, rest: seq<Spec.Event>)
    returns (ok: bool, now: Option<nat>)
    requires d.Valid() && ActiveItem(d.db, i) && Within(a, d.db, i, current) && n > 0 && StartOk(start, bound)
    requires Started(d.db, i, n, current, pending, start, bound) && |rest| > 1 && Properties.Tells(rest, n, pending, start, got, bound)
    requires Properties.KeptBelow(rest, d.files) && ShowsHonest(d.trust, rest)
    requires got == Spec.TotalOf(AttemptsOf(d.db.attempts, i)[..n - 1])
    modifies d`db, d`log
    ensures d.Valid() && (ok <==> Records.Recordable(rest[1]) && (Own(rest) == 3 ==> Records.Recordable(rest[2])))
    ensures if ok then Within(a, d.db, i, now) else WithinSome(a, d.db, i)
    ensures ok ==> Own(rest) > 1 && Ready(d.db, i, n + 1, now, KeptIn(rest), start, BoundAfter(rest, bound)) && rest[Own(rest) - 1].Ended?
    ensures ok ==> AttemptsOf(d.db.attempts, i) == AttemptsOf(old(d.db).attempts, i)[..n - 1] + [rest[Own(rest) - 1].transition]
    ensures ok && KeptIn(rest).Some? ==> Shows(d.db, i, now, KeptIn(rest).value, n)
  {
    if rest[1].Ended? {
      now := current;
      ok := End(d, a, i, n, current, None, start, bound, rest[1].transition);
    } else {
      var p;
      ok, p := ShowAndEnd(d, a, i, n, current, pending, start, got, bound, rest[1], rest[2].transition);
      now := Some(p);
    }
  }

  /** The first attempt of the events still to be observed. */
  method ObserveAttempt(d: Database, ghost a: Durable, i: nat, n: nat, current: Option<nat>, ghost pending: Option<ResumeState>,
                        ghost start: Option<ResumeState>, ghost got: nat, ghost bound: nat, rest: seq<Spec.Event>)
    returns (ok: bool, now: Option<nat>)
    requires d.Valid() && ActiveItem(d.db, i) && Within(a, d.db, i, current) && n > 0 && StartOk(start, bound)
    requires Ready(d.db, i, n, current, pending, start, bound) && Properties.Tells(rest, n, pending, start, got, bound)
    requires Properties.KeptBelow(rest, d.files) && ShowsHonest(d.trust, rest)
    requires got == Spec.TotalOf(AttemptsOf(d.db.attempts, i))
    modifies d`db, d`log
    ensures d.Valid() && (ok <==> Records.AllRecordable(rest[..Own(rest)]))
    ensures if ok then Within(a, d.db, i, now) else WithinSome(a, d.db, i)
    ensures ok && Own(rest) > 1 ==> Ready(d.db, i, n + 1, now, KeptIn(rest), start, BoundAfter(rest, bound)) && rest[Own(rest) - 1].Ended?
    ensures ok && Own(rest) > 1 ==> AttemptsOf(d.db.attempts, i) == AttemptsOf(old(d.db).attempts, i) + [rest[Own(rest) - 1].transition]
    ensures ok && KeptIn(rest).Some? ==> Shows(d.db, i, now, KeptIn(rest).value, n)
  {
    now := current;
    OwnRecordable(rest);
    ghost var before := AttemptsOf(d.db.attempts, i);
    ok := Begin(d, a, i, n, current, pending, start, bound, rest[0].transition);
    if !ok || |rest| == 1 { return; }
    assert AttemptsOf(d.db.attempts, i)[..n - 1] == before;
    ok, now := ObserveEnd(d, a, i, n, current, pending, start, got, bound, rest);
  }

  lemma TellsNext(rest: seq<Spec.Event>, n: nat, pending: Option<ResumeState>, start: Option<ResumeState>, got: nat, bound: nat)
    requires Properties.Tells(rest, n, pending, start, got, bound)
    ensures 0 < Own(rest) <= |rest|
    ensures Own(rest) < |rest| ==> Own(rest) > 1
    ensures Own(rest) < |rest| ==>
              Properties.Tells(rest[Own(rest)..], n + 1, KeptIn(rest), start, GotAfter(rest, got), BoundAfter(rest, bound))
  {
  }

  lemma OwnAttempts(rest: seq<Spec.Event>, n: nat, pending: Option<ResumeState>, start: Option<ResumeState>, got: nat, bound: nat)
    requires Properties.Tells(rest, n, pending, start, got, bound)
    ensures Own(rest) <= |rest|
    ensures Own(rest) > 1 ==> rest[Own(rest) - 1].Ended? && Spec.Attempts(rest[..Own(rest)]) == [rest[Own(rest) - 1].transition]
    ensures Own(rest) > 1 && rest[Own(rest) - 2].KeptPartial? ==> KeptIn(rest) == Some(rest[Own(rest) - 2].resume)
  {
    if Own(rest) > 1 {
      var own := rest[..Own(rest)];
      var front, last := own[..|own| - 1], own[|own| - 1];
      assert own == front + [last];
      Results.AttemptsAppend(front, [last]);
      Results.AttemptsOne(last);
      Results.AttemptsOne(rest[0]);
      if Own(rest) == 3 {
        assert front == [rest[0]] + [rest[1]];
        Results.AttemptsAppend([rest[0]], [rest[1]]);
        Results.AttemptsOne(rest[1]);
      } else {
        assert front == [rest[0]];
      }
    }
  }

  lemma RecordableMore(events: seq<Spec.Event>, k: nat, own: nat)
    requires k + own <= |events| && Records.AllRecordable(events[..k])
    ensures Records.AllRecordable(events[..k + own]) <==> Records.AllRecordable(events[k..][..own])
    ensures !Records.AllRecordable(events[k..][..own]) ==> !Records.AllRecordable(events)
  {
    var more, part := events[..k + own], events[k..][..own];
    assert more == events[..k] + part;
    if !Records.AllRecordable(part) {
      var j :| 0 <= j < |part| && !Records.Recordable(part[j]);
      assert !Records.Recordable(more[k + j]) && more[k + j] == events[k + j];
    }
  }

  /** The result's resume is shown by the item's open row. */
  predicate ShowsLast(db: Durable, i: nat, current: Option<nat>, events: seq<Spec.Event>) {
    |events| >= 2 && events[|events| - 2].KeptPartial? ==> Shows(db, i, current, events[|events| - 2].resume, |AttemptsOf(db.attempts, i)|)
  }

  lemma AttemptsMore(events: seq<Spec.Event>, k: nat, own: nat)
    requires k + own <= |events|
    ensures Spec.Attempts(events[..k + own]) == Spec.Attempts(events[..k]) + Spec.Attempts(events[k..][..own])
  {
    assert events[..k + own] == events[..k] + events[k..][..own];
    Results.AttemptsAppend(events[..k], events[k..][..own]);
  }

  /** After the first k events, before attempt n. */
  ghost predicate Midway(a: Durable, b: Durable, i: nat, current: Option<nat>, initial: Option<ResumeState>, bound: nat,
                         events: seq<Spec.Event>, k: nat) {
    && |events| > 0 && k <= |events| && Within(a, b, i, current) && Records.AllRecordable(events[..k]) && StartOk(initial, bound)
    && (k < |events| || events[|events| - 1].Ended? ==>
          AttemptsOf(b.attempts, i) == Spec.Attempts(events[..k]) && !LastRuns(AttemptsOf(b.attempts, i)))
    && (k == |events| && events[|events| - 1].Ended? ==> ShowsLast(b, i, current, events))
  }

  /** One attempt more. */
  lemma MidwayOne(a: Durable, b: Durable, c: Durable, i: nat, n: nat, current: Option<nat>, now: Option<nat>,
                  pending: Option<ResumeState>,
                  initial: Option<ResumeState>, got: nat, bound: nat, events: seq<Spec.Event>, k: nat)
    requires |events| > 0 && k < |events| && Midway(a, b, i, current, initial, bound, events, k) && Within(a, c, i, now) && n > 0
    requires Properties.Tells(events[k..], n, pending, initial, got, bound) && |AttemptsOf(b.attempts, i)| + 1 == n
    requires var rest := events[k..];
      && Own(rest) <= |rest| && Records.AllRecordable(rest[..Own(rest)])
      && (Own(rest) > 1 ==> Ready(c, i, n + 1, now, KeptIn(rest), initial, BoundAfter(rest, bound)) && rest[Own(rest) - 1].Ended?
                            && AttemptsOf(c.attempts, i) == AttemptsOf(b.attempts, i) + [rest[Own(rest) - 1].transition])
      && (KeptIn(rest).Some? ==> Shows(c, i, now, KeptIn(rest).value, n))
    ensures Midway(a, c, i, now, initial, BoundAfter(events[k..], bound), events, k + Own(events[k..]))
  {
    var rest := events[k..];
    TellsNext(rest, n, pending, initial, got, bound);
    OwnAttempts(rest, n, pending, initial, got, bound);
    RecordableMore(events, k, Own(rest));
    AttemptsMore(events, k, Own(rest));
  }

  /** What is still to be observed. */
  ghost predicate Ahead(trust: Option<Naming>, files: nat, b: Durable, i: nat, n: nat, current: Option<nat>,
                        pending: Option<ResumeState>,
                        initial: Option<ResumeState>, got: nat, bound: nat, rest: seq<Spec.Event>) {
    && n > 0 && Properties.KeptBelow(rest, files) && ShowsHonest(trust, rest)
    && (rest != [] ==> && Ready(b, i, n, current, pending, initial, bound) && Properties.Tells(rest, n, pending, initial, got, bound)
                       && got == Spec.TotalOf(AttemptsOf(b.attempts, i)))
  }

  lemma AheadNext(trust: Option<Naming>, files: nat, c: Durable, i: nat, n: nat, now: Option<nat>, pending: Option<ResumeState>,
                  initial: Option<ResumeState>, got: nat, bound: nat, rest: seq<Spec.Event>)
    requires n > 0 && Properties.KeptBelow(rest, files) && ShowsHonest(trust, rest)
    requires Properties.Tells(rest, n, pending, initial, got, bound)
    requires Own(rest) > 1 ==> Ready(c, i, n + 1, now, KeptIn(rest), initial, BoundAfter(rest, bound))
    requires Own(rest) > 1 && rest[Own(rest) - 1].Ended? ==>
               exists before :: AttemptsOf(c.attempts, i) == before + [rest[Own(rest) - 1].transition] && got == Spec.TotalOf(before)
    ensures Own(rest) <= |rest|
    ensures Ahead(trust, files, c, i, n + 1, now, KeptIn(rest), initial, GotAfter(rest, got), BoundAfter(rest, bound), rest[Own(rest)..])
  {
    TellsNext(rest, n, pending, initial, got, bound);
    var more := rest[Own(rest)..];
    assert forall k | 0 <= k < |more| :: more[k] == rest[Own(rest) + k];
    if more != [] {
      var before :| AttemptsOf(c.attempts, i) == before + [rest[Own(rest) - 1].transition] && got == Spec.TotalOf(before);
      TotalAppend(before, [rest[Own(rest) - 1].transition]);
      assert [rest[Own(rest) - 1].transition][1..] == [];
    }
  }

  /** All events of a transfer, up to the first one that cannot be recorded. */
  method Observe(d: Database, i: nat, start: Option<nat>, ghost initial: Option<ResumeState>, ghost files: nat,
                 events: seq<Spec.Event>)
    returns (ok: bool, current: Option<nat>)
    requires d.Valid() && ActiveItem(d.db, i) && StartOk(initial, files)
    requires Ready(d.db, i, 1, start, initial, initial, files) && Properties.Tells(events, 1, initial, initial, 0, files)
    requires Properties.KeptBelow(events, d.files) && ShowsHonest(d.trust, events)
    modifies d`db, d`log
    ensures d.Valid() && (ok <==> Records.AllRecordable(events))
    ensures if ok then Within(old(d.db), d.db, i, current) else WithinSome(old(d.db), d.db, i)
    ensures ok && events[|events| - 1].Ended? ==>
      AttemptsOf(d.db.attempts, i) == Spec.Attempts(events) && !LastRuns(AttemptsOf(d.db.attempts, i)) && ShowsLast(d.db, i, current, events)
  {
    ghost var a, pending, got, bound, k := d.db, initial, 0, files, 0;
    ok, current := true, start;
    var rest, n: nat := events, 1;
    Outset(a, i, start, initial, files, events);
    while rest != []
      invariant d.Valid() && ActiveItem(d.db, i) && ok
      invariant 0 <= k <= |events| && rest == events[k..] && Midway(a, d.db, i, current, initial, bound, events, k)
      invariant Ahead(d.trust, d.files, d.db, i, n, current, pending, initial, got, bound, rest)
      decreases |rest|
    {
      ok, current := ObserveNext(d, a, i, n, current, pending, initial, got, bound, events, k, rest);
      if !ok { return; }
      pending, got, bound, k := KeptIn(rest), GotAfter(rest, got), BoundAfter(rest, bound), k + Own(rest);
      rest, n := rest[Own(rest)..], n + 1;
    }
    assert events[..k] == events;
  }

  lemma Outset(a: Durable, i: nat, start: Option<nat>, initial: Option<ResumeState>, files: nat, events: seq<Spec.Event>)
    requires StartOk(initial, files) && Ready(a, i, 1, start, initial, initial, files) && |events| > 0
    ensures events == events[0..] && Midway(a, a, i, start, initial, files, events, 0)
  {
    assert events[..0] == [];
  }

  method ObserveNext(d: Database, ghost a: Durable, i: nat, n: nat, current: Option<nat>, ghost pending: Option<ResumeState>,
                     ghost initial: Option<ResumeState>, ghost got: nat, ghost bound: nat, ghost events: seq<Spec.Event>, ghost k: nat,
                     rest: seq<Spec.Event>) returns (ok: bool, now: Option<nat>)
    requires d.Valid() && ActiveItem(d.db, i) && rest != []
    requires k <= |events| && rest == events[k..] && Midway(a, d.db, i, current, initial, bound, events, k)
    requires Ahead(d.trust, d.files, d.db, i, n, current, pending, initial, got, bound, rest)
    modifies d`db, d`log
    ensures d.Valid() && 0 < Own(rest) <= |rest|
    ensures !ok ==> WithinSome(a, d.db, i) && !Records.AllRecordable(events)
    ensures ok ==> rest[Own(rest)..] == events[k + Own(rest)..] && ActiveItem(d.db, i)
    ensures ok ==> Midway(a, d.db, i, now, initial, BoundAfter(rest, bound), events, k + Own(rest))
    ensures ok ==> Ahead(d.trust, d.files, d.db, i, n + 1, now, KeptIn(rest), initial, GotAfter(rest, got), BoundAfter(rest, bound), rest[Own(rest)..])
  {
    ghost var before := d.db;
    TellsNext(rest, n, pending, initial, got, bound);
    RecordableOwn(events, k, rest);
    ok, now := ObserveAttempt(d, a, i, n, current, pending, initial, got, bound, rest);
    if ok {
      MidwayOne(a, before, d.db, i, n, current, now, pending, initial, got, bound, events, k);
      AheadNext(d.trust, d.files, d.db, i, n, now, pending, initial, got, bound, rest);
    }
  }

  lemma RecordableOwn(events: seq<Spec.Event>, k: nat, rest: seq<Spec.Event>)
    requires k <= |events| && rest == events[k..] && Records.AllRecordable(events[..k])
    ensures !Records.AllRecordable(rest[..Own(rest)]) ==> !Records.AllRecordable(events)
  {
    RecordableMore(events, k, Own(rest));
  }
}
