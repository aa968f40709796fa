/** The catalogue as the acquisition service sees it, and what the observers of
    one item's transfer write into it. */
module AcquisitionLedger {

  import opened Basics
  import opened TransferProtocol
  import opened AcquisitionTables
  import opened AcquisitionSteps
  import Spec = TransferSpec
  import Records = TransferRecords

  /** From one state to a later one: only run item i was inserted or written. */
  ghost predicate OnlyItem(a: Durable, b: Durable, i: nat) {
    b.plan == a.plan && b.runs == a.runs && i in b.items && b.items == a.items[i := b.items[i]]
  }

  /** Rows of other items keep what they say, but for a row handed over. */
  ghost predicate OthersKept(a: map<nat, LedgerRow>, b: map<nat, LedgerRow>, i: nat, handed: Option<nat>) {
    forall q | q in a && a[q].item != i && handed != Some(q) :: q in b && b[q] == a[q]
  }

  /** Attempts of other items are untouched. */
  ghost predicate AttemptsKept(a: map<nat, seq<Spec.Transition>>, b: map<nat, seq<Spec.Transition>>, i: nat) {
    forall j | j != i :: AttemptsOf(b, j) == AttemptsOf(a, j)
  }

  /** Staging files of the ledger are among the first `files` created. */
  ghost predicate Below(ledger: map<nat, LedgerRow>, files: nat) {
    forall p | p in ledger :: ledger[p].resume.partial.name < files
  }

  predicate Inside(b: bool) { b }

  /** The service's view of the database and the content-addressed store.
      `log` lists the states committed so far; a crash loses a tail of it.
      `files` counts the staging files ever created under the managed root.
      `past` is the log at some earlier moment and `notes` are some of the states
      in it: no commit removes anything. */
  class Database {
    const hashes: Hashes
    ghost const trust: Option<Naming>
    var db: Durable
    var log: seq<Durable>
    var files: nat
    ghost var past: seq<Durable>
    ghost var notes: seq<Durable>

    /** The definition is used only where Inside(true) is asserted. */
    ghost predicate Valid()
      reads this
    {
      forall k {:trigger Inside(k)} | Inside(k) ::
        && Collisionless(hashes) && |log| > 0 && log[|log| - 1] == db && Chain(hashes, trust, log) && past <= log
        && (forall s {:trigger s in notes} | s in notes :: s in log)
        && forall s {:trigger Below(s.ledger, files)} | s in log :: Below(s.ledger, files)
    }

    lemma IsSound()
      requires Valid()
      ensures Sound(hashes, trust, db) && Below(db.ledger, files)
    {
      assert Inside(true);
      ChainSound(hashes, trust, log, |log| - 1);
      assert log[|log| - 1] in log;
    }

    // Parts of it, for callers that need no more.

    lemma ItemHere(i: nat)
      requires Valid() && i in db.items
      ensures ItemOk(hashes, db, i)
    {
      IsSound();
    }

    lemma RunsHere()
      requires Valid()
      ensures RunsOk(db)
    {
      IsSound();
    }

    lemma StoreHere()
      requires Valid()
      ensures Collisionless(hashes) && StoreOk(hashes, db)
    {
      assert Inside(true);
      IsSound();
    }

    constructor (hashes: Hashes, ghost trust: Option<Naming>)
      requires Collisionless(hashes)
      ensures Valid() && log == [Empty()] && this.hashes == hashes && this.trust == trust
    {
      this.hashes, this.trust, db, log, files, past, notes := hashes, trust, Empty(), [Empty()], 0, [], [];
    }

    method Commit(next: Durable, ghost c: Change)
      requires Valid() && Allowed(hashes, trust, db, c) && next == Apply(hashes, trust, db, c)
      requires next.ledger == db.ledger || Below(next.ledger, files)
      modifies this`db, this`log
      ensures Valid() && db == next && log == old(log) + [next]
    {
      assert Inside(true);
      assert log[|log| - 1] in log && Below(db.ledger, files);
      ChainOne(hashes, trust, log, c);
      db, log := next, log + [next];
    }

    /** More staging files exist. */
    method Advance(created: nat)
      requires Valid() && created >= files
      modifies this`files
      ensures Valid() && files == created
    {
      assert Inside(true);
      forall s | s in log ensures Below(s.ledger, created) { assert Below(s.ledger, files); }
      files := created;
    }

    /** From now on `past` is the log as it is. */
    ghost method Mark()
      requires Valid()
      modifies this`past
      ensures Valid() && past == log
    {
      assert Inside(true);
      past := log;
    }

    /** The present state is noted. */
    ghost method Note()
      requires Valid()
      modifies this`notes
      ensures Valid() && notes == old(notes) + [db]
    {
      assert Inside(true);
      notes := notes + [db];
    }

    lemma NotesLogged()
      requires Valid()
      ensures forall s {:trigger s in notes} | s in notes :: s in log
    {
      assert Inside(true);
    }

    /** The process dies; what survives is the state some commit left. */
    method Crash(keep: nat)
      requires Valid() && keep < |log|
      modifies this`db, this`log, this`past, this`notes
      ensures Valid() && log == old(log)[..keep + 1]
    {
      assert Inside(true);
      ChainPrefix(hashes, trust, log, keep);
      db, log, past, notes := log[keep], log[..keep + 1], [], [];
    }

    // ----- run items and attempts -----

    method SetItem(i: nat, row: RunItem)
      requires Valid() && Allowed(hashes, trust, db, PutItem(i, row))
      modifies this`db, this`log
      ensures Valid() && db == old(db).(items := old(db).items[i := row])
      ensures forall r :: Retained(db, r) == Retained(old(db), r)
    {
      RunsHere();
      forall r ensures Retained(db.(items := db.items[i := row]), r) == Retained(db, r) {
        SetItemKeepsRetained(db, i, row, r);
      }
      Commit(db.(items := db.items[i := row]), PutItem(i, row));
    }

    /** observe_attempt. */
    method RecordAttempt(i: nat, t: Spec.Transition)
      requires Valid() && Allowed(hashes, trust, db, PutAttempt(i, t))
      modifies this`db, this`log
      ensures Valid() && db == old(db).(attempts := PutAttemptIn(old(db).attempts, i, t))
    {
      Commit(db.(attempts := PutAttemptIn(db.attempts, i, t)), PutAttempt(i, t));
    }

    method WritePartial(p: nat, row: LedgerRow)
      requires Valid() && Allowed(hashes, trust, db, PutPartial(p, row)) && row.resume.partial.name < files
      modifies this`db, this`log
      ensures Valid() && db == old(db).(ledger := old(db).ledger[p := row])
    {
      IsSound();
      Commit(db.(ledger := db.ledger[p := row]), PutPartial(p, row));
    }

    // ----- the ledger of one item -----

    /** claim_resume: the earlier run's row is consumed and this item's row opened
        for the same staging file, in one transaction. */
    method ClaimResume(i: nat, r: RetryResume) returns (p: nat)
      requires Valid() && ActiveItem(db, i) && OpenFor(db.ledger, i, None) && StillOpen(db.ledger, r)
      requires ConstructedResume(r.resume) && AttemptsOf(db.attempts, i) == []
      modifies this`db, this`log
      ensures Valid() && db == old(db).(ledger := db.ledger)
      ensures OpenFor(db.ledger, i, Some(p)) && db.ledger[p] == LedgerRow(i, r.resume, Open, |r.resume.partial.bytes|, 0, 0)
      ensures r.source in db.ledger && db.ledger[r.source].state == Consumed && db.ledger[r.source].item != i
      ensures OthersKept(old(db).ledger, db.ledger, i, Some(r.source))
      ensures r.source in old(db).ledger && p !in old(db).ledger && db.ledger.Keys == old(db).ledger.Keys + {p}
      ensures db.ledger[r.source] == old(db).ledger[r.source].(state := Consumed)
      ensures forall q | q in old(db).ledger && q != r.source :: db.ledger[q] == old(db).ledger[q]
    {
      IsSound();
      p := NextRowId(db.ledger.Keys);
      ClaimedShows(db.ledger, i, p, r);
      Commit(db.(ledger := Claimed(db.ledger, i, p, r)), HandOver(i, p, r));
    }

    /** _finish_current_partial: the open row ends. */
    method EndPartial(i: nat, p: nat, state: LedgerState)
      requires Valid() && OpenFor(db.ledger, i, Some(p)) && state != Open
      modifies this`db, this`log
      ensures Valid() && db == old(db).(ledger := old(db).ledger[p := old(db).ledger[p].(state := state)])
      ensures OpenFor(db.ledger, i, None) && OthersKept(old(db).ledger, db.ledger, i, None)
    {
      IsSound();
      WritePartial(p, db.ledger[p].(state := state));
      forall q: nat ensures !IsOpenOf(db.ledger, q, i) {
        assert IsOpenOf(old(db).ledger, q, i) ==> q == p;
      }
    }

    /** finish_partial. */
    method FinishPartial(i: nat, current: Option<nat>, complete: bool, retained: bool)
      requires Valid() && i in db.items && OpenFor(db.ledger, i, current)
      modifies this`db, this`log
      ensures Valid() && db == old(db).(ledger := db.ledger)
      ensures OpenFor(db.ledger, i, if retained then current else None)
      ensures retained ==> db == old(db)
      ensures OthersKept(old(db).ledger, db.ledger, i, None)
      ensures current.Some? && !retained ==>
                current.value in old(db).ledger
                && db.ledger == old(db).ledger[current.value := old(db).ledger[current.value].(state := if complete then Consumed else Dropped)]
      ensures current.None? ==> db == old(db)
    {
      if current.Some? && !retained {
        EndPartial(i, current.value, if complete then Consumed else Dropped);
      }
    }

    /** The partial may be shown to the observer now. */
    ghost predicate Observable(i: nat, current: Option<nat>, resume: ResumeState, got: nat)
      reads this
    {
      && ActiveItem(db, i) && OpenFor(db.ledger, i, current) && LastRuns(AttemptsOf(db.attempts, i))
      && ConstructedResume(resume) && |resume.partial.bytes| > 0 && HonestPartial(trust, resume) && resume.partial.name < files
      && BytesAccounted(LedgerRow(i, resume, Open, TakenAfter(db.ledger, current, resume), got, 0))
      && (SameFile(db.ledger, current, resume) || forall q | q in db.ledger :: db.ledger[q].resume.partial.name != resume.partial.name)
    }

    /** observe_partial: an update of the current row or, for another staging
        file, a discard and then a new row. False: the row breaks a constraint. */
    method ObservePartial(i: nat, current: Option<nat>, resume: ResumeState, got: nat) returns (ok: bool, p: nat)
      requires Valid() && Observable(i, current, resume, got)
      modifies this`db, this`log
      ensures Valid() && (ok <==> Records.PartialRecordable(resume))
      ensures ok ==> if SameFile(old(db).ledger, current, resume) then current == Some(p) else p !in old(db).ledger
      ensures var left := LeftBehind(old(db).ledger, current, resume);
        db == old(db).(ledger := if ok then left[p := ShownRow(old(db), i, current, resume, got)] else left)
      ensures ok ==> p in db.ledger && PartialShown(old(db), db, i, p, resume, got)
      ensures current.Some? && current.value in old(db).ledger
              && old(db).ledger[current.value].resume.partial.name != resume.partial.name ==>
                current.value in db.ledger && db.ledger[current.value] == old(db).ledger[current.value].(state := Dropped)
      ensures forall q | q in old(db).ledger && current != Some(q) :: q in db.ledger && db.ledger[q] == old(db).ledger[q]
    {
      ok := 3 <= |resume.etag| <= 1000;
      p := if current.Some? then current.value else 0;
      if SameFile(db.ledger, current, resume) {
        if ok { UpdatePartial(i, p, resume, got); }
      } else {
        if current.Some? { EndPartial(i, p, Dropped); }
        if ok { p := OpenPartial(i, resume, got); }
      }
    }

    method UpdatePartial(i: nat, p: nat, resume: ResumeState, got: nat)
      requires Valid() && Observable(i, Some(p), resume, got) && SameFile(db.ledger, Some(p), resume) && Records.PartialRecordable(resume)
      modifies this`db, this`log
      ensures Valid()
      ensures db == old(db).(ledger := old(db).ledger[p := ShownRow(old(db), i, Some(p), resume, got)])
    {
      IsSound();
      var row := LedgerRow(i, resume, Open, db.ledger[p].taken, got, |AttemptsOf(db.attempts, i)|);
      WritePartial(p, row);
    }

    method OpenPartial(i: nat, resume: ResumeState, got: nat) returns (p: nat)
      requires Valid() && Observable(i, None, resume, got) && Records.PartialRecordable(resume)
      modifies this`db, this`log
      ensures Valid() && p !in old(db).ledger
      ensures db == old(db).(ledger := old(db).ledger[p := ShownRow(old(db), i, None, resume, got)])
    {
      IsSound();
      p := NextRowId(db.ledger.Keys);
      NoOpenRow(i);
      WritePartial(p, LedgerRow(i, resume, Open, 0, got, |AttemptsOf(db.attempts, i)|));
    }

    lemma NoOpenRow(i: nat)
      requires Valid() && OpenFor(db.ledger, i, None)
      ensures forall q | q in db.ledger && db.ledger[q].state == Open :: db.ledger[q].item != i
    {
      forall q | q in db.ledger && db.ledger[q].state == Open ensures db.ledger[q].item != i {
        assert !IsOpenOf(db.ledger, q, i);
      }
    }
  }

  /** The open row of the partial: a row that was there goes on with its file
      and keeps what it took over, a new one took over nothing. */
  predicate PartialShown(a: Durable, b: Durable, i: nat, p: nat, resume: ResumeState, got: nat)
    requires p in b.ledger
  {
    && b.ledger[p].item == i && b.ledger[p].resume == resume && b.ledger[p].state == Open && b.ledger[p].got == got
    && b.ledger[p].seen == |AttemptsOf(a.attempts, i)|
    && (if p in a.ledger then b.ledger[p].taken == a.ledger[p].taken && a.ledger[p].resume.partial.name == resume.partial.name
        else b.ledger[p].taken == 0)
  }

  lemma ClaimedShows(ledger: map<nat, LedgerRow>, i: nat, p: nat, r: RetryResume)
    requires OpenFor(ledger, i, None) && StillOpen(ledger, r) && p !in ledger
    ensures var after := Claimed(ledger, i, p, r);
      && OpenFor(after, i, Some(p)) && OthersKept(ledger, after, i, Some(r.source)) && after[r.source].item != i
  {
    assert !IsOpenOf(ledger, r.source, i);
    forall q: nat | IsOpenOf(Claimed(ledger, i, p, r), q, i) ensures q == p {
      assert q != p ==> IsOpenOf(ledger, q, i);
    }
  }

  /** The partial is in the staging file of the current row. */
  predicate SameFile(ledger: map<nat, LedgerRow>, current: Option<nat>, resume: ResumeState) {
    current.Some? && current.value in ledger && ledger[current.value].resume.partial.name == resume.partial.name
  }

  /** A row that goes on with its file keeps what it took over. */
  function TakenAfter(ledger: map<nat, LedgerRow>, current: Option<nat>, resume: ResumeState): nat {
    if SameFile(ledger, current, resume) then ledger[current.value].taken else 0
  }

  /** The open row that shows the partial, seen in the item's last attempt. */
  function ShownRow(db: Durable, i: nat, current: Option<nat>, resume: ResumeState, got: nat): LedgerRow {
    LedgerRow(i, resume, Open, TakenAfter(db.ledger, current, resume), got, |AttemptsOf(db.attempts, i)|)
  }

  /** The ledger before a partial in another file is shown. */
  function LeftBehind(ledger: map<nat, LedgerRow>, current: Option<nat>, resume: ResumeState): map<nat, LedgerRow> {
    if current.Some? && current.value in ledger && !SameFile(ledger, current, resume)
    then ledger[current.value := ledger[current.value].(state := Dropped)] else ledger
  }

  /** Afterwards the item's one open row shows the partial, other items' rows
      are untouched, and no file is new but the partial's. */
  lemma ShownOpen(db: Durable, i: nat, current: Option<nat>, resume: ResumeState, got: nat, p: nat, bound: nat)
    requires OpenFor(db.ledger, i, current) && Below(db.ledger, bound)
    requires if SameFile(db.ledger, current, resume) then current == Some(p) else p !in db.ledger
    ensures var after := LeftBehind(db.ledger, current, resume)[p := ShownRow(db, i, current, resume, got)];
      && OpenFor(after, i, Some(p)) && OthersKept(db.ledger, after, i, None)
      && Below(after, if resume.partial.name < bound then bound else resume.partial.name + 1)
  {
    var after := LeftBehind(db.ledger, current, resume)[p := ShownRow(db, i, current, resume, got)];
    forall q: nat | IsOpenOf(after, q, i) ensures q == p {
      assert q != p ==> IsOpenOf(db.ledger, q, i);
    }
  }

  lemma LeftBehindOpen(ledger: map<nat, LedgerRow>, i: nat, current: Option<nat>, resume: ResumeState)
    requires OpenFor(ledger, i, current)
    ensures var after := LeftBehind(ledger, current, resume);
      OpenFor(after, i, if SameFile(ledger, current, resume) then current else None) && OthersKept(ledger, after, i, None)
  {
    var after := LeftBehind(ledger, current, resume);
    forall q: nat | IsOpenOf(after, q, i) ensures SameFile(ledger, current, resume) && current == Some(q) {
      assert IsOpenOf(ledger, q, i);
    }
  }
}
