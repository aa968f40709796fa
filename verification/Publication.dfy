/** From staged bytes to an asset: inspect, compare, quarantine or publish, and
    only then let the catalogue refer to the bytes. */
module Publication {

  import opened Basics
  import opened DeclaredClaims
  import opened TransferProtocol
  import opened AcquisitionTables
  import opened AcquisitionSteps
  import opened AcquisitionLedger

  /** What inspection finds besides the hashes, and which storage operation
      fails; `linked` says that a failing publication had linked the bytes. */
  datatype StorageWorld = StorageWorld(
    mime: Option<string>, width: Option<nat>, height: Option<nat>, exactOnly: bool,
    inspectFault: Option<string>, quarantineFault: Option<string>, publishFault: Option<string>, linked: bool)

  datatype PublicationEnd =
    | Linked(asset: nat, exactOnly: bool)
    | Refused(held: nat)
    | Trouble(category: string)

  /** The item stays unfinished and only gains hashes. */
  predicate StillUnfinished(a: RunItem, b: RunItem) {
    && b.run == a.run && b.planItem == a.planItem && b.received == a.received && b.asset == None
    && a.state in UNFINISHED && b.state in UNFINISHED
  }

  method PublishStaged(d: Database, bytes: Bytes)
    requires d.Valid()
    modifies d`db, d`log
    ensures d.Valid() && d.db == WithBytes(d.hashes, old(d.db), bytes)
    ensures var sha := d.hashes.sha256(bytes); sha in d.db.cas && d.db.cas[sha] == bytes
  {
    d.StoreHere();
    if d.hashes.sha256(bytes) !in d.db.cas {
      d.Commit(WithBytes(d.hashes, d.db, bytes), PutBytes(bytes));
    }
  }

  /** The asset with these bytes, or a new id. */
  method AssetFor(assets: map<nat, Asset>, sha: string) returns (asset: nat)
    ensures if asset in assets then assets[asset].sha256 == sha else forall a | a in assets :: assets[a].sha256 != sha
  {
    if known :| known in assets && assets[known].sha256 == sha {
      asset := known;
    } else {
      asset := NextRowId(assets.Keys);
    }
  }

  method PersistAsset(d: Database, bytes: Bytes) returns (asset: nat)
    requires d.Valid()
    requires var sha := d.hashes.sha256(bytes); sha in d.db.cas && d.db.cas[sha] == bytes
    modifies d`db, d`log
    ensures d.Valid()
    ensures d.db == WithAsset(old(d.db), asset, d.hashes.sha256(bytes), d.hashes.md5(bytes))
    ensures AssetGained(d.hashes, old(d.db), d.db, asset, bytes)
  {
    asset := AssetFor(d.db.assets, d.hashes.sha256(bytes));
    d.Commit(WithAsset(d.db, asset, d.hashes.sha256(bytes), d.hashes.md5(bytes)), PutAsset(asset, bytes));
  }

  /** quarantine_staged under its cap, and the quarantine row. */
  method Quarantine(d: Database, i: nat, size: nat, maxHeld: nat) returns (held: nat)
    requires d.Valid() && i in d.db.items && d.db.items[i].run in d.db.runs
    requires Retained(d.db, d.db.items[i].run) + maxHeld <= d.db.runs[d.db.items[i].run].maxQuarantine
    modifies d`db, d`log
    ensures d.Valid() && d.db == old(d.db).(quarantine := d.db.quarantine)
    ensures held == (if size > maxHeld then 0 else size) && QuarantineGained(old(d.db), d.db, i, size, maxHeld)
    ensures Retained(d.db, d.db.items[i].run) == Retained(old(d.db), old(d.db).items[i].run) + held
  {
    hide RunsOk;
    var q := NextRowId(d.db.quarantine.Keys);
    var row := QuarantineRow(i, size, size <= maxHeld);
    held := if size > maxHeld then 0 else size;
    d.RunsHere();
    RetainedGrows(d.db, q, row, d.db.items[i].run);
    d.Commit(d.db.(quarantine := d.db.quarantine[q := row]), Hold(q, row));
  }

  /** The transaction that records the comparisons and the item's hashes. */
  method RecordHashes(d: Database, i: nat, sha: string, md5: string)
    requires d.Valid() && i in d.db.items && d.db.items[i].state in UNFINISHED
    requires d.db.items[i].run in d.db.runs && d.db.runs[d.db.items[i].run].status == RunActive
    modifies d`db, d`log
    ensures d.Valid() && OnlyItem(old(d.db), d.db, i) && d.db == old(d.db).(items := d.db.items)
    ensures StillUnfinished(old(d.db).items[i], d.db.items[i])
    ensures d.db.items[i].sha256 == Some(sha) && d.db.items[i].md5 == Some(md5)
    ensures Retained(d.db, d.db.items[i].run) == Retained(old(d.db), d.db.items[i].run)
  {
    d.ItemHere(i);
    var row := d.db.items[i].(state := Running, retryable := false, sha256 := Some(sha), md5 := Some(md5));
    d.SetItem(i, row);
  }

  /** A declared hash disagrees with the bytes. */
  predicate Disagree(h: Hashes, declared: Declared, bytes: Bytes) {
    !declared.derivative && !Agrees(declared, h.sha256(bytes), h.md5(bytes))
  }

  predicate BytesDisagree(h: Hashes, db: Durable, i: nat, bytes: Bytes)
    requires i in db.items && db.items[i].planItem in db.plan
  {
    Disagree(h, db.plan[db.items[i].planItem].declared, bytes)
  }

  /** The first storage operation that publishing these bytes needs and that
      does not work. */
  function TroubleOf(h: Hashes, declared: Declared, bytes: Bytes, w: StorageWorld, maxHeld: nat): Option<string> {
    if w.inspectFault.Some? then w.inspectFault
    else if !Disagree(h, declared, bytes) then w.publishFault
    else if |bytes| <= maxHeld then w.quarantineFault else None
  }

  /** What quarantine_staged keeps under its cap. */
  function HeldOf(bytes: Bytes, maxHeld: nat): nat {
    if |bytes| > maxHeld then 0 else |bytes|
  }

  /** The asset's digest names these bytes in the store. */
  predicate StoredAs(db: Durable, asset: nat, bytes: Bytes) {
    asset in db.assets && db.assets[asset].sha256 in db.cas && db.cas[db.assets[asset].sha256] == bytes
  }

  /** The item's row has the measured hashes, unless the bytes could not be
      inspected. */
  predicate HashesLeft(h: Hashes, a: RunItem, b: RunItem, bytes: Bytes, w: StorageWorld) {
    if w.inspectFault.Some? then b.sha256 == a.sha256 && b.md5 == a.md5
    else b.sha256 == Some(h.sha256(bytes)) && b.md5 == Some(h.md5(bytes))
  }

  /** Whether publication ends in trouble, and with which error. */
  ghost predicate EndsAs(h: Hashes, p: PlanItem, bytes: Bytes, w: StorageWorld, maxHeld: nat, end: PublicationEnd) {
    match TroubleOf(h, p.declared, bytes, w, maxHeld)
    case Some(category) => end == Trouble(category)
    case None =>
      && !end.Trouble? && (end.Refused? <==> Disagree(h, p.declared, bytes))
      && (end.Refused? ==> end.held == HeldOf(bytes, maxHeld)) && (end.Linked? ==> end.exactOnly == w.exactOnly)
  }

  lemma LinkedPublished(h: Hashes, m: Durable, p: PlanItem, asset: nat, bytes: Bytes)
    requires var sha := h.sha256(bytes); sha in m.cas && m.cas[sha] == bytes
    requires !Disagree(h, p.declared, bytes)
    ensures Published(h, WithAsset(m, asset, h.sha256(bytes), h.md5(bytes)), p, asset)
    ensures StoredAs(WithAsset(m, asset, h.sha256(bytes), h.md5(bytes)), asset, bytes)
  {
  }

  // ----- what the store and the catalogue gain, row by row -----

  /** A hash that was declared for the original agrees with the bytes. */
  predicate HashesFit(h: Hashes, d: Declared, bytes: Bytes) {
    d.derivative || ((d.sha256.Some? ==> Lower(d.sha256.value) == Lower(h.sha256(bytes)))
                     && (d.md5.Some? ==> Lower(d.md5.value) == Lower(h.md5(bytes))))
  }

  /** The bytes are in the store under their digest; what was stored stays. */
  predicate BytesStored(h: Hashes, a: Durable, b: Durable, bytes: Bytes) {
    b.cas == if h.sha256(bytes) in a.cas then a.cas else a.cas[h.sha256(bytes) := bytes]
  }

  /** The one asset with this digest, known or new, has its location. */
  predicate AssetGained(h: Hashes, a: Durable, b: Durable, asset: nat, bytes: Bytes) {
    var sha, md5 := h.sha256(bytes), h.md5(bytes);
    && b.assets == a.assets[asset := Asset(sha, md5)] && b.locations == a.locations + {Location(asset, sha)}
    && (if asset in a.assets then a.assets[asset].sha256 == sha else forall x | x in a.assets :: a.assets[x].sha256 != sha)
  }

  /** One more quarantine row, which keeps its copy if that fits. */
  predicate QuarantineGained(a: Durable, b: Durable, i: nat, size: nat, cap: nat) {
    exists q :: q in b.quarantine && q !in a.quarantine && b.quarantine == a.quarantine[q := QuarantineRow(i, size, size <= cap)]
  }

  /** What publication writes besides the item's hashes. */
  predicate StoreWritten(h: Hashes, d: Declared, a: Durable, b: Durable, i: nat, bytes: Bytes, w: StorageWorld, cap: nat,
                         end: PublicationEnd) {
    && b.plan == a.plan && b.runs == a.runs && b.ledger == a.ledger && b.attempts == a.attempts
    && if w.inspectFault.Some? then b == a && end == Trouble(w.inspectFault.value)
       else if HashesFit(h, d, bytes) then
         && b.quarantine == a.quarantine
         && if w.publishFault.Some? then
              && end == Trouble(w.publishFault.value) && b.assets == a.assets && b.locations == a.locations
              && (if w.linked then BytesStored(h, a, b, bytes) else b.cas == a.cas)
            else end.Linked? && end.exactOnly == w.exactOnly && BytesStored(h, a, b, bytes) && AssetGained(h, a, b, end.asset, bytes)
       else
         && b.assets == a.assets && b.locations == a.locations && b.cas == a.cas
         && if |bytes| <= cap && w.quarantineFault.Some? then end == Trouble(w.quarantineFault.value) && b.quarantine == a.quarantine
            else end == Refused(if |bytes| <= cap then |bytes| else 0) && QuarantineGained(a, b, i, |bytes|, cap)
  }

  /** Publication is durable before the catalogue gains a reference. */
  method LinkStaged(d: Database, ghost p: PlanItem, bytes: Bytes) returns (asset: nat)
    requires d.Valid() && !Disagree(d.hashes, p.declared, bytes)
    modifies d`db, d`log
    ensures d.Valid()
    ensures d.db == old(d.db).(assets := d.db.assets, locations := d.db.locations, cas := d.db.cas)
    ensures Published(d.hashes, d.db, p, asset) && StoredAs(d.db, asset, bytes)
    ensures BytesStored(d.hashes, old(d.db), d.db, bytes) && AssetGained(d.hashes, old(d.db), d.db, asset, bytes)
  {
    PublishStaged(d, bytes);
    ghost var m := d.db;
    asset := PersistAsset(d, bytes);
    LinkedPublished(d.hashes, m, p, asset, bytes);
  }

  method Publish(d: Database, i: nat, bytes: Bytes, w: StorageWorld) returns (end: PublicationEnd)
    requires d.Valid() && i in d.db.items && d.db.items[i].planItem in d.db.plan && !BytesDisagree(d.hashes, d.db, i, bytes)
    modifies d`db, d`log
    ensures d.Valid()
    ensures d.db == old(d.db).(assets := d.db.assets, locations := d.db.locations, cas := d.db.cas)
    ensures end.Linked? ==> Published(d.hashes, d.db, d.db.plan[d.db.items[i].planItem], end.asset) && StoredAs(d.db, end.asset, bytes)
    ensures if w.publishFault.Some? then end == Trouble(w.publishFault.value) else end.Linked? && end.exactOnly == w.exactOnly
    ensures w.inspectFault.None? ==>
              StoreWritten(d.hashes, d.db.plan[d.db.items[i].planItem].declared, old(d.db), d.db, i, bytes, w, 0, end)
    ensures Retained(d.db, d.db.items[i].run) == Retained(old(d.db), d.db.items[i].run)
  {
    hide Published;
    ghost var before := d.db;
    if w.publishFault.Some? {
      end := Trouble(w.publishFault.value);
      if w.linked { PublishStaged(d, bytes); }
    } else {
      var asset := LinkStaged(d, d.db.plan[d.db.items[i].planItem], bytes);
      end := Linked(asset, w.exactOnly);
    }
    SameHeld(before, d.db, d.db.items[i].run);
  }

  /** Whether a declared hash disagrees; the item's row gains the measured hashes. */
  method CompareStaged(d: Database, i: nat, bytes: Bytes, w: StorageWorld) returns (mismatch: bool)
    requires d.Valid() && i in d.db.items && d.db.items[i].state in UNFINISHED
    requires d.db.items[i].run in d.db.runs && d.db.runs[d.db.items[i].run].status == RunActive
    modifies d`db, d`log
    ensures d.Valid() && OnlyItem(old(d.db), d.db, i) && d.db == old(d.db).(items := d.db.items)
    ensures StillUnfinished(old(d.db).items[i], d.db.items[i])
    ensures d.db.items[i].sha256 == Some(d.hashes.sha256(bytes)) && d.db.items[i].md5 == Some(d.hashes.md5(bytes))
    ensures Retained(d.db, d.db.items[i].run) == Retained(old(d.db), d.db.items[i].run)
    ensures d.db.items[i].planItem in d.db.plan && (mismatch <==> BytesDisagree(d.hashes, d.db, i, bytes))
  {
    d.ItemHere(i);
    var sha, md5 := d.hashes.sha256(bytes), d.hashes.md5(bytes);
    var declared := d.db.plan[d.db.items[i].planItem].declared;
    var inspection := Inspection(sha, md5, |bytes|, w.mime, w.width, w.height, w.exactOnly);
    var comparisons := CompareDeclaredClaims(declared, inspection);
    MismatchExactly(declared, inspection);
    RecordHashes(d, i, sha, md5);
    mismatch := ExactMismatch(comparisons);
  }

  /** What a finished publication means, from the state before it to the state after. */
  ghost predicate PublicationOk(h: Hashes, a: Durable, b: Durable, i: nat, bytes: Bytes, end: PublicationEnd) {
    && b.ledger == a.ledger && b.attempts == a.attempts && OnlyItem(a, b, i) && i in a.items && StillUnfinished(a.items[i], b.items[i])
    && b.items[i].planItem in b.plan
    && Retained(b, b.items[i].run) == Retained(a, b.items[i].run) + (if end.Refused? then end.held else 0)
    && match end
       case Trouble(_) => true
       case Refused(_) => BytesDisagree(h, b, i, bytes) && b.assets == a.assets && b.locations == a.locations && b.cas == a.cas
       case Linked(asset, _) =>
         !BytesDisagree(h, b, i, bytes) && Published(h, b, b.plan[b.items[i].planItem], asset) && StoredAs(b, asset, bytes)
  }

  /** The item's row has the measured hashes, and nothing else is written. */
  ghost predicate Measured(h: Hashes, a: Durable, m: Durable, i: nat, bytes: Bytes) {
    && OnlyItem(a, m, i) && m == a.(items := m.items) && i in a.items && StillUnfinished(a.items[i], m.items[i])
    && m.items[i].sha256 == Some(h.sha256(bytes)) && m.items[i].md5 == Some(h.md5(bytes)) && m.items[i].planItem in m.plan
    && Retained(m, m.items[i].run) == Retained(a, m.items[i].run)
  }

  lemma RefusedOk(h: Hashes, a: Durable, m: Durable, b: Durable, i: nat, bytes: Bytes, held: nat)
    requires Measured(h, a, m, i, bytes) && BytesDisagree(h, m, i, bytes) && b == m.(quarantine := b.quarantine)
    requires Retained(b, b.items[i].run) == Retained(m, b.items[i].run) + held
    ensures PublicationOk(h, a, b, i, bytes, Refused(held))
  {
  }

  lemma OfferedOk(h: Hashes, a: Durable, m: Durable, b: Durable, i: nat, bytes: Bytes, end: PublicationEnd)
    requires Measured(h, a, m, i, bytes) && !BytesDisagree(h, m, i, bytes) && !end.Refused?
    requires b == m.(assets := b.assets, locations := b.locations, cas := b.cas)
    requires Retained(b, b.items[i].run) == Retained(m, b.items[i].run)
    requires end.Linked? ==> Published(h, b, b.plan[b.items[i].planItem], end.asset) && StoredAs(b, end.asset, bytes)
    ensures PublicationOk(h, a, b, i, bytes, end)
  {
  }

  /** What follows the comparison. */
  method SettleMeasured(d: Database, ghost a: Durable, i: nat, bytes: Bytes, w: StorageWorld, maxHeld: nat,
                        mismatch: bool) returns (end: PublicationEnd)
    requires d.Valid() && Measured(d.hashes, a, d.db, i, bytes) && (mismatch <==> BytesDisagree(d.hashes, d.db, i, bytes))
    requires d.db.items[i].run in d.db.runs && w.inspectFault.None?
    requires Retained(d.db, d.db.items[i].run) + maxHeld <= d.db.runs[d.db.items[i].run].maxQuarantine
    modifies d`db, d`log
    ensures d.Valid()
    ensures PublicationOk(d.hashes, a, d.db, i, bytes, end)
    ensures EndsAs(d.hashes, d.db.plan[d.db.items[i].planItem], bytes, w, maxHeld, end)
    ensures d.db.items == old(d.db).items
    ensures StoreWritten(d.hashes, d.db.plan[d.db.items[i].planItem].declared, old(d.db), d.db, i, bytes, w, maxHeld, end)
  {
    ghost var m := d.db;
    if mismatch {
      if w.quarantineFault.Some? && |bytes| <= maxHeld { return Trouble(w.quarantineFault.value); }
      var held := Quarantine(d, i, |bytes|, maxHeld);
      end := Refused(held);
      RefusedOk(d.hashes, a, m, d.db, i, bytes, held);
    } else {
      end := Publish(d, i, bytes, w);
      OfferedOk(d.hashes, a, m, d.db, i, bytes, end);
    }
  }

  /** verify_publish_and_persist. */
  method VerifyPublishAndPersist(d: Database, i: nat, bytes: Bytes, w: StorageWorld, maxHeld: nat) returns (end: PublicationEnd)
    requires d.Valid() && i in d.db.items && d.db.items[i].state in UNFINISHED
    requires d.db.items[i].run in d.db.runs && d.db.runs[d.db.items[i].run].status == RunActive
    requires Retained(d.db, d.db.items[i].run) + maxHeld <= d.db.runs[d.db.items[i].run].maxQuarantine
    modifies d`db, d`log
    ensures d.Valid()
    ensures PublicationOk(d.hashes, old(d.db), d.db, i, bytes, end)
    ensures EndsAs(d.hashes, d.db.plan[d.db.items[i].planItem], bytes, w, maxHeld, end)
    ensures HashesLeft(d.hashes, old(d.db).items[i], d.db.items[i], bytes, w)
    ensures StoreWritten(d.hashes, d.db.plan[d.db.items[i].planItem].declared, old(d.db), d.db, i, bytes, w, maxHeld, end)
  {
    d.ItemHere(i);
    ghost var a := d.db;
    if w.inspectFault.Some? { return Trouble(w.inspectFault.value); }
    var mismatch := CompareStaged(d, i, bytes, w);
    end := SettleMeasured(d, a, i, bytes, w, maxHeld, mismatch);
  }
}
