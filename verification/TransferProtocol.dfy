/** Pure parts of the resumable HTTP transfer: validators, response checks, the
    choice of what survives a failed attempt, and what it means for a server
    and for a partial download to be honest. */
module TransferProtocol {

  import opened Basics

  newtype Byte = b: int | 0 <= b < 256
  type Bytes = seq<Byte>

  datatype Outcome =
    | Downloaded | TransientProvider | TimedOut | RateLimited | SourceChanged | BudgetExhausted | Cancelled
    | PolicyFailure | AuthenticationRequired | AuthorizationDenied | Unavailable | InvalidContent
    | ResponseTooLarge | StorageFailure(category: string) | ProcessEnded

  datatype Failure = Failure(outcome: Outcome, retryable: bool)

  /** What the transport, the storage or the credentials may raise. */
  datatype Fault =
    | TransportTimeout | TransportError | RedirectRefused | NoCredentials
    | StorageError(category: string) | OsError

  /** The except clauses around one attempt. */
  function Caught(f: Fault): Failure {
    match f
    case TransportTimeout => Failure(TimedOut, true)
    case TransportError => Failure(TransientProvider, true)
    case RedirectRefused => Failure(PolicyFailure, false)
    case NoCredentials => Failure(AuthenticationRequired, false)
    case StorageError(category) => Failure(StorageFailure(category), false)
    case OsError => Failure(StorageFailure("storage_failure"), false)
  }

  // ----- responses -----

  datatype LengthHeader = NoLength | BadLength | Length(value: nat)
  datatype RangeHeader = NoRange | Range(first: nat, last: nat, total: Option<nat>)
  /** What iterating over the body yields; a write may also fail. */
  datatype BodyEvent = Data(bytes: Bytes, writeFault: Option<Fault>) | Broken(fault: Fault)

  datatype Response = Response(
    status: nat, etag: Option<string>, length: LengthHeader, range: RangeHeader,
    accepted: bool, retryAfter: Option<real>, body: seq<BodyEvent>)

  predicate StrongEtag(value: Option<string>) {
    && value.Some? && |value.value| >= 2
    && value.value[0] == '"' && value.value[|value.value| - 1] == '"'
  }

  function ClassifyStatus(status: nat): Option<Failure> {
    if status == 401 then Some(Failure(AuthenticationRequired, false))
    else if status == 403 then Some(Failure(AuthorizationDenied, false))
    else if status == 404 || status == 410 then Some(Failure(Unavailable, false))
    else if status == 429 then Some(Failure(RateLimited, true))
    else if status == 408 || status == 425 || 500 <= status <= 599 then Some(Failure(TransientProvider, true))
    else if 200 <= status <= 299 then None
    else Some(Failure(InvalidContent, false))
  }

  datatype Checked<+T> = Good(value: T) | Bad(failure: Failure)

  function ContentLength(r: Response): Checked<Option<nat>> {
    match r.length
    case NoLength => Good(None)
    case BadLength => Bad(Failure(InvalidContent, false))
    case Length(n) => Good(Some(n))
  }

  /** The total size a 206 announces, if it continues exactly at the offset. */
  function ResumeResponseSize(r: Response, offset: nat): Checked<nat> {
    var changed := Failure(SourceChanged, false);
    match r.range
    case NoRange => Bad(changed)
    case Range(first, last, total) =>
      if first != offset || last < first || total.None? || total.value != last + 1 then Bad(changed)
      else match ContentLength(r)
           case Bad(failure) => Bad(failure)
           case Good(length) =>
             if length.Some? && length.value != last - first + 1 then Bad(changed) else Good(total.value)
  }

  // ----- partial downloads -----

  /** A staging file that was closed for a later attempt; `name` is its file
      name, drawn at random when it was created and never drawn again. */
  datatype Partial = Partial(name: nat, identity: string, bytes: Bytes)
  datatype ResumeState = ResumeState(partial: Partial, etag: string, size: Option<nat>)

  /** The checks a response to a resumed request must pass before its bytes are
      appended to the partial or replace it. */
  datatype Admission = Append(total: nat) | Restart(size: Option<nat>) | Refuse(failure: Failure, announced: Option<nat>)

  function AdmitResumed(r: Response, active: ResumeState): Admission {
    if r.status == 206 then
      if r.etag != Some(active.etag) then Refuse(Failure(SourceChanged, false), None)
      else match ResumeResponseSize(r, |active.partial.bytes|)
           case Bad(failure) => Refuse(failure, None)
           case Good(size) =>
             if active.size.Some? && active.size.value != size then Refuse(Failure(SourceChanged, false), Some(size)) else Append(size)
    else if r.status == 200 then
      match ContentLength(r)
      case Bad(failure) => Refuse(failure, None)
      case Good(size) => Restart(size)
    else Refuse(Failure(SourceChanged, false), None)
  }

  /** An open staging file. */
  datatype Session = Session(name: nat, bytes: Bytes)

  /** What an attempt left behind: its session, the resume it continued (none
      once a 200 restarted it), and the last response's validator. */
  datatype Leftover = Leftover(session: Option<Session>, active: Option<ResumeState>, etag: Option<string>, size: Option<nat>)

  datatype Salvaged = Discarded | Kept(resume: ResumeState) | Raised

  /** The ETag of the interrupted download stands in for a missing or weak one. */
  predicate Inherits(left: Leftover) {
    left.active.Some? && !StrongEtag(left.etag)
  }

  /** After a failure: keep the staged bytes as a resume, or discard them. The
      ResumeState constructor raises when the announced size is too small. */
  function Salvage(left: Leftover, identity: string, retryable: bool): Salvaged {
    if left.session.None? then Discarded
    else
      var file := left.session.value;
      var etag := if Inherits(left) then Some(left.active.value.etag) else left.etag;
      var size := if Inherits(left) then left.active.value.size else left.size;
      if !(retryable && |file.bytes| > 0 && StrongEtag(etag)) then Discarded
      else if size.Some? && size.value < |file.bytes| then Raised
      else Kept(ResumeState(Partial(file.name, identity, file.bytes), etag.value, size))
  }

  // ----- honesty -----

  /** Which byte string a strong ETag names, per requested resource. */
  type Naming = (string, string) -> Bytes

  function BodyBytes(body: seq<BodyEvent>): Bytes {
    if body == [] then []
    else (if body[0].Data? then body[0].bytes else []) + BodyBytes(body[1..])
  }

  /** The response sends (a beginning of) the one representation `whole`:
      RFC 9110 sections 8.8.3, 14.4 and 15.3.7. */
  ghost predicate Serves(named: Naming, identity: string, r: Response, whole: Bytes) {
    && (StrongEtag(r.etag) ==> whole == named(identity, r.etag.value))
    && (r.status == 200 ==> BodyBytes(r.body) <= whole && (r.length.Length? ==> r.length.value == |whole|))
    && (r.status == 206 && r.range.Range? && r.range.first <= r.range.last ==>
          && r.range.last < |whole|
          && (r.range.total.Some? ==> r.range.total.value == |whole|)
          && BodyBytes(r.body) <= whole[r.range.first..r.range.last + 1])
  }

  ghost predicate Honest(named: Naming, identity: string, r: Response) {
    exists whole :: Serves(named, identity, r, whole)
  }

  /** A resume holds a non-empty beginning of the representation its ETag
      names. */
  ghost predicate HonestResume(named: Naming, resume: ResumeState) {
    && ConstructedResume(resume) && |resume.partial.bytes| > 0
    && resume.partial.bytes <= named(resume.partial.identity, resume.etag)
  }

  /** The size it announces, if any, is that representation's. */
  ghost predicate HonestSize(named: Naming, resume: ResumeState) {
    resume.size.Some? ==> resume.size.value == |named(resume.partial.identity, resume.etag)|
  }

  /** What the ResumeState constructor enforces. */
  predicate ConstructedResume(resume: ResumeState) {
    StrongEtag(Some(resume.etag)) && (resume.size.Some? ==> resume.size.value >= |resume.partial.bytes|)
  }

  /** The leftover of an attempt is a beginning of a single representation. */
  ghost predicate HonestLeftover(named: Naming, identity: string, left: Leftover, retryable: bool) {
    left.session.Some? ==>
      match left.active
      case Some(active) =>
        && HonestResume(named, active) && active.partial.identity == identity
        && left.session.value.bytes <= named(identity, active.etag)
        && (left.size.Some? ==> left.size.value == |named(identity, active.etag)|)
        && (Inherits(left) ==> left.session.value.bytes == active.partial.bytes)
        && (retryable && StrongEtag(left.etag) ==> left.etag == Some(active.etag))
      case None =>
        left.session.value.bytes != [] ==>
          exists whole :: BeginsOne(named, identity, left, whole)
  }

  ghost predicate BeginsOne(named: Naming, identity: string, left: Leftover, whole: Bytes)
    requires left.session.Some?
  {
    && left.session.value.bytes <= whole
    && (left.size.Some? ==> left.size.value == |whole|)
    && (StrongEtag(left.etag) ==> whole == named(identity, left.etag.value))
  }

  /** An honest leftover never makes the ResumeState constructor raise, and what
      is kept of it is honest; a size that was honest before stays so. */
  lemma SalvageHonest(named: Naming, identity: string, left: Leftover, retryable: bool)
    requires HonestLeftover(named, identity, left, retryable)
    ensures var s := Salvage(left, identity, retryable);
      && !s.Raised?
      && (s.Kept? ==> HonestResume(named, s.resume) && s.resume.partial.identity == identity)
      && (s.Kept? && (left.active.Some? ==> HonestSize(named, left.active.value)) ==> HonestSize(named, s.resume))
  {
    if left.session.Some? && left.active.None? && left.session.value.bytes != [] {
      var whole :| BeginsOne(named, identity, left, whole);
    }
  }

  // ----- the one way a resume loses its representation -----

  /** A retryable error response whose own strong ETag differs from the ETag of
      the download it interrupted. */
  predicate Relabels(r: Response, active: ResumeState) {
    && ClassifyStatus(r.status).Some? && ClassifyStatus(r.status).value.retryable
    && StrongEtag(r.etag) && r.etag != Some(active.etag)
  }

  function AfterErrorStatus(r: Response, active: ResumeState): Salvaged
    requires ClassifyStatus(r.status).Some?
  {
    Salvage(Leftover(Some(Session(active.partial.name, active.partial.bytes)), Some(active), r.etag, None),
            active.partial.identity, ClassifyStatus(r.status).value.retryable)
  }

  ghost predicate KeepsHonest(named: Naming, r: Response, active: ResumeState)
    requires ClassifyStatus(r.status).Some?
  {
    var s := AfterErrorStatus(r, active);
    s.Kept? ==> HonestResume(named, s.resume)
  }

  /** A representation the resume could be the beginning of. */
  function Completion(resume: ResumeState): (whole: Bytes)
    requires ConstructedResume(resume)
    ensures resume.partial.bytes <= whole && (resume.size.Some? ==> |whole| == resume.size.value)
  {
    if resume.size.None? then resume.partial.bytes
    else resume.partial.bytes + seq(resume.size.value - |resume.partial.bytes|, _ => 0)
  }

  /** An error response keeps a resume honest, whatever its ETags name, exactly
      when the response does not relabel it. */
  lemma RelabelExactly(r: Response, active: ResumeState)
    requires ClassifyStatus(r.status).Some? && |active.partial.bytes| > 0 && ConstructedResume(active)
    ensures (forall named: Naming | HonestResume(named, active) :: KeepsHonest(named, r, active)) <==> !Relabels(r, active)
  {
    if Relabels(r, active) {
      var named: Naming := (identity, etag) => if etag == active.etag then Completion(active) else [];
      assert HonestResume(named, active);
      assert !KeepsHonest(named, r, active);
    }
  }

  /** A relabelled resume is then completed into a file that is not the
      representation: an honest 206 for the new ETag passes every check and
      adds up to the announced size. */
  lemma RelabelledResumeSplices(named: Naming, r: Response, active: ResumeState, next: Response)
    requires HonestResume(named, active) && Relabels(r, active)
    requires var bytes, whole := active.partial.bytes, named(active.partial.identity, r.etag.value);
      && !(bytes <= whole) && |bytes| < |whole|
      && next == Response(206, r.etag, NoLength, Range(|bytes|, |whole| - 1, Some(|whole|)), true, None, [Data(whole[|bytes|..], None)])
    ensures Honest(named, active.partial.identity, next)
    ensures var kept := AfterErrorStatus(r, active);
      && kept.Kept? && AdmitResumed(next, kept.resume).Append?
      && var spliced := kept.resume.partial.bytes + BodyBytes(next.body);
         |spliced| == AdmitResumed(next, kept.resume).total && spliced != named(active.partial.identity, r.etag.value)
  {
    var bytes, whole := active.partial.bytes, named(active.partial.identity, r.etag.value);
    assert BodyBytes(next.body) == whole[|bytes|..] + BodyBytes(next.body[1..]);
    assert whole[|bytes|..|whole|] == whole[|bytes|..];
    assert Serves(named, active.partial.identity, next, whole);
    var spliced := bytes + whole[|bytes|..];
    assert spliced[..|bytes|] == bytes;
  }
}
