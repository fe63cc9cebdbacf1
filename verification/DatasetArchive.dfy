/**
 The zip of one dataset: uploads reserved, adopted and discarded by conditional updates that compete on
 the dataset's record, imports and scans fenced by the delivery they were queued under, and the deletes in
 file storage that follow. Every step is one update of the record or one delete, by any number of requests
 and workers.
 */
module DatasetArchive {
  import opened Common
  import opened Machine

  /** A reservation for an upload. */
  datatype Upload = Upload(file: nat, discarding: bool)

  datatype Status = Queued | Running | Done | Failed | Cancelled

  /** An import of one archive. `delivery` is absent until it is first resumed. */
  datatype Import = Import(id: nat, status: Status, archive: nat, delivery: Option<nat>, processed: nat)
  {
    predicate Active() { status == Queued || status == Running }
  }

  /** The reading of an archive's index; scans older than scan ids have none. */
  datatype Scan = Scan(file: nat, id: Option<nat>, status: Status)

  /** The record. `contents` names the file whose index it holds. */
  datatype Record = Record(
    live: bool, holds: nat, archive: Option<nat>, pending: Option<Upload>, work: Option<Import>,
    scan: Option<Scan>, contents: Option<nat>)

  /** The identity a worker's writes are fenced by. */
  datatype Fence = Fence(id: nat, delivery: Option<nat>)

  datatype Proc =
    | Creating(base: Record, same: bool)
    | Discarding(base: Record)
    | Claimed(file: nat)             // a discard has claimed this upload
    | Emptied(file: nat)             // its bytes are deleted
    | Completing(base: Record)
    | Dropping(file: nat)            // an adopted or reserved file has replaced this one
    | Starting(base: Record)
    | Resuming(base: Record)
    | Cancelling(base: Record)
    | Rescanning(base: Record)
    | Importing(fence: Fence)
    | Scanning(file: nat, id: Option<nat>)

  /** New file, import, delivery and scan ids are numbers not used before. `deleted` are the files deleted from storage; `fences` is history. */
  datatype Database = Database(doc: Record, deleted: set<nat>, counter: nat, fences: set<Fence>)

  datatype World = World(db: Database, procs: map<Id, Proc>)

  datatype Step =
    | BeginCreate(p: Id, same: bool)
    | Extend(p: Id)
    | ReserveFile(p: Id)
    | BeginDiscard(p: Id)
    | ClaimDiscard(p: Id)
    | DeleteBytes(p: Id)
    | ClearPending(p: Id)
    | BeginComplete(p: Id)
    | Adopt(p: Id)
    | BeginStart(p: Id)
    | StartImport(p: Id)
    | BeginResume(p: Id)
    | ResumeImport(p: Id)
    | BeginCancel(p: Id)
    | CancelImport(p: Id)
    | BeginRescan(p: Id)
    | QueueScan(p: Id)
    | TakeJob(p: Id, fence: Fence)
    | WriteRunning(p: Id)
    | WriteProgress(p: Id, processed: nat)
    | WriteOutcome(p: Id, failed: bool)
    | WriteFailed(p: Id)
    | TakeScan(p: Id, file: nat, id: Option<nat>)
    | ScanRunning(p: Id)
    | ScanDone(p: Id)
    | ScanFailed(p: Id)
    | Hold
    | Release
    | Trash
    | Restore
    | Crash(p: Id)

  // ---------------------------------------------------------------- the conditions

  predicate Importable(doc: Record) {
    doc.work == None || !doc.work.value.Active()
  }

  function FileOf(upload: Option<Upload>): Option<nat> {
    if upload.Some? then Some(upload.value.file) else None
  }

  /** `archiveMutation`: nobody holds or imports the dataset, and its archive and upload are those the request read. */
  predicate Unchanged(doc: Record, base: Record) {
    && doc.live && doc.holds == 0 && Importable(doc)
    && FileOf(doc.pending) == FileOf(base.pending) && (doc.pending.Some? ==> !doc.pending.value.discarding)
    && doc.archive == base.archive
  }

  /** What a request to upload refuses before touching the record. */
  predicate MayReplace(base: Record) {
    base.holds == 0 && Importable(base) && (base.pending.Some? ==> !base.pending.value.discarding)
  }

  predicate Fenced(doc: Record, fence: Fence) {
    doc.work.Some? && Fence(doc.work.value.id, doc.work.value.delivery) == fence
  }

  predicate ScanFenced(doc: Record, file: nat, id: Option<nat>) {
    doc.scan.Some? && doc.scan.value.file == file && doc.scan.value.id == id
  }

  // ---------------------------------------------------------------- the calls

  /** A new reservation. */
  function Reserve(db: Database): Database {
    db.(doc := db.doc.(pending := Some(Upload(db.counter, false))), counter := db.counter + 1)
  }

  predicate Claimable(doc: Record, base: Record) {
    base.pending.Some? && doc.live && FileOf(doc.pending) == FileOf(base.pending) && doc.archive == base.archive
  }

  function Claim(db: Database): Database
    requires db.doc.pending.Some?
  {
    db.(doc := db.doc.(pending := Some(db.doc.pending.value.(discarding := true))))
  }

  function Delete(db: Database, file: nat): Database {
    db.(deleted := db.deleted + {file})
  }

  function Clear(db: Database, file: nat): Database {
    if db.doc.pending == Some(Upload(file, true)) then db.(doc := db.doc.(pending := None)) else db
  }

  /** The upload becomes the archive, with a scan of its own and no contents yet. */
  function AdoptUpload(db: Database, file: nat): Database {
    db.(doc := db.doc.(archive := Some(file), pending := None, contents := None, scan := Some(Scan(file, Some(db.counter), Queued))),
        counter := db.counter + 1)
  }

  /** The record's import is the one read: same id, status and delivery, or still none. */
  predicate SameWork(doc: Record, base: Record) {
    if base.work == None then doc.work == None
    else
      doc.work.Some? && doc.work.value.id == base.work.value.id && doc.work.value.status == base.work.value.status
        && doc.work.value.delivery == base.work.value.delivery
  }

  predicate Startable(doc: Record, base: Record) {
    && base.archive.Some? && base.holds == 0 && Importable(base)
    && doc.live && doc.holds == 0 && doc.archive == base.archive && SameWork(doc, base)
  }

  function Start(db: Database, archive: nat): Database {
    db.(doc := db.doc.(work := Some(Import(db.counter, Queued, archive, None, 0))),
        counter := db.counter + 1, fences := db.fences + {Fence(db.counter, None)})
  }

  predicate Resumable(doc: Record, base: Record) {
    && base.work.Some? && base.holds == 0 && (base.work.value.status == Cancelled || base.work.value.status == Failed)
    && base.archive == Some(base.work.value.archive)
    && doc.live && doc.holds == 0 && SameWork(doc, base) && doc.archive == Some(base.work.value.archive)
  }

  /** The same import queued again under a new delivery. */
  function Resume(db: Database): Database
    requires db.doc.work.Some?
  {
    var work := db.doc.work.value;
    db.(doc := db.doc.(work := Some(work.(status := Queued, delivery := Some(db.counter)))),
        counter := db.counter + 1, fences := db.fences + {Fence(work.id, Some(db.counter))})
  }

  predicate Stoppable(doc: Record, base: Record) {
    && base.work.Some? && base.work.value.Active() && Fenced(doc, Fence(base.work.value.id, base.work.value.delivery))
    && doc.work.value.Active()
  }

  function Stop(db: Database): Database
    requires db.doc.work.Some?
  {
    db.(doc := db.doc.(work := Some(db.doc.work.value.(status := Cancelled))))
  }

  /** A new scan of the archive there is. */
  function Rescan(db: Database, archive: nat): Database {
    db.(doc := db.doc.(scan := Some(Scan(archive, Some(db.counter), Queued))), counter := db.counter + 1)
  }

  /** A worker's writes to the import it was given, each only through its fence. */
  function Written(doc: Record, st: Step, fence: Fence): Record {
    if !Fenced(doc, fence) then doc
    else
      var work := doc.work.value;
      match st
      case WriteRunning(_) => if work.Active() then doc.(work := Some(work.(status := Running))) else doc
      case WriteProgress(_, processed) => if work.status == Running then doc.(work := Some(work.(processed := processed))) else doc
      case WriteOutcome(_, failed) =>
        if work.status == Running then doc.(work := Some(work.(status := if failed then Failed else Done))) else doc
      case WriteFailed(_) => if work.Active() then doc.(work := Some(work.(status := Failed))) else doc
      case _ => doc
  }

  /** A worker's writes to the scan it was given; a finished one brings the contents of its file. */
  function ScanWritten(doc: Record, st: Step, file: nat, id: Option<nat>): Record {
    if !ScanFenced(doc, file, id) then doc
    else
      var scan := doc.scan.value;
      match st
      case ScanRunning(_) =>
        if scan.status == Queued || scan.status == Running then doc.(scan := Some(scan.(status := Running))) else doc
      case ScanDone(_) => if scan.status == Running then doc.(scan := Some(scan.(status := Done)), contents := Some(file)) else doc
      case ScanFailed(_) =>
        if scan.status == Queued || scan.status == Running then doc.(scan := Some(scan.(status := Failed))) else doc
      case _ => doc
  }

  /** The file deleted once another has taken its place, if there was one. */
  function DropNext(file: Option<nat>): Option<Proc> {
    if file.Some? then Some(Dropping(file.value)) else None
  }

  /** The database after the step of a process that stands at `proc`, and where it stands then; `None` when it is over. */
  function Moved(db: Database, st: Step, proc: Proc): (Database, Option<Proc>) {
    match proc
    case Creating(base, same) =>
      if st.Extend? && same then (db, None)
      else if !st.ReserveFile? then (db, Some(proc))
      else if !MayReplace(base) || !Unchanged(db.doc, base) then (db, None)
      else (Reserve(db), DropNext(FileOf(base.pending)))
    case Discarding(base) =>
      if !st.ClaimDiscard? then (db, Some(proc))
      else if Claimable(db.doc, base) then (Claim(db), Some(Claimed(base.pending.value.file)))
      else (db, None)
    case Claimed(file) => if st.DeleteBytes? then (Delete(db, file), Some(Emptied(file))) else (db, Some(proc))
    case Emptied(file) => if st.ClearPending? then (Clear(db, file), None) else (db, Some(proc))
    case Completing(base) =>
      if !st.Adopt? then (db, Some(proc))
      else if base.pending == None || !MayReplace(base) || !Unchanged(db.doc, base) then (db, None)
      else
        (AdoptUpload(db, base.pending.value.file),
         DropNext(if base.archive == Some(base.pending.value.file) then None else base.archive))
    case Dropping(file) => if st.DeleteBytes? then (Delete(db, file), None) else (db, Some(proc))
    case Starting(base) =>
      if !st.StartImport? then (db, Some(proc)) else (if Startable(db.doc, base) then Start(db, base.archive.value) else db, None)
    case Resuming(base) =>
      if !st.ResumeImport? then (db, Some(proc)) else (if Resumable(db.doc, base) then Resume(db) else db, None)
    case Cancelling(base) =>
      if !st.CancelImport? then (db, Some(proc)) else (if Stoppable(db.doc, base) then Stop(db) else db, None)
    case Rescanning(base) =>
      if !st.QueueScan? then (db, Some(proc))
      else (if base.archive.Some? && db.doc.live && db.doc.archive == base.archive then Rescan(db, base.archive.value) else db, None)
    case Importing(fence) => (db.(doc := Written(db.doc, st, fence)), Some(proc))
    case Scanning(file, id) => (db.(doc := ScanWritten(db.doc, st, file, id)), Some(proc))
  }

  /** What the other services and the trash do to the record. */
  function Elsewhere(doc: Record, st: Step): Record {
    match st
    case Hold => if doc.live && Importable(doc) then doc.(holds := doc.holds + 1) else doc
    case Release => if doc.holds > 0 then doc.(holds := doc.holds - 1) else doc
    case Trash =>
      if doc.holds != 0 then doc
      else if Importable(doc) then doc.(live := false)
      else doc.(live := false, work := Some(doc.work.value.(status := Cancelled)))
    case Restore => doc.(live := true)
    case _ => doc
  }

  predicate IsElsewhere(st: Step) {
    st.Hold? || st.Release? || st.Trash? || st.Restore?
  }

  function Begun(db: Database, st: Step): Option<Proc> {
    match st
    case BeginCreate(_, same) => Some(Creating(db.doc, same))
    case BeginDiscard(_) => Some(Discarding(db.doc))
    case BeginComplete(_) => Some(Completing(db.doc))
    case BeginStart(_) => Some(Starting(db.doc))
    case BeginResume(_) => Some(Resuming(db.doc))
    case BeginCancel(_) => Some(Cancelling(db.doc))
    case BeginRescan(_) => Some(Rescanning(db.doc))
    case TakeJob(_, fence) => if fence in db.fences then Some(Importing(fence)) else None
    case TakeScan(_, file, id) => Some(Scanning(file, id))
    case _ => None
  }

  function Placed(procs: map<Id, Proc>, p: Id, proc: Option<Proc>): map<Id, Proc> {
    if proc.Some? then procs[p := proc.value] else procs - {p}
  }

  /** A step whose process is not at that point changes nothing. */
  function Next(w: World, st: Step): World {
    if IsElsewhere(st) then w.(db := w.db.(doc := Elsewhere(w.db.doc, st)))
    else if st.p !in w.procs then w.(procs := Placed(w.procs, st.p, Begun(w.db, st)))
    else if st.Crash? then w.(procs := w.procs - {st.p})
    else
      var moved := Moved(w.db, st, w.procs[st.p]);
      World(moved.0, Placed(w.procs, st.p, moved.1))
  }

  /** A dataset just created, or one brought over with its archive. */
  ghost predicate Initial(w: World) {
    var doc := w.db.doc;
    && w.procs == map[] && w.db.deleted == {} && w.db.fences == {}
    && doc.holds == 0 && doc.pending == None && doc.work == None && doc.scan == None && doc.contents == None
    && (doc.archive.Some? ==> doc.archive.value < w.db.counter)
  }

  // ---------------------------------------------------------------- what every step keeps

  /** File f is neither the archive nor an upload that may still become it, and no id to come names it. */
  predicate Gone(db: Database, f: nat) {
    && f < db.counter && db.doc.archive != Some(f)
    && (FileOf(db.doc.pending) == Some(f) ==> db.doc.pending.value.discarding)
  }

  /** The files of a record were handed out before, and its upload is not its archive. */
  predicate Known(doc: Record, counter: nat) {
    && (doc.archive.Some? ==> doc.archive.value < counter) && (doc.pending.Some? ==> doc.pending.value.file < counter)
    && (doc.archive.Some? && doc.pending.Some? ==> doc.archive.value != doc.pending.value.file)
  }

  predicate Issued(fence: Fence, counter: nat) {
    fence.id < counter && (fence.delivery.Some? ==> fence.delivery.value < counter)
  }

  ghost predicate Knows(db: Database, proc: Proc) {
    match proc
    case Creating(base, _) => Known(base, db.counter)
    case Discarding(base) => Known(base, db.counter)
    case Completing(base) => Known(base, db.counter)
    case Claimed(file) => Gone(db, file)
    case Emptied(file) => Gone(db, file)
    case Dropping(file) => Gone(db, file)
    case Resuming(base) => base.work.Some? ==> Bound(db, base.work.value.id, base.work.value.archive)
    case Importing(fence) => fence in db.fences
    case _ => true
  }

  /** The import of this id, while it is the record's, is of this archive. */
  predicate Bound(db: Database, id: nat, archive: nat) {
    id < db.counter && (db.doc.work.Some? && db.doc.work.value.id == id ==> db.doc.work.value.archive == archive)
  }

  /** An active import names the archive; the scan and the contents are the archive's. */
  predicate WorkMatches(doc: Record) {
    && (doc.work.Some? && doc.work.value.Active() ==> doc.archive == Some(doc.work.value.archive))
    && (doc.scan.Some? ==> doc.archive == Some(doc.scan.value.file))
    && (doc.contents.Some? ==> doc.archive == doc.contents)
  }

  ghost predicate Sane(db: Database) {
    && Known(db.doc, db.counter) && WorkMatches(db.doc)
    && (forall f | f in db.deleted :: Gone(db, f))
    && (forall fence | fence in db.fences :: Issued(fence, db.counter))
    && (db.doc.work.Some? ==> Fence(db.doc.work.value.id, db.doc.work.value.delivery) in db.fences)
  }

  ghost predicate Inv(w: World) {
    Sane(w.db) && forall p | p in w.procs :: Knows(w.db, w.procs[p])
  }

  /** A fence that was issued and is not the import's now. */
  predicate Outdated(db: Database, fence: Fence) {
    fence in db.fences && !Fenced(db.doc, fence)
  }

  /** Ids only move on, what was gone stays gone, and a fence once outdated stays so. */
  ghost predicate Grows(a: Database, b: Database) {
    && a.counter <= b.counter && a.fences <= b.fences && a.deleted <= b.deleted
    && (forall f | Gone(a, f) :: Gone(b, f))
    && (forall fence | Outdated(a, fence) :: Outdated(b, fence))
    && (forall id, archive | Bound(a, id, archive) :: Bound(b, id, archive))
  }

  lemma GrowsItself(db: Database)
    ensures Grows(db, db)
  {
  }

  lemma KnowsKept(a: Database, b: Database, proc: Proc)
    requires Grows(a, b) && Knows(a, proc)
    ensures Knows(b, proc)
  {
  }

  lemma ReserveKept(db: Database)
    requires Sane(db)
    ensures Sane(Reserve(db)) && Grows(db, Reserve(db))
    ensures db.doc.pending.Some? ==> Gone(Reserve(db), db.doc.pending.value.file)
  {
  }

  lemma ClaimKept(db: Database)
    requires Sane(db) && db.doc.pending.Some?
    ensures Sane(Claim(db)) && Grows(db, Claim(db)) && Gone(Claim(db), db.doc.pending.value.file)
  {
  }

  lemma DeleteKept(db: Database, file: nat)
    requires Sane(db) && Gone(db, file)
    ensures Sane(Delete(db, file)) && Grows(db, Delete(db, file)) && Gone(Delete(db, file), file)
  {
  }

  lemma ClearKept(db: Database, file: nat)
    requires Sane(db)
    ensures Sane(Clear(db, file)) && Grows(db, Clear(db, file))
  {
  }

  lemma AdoptKept(db: Database, file: nat)
    requires Sane(db) && db.doc.pending == Some(Upload(file, false)) && Importable(db.doc)
    ensures Sane(AdoptUpload(db, file)) && Grows(db, AdoptUpload(db, file))
    ensures db.doc.archive.Some? ==> Gone(AdoptUpload(db, file), db.doc.archive.value)
  {
  }

  lemma StartKept(db: Database, archive: nat)
    requires Sane(db) && db.doc.archive == Some(archive)
    ensures Sane(Start(db, archive)) && Grows(db, Start(db, archive))
  {
  }

  lemma ResumeKept(db: Database)
    requires Sane(db) && db.doc.work.Some? && db.doc.archive == Some(db.doc.work.value.archive)
    ensures Sane(Resume(db)) && Grows(db, Resume(db))
  {
  }

  lemma StopKept(db: Database)
    requires Sane(db) && db.doc.work.Some?
    ensures Sane(Stop(db)) && Grows(db, Stop(db))
  {
  }

  lemma RescanKept(db: Database, archive: nat)
    requires Sane(db) && db.doc.archive == Some(archive)
    ensures Sane(Rescan(db, archive)) && Grows(db, Rescan(db, archive))
  {
  }

  lemma WrittenKept(db: Database, st: Step, fence: Fence)
    requires Sane(db)
    ensures Sane(db.(doc := Written(db.doc, st, fence))) && Grows(db, db.(doc := Written(db.doc, st, fence)))
  {
  }

  /** Only the import's status and progress differ, and it is not made active. */
  predicate SameIdentity(a: Record, b: Record) {
    && b == a.(work := b.work) && (b.work.Some? <==> a.work.Some?)
    && (b.work.Some? ==>
          && b.work.value.id == a.work.value.id && b.work.value.delivery == a.work.value.delivery
          && b.work.value.archive == a.work.value.archive && (b.work.value.Active() ==> a.work.value.Active()))
  }

  lemma WriteKeepsIdentity(doc: Record, st: Step, fence: Fence)
    ensures SameIdentity(doc, Written(doc, st, fence))
  {
  }

  lemma ScanWrittenKept(db: Database, st: Step, file: nat, id: Option<nat>)
    requires Sane(db)
    ensures Sane(db.(doc := ScanWritten(db.doc, st, file, id))) && Grows(db, db.(doc := ScanWritten(db.doc, st, file, id)))
  {
  }

  lemma ElsewhereKept(db: Database, st: Step)
    requires Sane(db)
    ensures Sane(db.(doc := Elsewhere(db.doc, st))) && Grows(db, db.(doc := Elsewhere(db.doc, st)))
  {
  }

  /** A process's own call: the record is kept, and it knows what its new place requires. */
  lemma MovedKept(db: Database, st: Step, proc: Proc)
    requires Sane(db) && Knows(db, proc)
    ensures var moved := Moved(db, st, proc);
      Sane(moved.0) && Grows(db, moved.0) && (moved.1.Some? ==> Knows(moved.0, moved.1.value))
  {
    hide Sane, Grows, Reserve, Claim, Delete, Clear, AdoptUpload, Start, Resume, Stop, Rescan, Written, ScanWritten, Gone, Known;
    GrowsItself(db);
    match proc {
      case Creating(base, _) => if st.ReserveFile? { ReserveKept(db); }
      case Discarding(base) => if st.ClaimDiscard? && Claimable(db.doc, base) { ClaimKept(db); }
      case Claimed(file) => if st.DeleteBytes? { DeleteKept(db, file); }
      case Emptied(file) => if st.ClearPending? { ClearKept(db, file); }
      case Completing(base) =>
        if st.Adopt? && base.pending.Some? && MayReplace(base) && Unchanged(db.doc, base) { AdoptKept(db, base.pending.value.file); }
      case Dropping(file) => if st.DeleteBytes? { DeleteKept(db, file); }
      case Starting(base) => if Startable(db.doc, base) { StartKept(db, base.archive.value); }
      case Resuming(base) => if Resumable(db.doc, base) { ResumeKept(db); }
      case Cancelling(base) => if Stoppable(db.doc, base) { StopKept(db); }
      case Rescanning(base) => if base.archive.Some? && db.doc.archive == base.archive { RescanKept(db, base.archive.value); }
      case Importing(fence) => WrittenKept(db, st, fence); KnowsKept(db, db.(doc := Written(db.doc, st, fence)), proc);
      case Scanning(file, id) => ScanWrittenKept(db, st, file, id);
    }
  }

  lemma InvNext(w: World, st: Step)
    requires Inv(w)
    ensures Inv(Next(w, st)) && Grows(w.db, Next(w, st).db)
  {
    hide Moved, Sane, Grows, Knows, Elsewhere, Begun;
    var b := Next(w, st);
    GrowsItself(w.db);
    if IsElsewhere(st) {
      ElsewhereKept(w.db, st);
    } else if st.p !in w.procs {
      BegunKnows(w.db, st);
    } else if !st.Crash? {
      MovedKept(w.db, st, w.procs[st.p]);
    }
    forall q | q in b.procs ensures Knows(b.db, b.procs[q]) {
      if q in w.procs && b.procs[q] == w.procs[q] { KnowsKept(w.db, b.db, w.procs[q]); }
    }
  }

  lemma BegunKnows(db: Database, st: Step)
    requires Sane(db)
    ensures Begun(db, st).Some? ==> Knows(db, Begun(db, st).value)
  {
  }

  ghost predicate Reachable(w: World) {
    exists start, steps :: Initial(start) && w == After(Next, start, steps)
  }

  lemma InvInitial(w: World)
    requires Initial(w)
    ensures Inv(w)
  {
  }

  lemma ReachableInv(w: World)
    requires Reachable(w)
    ensures Inv(w)
  {
    hide Inv, Next, Initial;
    var start, steps :| Initial(start) && w == After(Next, start, steps);
    InvInitial(start);
    forall v, st | Inv(v) ensures Inv(Next(v, st)) { InvNext(v, st); }
    Kept(Next, Inv, start, steps);
  }

  // ---------------------------------------------------------------- the guarantees

  /**
   Live bytes are never deleted: a file deleted from storage is neither the archive nor an upload that is
   not being discarded, and it never becomes either again, whatever requests do next.
   */
  lemma LiveBytesStay(w: World, later: seq<Step>, f: nat)
    requires Reachable(w) && f in w.db.deleted
    ensures var doc := After(Next, w, later).db.doc; doc.archive != Some(f) && doc.pending != Some(Upload(f, false))
  {
    hide Inv, Next, Grows;
    ReachableInv(w);
    var inv := (v: World) => Inv(v) && f in v.db.deleted;
    forall v, st | inv(v) ensures inv(Next(v, st)) {
      InvNext(v, st);
      DeletedStays(v.db, Next(v, st).db, f);
    }
    Kept(Next, inv, w, later);
    DeletedIsGone(After(Next, w, later), f);
  }

  lemma DeletedStays(a: Database, b: Database, f: nat)
    requires Grows(a, b) && f in a.deleted
    ensures f in b.deleted
  {
  }

  lemma DeletedIsGone(w: World, f: nat)
    requires Inv(w) && f in w.db.deleted
    ensures Gone(w.db, f)
  {
  }

  /** A queued or running import reads the dataset's present archive, whose bytes are stored. */
  lemma ActiveImportHasItsArchive(w: World)
    requires Reachable(w) && w.db.doc.work.Some? && w.db.doc.work.value.Active()
    ensures w.db.doc.archive == Some(w.db.doc.work.value.archive) && w.db.doc.work.value.archive !in w.db.deleted
  {
    ReachableInv(w);
  }

  /** While an import is active, nothing replaces or removes the archive. */
  lemma ActiveImportKeepsArchive(w: World, st: Step)
    requires w.db.doc.work.Some? && w.db.doc.work.value.Active()
    ensures Next(w, st).db.doc.archive == w.db.doc.archive
  {
    hide Written;
    if !IsElsewhere(st) && st.p in w.procs && w.procs[st.p].Importing? { WriteKeepsIdentity(w.db.doc, st, w.procs[st.p].fence); }
  }

  /** The contents shown, and the scan that will bring them, are always of the present archive. */
  lemma ContentsAreOfTheArchive(w: World)
    requires Reachable(w)
    ensures w.db.doc.contents.Some? ==> w.db.doc.contents == w.db.doc.archive
    ensures w.db.doc.scan.Some? ==> Some(w.db.doc.scan.value.file) == w.db.doc.archive
  {
    ReachableInv(w);
  }

  /** Resuming outdates the fence the import had; so does starting another import. */
  lemma ResumeOutdates(w: World, st: Step)
    requires Reachable(w) && !IsElsewhere(st) && st.p in w.procs && w.db.doc.work.Some?
    requires (w.procs[st.p].Resuming? || w.procs[st.p].Starting?) && Next(w, st).db != w.db
    ensures Outdated(Next(w, st).db, Fence(w.db.doc.work.value.id, w.db.doc.work.value.delivery))
    ensures Next(w, st).db.doc.work.value.Active()
  {
    ReachableInv(w);
  }

  /**
   Late outcomes are void: a write through the fence of an earlier delivery changes nothing, however much
   later it comes.
   */
  lemma LateOutcomesAreVoid(w: World, later: seq<Step>, fence: Fence, st: Step)
    requires Reachable(w) && Outdated(w.db, fence)
    ensures Written(After(Next, w, later).db.doc, st, fence) == After(Next, w, later).db.doc
  {
    hide Inv, Next, Grows;
    ReachableInv(w);
    var inv := (v: World) => Inv(v) && Outdated(v.db, fence);
    forall v, s | inv(v) ensures inv(Next(v, s)) {
      InvNext(v, s);
      OutdatedStays(v.db, Next(v, s).db, fence);
    }
    Kept(Next, inv, w, later);
  }

  lemma OutdatedStays(a: Database, b: Database, fence: Fence)
    requires Grows(a, b) && Outdated(a, fence)
    ensures Outdated(b, fence)
  {
  }
}
