/** What each call does to a dataset's record, read from the record's side. */
module DatasetEffects {
  import opened Common
  import opened Machine
  import opened DatasetArchive

  /** An import is waiting or under way. */
  predicate Busy(doc: Record) {
    doc.work.Some? && (doc.work.value.status == Queued || doc.work.value.status == Running)
  }

  /** Nobody holds or imports the dataset, and its upload, if any, is not being discarded. */
  predicate Free(doc: Record) {
    doc.holds == 0 && !Busy(doc) && (doc.pending.Some? ==> !doc.pending.value.discarding)
  }

  /** The archive and the upload are those a request read. */
  predicate AsRead(doc: Record, base: Record) {
    doc.archive == base.archive && (doc.pending.Some? <==> base.pending.Some?)
      && (doc.pending.Some? ==> doc.pending.value.file == base.pending.value.file)
  }

  /** The import is the one a request read, where it stood then, or there is still none. */
  predicate WorkAsRead(doc: Record, base: Record) {
    (doc.work.Some? <==> base.work.Some?)
      && (doc.work.Some? ==>
            doc.work.value.id == base.work.value.id && doc.work.value.status == base.work.value.status
            && doc.work.value.delivery == base.work.value.delivery)
  }

  predicate Reserves(w: World, st: Step) {
    st.ReserveFile? && st.p in w.procs && w.procs[st.p].Creating? && Free(w.procs[st.p].base)
      && w.db.doc.live && Free(w.db.doc) && AsRead(w.db.doc, w.procs[st.p].base)
  }

  predicate Adopts(w: World, st: Step) {
    st.Adopt? && st.p in w.procs && w.procs[st.p].Completing? && Free(w.procs[st.p].base)
      && w.db.doc.live && Free(w.db.doc) && AsRead(w.db.doc, w.procs[st.p].base) && w.db.doc.pending.Some?
  }

  predicate Discards(w: World, st: Step) {
    st.ClaimDiscard? && st.p in w.procs && w.procs[st.p].Discarding?
      && w.db.doc.live && AsRead(w.db.doc, w.procs[st.p].base) && w.db.doc.pending.Some?
  }

  predicate Clears(w: World, st: Step) {
    st.ClearPending? && st.p in w.procs && w.procs[st.p].Emptied? && w.db.doc.pending == Some(Upload(w.procs[st.p].file, true))
  }

  predicate Starts(w: World, st: Step) {
    st.StartImport? && st.p in w.procs && w.procs[st.p].Starting? && w.procs[st.p].base.holds == 0 && !Busy(w.procs[st.p].base)
      && w.db.doc.live && w.db.doc.holds == 0 && w.db.doc.archive.Some? && w.db.doc.archive == w.procs[st.p].base.archive
      && WorkAsRead(w.db.doc, w.procs[st.p].base)
  }

  /** A stopped import of the archive there is, as it was read. */
  predicate Resumes(w: World, st: Step) {
    st.ResumeImport? && st.p in w.procs && w.procs[st.p].Resuming? && w.procs[st.p].base.holds == 0
      && w.db.doc.live && w.db.doc.holds == 0 && w.db.doc.work.Some? && WorkAsRead(w.db.doc, w.procs[st.p].base)
      && (w.db.doc.work.value.status == Cancelled || w.db.doc.work.value.status == Failed)
      && w.db.doc.archive == Some(w.procs[st.p].base.work.value.archive) && w.procs[st.p].base.archive == w.db.doc.archive
  }

  /** A request to cancel the import it read under way, or the trash, finds it under way. */
  predicate Stops(w: World, st: Step) {
    && Busy(w.db.doc)
    && (|| (st.CancelImport? && st.p in w.procs && w.procs[st.p].Cancelling? && Busy(w.procs[st.p].base)
            && w.db.doc.work.value.id == w.procs[st.p].base.work.value.id
            && w.db.doc.work.value.delivery == w.procs[st.p].base.work.value.delivery)
        || (st.Trash? && w.db.doc.holds == 0))
  }

  predicate Rescans(w: World, st: Step) {
    st.QueueScan? && st.p in w.procs && w.procs[st.p].Rescanning? && w.db.doc.live && w.db.doc.archive.Some?
      && w.db.doc.archive == w.procs[st.p].base.archive
  }

  /** The step is a write of the worker that has the import's present delivery. */
  predicate Works(w: World, st: Step) {
    !IsElsewhere(st) && st.p in w.procs && w.procs[st.p].Importing? && w.db.doc.work.Some?
      && w.procs[st.p].fence == Fence(w.db.doc.work.value.id, w.db.doc.work.value.delivery)
  }

  predicate ScansNow(w: World, st: Step) {
    !IsElsewhere(st) && st.p in w.procs && w.procs[st.p].Scanning? && w.db.doc.scan.Some?
      && w.procs[st.p].file == w.db.doc.scan.value.file && w.procs[st.p].id == w.db.doc.scan.value.id
  }

  predicate Deletes(w: World, st: Step, file: nat) {
    st.DeleteBytes? && st.p in w.procs && (w.procs[st.p] == Claimed(file) || w.procs[st.p] == Dropping(file))
  }

  /** Where the import stands after the step, when it stays the same import. */
  function StatusAfter(w: World, st: Step): Status
    requires w.db.doc.work.Some?
  {
    var status := w.db.doc.work.value.status;
    if Stops(w, st) then Cancelled
    else if Works(w, st) && st.WriteRunning? && Busy(w.db.doc) then Running
    else if Works(w, st) && st.WriteOutcome? && status == Running then (if st.failed then Failed else Done)
    else if Works(w, st) && st.WriteFailed? && Busy(w.db.doc) then Failed
    else status
  }

  /** The archive and the upload after a step: a file is reserved, claimed, cleared or adopted, and nothing else moves them. */
  predicate FilesAfter(w: World, st: Step, after: Record) {
    var doc := w.db.doc;
    && after.archive == (if Adopts(w, st) then Some(doc.pending.value.file) else doc.archive)
    && after.pending == (if Reserves(w, st) then Some(Upload(w.db.counter, false))
                         else if Discards(w, st) then Some(Upload(doc.pending.value.file, true))
                         else if Adopts(w, st) || Clears(w, st) then None else doc.pending)
  }

  /** The import after a step: queued when started or resumed, moved on by its own worker, or stopped. */
  predicate WorkAfter(w: World, st: Step, after: Record) {
    var doc := w.db.doc;
    if Starts(w, st) then after.work == Some(Import(w.db.counter, Queued, doc.archive.value, None, 0))
    else if Resumes(w, st) then after.work == Some(doc.work.value.(status := Queued, delivery := Some(w.db.counter)))
    else if doc.work == None then after.work == None
    else
      after.work == Some(doc.work.value.(
        status := StatusAfter(w, st),
        processed := if Works(w, st) && st.WriteProgress? && doc.work.value.status == Running then st.processed else doc.work.value.processed))
  }

  /** The scan and the contents after a step: queued afresh with an archive or on request, moved on by its own worker. */
  predicate ScanAfter(w: World, st: Step, after: Record) {
    var doc := w.db.doc;
    var waits := ScansNow(w, st) && (doc.scan.value.status == Queued || doc.scan.value.status == Running);
    var done := ScansNow(w, st) && st.ScanDone? && doc.scan.value.status == Running;
    && after.scan == (if Adopts(w, st) then Some(Scan(doc.pending.value.file, Some(w.db.counter), Queued))
                      else if Rescans(w, st) then Some(Scan(doc.archive.value, Some(w.db.counter), Queued))
                      else if waits && st.ScanRunning? then Some(doc.scan.value.(status := Running))
                      else if waits && st.ScanFailed? then Some(doc.scan.value.(status := Failed))
                      else if done then Some(doc.scan.value.(status := Done))
                      else doc.scan)
    && after.contents == (if Adopts(w, st) then None else if done then Some(w.procs[st.p].file) else doc.contents)
  }

  predicate HoldsAfter(w: World, st: Step, after: Record) {
    var doc := w.db.doc;
    && after.live == (if st.Trash? && doc.holds == 0 then false else if st.Restore? then true else doc.live)
    && after.holds == (if st.Hold? && doc.live && !Busy(doc) then doc.holds + 1
                       else if st.Release? && doc.holds > 0 then doc.holds - 1 else doc.holds)
  }

  predicate RecordAfter(w: World, st: Step, after: Record) {
    FilesAfter(w, st, after) && WorkAfter(w, st, after) && ScanAfter(w, st, after) && HoldsAfter(w, st, after)
  }

  /** Every step turns the record as it says, and no other way. */
  lemma RecordTurns(w: World, st: Step)
    ensures RecordAfter(w, st, Next(w, st).db.doc)
  {
    hide RecordAfter, Moved, Elsewhere, Begun;
    if IsElsewhere(st) {
      ElsewhereTurns(w, st);
    } else if Acts(w, st) {
      MovedTurns(w, st);
    } else {
      RecordAside(w, st);
    }
  }

  lemma FilesAside(w: World, st: Step, after: Record)
    requires !Reserves(w, st) && !Discards(w, st) && !Clears(w, st) && !Adopts(w, st)
    requires after.archive == w.db.doc.archive && after.pending == w.db.doc.pending
    ensures FilesAfter(w, st, after)
  {
  }

  lemma WorkAside(w: World, st: Step, after: Record)
    requires !Starts(w, st) && !Resumes(w, st) && !Stops(w, st) && !Works(w, st) && after.work == w.db.doc.work
    ensures WorkAfter(w, st, after)
  {
  }

  lemma ScanAside(w: World, st: Step, after: Record)
    requires !Adopts(w, st) && !Rescans(w, st) && !ScansNow(w, st) && after.scan == w.db.doc.scan && after.contents == w.db.doc.contents
    ensures ScanAfter(w, st, after)
  {
  }

  lemma HoldsAside(w: World, st: Step, after: Record)
    requires !IsElsewhere(st) && after.live == w.db.doc.live && after.holds == w.db.doc.holds
    ensures HoldsAfter(w, st, after)
  {
  }

  lemma ElsewhereTurns(w: World, st: Step)
    requires IsElsewhere(st)
    ensures RecordAfter(w, st, Elsewhere(w.db.doc, st))
  {
    hide FilesAfter, ScanAfter, WorkAfter;
    FilesAside(w, st, Elsewhere(w.db.doc, st));
    ScanAside(w, st, Elsewhere(w.db.doc, st));
    TrashTurns(w, st);
  }

  lemma TrashTurns(w: World, st: Step)
    requires IsElsewhere(st)
    ensures WorkAfter(w, st, Elsewhere(w.db.doc, st))
  {
  }

  lemma RecordAside(w: World, st: Step)
    requires !IsElsewhere(st) && (st.p !in w.procs || st.Crash?)
    ensures RecordAfter(w, st, w.db.doc)
  {
  }

  /** The step is the next call of a process there is. */
  predicate Acts(w: World, st: Step) {
    !IsElsewhere(st) && st.p in w.procs && !st.Crash?
  }

  /** The record after the call of a process. */
  function Called(w: World, st: Step): Record
    requires Acts(w, st)
  {
    Moved(w.db, st, w.procs[st.p]).0.doc
  }

  lemma MovedTurns(w: World, st: Step)
    requires Acts(w, st)
    ensures RecordAfter(w, st, Called(w, st))
  {
    hide FilesAfter, WorkAfter, ScanAfter, HoldsAfter, Called;
    match w.procs[st.p] {
      case Importing(_) => ImportTurns(w, st);
      case Starting(_) => ImportTurns(w, st);
      case Resuming(_) => ImportTurns(w, st);
      case Cancelling(_) => ImportTurns(w, st);
      case Scanning(_, _) => ScanTurns(w, st);
      case Rescanning(_) => ScanTurns(w, st);
      case _ => FileTurns(w, st);
    }
  }

  lemma ImportTurns(w: World, st: Step)
    requires Acts(w, st) && var proc := w.procs[st.p]; proc.Importing? || proc.Starting? || proc.Resuming? || proc.Cancelling?
    ensures RecordAfter(w, st, Called(w, st))
  {
    hide FilesAfter, WorkAfter, ScanAfter, HoldsAfter;
    ImportAside(w, st);
    FilesAside(w, st, Called(w, st));
    ScanAside(w, st, Called(w, st));
    HoldsAside(w, st, Called(w, st));
    if w.procs[st.p].Importing? { WorkerTurns(w, st); }
    else if w.procs[st.p].Starting? { StartingTurns(w, st); }
    else if w.procs[st.p].Resuming? { ResumingTurns(w, st); }
    else { CancellingTurns(w, st); }
  }

  lemma ImportAside(w: World, st: Step)
    requires Acts(w, st) && var proc := w.procs[st.p]; proc.Importing? || proc.Starting? || proc.Resuming? || proc.Cancelling?
    ensures Called(w, st) == w.db.doc.(work := Called(w, st).work)
  {
  }

  lemma WorkerTurns(w: World, st: Step)
    requires Acts(w, st) && w.procs[st.p].Importing?
    ensures WorkAfter(w, st, Called(w, st))
  {
  }

  lemma StartingTurns(w: World, st: Step)
    requires Acts(w, st) && w.procs[st.p].Starting?
    ensures WorkAfter(w, st, Called(w, st))
  {
  }

  lemma ResumingTurns(w: World, st: Step)
    requires Acts(w, st) && w.procs[st.p].Resuming?
    ensures WorkAfter(w, st, Called(w, st))
  {
  }

  lemma CancellingTurns(w: World, st: Step)
    requires Acts(w, st) && w.procs[st.p].Cancelling?
    ensures WorkAfter(w, st, Called(w, st))
  {
  }

  lemma ScanTurns(w: World, st: Step)
    requires Acts(w, st) && (w.procs[st.p].Scanning? || w.procs[st.p].Rescanning?)
    ensures RecordAfter(w, st, Called(w, st))
  {
    hide FilesAfter, WorkAfter, ScanAfter, HoldsAfter;
    ScannerAside(w, st);
    FilesAside(w, st, Called(w, st));
    WorkAside(w, st, Called(w, st));
    HoldsAside(w, st, Called(w, st));
    ScannerTurns(w, st);
  }

  lemma ScannerAside(w: World, st: Step)
    requires Acts(w, st) && (w.procs[st.p].Scanning? || w.procs[st.p].Rescanning?)
    ensures Called(w, st) == w.db.doc.(scan := Called(w, st).scan, contents := Called(w, st).contents)
  {
  }

  lemma ScannerTurns(w: World, st: Step)
    requires Acts(w, st) && (w.procs[st.p].Scanning? || w.procs[st.p].Rescanning?)
    ensures ScanAfter(w, st, Called(w, st))
  {
  }

  lemma FileTurns(w: World, st: Step)
    requires Acts(w, st) && var proc := w.procs[st.p];
      proc.Creating? || proc.Completing? || proc.Discarding? || proc.Claimed? || proc.Emptied? || proc.Dropping?
    ensures RecordAfter(w, st, Called(w, st))
  {
    hide FilesAfter, WorkAfter, ScanAfter, HoldsAfter;
    FileAside(w, st);
    WorkAside(w, st, Called(w, st));
    HoldsAside(w, st, Called(w, st));
    if w.procs[st.p].Completing? {
      AdoptingTurns(w, st);
    } else {
      ScanAside(w, st, Called(w, st));
      UploadTurns(w, st);
    }
  }

  lemma FileAside(w: World, st: Step)
    requires Acts(w, st) && var proc := w.procs[st.p];
      proc.Creating? || proc.Completing? || proc.Discarding? || proc.Claimed? || proc.Emptied? || proc.Dropping?
    ensures var after := Called(w, st);
      && after == w.db.doc.(archive := after.archive, pending := after.pending, scan := after.scan, contents := after.contents)
      && (!w.procs[st.p].Completing? ==> after.scan == w.db.doc.scan && after.contents == w.db.doc.contents)
  {
  }

  lemma AdoptingTurns(w: World, st: Step)
    requires Acts(w, st) && w.procs[st.p].Completing?
    ensures FilesAfter(w, st, Called(w, st)) && ScanAfter(w, st, Called(w, st))
  {
  }

  lemma UploadTurns(w: World, st: Step)
    requires Acts(w, st) && var proc := w.procs[st.p]; proc.Creating? || proc.Discarding? || proc.Claimed? || proc.Emptied? || proc.Dropping?
    ensures FilesAfter(w, st, Called(w, st))
  {
  }

  /** Bytes are deleted exactly by the request that claimed their discard or put another file in their place. */
  lemma BytesTurn(w: World, st: Step, file: nat)
    ensures file in Next(w, st).db.deleted <==> file in w.db.deleted || Deletes(w, st, file)
  {
    hide Elsewhere, Begun, Written, ScanWritten;
  }

  // ---------------------------------------------------------------- undisturbed

  /** The record and the storage once a file of this number is reserved, and once it is adopted under a scan of the next number. */
  function Uploading(db: Database): Database {
    db.(doc := db.doc.(pending := Some(Upload(db.counter, false))), counter := db.counter + 1,
        deleted := if db.doc.pending.Some? then db.deleted + {db.doc.pending.value.file} else db.deleted)
  }

  function Uploaded(db: Database, file: nat): Database {
    db.(doc := db.doc.(archive := Some(file), pending := None, contents := None, scan := Some(Scan(file, Some(db.counter), Queued))),
        counter := db.counter + 1,
        deleted := if db.doc.archive.Some? then db.deleted + {db.doc.archive.value} else db.deleted)
  }

  /** The calls of an upload reserved and completed, each with the delete of what it replaces. */
  function Reserving(p: Id, doc: Record): seq<Step> {
    [BeginCreate(p, false), ReserveFile(p)] + if doc.pending.Some? then [DeleteBytes(p)] else []
  }

  function Completing(p: Id, doc: Record): seq<Step> {
    [BeginComplete(p), Adopt(p)] + if doc.archive.Some? then [DeleteBytes(p)] else []
  }

  /**
   Undisturbed, on a live dataset that nobody holds or imports and whose upload is not being discarded, a new upload
   goes through: a new file is reserved in place of the upload there was, becomes the archive with a scan of it queued
   and no contents yet, and the bytes of the upload and of the archive it replaces, and no others, are deleted.
   */
  lemma UploadReplaces(w: World, p: Id)
    requires Reachable(w) && p !in w.procs && w.db.doc.live && Free(w.db.doc)
    ensures var w' := After(Next, w, Reserving(p, w.db.doc) + Completing(p, w.db.doc)); var db := w.db;
      && w'.procs == w.procs
      && w'.db.doc == db.doc.(archive := Some(db.counter), pending := None, contents := None,
                              scan := Some(Scan(db.counter, Some(db.counter + 1), Queued)))
      && forall f :: f in w'.db.deleted <==>
           f in db.deleted || (db.doc.pending.Some? && f == db.doc.pending.value.file) || db.doc.archive == Some(f)
  {
    hide Next, Reachable;
    ReachableInv(w);
    ArchiveIsOlder(w);
    ReservedAlone(w, p);
    var v := w.(db := Uploading(w.db));
    CompletedAlone(v, p);
    AfterBoth(Next, w, Reserving(p, w.db.doc), Completing(p, w.db.doc));
  }

  lemma ArchiveIsOlder(w: World)
    requires Inv(w)
    ensures w.db.doc.archive.Some? ==> w.db.doc.archive.value < w.db.counter
  {
  }

  lemma ReservedAlone(w: World, p: Id)
    requires p !in w.procs && w.db.doc.live && Free(w.db.doc)
    ensures After(Next, w, Reserving(p, w.db.doc)) == w.(db := Uploading(w.db))
  {
    hide Next, Uploading;
    AfterTwo(Next, w, BeginCreate(p, false), ReserveFile(p));
    AfterThree(Next, w, BeginCreate(p, false), ReserveFile(p), DeleteBytes(p));
    ReservesAlone(w, p);
    assert Reserving(p, w.db.doc) == if w.db.doc.pending.Some? then [BeginCreate(p, false), ReserveFile(p), DeleteBytes(p)]
      else [BeginCreate(p, false), ReserveFile(p)];
  }

  lemma ReservesAlone(w: World, p: Id)
    requires p !in w.procs && w.db.doc.live && Free(w.db.doc)
    ensures var v := Next(Next(w, BeginCreate(p, false)), ReserveFile(p));
      (if w.db.doc.pending.Some? then Next(v, DeleteBytes(p)) else v) == w.(db := Uploading(w.db))
  {
    var begun := Next(w, BeginCreate(p, false));
    assert begun == w.(procs := w.procs[p := Creating(w.db.doc, false)]);
    var v := Next(begun, ReserveFile(p));
    if w.db.doc.pending.Some? {
      assert v.procs == w.procs[p := Dropping(w.db.doc.pending.value.file)];
      assert v.procs - {p} == w.procs;
    } else {
      assert v.procs == w.procs;
    }
  }

  lemma CompletedAlone(w: World, p: Id)
    requires p !in w.procs && w.db.doc.live && Free(w.db.doc) && w.db.doc.pending.Some? && w.db.doc.archive != Some(w.db.doc.pending.value.file)
    ensures After(Next, w, Completing(p, w.db.doc)) == w.(db := Uploaded(w.db, w.db.doc.pending.value.file))
  {
    hide Next, Uploaded;
    AfterTwo(Next, w, BeginComplete(p), Adopt(p));
    AfterThree(Next, w, BeginComplete(p), Adopt(p), DeleteBytes(p));
    CompletesAlone(w, p);
    assert Completing(p, w.db.doc) == if w.db.doc.archive.Some? then [BeginComplete(p), Adopt(p), DeleteBytes(p)] else [BeginComplete(p), Adopt(p)];
  }

  lemma CompletesAlone(w: World, p: Id)
    requires p !in w.procs && w.db.doc.live && Free(w.db.doc) && w.db.doc.pending.Some? && w.db.doc.archive != Some(w.db.doc.pending.value.file)
    ensures var v := Next(Next(w, BeginComplete(p)), Adopt(p));
      (if w.db.doc.archive.Some? then Next(v, DeleteBytes(p)) else v) == w.(db := Uploaded(w.db, w.db.doc.pending.value.file))
  {
    var begun := Next(w, BeginComplete(p));
    assert begun == w.(procs := w.procs[p := Proc.Completing(w.db.doc)]);
    var v := Next(begun, Adopt(p));
    if w.db.doc.archive.Some? {
      assert v.procs == w.procs[p := Dropping(w.db.doc.archive.value)];
      assert v.procs - {p} == w.procs;
    } else {
      assert v.procs == w.procs;
    }
  }

  /** The calls of an import started and carried through by a worker. */
  function ImportingThrough(p: Id, id: nat, processed: nat, failed: bool): seq<Step> {
    [BeginStart(p), StartImport(p), TakeJob(p, Fence(id, None)), WriteRunning(p), WriteProgress(p, processed), WriteOutcome(p, failed), Crash(p)]
  }

  /** The record with this import. */
  function WithWork(w: World, work: Import): World {
    w.(db := w.db.(doc := w.db.doc.(work := Some(work)), counter := w.db.counter + 1, fences := w.db.fences + {Fence(w.db.counter, None)}))
  }

  /** The dataset after the first k of these calls. */
  function ImportScene(w: World, p: Id, archive: nat, processed: nat, failed: bool, k: nat): World {
    var fence, id := Fence(w.db.counter, None), w.db.counter;
    if k == 0 then w
    else if k == 1 then w.(procs := w.procs[p := Starting(w.db.doc)])
    else if k == 2 then WithWork(w, Import(id, Queued, archive, None, 0))
    else if k == 3 then WithWork(w, Import(id, Queued, archive, None, 0)).(procs := w.procs[p := Importing(fence)])
    else if k == 4 then WithWork(w, Import(id, Running, archive, None, 0)).(procs := w.procs[p := Importing(fence)])
    else if k == 5 then WithWork(w, Import(id, Running, archive, None, processed)).(procs := w.procs[p := Importing(fence)])
    else
      var done := WithWork(w, Import(id, if failed then Failed else Done, archive, None, processed));
      if k == 6 then done.(procs := w.procs[p := Importing(fence)]) else done
  }

  lemma ImportLeads(w: World, p: Id, archive: nat, processed: nat, failed: bool, k: nat)
    requires p !in w.procs && w.db.doc.live && w.db.doc.holds == 0 && !Busy(w.db.doc) && w.db.doc.archive == Some(archive) && k < 7
    ensures Next(ImportScene(w, p, archive, processed, failed, k), ImportingThrough(p, w.db.counter, processed, failed)[k])
      == ImportScene(w, p, archive, processed, failed, k + 1)
  {
    hide Next, ImportScene;
    if k < 2 {
      StartLeads(w, p, archive, processed, failed, k);
    } else if k == 2 {
      JobLeads(w, p, archive, processed, failed);
    } else if k == 3 {
      RunningLeads(w, p, archive, processed, failed);
    } else if k == 4 {
      ProgressLeads(w, p, archive, processed, failed);
    } else if k == 5 {
      OutcomeLeads(w, p, archive, processed, failed);
    } else {
      LeavingLeads(w, p, archive, processed, failed);
    }
  }

  lemma StartLeads(w: World, p: Id, archive: nat, processed: nat, failed: bool, k: nat)
    requires p !in w.procs && w.db.doc.live && w.db.doc.holds == 0 && !Busy(w.db.doc) && w.db.doc.archive == Some(archive) && k < 2
    ensures Next(ImportScene(w, p, archive, processed, failed, k), ImportingThrough(p, w.db.counter, processed, failed)[k])
      == ImportScene(w, p, archive, processed, failed, k + 1)
  {
    assert w.procs[p := Starting(w.db.doc)] - {p} == w.procs;
  }

  lemma JobLeads(w: World, p: Id, archive: nat, processed: nat, failed: bool)
    requires p !in w.procs
    ensures Next(ImportScene(w, p, archive, processed, failed, 2), TakeJob(p, Fence(w.db.counter, None)))
      == ImportScene(w, p, archive, processed, failed, 3)
  {
  }

  /** A worker's write through the fence of the import there is. */
  lemma WritesThrough(w: World, st: Step, p: Id, fence: Fence)
    requires Acts(w, st) && st.p == p && w.procs[p] == Importing(fence)
    ensures Next(w, st).db == w.db.(doc := Written(w.db.doc, st, fence)) && Next(w, st).procs == w.procs
  {
    hide Written;
    assert w.procs[p := Importing(fence)] == w.procs;
  }

  lemma RunningLeads(w: World, p: Id, archive: nat, processed: nat, failed: bool)
    ensures Next(ImportScene(w, p, archive, processed, failed, 3), WriteRunning(p)) == ImportScene(w, p, archive, processed, failed, 4)
  {
    hide Next;
    WritesThrough(ImportScene(w, p, archive, processed, failed, 3), WriteRunning(p), p, Fence(w.db.counter, None));
  }

  lemma ProgressLeads(w: World, p: Id, archive: nat, processed: nat, failed: bool)
    ensures Next(ImportScene(w, p, archive, processed, failed, 4), WriteProgress(p, processed)) == ImportScene(w, p, archive, processed, failed, 5)
  {
    hide Next;
    WritesThrough(ImportScene(w, p, archive, processed, failed, 4), WriteProgress(p, processed), p, Fence(w.db.counter, None));
  }

  lemma OutcomeLeads(w: World, p: Id, archive: nat, processed: nat, failed: bool)
    ensures Next(ImportScene(w, p, archive, processed, failed, 5), WriteOutcome(p, failed)) == ImportScene(w, p, archive, processed, failed, 6)
  {
    hide Next;
    WritesThrough(ImportScene(w, p, archive, processed, failed, 5), WriteOutcome(p, failed), p, Fence(w.db.counter, None));
  }

  lemma LeavingLeads(w: World, p: Id, archive: nat, processed: nat, failed: bool)
    requires p !in w.procs
    ensures Next(ImportScene(w, p, archive, processed, failed, 6), Crash(p)) == ImportScene(w, p, archive, processed, failed, 7)
  {
    assert w.procs[p := Importing(Fence(w.db.counter, None))] - {p} == w.procs;
  }

  /**
   Undisturbed, an import of a live dataset that has an archive and that nobody holds or imports is carried through: it
   is started under a new id, reported as far as it got, and ends done or failed as its worker says; nothing else of the
   record changes.
   */
  lemma ImportedAlone(w: World, p: Id, archive: nat, processed: nat, failed: bool)
    requires p !in w.procs && w.db.doc.live && w.db.doc.holds == 0 && !Busy(w.db.doc) && w.db.doc.archive == Some(archive)
    ensures var w' := After(Next, w, ImportingThrough(p, w.db.counter, processed, failed));
      && w'.procs == w.procs && w'.db.deleted == w.db.deleted
      && w'.db.doc == w.db.doc.(work := Some(Import(w.db.counter, if failed then Failed else Done, archive, None, processed)))
  {
    hide Next, ImportScene;
    var steps := ImportingThrough(p, w.db.counter, processed, failed);
    var scene := (k: nat) => ImportScene(w, p, archive, processed, failed, k);
    forall k: nat | k < |steps| ensures Next(scene(k), steps[k]) == scene(k + 1) { ImportLeads(w, p, archive, processed, failed, k); }
    Follows(Next, scene, steps);
    ImportEnds(w, p, archive, processed, failed);
  }

  lemma ImportEnds(w: World, p: Id, archive: nat, processed: nat, failed: bool)
    ensures ImportScene(w, p, archive, processed, failed, 0) == w
    ensures ImportScene(w, p, archive, processed, failed, 7)
      == WithWork(w, Import(w.db.counter, if failed then Failed else Done, archive, None, processed))
  {
  }

  /** Undisturbed, a scan that is queued brings the contents of its file. */
  lemma ScannedAlone(w: World, p: Id, scan: Scan)
    requires p !in w.procs && w.db.doc.scan == Some(scan) && scan.status == Queued
    ensures var w' := After(Next, w, [TakeScan(p, scan.file, scan.id), ScanRunning(p), ScanDone(p)]);
      w'.db == w.db.(doc := w.db.doc.(scan := Some(scan.(status := Done)), contents := Some(scan.file)))
  {
    hide Next;
    AfterThree(Next, w, TakeScan(p, scan.file, scan.id), ScanRunning(p), ScanDone(p));
    Scans(w, p, scan);
  }

  lemma Scans(w: World, p: Id, scan: Scan)
    requires p !in w.procs && w.db.doc.scan == Some(scan) && scan.status == Queued
    ensures Next(Next(Next(w, TakeScan(p, scan.file, scan.id)), ScanRunning(p)), ScanDone(p)).db
      == w.db.(doc := w.db.doc.(scan := Some(scan.(status := Done)), contents := Some(scan.file)))
  {
    hide Next;
    var taken := w.(procs := w.procs[p := Scanning(scan.file, scan.id)]);
    TakesScan(w, p, scan.file, scan.id);
    ScansThrough(taken, ScanRunning(p), p, scan.file, scan.id);
    ScansThrough(Next(taken, ScanRunning(p)), ScanDone(p), p, scan.file, scan.id);
  }

  lemma TakesScan(w: World, p: Id, file: nat, id: Option<nat>)
    requires p !in w.procs
    ensures Next(w, TakeScan(p, file, id)) == w.(procs := w.procs[p := Scanning(file, id)])
  {
  }

  lemma ScansThrough(w: World, st: Step, p: Id, file: nat, id: Option<nat>)
    requires Acts(w, st) && st.p == p && w.procs[p] == Scanning(file, id)
    ensures Next(w, st).db == w.db.(doc := ScanWritten(w.db.doc, st, file, id)) && Next(w, st).procs == w.procs
  {
    hide ScanWritten;
    assert w.procs[p := Scanning(file, id)] == w.procs;
  }
}
