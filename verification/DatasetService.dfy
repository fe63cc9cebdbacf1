/**
 The requests on a dataset's zip and its imports as they are written: the record read, one conditional
 update, and the deletes that follow it, with every other request and worker free to run in between.
 */
module DatasetService {
  import opened Common
  import opened Machine
  import opened DatasetArchive

  predicate By(st: Step, p: Id) {
    !IsElsewhere(st) && st.p == p
  }

  /** p stands in b where it stood in a, and what every step keeps was kept. */
  ghost predicate Beside(a: World, b: World, p: Id) {
    Inv(a) ==> Inv(b) && Grows(a.db, b.db) && (p in b.procs <==> p in a.procs) && (p in a.procs ==> b.procs[p] == a.procs[p])
  }

  lemma StepBeside(w: World, st: Step, p: Id)
    requires !By(st, p)
    ensures Beside(w, Next(w, st), p)
  {
    hide Inv, Moved, Grows, Begun;
    if Inv(w) { InvNext(w, st); }
  }

  lemma GrowsOn(a: Database, b: Database, c: Database)
    requires Grows(a, b) && Grows(b, c)
    ensures Grows(a, c)
  {
  }

  lemma RunsBeside(a: World, b: World, p: Id)
    requires Reaches(Next, (st: Step) => !By(st, p), a, b)
    ensures Beside(a, b, p)
  {
    hide Next, Inv, Grows, By;
    var others := (st: Step) => !By(st, p);
    var rel := (x: World, y: World) => Beside(x, y, p);
    var steps: seq<Step> :| (forall st | st in steps :: others(st)) && b == After(Next, a, steps);
    GrowsItself(a.db);
    forall x, y, z | rel(x, y) && rel(y, z) ensures rel(x, z) {
      if Inv(x) { GrowsOn(x.db, y.db, z.db); }
    }
    forall v, st | others(st) ensures rel(v, Next(v, st)) { StepBeside(v, st, p); }
    Related(Next, others, rel, a, steps);
  }

  lemma DeletedStay(a: Database, b: Database)
    requires Grows(a, b)
    ensures a.deleted <= b.deleted && a.counter <= b.counter
  {
  }

  /** The upload became the archive, with a scan of it queued and no contents yet; nothing else changed. */
  predicate AdoptedFrom(a: Record, b: Record) {
    && a.pending.Some? && !a.pending.value.discarding && a.live && a.holds == 0 && Importable(a)
    && b == a.(archive := FileOf(a.pending), pending := None, contents := None, scan := b.scan)
    && b.scan.Some? && b.scan.value.file == a.pending.value.file && b.scan.value.status == Queued
  }

  /** The stopped import is queued again under another delivery; nothing else changed. */
  predicate ResumedFrom(a: Record, b: Record) {
    && a.work.Some? && (a.work.value.status == Cancelled || a.work.value.status == Failed) && b.work.Some?
    && a.archive == Some(a.work.value.archive)
    && b == a.(work := Some(a.work.value.(status := Queued, delivery := b.work.value.delivery)))
    && b.work.value.delivery != a.work.value.delivery
  }

  class DatasetRecord {
    var doc: Record
    var deleted: set<nat>
    var counter: nat
    ghost var fences: set<Fence>
    ghost var procs: map<Id, Proc>

    ghost function View(): World
      reads this
    {
      World(Database(doc, deleted, counter, fences), procs)
    }

    /** Any number of steps of other requests and workers. */
    method Interfere(ghost p: Id)
      modifies this
      ensures Reaches(Next, (st: Step) => !By(st, p), old(View()), View())
    {
      ReachesItself(Next, (st: Step) => !By(st, p), View());
    }

    /** The others run between two calls of a request of p that began at `start`. */
    method Pause(ghost p: Id, ghost start: Database)
      requires Inv(View()) && Grows(start, View().db)
      modifies this
      ensures Inv(View()) && Grows(start, View().db) && Grows(old(View()).db, View().db)
      ensures (p in procs <==> p in old(procs)) && (p in procs ==> procs[p] == old(procs)[p])
    {
      hide Inv, Grows, Next;
      ghost var before := View();
      Interfere(p);
      RunsBeside(before, View(), p);
      GrowsOn(start, before.db, View().db);
    }

    ghost method Took(before: World, st: Step, start: Database)
      requires Inv(before) && Grows(start, before.db) && View() == Next(before, st)
      ensures Inv(View()) && Grows(start, View().db) && Grows(before.db, View().db)
    {
      hide Inv, Next, Grows;
      InvNext(before, st);
      GrowsOn(start, before.db, View().db);
    }

    /** Read the record. */
    method Load(ghost st: Step, ghost proc: Proc, ghost p: Id, ghost start: Database) returns (base: Record)
      requires Inv(View()) && Grows(start, View().db) && p !in procs
      requires !IsElsewhere(st) && st.p == p && Begun(View().db, st) == Some(proc)
      modifies this`procs
      ensures Inv(View()) && Grows(start, View().db) && View() == Next(old(View()), st)
      ensures base == doc && p in procs && procs[p] == proc
    {
      hide Inv, Grows, Begun;
      ghost var before := View();
      base := doc;
      procs := procs[p := proc];
      Took(before, st, start);
    }

    /** Delete a file from storage, the last call of a request that replaced it. */
    method DropFile(file: nat, ghost p: Id, ghost start: Database)
      requires Inv(View()) && Grows(start, View().db) && p in procs && procs[p] == Dropping(file)
      modifies this
      ensures Inv(View()) && Grows(start, View().db) && p !in procs && file in deleted
    {
      hide Inv, Grows;
      ghost var before := View();
      deleted := deleted + {file};
      procs := procs - {p};
      Took(before, DeleteBytes(p), start);
    }

    // ---------------------------------------------------------------- createArchiveUpload

    method ReserveUpload(base: Record, ghost same: bool, ghost p: Id, ghost start: Database) returns (file: Option<nat>)
      requires Inv(View()) && Grows(start, View().db) && p in procs && procs[p] == Creating(base, same)
      requires MayReplace(base)
      modifies this
      ensures Inv(View()) && Grows(start, View().db)
      ensures file.Some? <==> Unchanged(old(doc), base)
      ensures file.Some? ==> file.value == old(counter) && doc == old(doc).(pending := Some(Upload(file.value, false)))
      ensures if file.Some? && base.pending.Some? then p in procs && procs[p] == Dropping(base.pending.value.file) else p !in procs
    {
      hide Inv, Grows;
      ghost var before := View();
      if Unchanged(doc, base) {
        file := Some(counter);
        doc := doc.(pending := Some(Upload(counter, false)));
        counter := counter + 1;
        procs := if base.pending.Some? then procs[p := Dropping(base.pending.value.file)] else procs - {p};
      } else {
        file := None;
        procs := procs - {p};
      }
      Took(before, ReserveFile(p), start);
    }

    ghost method Leave(st: Step, p: Id, start: Database)
      requires Inv(View()) && Grows(start, View().db) && p in procs && !IsElsewhere(st) && st.p == p && !st.Crash?
      requires Moved(View().db, st, procs[p]) == (View().db, None)
      modifies this`procs
      ensures Inv(View()) && Grows(start, View().db) && p !in procs
    {
      hide Inv, Grows, Moved;
      ghost var before := View();
      procs := procs - {p};
      Took(before, st, start);
    }

    /**
     Reserve a file for an upload. `same`: it is the file of the upload under way, which can be resumed. A
     reservation turns the record it found, `before`, into one that names a file never used before and is
     otherwise the same; the upload it abandons has been deleted. There is none only when that upload is resumed, or
     the record as it was `read` may not be replaced, or it is no longer as it was read.
     */
    method CreateUpload(same: bool, ghost p: Id)
      returns (file: Option<nat>, ghost before: Record, ghost after: Record, ghost read: Record)
      requires Inv(View()) && p !in procs
      modifies this
      ensures Inv(View()) && Grows(old(View()).db, View().db) && p !in procs
      ensures file.Some? ==> file.value >= old(counter) && after == before.(pending := Some(Upload(file.value, false)))
      ensures file.Some? ==> MayReplace(before) && before.live
      ensures file.Some? && before.pending.Some? ==> before.pending.value.file in deleted
      ensures file.Some? <==> MayReplace(read) && !(same && read.pending.Some?) && Unchanged(before, read)
    {
      hide Inv, Next, Grows;
      ghost var start := View().db;
      GrowsItself(start);
      Pause(p, start);
      before, after, read := doc, doc, doc;
      var base := Load(BeginCreate(p, same && doc.pending.Some?), Creating(doc, same && doc.pending.Some?), p, start);
      Pause(p, start);
      if !MayReplace(base) {
        Leave(ReserveFile(p), p, start);
        file := None;
        return;
      }
      if same && base.pending.Some? {
        Leave(Extend(p), p, start);
        file := None;
        return;
      }
      ghost var now := View().db;
      DeletedStay(start, now);
      before := doc;
      file := ReserveUpload(base, same && base.pending.Some?, p, start);
      after := doc;
      if file.Some? && base.pending.Some? {
        Pause(p, start);
        DropFile(base.pending.value.file, p, start);
      }
    }

    // ---------------------------------------------------------------- discardArchiveUpload

    method ClaimUpload(base: Record, ghost p: Id, ghost start: Database) returns (claimed: bool)
      requires Inv(View()) && Grows(start, View().db) && p in procs && procs[p] == Discarding(base) && base.pending.Some?
      modifies this
      ensures Inv(View()) && Grows(start, View().db)
      ensures claimed <==> Claimable(old(doc), base)
      ensures if claimed then p in procs && procs[p] == Claimed(base.pending.value.file) else p !in procs
    {
      hide Inv, Grows;
      ghost var before := View();
      claimed := Claimable(doc, base);
      if claimed {
        doc := doc.(pending := Some(doc.pending.value.(discarding := true)));
        procs := procs[p := Claimed(base.pending.value.file)];
      } else {
        procs := procs - {p};
      }
      Took(before, ClaimDiscard(p), start);
    }

    method EmptyUpload(file: nat, ghost p: Id, ghost start: Database)
      requires Inv(View()) && Grows(start, View().db) && p in procs && procs[p] == Claimed(file)
      modifies this
      ensures Inv(View()) && Grows(start, View().db) && p in procs && procs[p] == Emptied(file) && file in deleted
    {
      hide Inv, Grows;
      ghost var before := View();
      deleted := deleted + {file};
      procs := procs[p := Emptied(file)];
      Took(before, DeleteBytes(p), start);
    }

    method ClearUpload(file: nat, ghost p: Id, ghost start: Database) returns (cleared: bool)
      requires Inv(View()) && Grows(start, View().db) && p in procs && procs[p] == Emptied(file)
      modifies this
      ensures Inv(View()) && Grows(start, View().db) && p !in procs && deleted == old(deleted)
      ensures FileOf(doc.pending) == Some(file) ==> !cleared && !doc.pending.value.discarding
    {
      hide Inv, Grows;
      ghost var before := View();
      cleared := doc.pending == Some(Upload(file, true));
      if cleared { doc := doc.(pending := None); }
      procs := procs - {p};
      Took(before, ClearPending(p), start);
    }

    /**
     Give up on an upload. Its bytes are deleted and it is no longer the dataset's; the archive is not touched. The
     bytes are deleted whenever the record as it was `read` has an upload and was `found` with it and its archive.
     */
    method DiscardUpload(ghost p: Id) returns (gone: Option<nat>, ghost read: Record, ghost found: Record)
      requires Inv(View()) && p !in procs
      modifies this
      ensures Inv(View()) && Grows(old(View()).db, View().db) && p !in procs
      ensures gone.Some? ==> gone.value in deleted && doc.archive != gone && FileOf(doc.pending) != gone && FileOf(read.pending) == gone
      ensures gone == None ==> !Claimable(found, read) || read.pending.value.file in deleted
    {
      hide Inv, Next, Grows;
      ghost var start := View().db;
      GrowsItself(start);
      Pause(p, start);
      var base := Load(BeginDiscard(p), Discarding(doc), p, start);
      Pause(p, start);
      read, found := base, doc;
      if base.pending == None {
        Leave(ClaimDiscard(p), p, start);
        return None, read, found;
      }
      var file := base.pending.value.file;
      var claimed := ClaimUpload(base, p, start);
      if !claimed { return None, read, found; }
      Pause(p, start);
      EmptyUpload(file, p, start);
      ghost var before := View().db;
      Pause(p, start);
      DeletedStay(before, View().db);
      var cleared := ClearUpload(file, p, start);
      if !cleared { return None, read, found; }
      DeletedIsGone(View(), file);
      gone := Some(file);
    }

    // ---------------------------------------------------------------- completeArchiveUpload

    method AdoptPending(base: Record, ghost p: Id, ghost start: Database) returns (adopted: bool)
      requires Inv(View()) && Grows(start, View().db) && p in procs && procs[p] == Completing(base)
      requires base.pending.Some? && MayReplace(base)
      modifies this
      ensures Inv(View()) && Grows(start, View().db)
      ensures adopted <==> Unchanged(old(doc), base)
      ensures adopted ==> AdoptedFrom(old(doc), doc)
      ensures if adopted && base.archive.Some? && base.archive != FileOf(base.pending)
              then p in procs && procs[p] == Dropping(base.archive.value) else p !in procs
    {
      hide Inv, Grows;
      ghost var before := View();
      adopted := Unchanged(doc, base);
      if adopted {
        var file := base.pending.value.file;
        doc := doc.(archive := Some(file), pending := None, contents := None, scan := Some(Scan(file, Some(counter), Queued)));
        counter := counter + 1;
        procs := if base.archive.Some? && base.archive.value != file then procs[p := Dropping(base.archive.value)] else procs - {p};
      } else {
        procs := procs - {p};
      }
      Took(before, Adopt(p), start);
    }

    /**
     Adopt the uploaded zip. `arrived`: its bytes are in storage. The record found, `before`, becomes one whose
     archive is its upload; the archive it had is deleted and is never the archive again. It is adopted exactly when
     its bytes are there, the record as it was `read` has an upload and may be replaced, and is still as it was read.
     */
    method CompleteUpload(arrived: bool, ghost p: Id)
      returns (adopted: bool, ghost before: Record, ghost after: Record, ghost read: Record)
      requires Inv(View()) && p !in procs
      modifies this
      ensures Inv(View()) && Grows(old(View()).db, View().db) && p !in procs
      ensures adopted ==> arrived && AdoptedFrom(before, after)
      ensures adopted && before.archive.Some? && before.archive != after.archive ==>
        before.archive.value in deleted && doc.archive != before.archive
      ensures adopted <==> arrived && read.pending.Some? && MayReplace(read) && Unchanged(before, read)
    {
      hide Inv, Next, Grows;
      ghost var start := View().db;
      GrowsItself(start);
      Pause(p, start);
      before, after, read := doc, doc, doc;
      var base := Load(BeginComplete(p), Completing(doc), p, start);
      Pause(p, start);
      if base.pending == None || !MayReplace(base) {
        Leave(Adopt(p), p, start);
        adopted := false;
        return;
      }
      if !arrived {
        Abandon(p, start);
        adopted := false;
        return;
      }
      before := doc;
      adopted := AdoptPending(base, p, start);
      after := doc;
      if adopted && base.archive.Some? && base.archive.value != base.pending.value.file {
        Pause(p, start);
        DropFile(base.archive.value, p, start);
        DeletedIsGone(View(), base.archive.value);
      }
    }

    /** The request ends with an error before touching the record. */
    ghost method Abandon(p: Id, start: Database)
      requires Inv(View()) && Grows(start, View().db) && p in procs
      modifies this`procs
      ensures Inv(View()) && Grows(start, View().db) && p !in procs
    {
      hide Inv, Grows, Moved, Begun;
      ghost var before := View();
      procs := procs - {p};
      Took(before, Crash(p), start);
    }

    // ---------------------------------------------------------------- imports

    /** Queue an import of the archive: exactly when the record read has one, nobody holds or imports it, and it is `found` so still. */
    method StartImporting(ghost p: Id) returns (started: bool, ghost read: Record, ghost found: Record)
      requires Inv(View()) && p !in procs
      modifies this
      ensures Inv(View()) && Grows(old(View()).db, View().db) && p !in procs
      ensures started ==> doc.work.Some? && doc.work.value.status == Queued && doc.archive == Some(doc.work.value.archive)
      ensures started <==> Startable(found, read)
    {
      hide Inv, Next, Grows, Moved;
      ghost var start := View().db;
      GrowsItself(start);
      Pause(p, start);
      var base := Load(BeginStart(p), Starting(doc), p, start);
      Pause(p, start);
      read, found := base, doc;
      started := PutImport(base, p, start);
    }

    method PutImport(base: Record, ghost p: Id, ghost start: Database) returns (started: bool)
      requires Inv(View()) && Grows(start, View().db) && p in procs && procs[p] == Starting(base)
      modifies this
      ensures Inv(View()) && Grows(start, View().db) && p !in procs
      ensures started <==> Startable(old(doc), base)
      ensures started ==> doc.work.Some? && doc.work.value.status == Queued && doc.archive == Some(doc.work.value.archive)
    {
      hide Inv, Grows;
      ghost var before := View();
      started := Startable(doc, base);
      if started {
        doc := doc.(work := Some(Import(counter, Queued, base.archive.value, None, 0)));
        fences := fences + {Fence(counter, None)};
        counter := counter + 1;
      }
      procs := procs - {p};
      Took(before, StartImport(p), start);
    }

    /**
     Queue a stopped import again: the record found, `before`, becomes the same with the import queued under a
     new delivery, and the fence the import had is outdated for good. That is exactly when the record as it was `read`
     has a stopped import of its archive that nobody holds, and is still so.
     */
    method ResumeImporting(ghost p: Id) returns (resumed: bool, ghost before: Record, ghost read: Record)
      requires Inv(View()) && p !in procs
      modifies this
      ensures Inv(View()) && Grows(old(View()).db, View().db) && p !in procs
      ensures resumed ==> ResumedFrom(before, doc)
      ensures resumed ==> Outdated(View().db, Fence(before.work.value.id, before.work.value.delivery))
      ensures resumed <==> Resumable(before, read)
    {
      hide Inv, Next, Grows, Moved, Resumable;
      ghost var start := View().db;
      GrowsItself(start);
      Pause(p, start);
      var base := Load(BeginResume(p), Resuming(doc), p, start);
      Pause(p, start);
      before, read := doc, base;
      resumed := PutResumed(base, p, start);
    }

    method PutResumed(base: Record, ghost p: Id, ghost start: Database) returns (resumed: bool)
      requires Inv(View()) && Grows(start, View().db) && p in procs && procs[p] == Resuming(base)
      modifies this
      ensures Inv(View()) && Grows(start, View().db) && p !in procs
      ensures resumed <==> Resumable(old(doc), base)
      ensures resumed ==> ResumedFrom(old(doc), doc)
      ensures resumed ==> Outdated(View().db, Fence(old(doc).work.value.id, old(doc).work.value.delivery))
    {
      hide Inv, Grows, Moved;
      ghost var before := View();
      resumed := Resumable(doc, base);
      if resumed {
        var work := doc.work.value;
        FenceIssued(before);
        ResumedArchive(before, p);
        doc := doc.(work := Some(work.(status := Queued, delivery := Some(counter))));
        fences := fences + {Fence(work.id, Some(counter))};
        counter := counter + 1;
      }
      procs := procs - {p};
      ResumeStep(before, View(), p, base);
      Took(before, ResumeImport(p), start);
    }
  }

  lemma FenceIssued(w: World)
    requires Inv(w) && w.db.doc.work.Some?
    ensures Fence(w.db.doc.work.value.id, w.db.doc.work.value.delivery) in w.db.fences
    ensures Issued(Fence(w.db.doc.work.value.id, w.db.doc.work.value.delivery), w.db.counter)
  {
  }

  lemma ResumedArchive(w: World, p: Id)
    requires Inv(w) && p in w.procs && w.procs[p].Resuming? && Resumable(w.db.doc, w.procs[p].base)
    ensures w.db.doc.archive == Some(w.db.doc.work.value.archive)
  {
    assert Knows(w.db, w.procs[p]);
  }

  lemma ResumeStep(a: World, b: World, p: Id, base: Record)
    requires p in a.procs && a.procs[p] == Resuming(base) && b.procs == a.procs - {p}
    requires b.db == if Resumable(a.db.doc, base) then Resume(a.db) else a.db
    ensures b == Next(a, ResumeImport(p))
  {
  }
}
