/**
 Flushing notices, appending messages and changing the membership as the chat service writes them: one
 database call after the other, with every other request and worker free to run between any two of them.
 */
module ConversationService {
  import opened Common
  import opened Machine
  import opened Room
  import opened SharedAssistants
  import opened ConversationLog
  import opened ConversationInvariants
  import opened ConversationGuarantees

  predicate By(st: Step, p: Id) {
    !st.Tick? && st.p == p
  }

  /** p stands in b where it stood in a, and the room has only moved forward. */
  ghost predicate Beside(a: World, b: World, p: Id) {
    Inv(a) ==> Inv(b) && Grows(a.room, b.room) && (p in b.procs <==> p in a.procs) && (p in a.procs ==> b.procs[p] == a.procs[p])
  }

  lemma StepBeside(w: World, st: Step, p: Id)
    requires !By(st, p)
    ensures Beside(w, Next(w, st), p)
  {
    hide Inv, Moved, Grows, Begun;
    if Inv(w) { InvNext(w, st); }
  }

  lemma RunsBeside(a: World, b: World, p: Id)
    requires Reaches(Next, (st: Step) => !By(st, p), a, b)
    ensures Beside(a, b, p)
  {
    hide Next, Inv, Grows, By;
    var others := (st: Step) => !By(st, p);
    var rel := (x: World, y: World) => Beside(x, y, p);
    var steps: seq<Step> :| (forall st | st in steps :: others(st)) && b == After(Next, a, steps);
    GrowsItself(a.room);
    forall x, y, z | rel(x, y) && rel(y, z) ensures rel(x, z) {
      if Inv(x) { GrowsOn(x.room, y.room, z.room); }
    }
    forall v, st | others(st) ensures rel(v, Next(v, st)) { StepBeside(v, st, p); }
    Related(Next, others, rel, a, steps);
  }

  /** A draft this sender may append: fenced by the room as loaded, and quoting only what all active there could see. */
  predicate MaySend(base: Doc, user: Id, id: ClientId, reply: Option<ClientId>, draft: Draft) {
    && draft.id == id && draft.sender == Some(user) && draft.expected == Some(base.version) && (draft.quote.Some? <==> reply.Some?)
    && (draft.quote.Some? ==> Sees(base.seats, user, draft.quote.value) && SeenByAll(base.seats, draft.quote.value))
  }

  lemma CheckedMay(r: Chat, user: Id, id: ClientId, reply: Option<ClientId>, base: Doc)
    ensures id in r.log ==> Checked(r, user, id, reply, base) == None
    ensures Checked(r, user, id, reply, base).Some? ==> MaySend(base, user, id, reply, Checked(r, user, id, reply, base).value)
  {
  }

  /** Why there is no draft: the sender is not active, the client id is another's, or someone active cannot see what is quoted. */
  predicate MayNotSend(base: Doc, log: map<ClientId, Entry>, user: Id, id: ClientId, reply: Option<ClientId>) {
    || !Present(base.seats, user)
    || (id in log && log[id].sender != Some(user))
    || (reply.Some? && (reply.value !in log ||
          exists i :: 0 <= i < |base.seats| && base.seats[i].state == Active && !Sees(base.seats, base.seats[i].user, log[reply.value].number)))
  }

  lemma InactiveMayNot(w: World, user: Id, id: ClientId, reply: Option<ClientId>)
    requires Inv(w) && !IsActive(w.room.doc.seats, user)
    ensures MayNotSend(w.room.doc, w.room.log, user, id, reply)
  {
    if Present(w.room.doc.seats, user) {
      var i :| 0 <= i < |w.room.doc.seats| && w.room.doc.seats[i].user == user && w.room.doc.seats[i].state == Active;
      FindsOnly(w.room.doc.seats, user, i);
    }
  }

  lemma UncheckedMayNot(w: World, p: Id, user: Id, id: ClientId, reply: Option<ClientId>, base: Doc)
    requires Inv(w) && p in w.procs && w.procs[p] == Composing(user, id, reply, base)
    ensures Checked(w.room, user, id, reply, base) == None ==>
      (id in w.room.log && w.room.log[id].sender == Some(user)) || MayNotSend(base, w.room.log, user, id, reply)
  {
    if Checked(w.room, user, id, reply, base) == None && id !in w.room.log && reply.value in w.room.log && Present(base.seats, user) {
      var n := w.room.log[reply.value].number;
      var i :| 0 <= i < |base.seats| && base.seats[i].user == user && base.seats[i].state == Active;
      FindsOnly(base.seats, user, i);
      if Sees(base.seats, user, n) {
        var j :| 0 <= j < |base.seats| && base.seats[j].state == Active && n <= base.seats[j].joinedSeq;
        FindsOnly(base.seats, base.seats[j].user, j);
        assert !Sees(base.seats, base.seats[j].user, n);
      } else {
        assert !Sees(base.seats, base.seats[i].user, n);
      }
    }
  }

  class Conversations {
    var now: nat
    var doc: Doc
    var log: map<ClientId, Entry>
    ghost var allotted: seq<Allotment>
    ghost var joined: map<Id, nat>
    ghost var given: map<Id, nat>
    ghost var reset: nat
    var cards: map<Id, Card>
    ghost var shown: map<Id, Card>
    ghost var procs: map<Id, Proc>

    ghost function View(): World
      reads this
    {
      World(Chat(now, doc, log, allotted, joined, given, reset, cards, shown), procs)
    }

    /** Any number of steps of other requests and workers. */
    method Interfere(ghost p: Id)
      modifies this
      ensures Reaches(Next, (st: Step) => !By(st, p), old(View()), View())
    {
      ReachesItself(Next, (st: Step) => !By(st, p), View());
    }

    /** The others run between two calls of a procedure of p that began at `start`. */
    method Pause(ghost p: Id, ghost start: Chat)
      requires Inv(View()) && Grows(start, View().room)
      modifies this
      ensures Inv(View()) && Grows(start, View().room) && Grows(old(View()).room, View().room)
      ensures (p in procs <==> p in old(procs)) && (p in procs ==> procs[p] == old(procs)[p])
    {
      hide Inv, Grows, Next;
      ghost var before := View();
      Interfere(p);
      RunsBeside(before, View(), p);
      GrowsOn(start, before.room, View().room);
    }

    /** A step of p already carried out on the fields. */
    ghost method Took(before: World, st: Step, start: Chat)
      requires Inv(before) && Grows(start, before.room) && View() == Next(before, st)
      ensures Inv(View()) && Grows(start, View().room) && Grows(before.room, View().room)
    {
      hide Inv, Next, Grows;
      InvNext(before, st);
      GrowsOn(start, before.room, View().room);
    }

    // ---------------------------------------------------------------- flushMembershipEvents

    method ReadPending(ghost task: Task, ghost p: Id, ghost start: Chat) returns (pending: seq<Event>)
      requires Inv(View()) && Grows(start, View().room) && p in procs && procs[p] == ToFlush(task)
      modifies this`procs
      ensures Inv(View()) && Grows(start, View().room) && View() == Next(old(View()), ReadEvents(p))
      ensures p in procs && procs[p] == Flushing(pending, false, task) && pending == doc.events
    {
      hide Inv, Grows;
      ghost var before := View();
      pending := doc.events;
      procs := procs[p := Flushing(pending, false, task)];
      Took(before, ReadEvents(p), start);
    }

    /** Insert the notice unless its client id is there. */
    method UpsertNotice(ghost pending: seq<Event>, e: Event, ghost task: Task, ghost p: Id, ghost start: Chat)
      requires Inv(View()) && Grows(start, View().room) && p in procs && procs[p] == Flushing(pending, false, task)
      requires pending != [] && pending[0] == e
      modifies this
      ensures Inv(View()) && Grows(start, View().room) && View() == Next(old(View()), InsertNotice(p))
      ensures p in procs && procs[p] == Flushing(pending, true, task) && Notice(e.version) in log
      ensures Grows(old(View()).room, View().room)
    {
      hide Inv, Grows;
      ghost var before := View();
      if Notice(e.version) !in log {
        log := log[Notice(e.version) := Entry(e.number, None, None)];
      }
      procs := procs[p := Flushing(pending, true, task)];
      Took(before, InsertNotice(p), start);
    }

    method PullEvent(ghost pending: seq<Event>, e: Event, ghost task: Task, ghost p: Id, ghost start: Chat)
      requires Inv(View()) && Grows(start, View().room) && p in procs && procs[p] == Flushing(pending, true, task)
      requires pending != [] && pending[0] == e
      modifies this
      ensures Inv(View()) && Grows(start, View().room) && View() == Next(old(View()), PullNotice(p))
      ensures p in procs && procs[p] == Flushing(pending[1..], false, task) && log == old(log)
    {
      hide Inv, Grows;
      ghost var before := View();
      doc := doc.(events := Without(doc.events, e.version), last := Max(doc.last, e.number));
      procs := procs[p := Flushing(pending[1..], false, task)];
      Took(before, PullNotice(p), start);
    }

    /** One notice: into the log, then off the document. */
    method FlushOne(pending: seq<Event>, ghost task: Task, ghost p: Id, ghost start: Chat)
      requires Inv(View()) && Grows(start, View().room) && p in procs && procs[p] == Flushing(pending, false, task) && pending != []
      modifies this
      ensures Inv(View()) && Grows(start, View().room) && Grows(old(View()).room, View().room)
      ensures p in procs && procs[p] == Flushing(pending[1..], false, task) && Notice(pending[0].version) in log
    {
      hide Inv, Next, Grows, InLog;
      ghost var first := View();
      Pause(p, start);
      ghost var before := View();
      UpsertNotice(pending, pending[0], task, p, start);
      GrowsOn(first.room, before.room, View().room);
      before := View();
      Pause(p, start);
      LogGrows(before.room, View().room);
      GrowsOn(first.room, before.room, View().room);
      before := View();
      PullEvent(pending, pending[0], task, p, start);
      InvNext(before, PullNotice(p));
      GrowsOn(first.room, before.room, View().room);
    }

    /** Bring every notice waiting on the document into the log, then clear it. */
    method FlushMembershipEvents(ghost task: Task, ghost p: Id, ghost start: Chat)
      requires Inv(View()) && Grows(start, View().room) && p in procs && procs[p] == ToFlush(task)
      modifies this
      ensures Inv(View()) && Grows(start, View().room) && Grows(old(View()).room, View().room)
      ensures p in procs && procs[p] == Flushing([], false, task)
      ensures forall e | e in old(doc.events) :: Notice(e.version) in log
      ensures forall n: nat | n < |old(allotted)| && old(allotted)[n].ForNotice? :: Notice(old(allotted)[n].version) in log
    {
      hide Inv, Next, Grows, InLog;
      ghost var first := View();
      Pause(p, start);
      ghost var found := View();
      var pending := ReadPending(task, p, start);
      GrowsItself(found.room);
      var i := 0;
      while i < |pending|
        invariant i <= |pending| && Inv(View()) && Grows(start, View().room) && Grows(found.room, View().room)
        invariant p in procs && procs[p] == Flushing(pending[i..], false, task)
        invariant forall k | 0 <= k < i :: Notice(pending[k].version) in log
      {
        ghost var before := View();
        FlushOne(pending[i..], task, p, start);
        LogGrows(before.room, View().room);
        GrowsOn(found.room, before.room, View().room);
        i := i + 1;
      }
      GrowsOn(first.room, found.room, View().room);
      AllInLog(first, found, View());
    }

    // ---------------------------------------------------------------- appendMessage

    method FindMessage(draft: Draft, ghost p: Id, ghost start: Chat) returns (found: bool)
      requires Inv(View()) && Grows(start, View().room) && p in procs && procs[p] == Flushing([], false, Appending(draft))
      modifies this`procs
      ensures Inv(View()) && Grows(start, View().room) && View() == Next(old(View()), FindExisting(p))
      ensures p in procs && procs[p] == if found then Raising(draft.id) else Reserving(draft)
      ensures found <==> draft.id in log
    {
      hide Inv, Grows;
      ghost var before := View();
      found := draft.id in log;
      procs := procs[p := if found then Raising(draft.id) else Reserving(draft)];
      Took(before, FindExisting(p), start);
    }

    /** The next number, unless the fence has moved. */
    method ReserveNumber(draft: Draft, ghost p: Id, ghost start: Chat) returns (number: Option<nat>)
      requires Inv(View()) && Grows(start, View().room) && p in procs && procs[p] == Reserving(draft)
      modifies this
      ensures Inv(View()) && Grows(start, View().room) && View() == Next(old(View()), Reserve(p))
      ensures number.Some? <==> draft.expected == None || draft.expected.value == old(doc).version
      ensures if number.Some? then p in procs && procs[p] == Reserved(draft, number.value) else p !in procs
      ensures number.Some? ==> number.value == old(doc).number + 1 && number.value == |allotted| && allotted[number.value - 1] == ForMessage(draft.expected.Some?)
      ensures log == old(log) && (number == None ==> doc == old(doc))
    {
      ghost var before := View();
      LengthIsNumber(View().room);
      hide Inv, Grows;
      if draft.expected.Some? && draft.expected.value != doc.version {
        number := None;
        procs := procs - {p};
      } else {
        number := Some(doc.number + 1);
        doc := doc.(number := doc.number + 1);
        allotted := allotted + [ForMessage(draft.expected.Some?)];
        procs := procs[p := Reserved(draft, doc.number)];
      }
      Took(before, Reserve(p), start);
    }

    /** The insert; a duplicate client id means the message is there already. */
    method InsertMessage(draft: Draft, number: nat, ghost p: Id, ghost start: Chat)
      requires Inv(View()) && Grows(start, View().room) && p in procs && procs[p] == Reserved(draft, number)
      modifies this
      ensures Inv(View()) && Grows(start, View().room) && View() == Next(old(View()), Insert(p))
      ensures p in procs && procs[p] == Raising(draft.id) && draft.id in log
      ensures draft.id !in old(log) ==> log[draft.id] == Entry(number, draft.sender, draft.quote)
    {
      hide Inv, Grows;
      ghost var before := View();
      if draft.id !in log {
        log := log[draft.id := Entry(number, draft.sender, draft.quote)];
      }
      procs := procs[p := Raising(draft.id)];
      Took(before, Insert(p), start);
    }

    method RaiseLast(id: ClientId, ghost p: Id, ghost start: Chat) returns (entry: Entry)
      requires Inv(View()) && Grows(start, View().room) && p in procs && procs[p] == Raising(id) && id in log
      modifies this
      ensures Inv(View()) && Grows(start, View().room) && View() == Next(old(View()), Raise(p))
      ensures p !in procs && id in log && log[id] == entry && entry == old(log)[id] && doc.last >= entry.number
    {
      hide Inv, Grows;
      ghost var before := View();
      entry := log[id];
      doc := doc.(last := Max(doc.last, entry.number));
      procs := procs - {p};
      Took(before, Raise(p), start);
    }

    /**
     Append a message. `None` when it was fenced and the version had moved on. Otherwise the one message
     its client id names, which is the one that was there if any was, and a message of this draft if not;
     everything before a fenced message that announces a membership change is in the log.
     */
    method AppendMessage(draft: Draft, ghost p: Id, ghost start: Chat) returns (message: Option<Entry>)
      requires Inv(View()) && Grows(start, View().room) && p in procs && procs[p] == ToFlush(Appending(draft))
      modifies this
      ensures Inv(View()) && Grows(start, View().room) && Grows(old(View()).room, View().room) && p !in procs
      ensures message.Some? ==> draft.id in log && log[draft.id] == message.value && doc.last >= message.value.number
      ensures draft.id in old(log) ==> message == Some(old(log)[draft.id])
      ensures message == None ==> draft.expected.Some? && draft.expected.value != doc.version
      ensures forall n: nat | n < |old(allotted)| && old(allotted)[n].ForNotice? :: Notice(old(allotted)[n].version) in log
    {
      hide Inv, Next, Grows;
      ghost var first := View();
      FlushMembershipEvents(Appending(draft), p, start);
      LogGrows(first.room, View().room);
      ghost var before := View();
      Pause(p, start);
      OnAndLog(first.room, before.room, View().room);
      before := View();
      var found := FindMessage(draft, p, start);
      InvNext(before, FindExisting(p));
      OnAndLog(first.room, before.room, View().room);
      before := View();
      Pause(p, start);
      OnAndLog(first.room, before.room, View().room);
      if !found {
        before := View();
        var number := ReserveNumber(draft, p, start);
        InvNext(before, Reserve(p));
        OnAndLog(first.room, before.room, View().room);
        if number == None { return None; }
        before := View();
        Pause(p, start);
        OnAndLog(first.room, before.room, View().room);
        before := View();
        InsertMessage(draft, number.value, p, start);
        InvNext(before, Insert(p));
        OnAndLog(first.room, before.room, View().room);
        before := View();
        Pause(p, start);
        OnAndLog(first.room, before.room, View().room);
      }
      before := View();
      var entry := RaiseLast(draft.id, p, start);
      InvNext(before, Raise(p));
      OnAndLog(first.room, before.room, View().room);
      message := Some(entry);
    }

    // ---------------------------------------------------------------- membership

    method LoadForChange(change: Change, ghost p: Id, ghost start: Chat) returns (base: Doc)
      requires Inv(View()) && Grows(start, View().room) && p !in procs
      modifies this`procs
      ensures Inv(View()) && Grows(start, View().room) && View() == Next(old(View()), BeginChange(p, change))
      ensures base == doc && p in procs && procs[p] == ToFlush(Changing(change, base)) && View().room == old(View()).room
    {
      hide Inv, Grows;
      ghost var before := View();
      base := doc;
      procs := procs[p := ToFlush(Changing(change, base))];
      Took(before, BeginChange(p, change), start);
    }

    /** The save of a change decided on `base`, guarded by its version and its sequence number. */
    method SaveWithAudit(change: Change, base: Doc, at: nat, outcome: Outcome, ghost p: Id, ghost start: Chat) returns (saved: bool)
      requires Inv(View()) && Grows(start, View().room) && p in procs && procs[p] == Flushing([], false, Changing(change, base))
      requires at <= now && outcome == Apply(base.seats, change, at, base.number)
      modifies this
      ensures Inv(View()) && Grows(start, View().room) && View() == Next(old(View()), Save(p, at))
      ensures saved <==> outcome.Changed? && base.lock == old(doc).lock && base.number == old(doc).number
      ensures if saved then p in procs && procs[p] == ToFlush(Nothing) else p !in procs
      ensures saved ==> doc.seats == outcome.seats && doc.version == base.version + 1
      ensures saved ==> allotted == old(allotted) + [ForNotice(doc.version, WhoAccepted(change))]
    {
      hide Inv, Grows, Apply;
      ghost var before := View();
      saved := outcome.Changed? && doc.lock == base.lock && doc.number == base.number;
      if saved {
        var version := base.version + 1;
        doc := doc.(lock := base.lock + 1, number := base.number + 1, version := version, seats := outcome.seats,
                    events := [Event(version, base.number + 1)]);
        allotted := allotted + [ForNotice(version, WhoAccepted(change))];
        joined := if WhoAccepted(change).Some? then joined[WhoAccepted(change).value := version] else joined;
        procs := procs[p := ToFlush(Nothing)];
      } else {
        procs := procs - {p};
      }
      Took(before, Save(p, at), start);
    }

    ghost method EndOfFlush(p: Id, start: Chat)
      requires Inv(View()) && Grows(start, View().room) && p in procs && procs[p] == Flushing([], false, Nothing)
      modifies this`procs
      ensures Inv(View()) && Grows(start, View().room) && p !in procs && View().room == old(View()).room
    {
      hide Inv, Grows;
      ghost var before := View();
      procs := procs - {p};
      Took(before, EndFlush(p), start);
    }

    /**
     Accept, decline, leave, invite or remove. When the change was saved, its notice is in the log when
     this returns: the answer is the version that announces it. It is saved exactly when the change, decided on the
     room as it was `loaded`, changes something, and neither that document nor its sequence had moved when it was
     `found` at the save.
     */
    method UpdateMembership(change: Change, ghost p: Id) returns (version: Option<nat>, ghost loaded: Chat, ghost found: Chat, ghost at: nat)
      requires Inv(View()) && p !in procs
      modifies this
      ensures Inv(View()) && Grows(old(View()).room, View().room) && p !in procs
      ensures version.Some? ==> Notice(version.value) in log
      ensures version.Some? ==> exists n :: |old(allotted)| <= n < |allotted| && allotted[n] == ForNotice(version.value, WhoAccepted(change))
      ensures Grows(old(View()).room, loaded) && Grows(loaded, found) && Grows(found, View().room)
      ensures version.Some? <==> (found.doc.lock == loaded.doc.lock && found.doc.number == loaded.doc.number
                                  && Apply(loaded.doc.seats, change, at, loaded.doc.number).Changed?)
      ensures version.Some? ==> version.value == loaded.doc.version + 1
    {
      hide Inv, Next, Grows, Apply;
      ghost var start := View().room;
      GrowsItself(start);
      Pause(p, start);
      loaded := View().room;
      GrowsItself(loaded);
      var base := LoadForChange(change, p, start);
      SameRoomGrows(loaded, View().room);
      ghost var before := View();
      FlushMembershipEvents(Changing(change, base), p, start);
      GrowsOn(loaded, before.room, View().room);
      before := View();
      Pause(p, start);
      GrowsOn(loaded, before.room, View().room);
      var time := now;
      at := time;
      var outcome := Apply(base.seats, change, time, base.number);
      before := View();
      found := before.room;
      var saved := SaveWithAudit(change, base, time, outcome, p, start);
      InvNext(before, Save(p, time));
      if !saved { return None, loaded, found, time; }
      AllottedGrows(start, before.room);
      ghost var n := |allotted| - 1;
      before := View();
      FlushMembershipEvents(Nothing, p, start);
      GrowsOn(found, before.room, View().room);
      HandedOut(before.room, View().room, n);
      before := View();
      Pause(p, start);
      GrowsOn(found, before.room, View().room);
      HandedOut(before.room, View().room, n);
      LogGrows(before.room, View().room);
      before := View();
      EndOfFlush(p, start);
      SameRoomGrows(before.room, View().room);
      GrowsOn(found, before.room, View().room);
      version := Some(base.version + 1);
    }

    // ---------------------------------------------------------------- sendMessage

    method LoadForSend(user: Id, id: nat, reply: Option<ClientId>, ghost p: Id, ghost start: Chat) returns (base: Doc)
      requires Inv(View()) && Grows(start, View().room) && p !in procs && IsActive(doc.seats, user)
      modifies this`procs
      ensures Inv(View()) && Grows(start, View().room) && View() == Next(old(View()), BeginSend(p, user, id, reply))
      ensures base == doc && p in procs && procs[p] == Composing(user, Chosen(id), reply, base)
    {
      hide Inv, Grows;
      ghost var before := View();
      base := doc;
      procs := procs[p := Composing(user, Chosen(id), reply, base)];
      Took(before, BeginSend(p, user, id, reply), start);
    }

    /** Whether the quoted message is visible to the sender and to everyone active when the room was loaded. */
    method CheckReply(user: Id, id: nat, reply: Option<ClientId>, base: Doc, ghost p: Id, ghost start: Chat) returns (draft: Option<Draft>)
      requires Inv(View()) && Grows(start, View().room) && p in procs && procs[p] == Composing(user, Chosen(id), reply, base)
      modifies this`procs
      ensures Inv(View()) && Grows(start, View().room) && View() == Next(old(View()), CheckSend(p))
      ensures draft.Some? ==> p in procs && procs[p] == ToFlush(Appending(draft.value))
      ensures draft == Checked(old(View()).room, user, Chosen(id), reply, base)
      ensures draft == None ==> p !in procs
      ensures log == old(log)
    {
      ghost var before := View();
      draft := None;
      if Chosen(id) !in log {
        if reply == None {
          draft := Some(Draft(Chosen(id), Some(user), Some(base.version), None));
        } else if reply.value in log && Sees(base.seats, user, log[reply.value].number) {
          var number := log[reply.value].number;
          var i := 0;
          while i < |base.seats| && (base.seats[i].state != Active || number > base.seats[i].joinedSeq)
            invariant i <= |base.seats|
            invariant forall j | 0 <= j < i && base.seats[j].state == Active :: number > base.seats[j].joinedSeq
          {
            i := i + 1;
          }
          if i == |base.seats| { draft := Some(Draft(Chosen(id), Some(user), Some(base.version), Some(number))); }
        }
      }
      assert draft == Checked(before.room, user, Chosen(id), reply, base);
      procs := if draft.Some? then procs[p := ToFlush(Appending(draft.value))] else procs - {p};
      hide Inv, Grows;
      Took(before, CheckSend(p), start);
    }

    /**
     Send a message, possibly quoting one: the draft is fenced by the version of the room as it was loaded
     (`base`), and quotes only what its sender and everyone active there could see. A draft is lost only when
     that version has passed; a message without a draft is the sender's own of before. There is neither only for
     a reason: the sender was not active, the client id is another's, or someone active could not see the message
     quoted, as the room was loaded and the log then `seen`.
     */
    method SendMessage(user: Id, id: nat, reply: Option<ClientId>, ghost p: Id)
      returns (message: Option<Entry>, ghost base: Doc, ghost draft: Option<Draft>, ghost seen: Chat)
      requires Inv(View()) && p !in procs
      modifies this
      ensures Inv(View()) && Grows(old(View()).room, View().room) && p !in procs
      ensures message.Some? ==> Chosen(id) in log && log[Chosen(id)] == message.value
      ensures draft.Some? ==> MaySend(base, user, Chosen(id), reply, draft.value)
      ensures draft.Some? && message == None ==> doc.version != base.version
      ensures draft == None && message.Some? ==> message.value.sender == Some(user)
      ensures draft == None && message == None ==> MayNotSend(base, seen.log, user, Chosen(id), reply)
      ensures Grows(old(View()).room, seen) && Grows(seen, View().room)
    {
      hide Inv, Next, Grows, Checked, MayNotSend;
      ghost var start := View().room;
      GrowsItself(start);
      Pause(p, start);
      base, draft, seen := doc, None, View().room;
      GrowsItself(seen);
      if !IsActive(doc.seats, user) {
        InactiveMayNot(View(), user, Chosen(id), reply);
        message := None;
        return;
      }
      var loaded := LoadForSend(user, id, reply, p, start);
      base := loaded;
      Pause(p, start);
      seen := View().room;
      CheckedMay(View().room, user, Chosen(id), reply, loaded);
      UncheckedMayNot(View(), p, user, Chosen(id), reply, loaded);
      message := if Chosen(id) in log && log[Chosen(id)].sender == Some(user) then Some(log[Chosen(id)]) else None;
      ghost var before := View();
      var composed := CheckReply(user, id, reply, loaded, p, start);
      InvNext(before, CheckSend(p));
      draft := composed;
      if composed.Some? {
        before := View();
        Pause(p, start);
        GrowsOn(seen, before.room, View().room);
        before := View();
        message := AppendMessage(composed.value, p, start);
        GrowsOn(seen, before.room, View().room);
      }
    }

    // ---------------------------------------------------------------- updateSharedAssistants

    method LoadForUpdate(user: Id, update: Update, ghost p: Id, ghost start: Chat) returns (base: Doc)
      requires Inv(View()) && Grows(start, View().room) && p !in procs && IsActive(doc.seats, user)
      modifies this`procs
      ensures Inv(View()) && Grows(start, View().room) && View() == Next(old(View()), BeginUpdate(p, user, update))
      ensures base == doc && p in procs && procs[p] == Updating(user, update, base) && View().room == old(View()).room
    {
      hide Inv, Grows;
      ghost var before := View();
      base := doc;
      procs := procs[p := Updating(user, update, base)];
      Took(before, BeginUpdate(p, user, update), start);
    }

    /** The assistant's card is written before the guarded save of the settings that list it. */
    method WriteCard(user: Id, update: Update, base: Doc, ghost p: Id, ghost start: Chat)
      requires Inv(View()) && Grows(start, View().room) && p in procs && procs[p] == Updating(user, update, base)
      requires update.AddAssistant? && Updated(base.sharing, base.seats, user, update).Some?
      modifies this
      ensures Inv(View()) && Grows(start, View().room) && View() == Next(old(View()), Disclose(p))
      ensures p in procs && procs[p] == Disclosed(user, update, base) && cards == old(cards)[update.bot := update.card]
    {
      hide Inv, Grows, Updated;
      ghost var before := View();
      cards := cards[update.bot := update.card];
      procs := procs[p := Disclosed(user, update, base)];
      Took(before, Disclose(p), start);
    }

    /**
     The save of new settings, guarded by the document's version: made exactly when the document is the one loaded and
     allows the change, which it then holds and nothing else. Sharing is off after any of them but a consent.
     */
    method SaveSharing(user: Id, update: Update, base: Doc, sharing: Option<Sharing>, ghost p: Id, ghost start: Chat) returns (saved: bool)
      requires Inv(View()) && Grows(start, View().room) && p in procs
      requires procs[p] == if update.AddAssistant? then Disclosed(user, update, base) else Updating(user, update, base)
      requires sharing == Updated(base.sharing, base.seats, user, update)
      modifies this
      ensures Inv(View()) && Grows(start, View().room) && View() == Next(old(View()), SaveUpdate(p))
      ensures saved <==> sharing.Some? && base.lock == old(doc).lock
      ensures saved <==> base.lock == old(doc).lock && Allowed(old(doc).sharing, old(doc).seats, user, update)
      ensures saved ==> Becomes(old(doc).sharing, old(doc).seats, user, update, doc.sharing)
      ensures doc == if saved then old(doc).(lock := old(doc).lock + 1, version := old(doc).version + 1, sharing := doc.sharing) else old(doc)
      ensures saved ==> p in procs && procs[p] == ToFlush(Appending(Draft(Policy(base.version + 1), Some(user), None, None)))
      ensures !saved ==> p !in procs
      ensures saved ==> doc.sharing == sharing.value && (!update.Agree? ==> !Enabled(doc.sharing, doc.seats))
    {
      hide Inv, Grows, Updated, Enabled, Allowed, Becomes;
      ghost var before := View();
      SavedExactly(before, p, user, update, base);
      saved := sharing.Some? && doc.lock == base.lock;
      if saved {
        var version := base.version + 1;
        doc := doc.(lock := base.lock + 1, version := version, sharing := sharing.value);
        given := if !update.Agree? then map[] else if update.enabled then given[user := version] else given - {user};
        reset := if !update.Agree? then version else reset;
        shown := if !update.Agree? then cards else shown;
        procs := procs[p := ToFlush(Appending(Draft(Policy(version), Some(user), None, None)))];
      } else {
        procs := procs - {p};
      }
      Took(before, SaveUpdate(p), start);
    }

    ghost method RefuseAdd(user: Id, update: Update, base: Doc, p: Id, start: Chat)
      requires Inv(View()) && Grows(start, View().room) && p in procs && procs[p] == Updating(user, update, base)
      requires update.AddAssistant? && Updated(base.sharing, base.seats, user, update) == None
      modifies this`procs
      ensures Inv(View()) && Grows(start, View().room) && p !in procs && View().room == old(View()).room
    {
      hide Inv, Grows, Updated;
      ghost var before := View();
      procs := procs - {p};
      Took(before, Disclose(p), start);
    }

    /** For an addition, its card is shown first, unless it is refused; nothing else is shown before it is saved. */
    method ShowCard(user: Id, update: Update, base: Doc, sharing: Option<Sharing>, ghost p: Id, ghost start: Chat) returns (ready: bool)
      requires Inv(View()) && Grows(start, View().room) && p in procs && procs[p] == Updating(user, update, base)
      requires sharing == Updated(base.sharing, base.seats, user, update)
      modifies this
      ensures Inv(View()) && Grows(start, View().room) && Grows(old(View()).room, View().room)
      ensures ready <==> !update.AddAssistant? || sharing.Some?
      ensures if ready then p in procs && procs[p] == (if update.AddAssistant? then Disclosed(user, update, base) else Updating(user, update, base))
              else p !in procs
    {
      hide Inv, Next, Grows, Updated;
      ghost var first := View();
      GrowsItself(first.room);
      ready := !update.AddAssistant? || sharing.Some?;
      if !ready {
        RefuseAdd(user, update, base, p, start);
      } else if update.AddAssistant? {
        WriteCard(user, update, base, p, start);
        InvNext(first, Disclose(p));
        ghost var before := View();
        Pause(p, start);
        GrowsOn(first.room, before.room, View().room);
      }
    }

    /**
     Change the shared assistants; the log says so under the version that it made. The change is saved exactly when the
     room as it was `loaded` allows it and had not moved when it was `found` at the save.
     */
    method UpdateSharedAssistants(user: Id, update: Update, ghost p: Id) returns (version: Option<nat>, ghost loaded: Chat, ghost found: Chat)
      requires Inv(View()) && p !in procs
      modifies this
      ensures Inv(View()) && Grows(old(View()).room, View().room) && p !in procs
      ensures version.Some? ==> Policy(version.value) in log && version.value > old(doc).version && version.value == loaded.doc.version + 1
      ensures Grows(old(View()).room, loaded) && Grows(loaded, found) && Grows(found, View().room)
      ensures version.Some? <==> found.doc.lock == loaded.doc.lock && Allowed(loaded.doc.sharing, loaded.doc.seats, user, update)
    {
      hide Inv, Next, Grows, Updated, Allowed, IsActive, Becomes, Enabled, Present, Leads;
      ghost var start := View();
      GrowsItself(start.room);
      Pause(p, start.room);
      loaded, found := View().room, View().room;
      GrowsItself(loaded);
      if !IsActive(doc.seats, user) {
        AbsentMayNot(View(), user, update);
        return None, loaded, found;
      }
      VersionRises(start, View());
      var base := LoadForUpdate(user, update, p, start.room);
      SameRoomGrows(loaded, View().room);
      ghost var before := View();
      Pause(p, start.room);
      GrowsOn(loaded, before.room, View().room);
      var sharing := Updated(base.sharing, base.seats, user, update);
      LoadedExactly(View(), p, user, update, base);
      before := View();
      var ready := ShowCard(user, update, base, sharing, p, start.room);
      GrowsOn(loaded, before.room, View().room);
      found := View().room;
      GrowsItself(found);
      if !ready { return None, loaded, found; }
      before := View();
      var saved := SaveSharing(user, update, base, sharing, p, start.room);
      InvNext(before, SaveUpdate(p));
      if !saved { return None, loaded, found; }
      before := View();
      var message := AppendMessage(Draft(Policy(base.version + 1), Some(user), None, None), p, start.room);
      GrowsOn(found, before.room, View().room);
      version := Some(base.version + 1);
    }
  }

  lemma BaseIsCurrent(w: World, p: Id)
    requires Inv(w) && p in w.procs && (w.procs[p].Updating? || w.procs[p].Disclosed?)
    ensures OneEach(w.room.doc.seats) && OneEach(w.procs[p].base.seats)
    ensures w.procs[p].base.lock == w.room.doc.lock ==>
              && w.procs[p].base.seats == w.room.doc.seats && w.procs[p].base.sharing == w.room.doc.sharing
              && w.procs[p].base.version == w.room.doc.version
  {
  }

  lemma LoadedExactly(w: World, p: Id, user: Id, update: Update, base: Doc)
    requires Inv(w) && p in w.procs && (w.procs[p].Updating? || w.procs[p].Disclosed?) && w.procs[p].base == base
    ensures Updated(base.sharing, base.seats, user, update).Some? <==> Allowed(base.sharing, base.seats, user, update)
  {
    BaseIsCurrent(w, p);
    UpdatedExactly(base.sharing, base.seats, user, update);
  }

  /** What a save makes of the document that is there, when it is the one loaded. */
  lemma SavedExactly(w: World, p: Id, user: Id, update: Update, base: Doc)
    requires Inv(w) && p in w.procs && (w.procs[p].Updating? || w.procs[p].Disclosed?) && w.procs[p].base == base
    ensures base.lock == w.room.doc.lock ==>
      var after := Updated(base.sharing, base.seats, user, update);
      && base.version == w.room.doc.version
      && (after.Some? <==> Allowed(w.room.doc.sharing, w.room.doc.seats, user, update))
      && (after.Some? ==>
            && Becomes(w.room.doc.sharing, w.room.doc.seats, user, update, after.value)
            && (!update.Agree? ==> !Enabled(after.value, w.room.doc.seats)))
  {
    hide Updated, Enabled, Becomes, Allowed;
    BaseIsCurrent(w, p);
    UpdatedExactly(base.sharing, base.seats, user, update);
    if Updated(base.sharing, base.seats, user, update).Some? && !update.Agree? { ChangeEndsAgreement(base.sharing, base.seats, user, update); }
  }

  lemma SameRoomGrows(a: Chat, b: Chat)
    requires a == b
    ensures Grows(a, b)
  {
  }

  lemma VersionRises(a: World, b: World)
    requires Inv(a) && Inv(b) && Grows(a.room, b.room)
    ensures a.room.doc.version <= b.room.doc.version
  {
  }

  /** Whoever is not active may change nothing. */
  lemma AbsentMayNot(w: World, user: Id, update: Update)
    requires Inv(w) && !IsActive(w.room.doc.seats, user)
    ensures !Allowed(w.room.doc.sharing, w.room.doc.seats, user, update)
  {
    UpdatedExactly(w.room.doc.sharing, w.room.doc.seats, user, update);
  }

  lemma OnAndLog(first: Chat, a: Chat, b: Chat)
    requires Grows(first, a) && Grows(a, b)
    ensures Grows(first, b)
    ensures forall id | id in a.log :: id in b.log && b.log[id] == a.log[id]
  {
  }

  lemma LogGrows(a: Chat, b: Chat)
    requires Grows(a, b)
    ensures forall id | id in a.log :: id in b.log && b.log[id] == a.log[id]
  {
  }

  lemma AllottedGrows(a: Chat, b: Chat)
    requires Grows(a, b)
    ensures |a.allotted| <= |b.allotted|
  {
  }

  /** What was handed a number before the flush read the document was waiting then, or in the log. */
  lemma AllInLog(first: World, found: World, w: World)
    requires Inv(first) && Grows(first.room, found.room) && Inv(found) && Grows(found.room, w.room)
    requires forall e | e in found.room.doc.events :: Notice(e.version) in w.room.log
    ensures forall n: nat | n < |first.room.allotted| && first.room.allotted[n].ForNotice? ::
              Notice(first.room.allotted[n].version) in w.room.log
    ensures forall e | e in first.room.doc.events :: Notice(e.version) in w.room.log
  {
  }
}
