/** What each call does to a room, read from the document's side: what turns its fields, its settings and its log. */
module ConversationEffects {
  import opened Common
  import opened Machine
  import opened Room
  import opened SharedAssistants
  import opened ConversationLog
  import opened ConversationInvariants
  import opened ConversationGuarantees

  predicate Acts(w: World, st: Step) {
    !st.Tick? && !st.Crash? && st.p in w.procs
  }

  /** A message is given the next number, its fence unmoved. */
  predicate Numbers(w: World, st: Step) {
    st.Reserve? && st.p in w.procs && w.procs[st.p].Reserving?
      && (w.procs[st.p].draft.expected.Some? ==> w.procs[st.p].draft.expected.value == w.room.doc.version)
  }

  /** A membership change is saved: decided on a document that is still the one there is, numbers included. */
  predicate Changes(w: World, st: Step) {
    st.Save? && st.p in w.procs && w.procs[st.p].Flushing? && w.procs[st.p].pending == [] && w.procs[st.p].task.Changing?
      && st.at <= w.room.now && w.procs[st.p].task.base.lock == w.room.doc.lock && w.procs[st.p].task.base.number == w.room.doc.number
      && Apply(w.room.doc.seats, w.procs[st.p].task.change, st.at, w.room.doc.number).Changed?
  }

  /** A settings change is saved: allowed by the document it was decided on, which is still the one there is. */
  predicate Updates(w: World, st: Step) {
    st.SaveUpdate? && st.p in w.procs && ((w.procs[st.p].Updating? && !w.procs[st.p].update.AddAssistant?) || w.procs[st.p].Disclosed?)
      && w.procs[st.p].base.lock == w.room.doc.lock
      && Allowed(w.room.doc.sharing, w.room.doc.seats, w.procs[st.p].user, w.procs[st.p].update)
  }

  /** A notice that is in the log is taken off the document. */
  predicate Pulls(w: World, st: Step) {
    st.PullNotice? && st.p in w.procs && w.procs[st.p].Flushing? && w.procs[st.p].inserted && w.procs[st.p].pending != []
  }

  predicate Raises(w: World, st: Step) {
    st.Raise? && st.p in w.procs && w.procs[st.p].Raising? && w.procs[st.p].id in w.room.log
  }

  /** The larger number, as the last one said to be in the log. */
  function Later(last: nat, n: nat): nat {
    if last < n then n else last
  }

  /**
   The document after a step: the next number exactly for a message numbered or a change saved; the next version
   exactly for a change or settings saved, which alone move its lock; the seats of the change; one notice for it,
   under its version and number, and otherwise the notices there were but the one pulled; the settings as changed.
   */
  ghost predicate DocAfter(w: World, st: Step, after: Doc) {
    var doc := w.room.doc;
    && after.number == (if Numbers(w, st) || Changes(w, st) then doc.number + 1 else doc.number)
    && after.version == (if Changes(w, st) || Updates(w, st) then doc.version + 1 else doc.version)
    && after.lock == (if Changes(w, st) || Updates(w, st) then doc.lock + 1 else doc.lock)
    && after.seats == (if Changes(w, st) then Apply(doc.seats, w.procs[st.p].task.change, st.at, doc.number).seats else doc.seats)
    && (if Changes(w, st) then after.events == [Event(doc.version + 1, doc.number + 1)]
        else forall e :: e in after.events <==> e in doc.events && !(Pulls(w, st) && e.version == w.procs[st.p].pending[0].version))
    && (if Updates(w, st) then Becomes(doc.sharing, doc.seats, w.procs[st.p].user, w.procs[st.p].update, after.sharing)
        else after.sharing == doc.sharing)
    && after.last == (if Pulls(w, st) then Later(doc.last, w.procs[st.p].pending[0].number)
                      else if Raises(w, st) then Later(doc.last, w.room.log[w.procs[st.p].id].number) else doc.last)
  }

  /** Every step turns the document as it says, and no other way. */
  lemma DocTurns(w: World, st: Step)
    requires Inv(w)
    ensures DocAfter(w, st, Next(w, st).room.doc)
  {
    hide Moved, Begun, DocAfter, Inv;
    if Acts(w, st) {
      MovedTurns(w, st);
    } else {
      DocAside(w, st);
    }
  }

  lemma DocAside(w: World, st: Step)
    requires !Acts(w, st)
    ensures DocAfter(w, st, w.room.doc)
  {
  }

  lemma MovedTurns(w: World, st: Step)
    requires Inv(w) && Acts(w, st)
    ensures DocAfter(w, st, Moved(w.room, st, w.procs[st.p]).0.doc)
  {
    hide DocAfter, Inv, Moved;
    match w.procs[st.p] {
      case Flushing(_, _, task) =>
        if task.Changing? { BaseOf(w, st.p, task.base); }
        FlushingTurns(w, st);
      case Updating(_, _, base) =>
        BaseOf(w, st.p, base);
        UpdatingTurns(w, st, base);
      case Disclosed(_, _, base) =>
        BaseOf(w, st.p, base);
        UpdatingTurns(w, st, base);
      case _ => AppendingTurns(w, st);
    }
  }

  /** The document a process loaded is the one there is while the lock has not moved. */
  lemma BaseOf(w: World, p: Id, base: Doc)
    requires Inv(w) && p in w.procs
    requires w.procs[p].Updating? || w.procs[p].Disclosed? || (w.procs[p].Flushing? && w.procs[p].task.Changing?)
    requires base == if w.procs[p].Flushing? then w.procs[p].task.base else w.procs[p].base
    ensures OneEach(w.room.doc.seats)
    ensures base.lock == w.room.doc.lock ==>
              base.seats == w.room.doc.seats && base.sharing == w.room.doc.sharing && base.version == w.room.doc.version
  {
  }

  lemma FlushingTurns(w: World, st: Step)
    requires Acts(w, st) && w.procs[st.p].Flushing?
    requires w.procs[st.p].task.Changing? && w.procs[st.p].task.base.lock == w.room.doc.lock ==>
      w.procs[st.p].task.base.seats == w.room.doc.seats && w.procs[st.p].task.base.version == w.room.doc.version
    ensures DocAfter(w, st, Moved(w.room, st, w.procs[st.p]).0.doc)
  {
    hide Apply, Allowed, Becomes, DocAfter, Moved;
    if w.procs[st.p].pending == [] { SavingTurns(w, st); } else { PullingTurns(w, st); }
  }

  lemma SavingTurns(w: World, st: Step)
    requires Acts(w, st) && w.procs[st.p].Flushing? && w.procs[st.p].pending == []
    requires w.procs[st.p].task.Changing? && w.procs[st.p].task.base.lock == w.room.doc.lock ==>
      w.procs[st.p].task.base.seats == w.room.doc.seats && w.procs[st.p].task.base.version == w.room.doc.version
    ensures DocAfter(w, st, Moved(w.room, st, w.procs[st.p]).0.doc)
  {
    hide Apply, Allowed, Becomes;
  }

  lemma PullingTurns(w: World, st: Step)
    requires Acts(w, st) && w.procs[st.p].Flushing? && w.procs[st.p].pending != []
    ensures DocAfter(w, st, Moved(w.room, st, w.procs[st.p]).0.doc)
  {
    hide Apply, Allowed, Becomes;
  }

  lemma UpdatingTurns(w: World, st: Step, base: Doc)
    requires Acts(w, st) && (w.procs[st.p].Updating? || w.procs[st.p].Disclosed?) && w.procs[st.p].base == base && OneEach(w.room.doc.seats)
    requires base.lock == w.room.doc.lock ==>
              base.seats == w.room.doc.seats && base.sharing == w.room.doc.sharing && base.version == w.room.doc.version
    ensures DocAfter(w, st, Moved(w.room, st, w.procs[st.p]).0.doc)
  {
    hide Apply, Allowed, Becomes, Updated;
    UpdatedExactly(w.room.doc.sharing, w.room.doc.seats, w.procs[st.p].user, w.procs[st.p].update);
  }

  lemma AppendingTurns(w: World, st: Step)
    requires Acts(w, st) && !w.procs[st.p].Flushing? && !w.procs[st.p].Updating? && !w.procs[st.p].Disclosed?
    ensures DocAfter(w, st, Moved(w.room, st, w.procs[st.p]).0.doc)
  {
    hide Apply, Allowed, Becomes, Checked, DocAfter, Moved;
    if w.procs[st.p].Reserving? { ReservingTurns(w, st); }
    else if w.procs[st.p].Raising? { RaisingTurns(w, st); }
    else if w.procs[st.p].Composing? { ComposingTurns(w, st); }
    else { InsertingTurns(w, st); }
  }

  lemma ReservingTurns(w: World, st: Step)
    requires Acts(w, st) && w.procs[st.p].Reserving?
    ensures DocAfter(w, st, Moved(w.room, st, w.procs[st.p]).0.doc)
  {
    hide Apply, Allowed, Becomes, Checked;
  }

  lemma RaisingTurns(w: World, st: Step)
    requires Acts(w, st) && w.procs[st.p].Raising?
    ensures DocAfter(w, st, Moved(w.room, st, w.procs[st.p]).0.doc)
  {
    hide Apply, Allowed, Becomes, Checked;
  }

  lemma ComposingTurns(w: World, st: Step)
    requires Acts(w, st) && w.procs[st.p].Composing?
    ensures DocAfter(w, st, Moved(w.room, st, w.procs[st.p]).0.doc)
  {
    hide Apply, Allowed, Becomes, Checked;
  }

  lemma InsertingTurns(w: World, st: Step)
    requires Acts(w, st) && (w.procs[st.p].ToFlush? || w.procs[st.p].Reserved?)
    ensures DocAfter(w, st, Moved(w.room, st, w.procs[st.p]).0.doc)
  {
    hide Apply, Allowed, Becomes, Checked;
  }

  // ---------------------------------------------------------------- the log

  /** A numbered message is inserted, its client id not there yet. */
  predicate Inserts(w: World, st: Step, id: ClientId) {
    st.Insert? && st.p in w.procs && w.procs[st.p].Reserved? && w.procs[st.p].draft.id == id && id !in w.room.log
  }

  predicate Announces(w: World, st: Step, id: ClientId) {
    st.InsertNotice? && st.p in w.procs && w.procs[st.p].Flushing? && !w.procs[st.p].inserted && w.procs[st.p].pending != []
      && id == Notice(w.procs[st.p].pending[0].version) && id !in w.room.log
  }

  /** A message enters the log exactly by its insert or as its notice, under the number reserved for it, and then stays. */
  predicate LogAfter(w: World, st: Step, id: ClientId, log: map<ClientId, Entry>) {
    && (id in log <==> id in w.room.log || Inserts(w, st, id) || Announces(w, st, id))
    && (id in w.room.log ==> log[id] == w.room.log[id])
    && (Inserts(w, st, id) ==> log[id] == Entry(w.procs[st.p].number, w.procs[st.p].draft.sender, w.procs[st.p].draft.quote))
    && (Announces(w, st, id) ==> log[id] == Entry(w.procs[st.p].pending[0].number, None, None))
  }

  /** Every step turns the log as it says, and no other way. */
  lemma LogTurns(w: World, st: Step, id: ClientId)
    ensures LogAfter(w, st, id, Next(w, st).room.log)
  {
    hide LogAfter, Moved, Begun;
    if Acts(w, st) && w.procs[st.p].Flushing? { FlushingLogs(w, st, id); }
    else if Acts(w, st) && w.procs[st.p].Reserved? { InsertingLogs(w, st, id); }
    else { LogAside(w, st, id); }
  }

  lemma FlushingLogs(w: World, st: Step, id: ClientId)
    requires Acts(w, st) && w.procs[st.p].Flushing?
    ensures LogAfter(w, st, id, Moved(w.room, st, w.procs[st.p]).0.log)
  {
    hide Apply;
  }

  lemma InsertingLogs(w: World, st: Step, id: ClientId)
    requires Acts(w, st) && w.procs[st.p].Reserved?
    ensures LogAfter(w, st, id, Moved(w.room, st, w.procs[st.p]).0.log)
  {
  }

  lemma LogAside(w: World, st: Step, id: ClientId)
    requires !Acts(w, st) || !(w.procs[st.p].Flushing? || w.procs[st.p].Reserved?)
    ensures LogAfter(w, st, id, Next(w, st).room.log)
  {
    hide Apply, Checked, Updated, Begun;
  }

  // ---------------------------------------------------------------- locking off, and agreeing

  predicate Unlocks(w: World, st: Step) {
    Updates(w, st) && w.procs[st.p].update == LockOff(false)
  }

  ghost predicate NeverUnlocks(w: World, steps: seq<Step>)
    decreases |steps|
  {
    steps == [] || (NeverUnlocks(w, steps[..|steps| - 1]) && !Unlocks(After(Next, w, steps[..|steps| - 1]), steps[|steps| - 1]))
  }

  /** Once assistants are locked off they stay locked off, and sharing disabled, whatever is done until someone who may unlocks them. */
  lemma LockHolds(w: World, st: Step, later: seq<Step>)
    requires Reachable(w) && Updates(w, st) && w.procs[st.p].update == LockOff(true) && NeverUnlocks(Next(w, st), later)
    ensures var doc := After(Next, Next(w, st), later).room.doc; doc.sharing.lockedOff && !Enabled(doc.sharing, doc.seats)
  {
    hide Inv, Next, Enabled, Unlocks;
    ReachableInv(w);
    InvNext(w, st);
    DocTurns(w, st);
    LockedAfter(Next(w, st), later);
    LockedIsDisabled(After(Next, Next(w, st), later).room.doc);
  }

  lemma LockedIsDisabled(doc: Doc)
    requires doc.sharing.lockedOff
    ensures !Enabled(doc.sharing, doc.seats)
  {
  }

  lemma {:induction false} LockedAfter(w: World, steps: seq<Step>)
    requires Inv(w) && w.room.doc.sharing.lockedOff && NeverUnlocks(w, steps)
    ensures Inv(After(Next, w, steps)) && After(Next, w, steps).room.doc.sharing.lockedOff
    decreases |steps|
  {
    hide Inv, Next;
    if steps != [] {
      var before := steps[..|steps| - 1];
      LockedAfter(w, before);
      InvNext(After(Next, w, before), steps[|steps| - 1]);
      DocTurns(After(Next, w, before), steps[|steps| - 1]);
    }
  }

  /** Each of these people agrees, one after the other. */
  function Agreeing(p: Id, users: seq<Id>): seq<Step> {
    if users == [] then []
    else
      var k := |users| - 1;
      Agreeing(p, users[..k]) + [BeginUpdate(p + k, users[k], Agree(true)), SaveUpdate(p + k)]
  }

  /** These people have agreed to the assistants and people there are, and nothing else has changed. */
  ghost predicate Agreed(was: Doc, users: seq<Id>, doc: Doc) {
    && doc.seats == was.seats && doc.sharing.assistants == was.sharing.assistants && doc.sharing.lockedOff == was.sharing.lockedOff
    && forall u | u in users :: Consented(doc.sharing, doc.seats, u)
  }

  lemma AgreesAlone(w: World, p: Id, user: Id)
    requires p !in w.procs && IsActive(w.room.doc.seats, user)
    ensures var w' := Next(Next(w, BeginUpdate(p, user, Agree(true))), SaveUpdate(p)); var s := w.room.doc.sharing;
      && w'.room.doc.seats == w.room.doc.seats && w'.procs.Keys == w.procs.Keys + {p}
      && w'.room.doc.sharing == s.(consents := s.consents[user := AudienceOf(s.assistants, w.room.doc.seats)])
  {
    hide AudienceOf;
    var loaded := Next(w, BeginUpdate(p, user, Agree(true)));
    assert loaded == w.(procs := w.procs[p := Updating(user, Agree(true), w.room.doc)]);
  }

  lemma {:induction false} AgreedInTurn(w: World, p: Id, users: seq<Id>)
    requires (forall q | q in w.procs :: q < p) && forall u | u in users :: IsActive(w.room.doc.seats, u)
    ensures var w' := After(Next, w, Agreeing(p, users));
      Agreed(w.room.doc, users, w'.room.doc) && forall q | q in w'.procs :: q < p + |users|
    decreases |users|
  {
    hide Next, IsActive;
    if users != [] {
      var k := |users| - 1;
      AgreedInTurn(w, p, users[..k]);
      var v := After(Next, w, Agreeing(p, users[..k]));
      AfterBoth(Next, w, Agreeing(p, users[..k]), [BeginUpdate(p + k, users[k], Agree(true)), SaveUpdate(p + k)]);
      AfterTwo(Next, v, BeginUpdate(p + k, users[k], Agree(true)), SaveUpdate(p + k));
      AgreesAlone(v, p + k, users[k]);
      assert forall u | u in users :: u in users[..k] || u == users[k];
    }
  }

  /**
   Agreement is enough: in a room with assistants, not locked off, with somebody active and nobody still invited,
   sharing is enabled once everyone active has agreed, undisturbed and in any order.
   */
  lemma AgreementEnables(w: World, p: Id, users: seq<Id>)
    requires Reachable(w) && forall q | q in w.procs :: q < p
    requires w.room.doc.sharing.assistants != {} && !w.room.doc.sharing.lockedOff
    requires users != [] && forall u :: u in users <==> Present(w.room.doc.seats, u)
    requires forall i | 0 <= i < |w.room.doc.seats| :: w.room.doc.seats[i].state == Active || w.room.doc.seats[i].state == Left
    ensures var doc := After(Next, w, Agreeing(p, users)).room.doc;
      Enabled(doc.sharing, doc.seats) && doc.seats == w.room.doc.seats && doc.sharing.assistants == w.room.doc.sharing.assistants
  {
    hide Next, Reachable, Inv, Consented;
    ReachableInv(w);
    DistinctPeople(w);
    var seats := w.room.doc.seats;
    forall u | u in users ensures IsActive(seats, u) {
      var i :| 0 <= i < |seats| && seats[i].user == u && seats[i].state == Active;
      FindsOnly(seats, u, i);
    }
    AgreedInTurn(w, p, users);
    assert users[0] in users;
    forall i | 0 <= i < |seats| && seats[i].state == Active ensures seats[i].user in users {
      assert Present(seats, seats[i].user);
    }
  }

  lemma DistinctPeople(w: World)
    requires Inv(w)
    ensures OneEach(w.room.doc.seats)
  {
  }

  // ---------------------------------------------------------------- a message, undisturbed

  /** The message this draft makes, under the next number. */
  function Appended(r: Chat, draft: Draft): Chat {
    var n := r.doc.number + 1;
    r.(doc := r.doc.(number := n, last := Later(r.doc.last, n)), log := r.log[draft.id := Entry(n, draft.sender, draft.quote)],
       allotted := r.allotted + [ForMessage(draft.expected.Some?)])
  }

  function Appending(p: Id): seq<Step> {
    [ReadEvents(p), FindExisting(p), Reserve(p), Insert(p), Raise(p)]
  }

  lemma AppendsAlone(w: World, p: Id, draft: Draft)
    requires p !in w.procs && w.room.doc.events == [] && draft.id !in w.room.log
    requires draft.expected.Some? ==> draft.expected.value == w.room.doc.version
    ensures After(Next, w.(procs := w.procs[p := ToFlush(Task.Appending(draft))]), Appending(p)) == World(Appended(w.room, draft), w.procs)
  {
    hide Next;
    var steps := Appending(p);
    var scene := (k: nat) => AppendScene(w, p, draft, k);
    forall k: nat | k < |steps| ensures Next(scene(k), steps[k]) == scene(k + 1) { AppendingLeads(w, p, draft, k); }
    Follows(Next, scene, steps);
  }

  /** The room after the first k of these calls. */
  function AppendScene(w: World, p: Id, draft: Draft, k: nat): World {
    var n := w.room.doc.number + 1;
    var numbered := w.room.(doc := w.room.doc.(number := n), allotted := w.room.allotted + [ForMessage(draft.expected.Some?)]);
    if k == 0 then w.(procs := w.procs[p := ToFlush(Task.Appending(draft))])
    else if k == 1 then w.(procs := w.procs[p := Flushing([], false, Task.Appending(draft))])
    else if k == 2 then w.(procs := w.procs[p := Reserving(draft)])
    else if k == 3 then World(numbered, w.procs[p := Reserved(draft, n)])
    else if k == 4 then
      World(numbered.(log := w.room.log[draft.id := Entry(n, draft.sender, draft.quote)]), w.procs[p := Raising(draft.id)])
    else World(Appended(w.room, draft), w.procs)
  }

  lemma AppendingLeads(w: World, p: Id, draft: Draft, k: nat)
    requires p !in w.procs && w.room.doc.events == [] && draft.id !in w.room.log && k < 5
    requires draft.expected.Some? ==> draft.expected.value == w.room.doc.version
    ensures Next(AppendScene(w, p, draft, k), Appending(p)[k]) == AppendScene(w, p, draft, k + 1)
  {
    hide Next, AppendScene;
    if k < 2 { FindingLeads(w, p, draft, k); }
    else if k == 2 { NumberingLeads(w, p, draft); }
    else if k == 3 { InsertingLeads(w, p, draft); }
    else { RaisingLeads(w, p, draft); }
  }

  lemma FindingLeads(w: World, p: Id, draft: Draft, k: nat)
    requires p !in w.procs && w.room.doc.events == [] && draft.id !in w.room.log && k < 2
    ensures Next(AppendScene(w, p, draft, k), Appending(p)[k]) == AppendScene(w, p, draft, k + 1)
  {
  }

  lemma NumberingLeads(w: World, p: Id, draft: Draft)
    requires draft.expected.Some? ==> draft.expected.value == w.room.doc.version
    ensures Next(AppendScene(w, p, draft, 2), Reserve(p)) == AppendScene(w, p, draft, 3)
  {
  }

  lemma InsertingLeads(w: World, p: Id, draft: Draft)
    requires draft.id !in w.room.log
    ensures Next(AppendScene(w, p, draft, 3), Insert(p)) == AppendScene(w, p, draft, 4)
  {
  }

  lemma RaisingLeads(w: World, p: Id, draft: Draft)
    requires p !in w.procs
    ensures Next(AppendScene(w, p, draft, 4), Raise(p)) == AppendScene(w, p, draft, 5)
  {
  }

  /**
   Undisturbed, with no notice waiting, the answer to a question is published under the next number when it is not
   fenced, or by the present version.
   */
  lemma PublishedAlone(w: World, p: Id, question: nat, expected: Option<nat>)
    requires p !in w.procs && w.room.doc.events == [] && Answered(question) !in w.room.log
    requires expected == None || expected == Some(w.room.doc.version)
    ensures After(Next, w, [BeginAnswer(p, question, expected)] + Appending(p))
      == World(Appended(w.room, Draft(Answered(question), None, expected, None)), w.procs)
  {
    hide Next;
    var draft := Draft(Answered(question), None, expected, None);
    AfterBoth(Next, w, [BeginAnswer(p, question, expected)], Appending(p));
    AfterOne(Next, w, BeginAnswer(p, question, expected));
    AnswerBegins(w, p, question, expected);
    AppendsAlone(w, p, draft);
  }

  lemma AnswerBegins(w: World, p: Id, question: nat, expected: Option<nat>)
    requires p !in w.procs && (expected.Some? ==> expected.value <= w.room.doc.version)
    ensures Next(w, BeginAnswer(p, question, expected))
      == w.(procs := w.procs[p := ToFlush(Task.Appending(Draft(Answered(question), None, expected, None)))])
  {
  }

  /** Everyone active can see the message this client id names. */
  predicate SeenByEveryone(r: Chat, id: ClientId) {
    id in r.log && r.log[id].number > 0
      && forall i | 0 <= i < |r.doc.seats| && r.doc.seats[i].state == Active :: r.doc.seats[i].joinedSeq < r.log[id].number
  }

  /**
   Undisturbed, with no notice waiting, what someone active sends under a new client id is in the log under the next
   number, quoting what they mean to quote when everyone active can see it.
   */
  lemma SentAlone(w: World, p: Id, user: Id, id: nat, reply: Option<ClientId>)
    requires Reachable(w) && p !in w.procs && w.room.doc.events == [] && Chosen(id) !in w.room.log && Present(w.room.doc.seats, user)
    requires reply.Some? ==> SeenByEveryone(w.room, reply.value)
    ensures var quote := if reply.Some? then Some(w.room.log[reply.value].number) else None;
      After(Next, w, [BeginSend(p, user, id, reply), CheckSend(p)] + Appending(p))
        == World(Appended(w.room, Draft(Chosen(id), Some(user), Some(w.room.doc.version), quote)), w.procs)
  {
    hide Next, Reachable, Inv;
    ReachableInv(w);
    DistinctPeople(w);
    var quote := if reply.Some? then Some(w.room.log[reply.value].number) else None;
    AfterBoth(Next, w, [BeginSend(p, user, id, reply), CheckSend(p)], Appending(p));
    AfterTwo(Next, w, BeginSend(p, user, id, reply), CheckSend(p));
    ActiveAreSeated(w);
    SendBegins(w, p, user, id, reply);
    AppendsAlone(w, p, Draft(Chosen(id), Some(user), Some(w.room.doc.version), quote));
  }

  lemma ActiveAreSeated(w: World)
    requires Inv(w)
    ensures forall i | 0 <= i < |w.room.doc.seats| && w.room.doc.seats[i].state == Active :: w.room.doc.seats[i].joinedAt.Some?
  {
    assert forall i | 0 <= i < |w.room.doc.seats| :: WellSeated(w.room.doc.seats[i]);
  }

  lemma SendBegins(w: World, p: Id, user: Id, id: nat, reply: Option<ClientId>)
    requires p !in w.procs && Chosen(id) !in w.room.log && Present(w.room.doc.seats, user) && OneEach(w.room.doc.seats)
    requires forall i | 0 <= i < |w.room.doc.seats| && w.room.doc.seats[i].state == Active :: w.room.doc.seats[i].joinedAt.Some?
    requires reply.Some? ==> SeenByEveryone(w.room, reply.value)
    ensures var quote := if reply.Some? then Some(w.room.log[reply.value].number) else None;
      Next(Next(w, BeginSend(p, user, id, reply)), CheckSend(p))
        == w.(procs := w.procs[p := ToFlush(Task.Appending(Draft(Chosen(id), Some(user), Some(w.room.doc.version), quote)))])
  {
    var i :| 0 <= i < |w.room.doc.seats| && w.room.doc.seats[i].user == user && w.room.doc.seats[i].state == Active;
    FindsOnly(w.room.doc.seats, user, i);
    assert Next(w, BeginSend(p, user, id, reply)) == w.(procs := w.procs[p := Composing(user, Chosen(id), reply, w.room.doc)]);
  }
}
