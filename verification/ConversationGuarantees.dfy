/** What a room promises over every run of steps from its creation. */
module ConversationGuarantees {
  import opened Common
  import opened Machine
  import opened Room
  import opened SharedAssistants
  import opened ConversationLog
  import opened ConversationInvariants

  lemma GrowsOn(a: Chat, b: Chat, c: Chat)
    requires Grows(a, b) && Grows(b, c)
    ensures Grows(a, c)
  {
  }

  /** Over any run of steps the room only moves forward. */
  lemma Forward(w: World, later: seq<Step>)
    requires Inv(w)
    ensures Grows(w.room, After(Next, w, later).room) && Inv(After(Next, w, later))
  {
    hide Inv, Next, Grows;
    var inv := (v: World) => Inv(v) && Grows(w.room, v.room);
    GrowsItself(w.room);
    forall v, st | inv(v) ensures inv(Next(v, st)) {
      InvNext(v, st);
      GrowsOn(w.room, v.room, Next(v, st).room);
    }
    Kept(Next, inv, w, later);
  }

  /**
   No membership notice is lost: every change that was ever committed has its notice on the document or in
   the log, under the number reserved for it, although each save overwrites the list of pending notices.
   */
  lemma NoNoticeLost(w: World, later: seq<Step>, n: nat)
    requires Reachable(w) && n < |w.room.allotted| && w.room.allotted[n].ForNotice?
    ensures var r := After(Next, w, later).room; var e := Event(w.room.allotted[n].version, n + 1);
      e in r.doc.events || InLog(r.log, e)
  {
    hide Inv, Next, Grows, NoticesKept;
    ReachableInv(w);
    Forward(w, later);
    HandedOut(w.room, After(Next, w, later).room, n);
    NoticeOf(After(Next, w, later), n);
  }

  lemma HandedOut(a: Chat, b: Chat, n: nat)
    requires Grows(a, b) && n < |a.allotted|
    ensures n < |b.allotted| && b.allotted[n] == a.allotted[n]
  {
  }

  lemma NoticeOf(w: World, n: nat)
    requires Inv(w) && n < |w.room.allotted| && w.room.allotted[n].ForNotice?
    ensures var e := Event(w.room.allotted[n].version, n + 1); e in w.room.doc.events || InLog(w.room.log, e)
  {
  }

  /** The log is in order: no two messages share a number, and none is above the conversation's. */
  lemma LogOrdered(w: World)
    requires Reachable(w)
    ensures forall a, b | a in w.room.log && b in w.room.log && a != b :: w.room.log[a].number != w.room.log[b].number
    ensures forall id | id in w.room.log :: 1 <= w.room.log[id].number <= w.room.doc.number
  {
    hide NoticesKept, FencedAfterNotices, JoinsKnown, ConsentsKnown, AllKnow, ReservedApart, RoomOk;
    ReachableInv(w);
    assert forall id | id in w.room.log :: HandedTo(w.room.allotted, id, w.room.log[id].number);
  }

  /** A client id names at most one message: whatever is retried, the message it named stays as it was. */
  lemma {:induction false} MessageStays(w: World, later: seq<Step>, id: ClientId)
    requires Reachable(w) && id in w.room.log
    ensures id in After(Next, w, later).room.log && After(Next, w, later).room.log[id] == w.room.log[id]
  {
    hide Inv, Next;
    ReachableInv(w);
    Forward(w, later);
  }

  /** When a fenced message is given number n, every notice with a number below n is in the log, and stays there. */
  lemma FencedSeesNotices(w: World, n: nat, m: nat)
    requires Reachable(w) && m < n < |w.room.allotted|
    requires w.room.allotted[n] == ForMessage(true) && w.room.allotted[m].ForNotice?
    ensures InLog(w.room.log, Event(w.room.allotted[m].version, m + 1))
  {
    hide NumbersApart, JoinsKnown, ConsentsKnown, AllKnow, ReservedApart, RoomOk;
    ReachableInv(w);
    var id := Notice(w.room.allotted[m].version);
    assert HandedTo(w.room.allotted, id, w.room.log[id].number);
    OneNumberEach(w.room, id.version, m + 1, w.room.log[id].number);
  }

  /**
   The join boundary: of the numbers handed out, a person who is active sees exactly those handed out from
   their last acceptance on, the notice of that acceptance being the first; a creator who never left, all.
   */
  lemma SeesFromAcceptance(w: World, user: Id, n: nat)
    requires Reachable(w) && IsActive(w.room.doc.seats, user) && 1 <= n <= w.room.doc.number
    ensures var at := LastAccepted(w.room.allotted, user);
      Sees(w.room.doc.seats, user, n) <==> at == None || n - 1 >= at.value
  {
    hide NumbersKnown, NumbersApart, NoticesKept, FencedAfterNotices, ConsentsKnown, AllKnow, ReservedApart, LastAccepted;
    ReachableInv(w);
    var i := Find(w.room.doc.seats, user).value;
    assert WellSeated(w.room.doc.seats[i]) && JoinKnown(w.room.allotted, w.room.doc.seats[i]);
  }

  /** When a reply that quotes a message is given its number, everyone active then can see the quoted message. */
  lemma QuotesSeenByAll(w: World, p: Id, user: Id)
    requires Reachable(w) && p in w.procs && w.procs[p].Reserving? && w.procs[p].draft.quote.Some?
    requires Next(w, Reserve(p)).room != w.room && IsActive(w.room.doc.seats, user)
    ensures Sees(Next(w, Reserve(p)).room.doc.seats, user, w.procs[p].draft.quote.value)
  {
    hide NumbersKnown, NumbersApart, NoticesKept, FencedAfterNotices, ConsentsKnown, ReservedApart, JoinsKnown;
    ReachableInv(w);
    assert Knows(w.room, w.procs[p]);
    assert WellSeated(w.room.doc.seats[Find(w.room.doc.seats, user).value]);
  }

  /** Every room that can be reached is in order: one owner while anyone is active, distinct people, at most 20 of them. */
  lemma RoomInOrder(w: World)
    requires Reachable(w)
    ensures RoomOk(w.room.doc.seats)
  {
    ReachableInv(w);
  }

  /**
   Consent binds the audience: whenever sharing is enabled, everyone active agreed to exactly the present
   assistants and people, after everyone present last joined and after the last change to the assistants,
   the lock or the addition policy. Versions are the clock.
   */
  lemma ConsentBindsAudience(w: World, i: nat)
    requires Reachable(w) && Enabled(w.room.doc.sharing, w.room.doc.seats)
    requires i < |w.room.doc.seats| && w.room.doc.seats[i].state == Active
    ensures var u := w.room.doc.seats[i].user;
      && u in w.room.doc.sharing.consents && u in w.room.given
      && w.room.doc.sharing.consents[u] == AudienceOf(w.room.doc.sharing.assistants, w.room.doc.seats)
      && w.room.reset < w.room.given[u]
      && forall k | 0 <= k < |w.room.doc.seats| && w.room.doc.seats[k].state == Active && w.room.doc.seats[k].user in w.room.joined ::
           w.room.joined[w.room.doc.seats[k].user] < w.room.given[u]
  {
    hide NumbersKnown, NumbersApart, NoticesKept, FencedAfterNotices, AllKnow, ReservedApart, JoinsKnown, HasOwner, OneOwner;
    ReachableInv(w);
    var seats, u := w.room.doc.seats, w.room.doc.seats[i].user;
    assert Consented(w.room.doc.sharing, seats, u) && ConsentKnown(w.room, u);
    PeopleAreSeated(seats);
    forall k | 0 <= k < |seats| && seats[k].state == Active && seats[k].user in w.room.joined
      ensures w.room.joined[seats[k].user] < w.room.given[u]
    {
      assert Occupies(seats[k]);
      assert Heard(w.room.doc.sharing.consents[u], seats[k].user, seats[k].joinedSeq);
      assert ActiveSince(seats, seats[k].user, seats[k].joinedSeq);
    }
  }

  /** A settings change other than consent turns sharing off in every room that can be reached. */
  lemma SettingsTurnSharingOff(w: World, p: Id)
    requires p in w.procs && (w.procs[p].Updating? || w.procs[p].Disclosed?) && !w.procs[p].update.Agree?
    requires Next(w, SaveUpdate(p)).room != w.room && Reachable(w)
    ensures !Enabled(Next(w, SaveUpdate(p)).room.doc.sharing, Next(w, SaveUpdate(p)).room.doc.seats)
  {
  }

  /** The worker's check of a shared run: the version its question was sent at, sharing enabled, the asker active, the assistant there. */
  predicate RunAllowed(r: Chat, user: Id, version: nat, bot: Id, usable: bool) {
    && r.doc.version == version && Enabled(r.doc.sharing, r.doc.seats)
    && IsActive(r.doc.seats, user) && bot in r.doc.sharing.assistants && usable
  }

  /**
   A shared run goes on only under the agreement it was asked under: whenever the check passes later, the
   people and the settings are exactly those of the version the question was sent at, which were agreed to then.
   */
  lemma RunsUnderSameAgreement(w: World, later: seq<Step>, user: Id, bot: Id, usable: bool)
    requires Reachable(w) && RunAllowed(After(Next, w, later).room, user, w.room.doc.version, bot, usable)
    ensures var r := After(Next, w, later).room; r.doc.seats == w.room.doc.seats && r.doc.sharing == w.room.doc.sharing
    ensures Enabled(w.room.doc.sharing, w.room.doc.seats) && IsActive(w.room.doc.seats, user)
  {
    hide Inv, Next, Enabled;
    ReachableInv(w);
    Forward(w, later);
    VersionIsLock(w);
    VersionIsLock(After(Next, w, later));
  }

  lemma VersionIsLock(w: World)
    requires Inv(w)
    ensures w.room.doc.version == w.room.doc.lock + 1
  {
  }
}
