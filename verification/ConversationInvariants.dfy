/** What every step of `ConversationLog` keeps. */
module ConversationInvariants {
  import opened Common
  import opened Machine
  import opened Room
  import opened SharedAssistants
  import opened ConversationLog

  // ---------------------------------------------------------------- numbers

  /** Number n was handed out for this client id: a notice's for its version, any other's for a message. */
  predicate HandedTo(allotted: seq<Allotment>, id: ClientId, n: nat) {
    && 1 <= n <= |allotted|
    && if id.Notice? then allotted[n - 1].ForNotice? && allotted[n - 1].version == id.version else allotted[n - 1].ForMessage?
  }

  predicate EventOf(allotted: seq<Allotment>, e: Event) {
    HandedTo(allotted, Notice(e.version), e.number)
  }

  predicate InLog(log: map<ClientId, Entry>, e: Event) {
    Notice(e.version) in log && log[Notice(e.version)].number == e.number
  }

  /** Every notice handed a number is waiting on the document or in the log. */
  ghost predicate NoticesKept(r: Chat) {
    forall n: nat | n < |r.allotted| && r.allotted[n].ForNotice? ::
      Event(r.allotted[n].version, n + 1) in r.doc.events || InLog(r.log, Event(r.allotted[n].version, n + 1))
  }

  ghost predicate NumbersKnown(r: Chat) {
    && r.doc.number == |r.allotted| && r.doc.last <= r.doc.number
    && (forall id | id in r.log :: HandedTo(r.allotted, id, r.log[id].number))
    && (forall e | e in r.doc.events :: EventOf(r.allotted, e))
    && (forall i, j | 0 <= i < j < |r.allotted| && r.allotted[i].ForNotice? && r.allotted[j].ForNotice? ::
          r.allotted[i].version < r.allotted[j].version)
    && (forall i | 0 <= i < |r.allotted| && r.allotted[i].ForNotice? :: r.allotted[i].version <= r.doc.version)
  }

  /** No two messages share a number. */
  ghost predicate NumbersApart(r: Chat) {
    forall a, b | a in r.log && b in r.log && a != b :: r.log[a].number != r.log[b].number
  }

  /** When a fenced message was numbered, every notice numbered before it was in the log. */
  ghost predicate FencedAfterNotices(r: Chat) {
    forall n: nat, m: nat | m < n < |r.allotted| && r.allotted[n] == ForMessage(true) && r.allotted[m].ForNotice? ::
      Notice(r.allotted[m].version) in r.log
  }

  // ---------------------------------------------------------------- people

  /** The last number at which this user accepted, counted from 0; `None` for a creator who never did. */
  function LastAccepted(allotted: seq<Allotment>, user: Id): Option<nat> {
    if allotted == [] then None
    else
      var last := allotted[|allotted| - 1];
      if last.ForNotice? && last.accepted == Some(user) then Some(|allotted| - 1) else LastAccepted(allotted[..|allotted| - 1], user)
  }

  /** Everyone active has the history that began with their last acceptance. */
  ghost predicate JoinsKnown(r: Chat) {
    forall i | 0 <= i < |r.doc.seats| && r.doc.seats[i].state == Active :: JoinKnown(r.allotted, r.doc.seats[i])
  }

  predicate JoinKnown(allotted: seq<Allotment>, seat: Seat) {
    var at := LastAccepted(allotted, seat.user);
    seat.joinedSeq == if at.Some? then at.value else 0
  }

  // ---------------------------------------------------------------- consents

  /** This person was active in this audience, in this join. */
  predicate Heard(a: Audience, user: Id, joinedSeq: nat) {
    user in a.people && a.people[user].state == Active && a.people[user].joinedSeq == joinedSeq
  }

  predicate ActiveSince(seats: seq<Seat>, user: Id, joinedSeq: nat) {
    exists i :: 0 <= i < |seats| && seats[i].user == user && seats[i].state == Active && seats[i].joinedSeq == joinedSeq
  }

  /** A consent was given after the last clearing; whoever it names in their present join joined before it. */
  ghost predicate ConsentKnown(r: Chat, user: Id) {
    && user in r.doc.sharing.consents && user in r.given && r.reset < r.given[user] <= r.doc.version
    && forall x, j: nat | Heard(r.doc.sharing.consents[user], x, j) ::
         && j <= r.doc.number
         && (if ActiveSince(r.doc.seats, x, j) then x in r.joined ==> r.joined[x] < r.given[user] else j < r.doc.number)
  }

  ghost predicate ConsentsKnown(r: Chat) {
    && r.reset <= r.doc.version && (forall x | x in r.joined :: r.joined[x] <= r.doc.version)
    && forall u | u in r.doc.sharing.consents :: ConsentKnown(r, u)
  }

  // ---------------------------------------------------------------- what each process knows

  /** The document was this once: it has only moved forward, and is the same if its version is. */
  predicate Once(base: Doc, doc: Doc) {
    && OneEach(base.seats) && base.version == base.lock + 1 && base.lock <= doc.lock && base.number <= doc.number
    && (base.lock == doc.lock ==> base.seats == doc.seats && base.sharing == doc.sharing)
  }

  /** Every notice waiting on the document is in the log or in this list. */
  ghost predicate Covered(r: Chat, pending: seq<Event>) {
    forall e | e in r.doc.events :: e in pending || InLog(r.log, e)
  }

  /** How far the flush before a change or an append has got: nothing else is waiting while the document is as it was read. */
  ghost predicate FlushedTo(r: Chat, pending: seq<Event>, task: Task) {
    match task
    case Nothing => true
    case Changing(_, base) => Once(base, r.doc) && (base.lock == r.doc.lock ==> Covered(r, pending))
    case Appending(draft) => DraftKnown(r, draft) && (draft.expected == Some(r.doc.version) ==> Covered(r, pending))
  }

  /** A draft is fenced by a version there has been; what it quotes is seen by all while that version lasts. */
  ghost predicate DraftKnown(r: Chat, draft: Draft) {
    && !draft.id.Notice?
    && (draft.expected.Some? ==> draft.expected.value <= r.doc.version)
    && (draft.quote.Some? ==> draft.expected.Some? && (draft.expected.value == r.doc.version ==> SeenByAll(r.doc.seats, draft.quote.value)))
  }

  ghost predicate TaskKnown(r: Chat, task: Task) {
    match task
    case Nothing => true
    case Changing(_, base) => Once(base, r.doc)
    case Appending(draft) => DraftKnown(r, draft)
  }

  ghost predicate Knows(r: Chat, proc: Proc) {
    match proc
    case Composing(_, id, _, base) => Once(base, r.doc) && id.Chosen?
    case Updating(_, _, base) => Once(base, r.doc)
    case Disclosed(_, update, base) => Once(base, r.doc) && update.AddAssistant? && update.bot in r.cards
    case ToFlush(task) => TaskKnown(r, task)
    case Flushing(pending, inserted, task) =>
      && (forall e | e in pending :: EventOf(r.allotted, e))
      && (inserted ==> pending != [] && InLog(r.log, pending[0]))
      && FlushedTo(r, pending, task)
    case Reserving(draft) => FlushedTo(r, [], Appending(draft))
    case Reserved(draft, n) => !draft.id.Notice? && 1 <= n <= |r.allotted| && r.allotted[n - 1].ForMessage?
    case Raising(id) => id in r.log
  }

  /** A number reserved and not yet used belongs to one process and to no message. */
  ghost predicate ReservedApart(w: World) {
    && (forall p | p in w.procs && w.procs[p].Reserved? :: forall id | id in w.room.log :: w.room.log[id].number != w.procs[p].number)
    && (forall p, q | p in w.procs && q in w.procs && p != q && w.procs[p].Reserved? && w.procs[q].Reserved? ::
          w.procs[p].number != w.procs[q].number)
  }

  ghost predicate AllKnow(w: World) {
    forall p | p in w.procs :: Knows(w.room, w.procs[p])
  }

  ghost predicate RoomKnown(r: Chat) {
    && r.doc.version == r.doc.lock + 1 && RoomOk(r.doc.seats)
    && NumbersKnown(r) && NumbersApart(r) && NoticesKept(r) && FencedAfterNotices(r) && JoinsKnown(r) && ConsentsKnown(r)
  }

  ghost predicate Inv(w: World) {
    RoomKnown(w.room) && AllKnow(w) && ReservedApart(w)
  }

  // ---------------------------------------------------------------- moving forward

  /** Messages stay, numbers stay handed out, versions only rise, and a version names one state of the people and settings. */
  ghost predicate Grows(a: Chat, b: Chat) {
    && (forall id | id in a.log :: id in b.log && b.log[id] == a.log[id])
    && |a.allotted| <= |b.allotted| && (forall n: nat | n < |a.allotted| :: b.allotted[n] == a.allotted[n])
    && a.cards.Keys <= b.cards.Keys
    && a.doc.lock <= b.doc.lock && a.doc.number <= b.doc.number
    && (a.doc.version == a.doc.lock + 1 ==> b.doc.version == b.doc.lock + 1)
    && (a.doc.lock == b.doc.lock ==>
          && b.doc.seats == a.doc.seats && b.doc.sharing == a.doc.sharing
          && forall e | e in b.doc.events :: e in a.doc.events)
  }

  lemma KnowsKept(a: Chat, b: Chat, proc: Proc)
    requires Grows(a, b) && Knows(a, proc) && a.doc.version == a.doc.lock + 1
    ensures Knows(b, proc)
  {
  }

  lemma GrowsItself(r: Chat)
    ensures Grows(r, r)
  {
  }

  // ---------------------------------------------------------------- each write keeps the room

  /** A version has one number. */
  lemma OneNumberEach(r: Chat, version: nat, m: nat, n: nat)
    requires NumbersKnown(r) && HandedTo(r.allotted, Notice(version), m) && HandedTo(r.allotted, Notice(version), n)
    ensures m == n
  {
  }

  lemma InsertedKept(r: Chat, id: ClientId, entry: Entry)
    requires RoomKnown(r) && id !in r.log && HandedTo(r.allotted, id, entry.number)
    requires forall other | other in r.log :: r.log[other].number != entry.number
    ensures var b := r.(log := r.log[id := entry]); RoomKnown(b) && Grows(r, b)
  {
    hide RoomOk, ConsentKnown, JoinsKnown, LastAccepted;
    var b := r.(log := r.log[id := entry]);
    forall u | u in b.doc.sharing.consents ensures ConsentKnown(b, u) { SameConsent(r, b, u); }
    SameJoins(r, b);
  }

  lemma NoticeKept(r: Chat, e: Event)
    requires RoomKnown(r) && EventOf(r.allotted, e)
    ensures RoomKnown(WithNotice(r, e)) && Grows(r, WithNotice(r, e)) && InLog(WithNotice(r, e).log, e)
  {
    hide RoomOk, NoticesKept, ConsentsKnown, JoinsKnown, FencedAfterNotices, NumbersApart, Grows;
    if Notice(e.version) in r.log {
      OneNumberEach(r, e.version, e.number, r.log[Notice(e.version)].number);
      GrowsItself(r);
    } else {
      forall other | other in r.log ensures r.log[other].number != e.number {
        assert HandedTo(r.allotted, other, r.log[other].number);
      }
      InsertedKept(r, Notice(e.version), Entry(e.number, None, None));
    }
  }

  lemma SameConsent(a: Chat, b: Chat, u: Id)
    requires ConsentKnown(a, u) && b.doc.sharing == a.doc.sharing && b.doc.seats == a.doc.seats
    requires b.given == a.given && b.joined == a.joined && b.reset == a.reset
    requires b.doc.number >= a.doc.number && b.doc.version == a.doc.version
    ensures ConsentKnown(b, u)
  {
  }

  lemma SameJoins(a: Chat, b: Chat)
    requires JoinsKnown(a) && b.doc.seats == a.doc.seats && b.allotted == a.allotted
    ensures JoinsKnown(b)
  {
  }

  lemma PulledKept(r: Chat, e: Event)
    requires RoomKnown(r) && EventOf(r.allotted, e) && InLog(r.log, e)
    ensures RoomKnown(Pulled(r, e)) && Grows(r, Pulled(r, e))
  {
    hide RoomOk, ConsentKnown, JoinsKnown, LastAccepted;
    var b := Pulled(r, e);
    forall n: nat | n < |r.allotted| && r.allotted[n].ForNotice?
      ensures Event(r.allotted[n].version, n + 1) in b.doc.events || InLog(b.log, Event(r.allotted[n].version, n + 1))
    {
      if r.allotted[n].version == e.version { OneNumberEach(r, e.version, e.number, n + 1); }
    }
    forall u | u in b.doc.sharing.consents ensures ConsentKnown(b, u) { SameConsent(r, b, u); }
    SameJoins(r, b);
  }

  lemma NumberedKept(r: Chat, fenced: bool)
    requires RoomKnown(r) && (fenced ==> Covered(r, []))
    ensures RoomKnown(Numbered(r, fenced)) && Grows(r, Numbered(r, fenced))
  {
    hide RoomOk, ConsentKnown, LastAccepted;
    var b := Numbered(r, fenced);
    forall i | 0 <= i < |b.doc.seats| && b.doc.seats[i].state == Active ensures JoinKnown(b.allotted, b.doc.seats[i]) {
      LastAcceptedOn(r.allotted, ForMessage(fenced), b.doc.seats[i].user);
    }
    forall u | u in b.doc.sharing.consents ensures ConsentKnown(b, u) { SameConsent(r, b, u); }
    forall id | id in b.log ensures HandedTo(b.allotted, id, b.log[id].number) {
      assert HandedTo(r.allotted, id, r.log[id].number);
    }
    forall e | e in b.doc.events ensures EventOf(b.allotted, e) { assert EventOf(r.allotted, e); }
  }

  lemma {:induction false} LastAcceptedOn(allotted: seq<Allotment>, last: Allotment, user: Id)
    ensures LastAccepted(allotted + [last], user) ==
      if last.ForNotice? && last.accepted == Some(user) then Some(|allotted|) else LastAccepted(allotted, user)
  {
  }

  lemma {:induction false} LastAcceptedWithin(allotted: seq<Allotment>, user: Id)
    ensures var at := LastAccepted(allotted, user); at.Some? ==> at.value < |allotted| && allotted[at.value].ForNotice? && allotted[at.value].accepted == Some(user)
    ensures var at := LastAccepted(allotted, user);
      forall n: nat | n < |allotted| && allotted[n].ForNotice? && allotted[n].accepted == Some(user) :: at.Some? && n <= at.value
    decreases |allotted|
  {
    if allotted != [] { LastAcceptedWithin(allotted[..|allotted| - 1], user); }
  }

  lemma RaisedKept(r: Chat, id: ClientId)
    requires RoomKnown(r) && id in r.log
    ensures var b := r.(doc := r.doc.(last := Max(r.doc.last, r.log[id].number))); RoomKnown(b) && Grows(r, b)
  {
    hide RoomOk, ConsentKnown, JoinsKnown, LastAccepted;
    var b := r.(doc := r.doc.(last := Max(r.doc.last, r.log[id].number)));
    assert HandedTo(r.allotted, id, r.log[id].number);
    forall u | u in b.doc.sharing.consents ensures ConsentKnown(b, u) { SameConsent(r, b, u); }
    SameJoins(r, b);
  }

  // ---------------------------------------------------------------- membership changes

  /** Whoever is active after a change was so before, in the same join, or has just accepted here. */
  lemma ActiveAfter(seats: seq<Seat>, change: Change, at: nat, here: nat)
    requires RoomOk(seats) && Apply(seats, change, at, here).Changed?
    ensures var after := Apply(seats, change, at, here).seats;
      forall i | 0 <= i < |after| && after[i].state == Active ::
        || (i < |seats| && seats[i].state == Active && seats[i].user == after[i].user && seats[i].joinedSeq == after[i].joinedSeq
            && WhoAccepted(change) != Some(after[i].user))
        || (WhoAccepted(change) == Some(after[i].user) && after[i].joinedSeq == here && i < |seats| && seats[i].user == after[i].user
            && seats[i].state == Invited)
  {
  }

  lemma SavedKept(r: Chat, base: Doc, change: Change, at: nat)
    requires RoomKnown(r) && Once(base, r.doc) && base.lock == r.doc.lock && base.number == r.doc.number && Covered(r, [])
    requires Apply(base.seats, change, at, base.number).Changed?
    ensures var b := Saved(r, base, Apply(base.seats, change, at, base.number).seats, WhoAccepted(change)); RoomKnown(b) && Grows(r, b)
  {
    hide RoomOk, ConsentKnown, LastAccepted, Apply, JoinsKnown;
    var b := Saved(r, base, Apply(base.seats, change, at, base.number).seats, WhoAccepted(change));
    ChangeKeepsRoom(base.seats, change, at, base.number);
    SavedJoins(r, base, change, at);
    forall u | u in b.doc.sharing.consents ensures ConsentKnown(b, u) { SavedConsents(r, base, change, at, u); }
    forall id | id in b.log ensures HandedTo(b.allotted, id, b.log[id].number) {
      assert HandedTo(r.allotted, id, r.log[id].number);
    }
    assert Event(base.version + 1, base.number + 1) in b.doc.events;
  }

  lemma SavedJoins(r: Chat, base: Doc, change: Change, at: nat)
    requires JoinsKnown(r) && RoomOk(r.doc.seats) && base.seats == r.doc.seats && base.number == |r.allotted|
    requires Apply(base.seats, change, at, base.number).Changed?
    ensures JoinsKnown(Saved(r, base, Apply(base.seats, change, at, base.number).seats, WhoAccepted(change)))
  {
    hide RoomOk, LastAccepted, Apply;
    var b := Saved(r, base, Apply(base.seats, change, at, base.number).seats, WhoAccepted(change));
    ActiveAfter(base.seats, change, at, base.number);
    forall i | 0 <= i < |b.doc.seats| && b.doc.seats[i].state == Active ensures JoinKnown(b.allotted, b.doc.seats[i]) {
      LastAcceptedOn(r.allotted, ForNotice(base.version + 1, WhoAccepted(change)), b.doc.seats[i].user);
      if WhoAccepted(change) != Some(b.doc.seats[i].user) { assert JoinKnown(r.allotted, r.doc.seats[i]); }
    }
  }

  lemma SavedConsents(r: Chat, base: Doc, change: Change, at: nat, u: Id)
    requires ConsentKnown(r, u) && RoomOk(r.doc.seats) && base.seats == r.doc.seats && base.number == r.doc.number
    requires base.version == r.doc.version && Apply(base.seats, change, at, base.number).Changed?
    ensures ConsentKnown(Saved(r, base, Apply(base.seats, change, at, base.number).seats, WhoAccepted(change)), u)
  {
  }

  // ---------------------------------------------------------------- settings changes

  lemma SharedKept(r: Chat, base: Doc, user: Id, update: Update)
    requires RoomKnown(r) && Once(base, r.doc) && base.lock == r.doc.lock
    requires Updated(base.sharing, base.seats, user, update).Some?
    ensures var b := Shared(r, base, user, update, Updated(base.sharing, base.seats, user, update).value); RoomKnown(b) && Grows(r, b)
  {
    hide RoomOk, ConsentKnown, LastAccepted, JoinsKnown, People, NoticesKept, NumbersApart, FencedAfterNotices;
    var b := Shared(r, base, user, update, Updated(base.sharing, base.seats, user, update).value);
    forall u | u in b.doc.sharing.consents ensures ConsentKnown(b, u) {
      if update.Agree? {
        if u == user && update.enabled { AgreedKnown(r, base, user); } else { OtherConsent(r, b, u); }
      }
    }
    SameJoins(r, b);
    SameNotices(r, b);
  }

  lemma SameNotices(a: Chat, b: Chat)
    requires NoticesKept(a) && NumbersApart(a) && FencedAfterNotices(a)
    requires b.allotted == a.allotted && b.log == a.log && b.doc.events == a.doc.events
    ensures NoticesKept(b) && NumbersApart(b) && FencedAfterNotices(b)
  {
  }

  lemma OtherConsent(a: Chat, b: Chat, u: Id)
    requires ConsentKnown(a, u) && u in b.doc.sharing.consents && b.doc.sharing.consents[u] == a.doc.sharing.consents[u]
    requires u in a.given ==> u in b.given && b.given[u] == a.given[u]
    requires b.doc.seats == a.doc.seats && b.joined == a.joined && b.reset == a.reset
    requires b.doc.number == a.doc.number && b.doc.version >= a.doc.version
    ensures ConsentKnown(b, u)
  {
  }

  /** A consent just given: it names exactly the people there, who joined before. */
  lemma AgreedKnown(r: Chat, base: Doc, user: Id)
    requires RoomKnown(r) && Once(base, r.doc) && base.lock == r.doc.lock && Updated(base.sharing, base.seats, user, Agree(true)).Some?
    ensures ConsentKnown(Shared(r, base, user, Agree(true), Updated(base.sharing, base.seats, user, Agree(true)).value), user)
  {
    hide People, LastAccepted, NoticesKept, NumbersApart, FencedAfterNotices, ConsentKnown;
    var b := Shared(r, base, user, Agree(true), Updated(base.sharing, base.seats, user, Agree(true)).value);
    PeopleAreSeated(base.seats);
    forall x, j: nat | Heard(b.doc.sharing.consents[user], x, j)
      ensures j <= b.doc.number && ActiveSince(b.doc.seats, x, j)
    {
      var i :| 0 <= i < |base.seats| && base.seats[i].user == x && Occupies(base.seats[i]);
      assert JoinKnown(r.allotted, r.doc.seats[i]);
      LastAcceptedWithin(r.allotted, x);
    }
    FreshConsent(b, user, r.doc.version);
  }

  lemma FreshConsent(b: Chat, user: Id, before: nat)
    requires user in b.doc.sharing.consents && user in b.given && b.given[user] == b.doc.version == before + 1 && b.reset <= before
    requires forall x | x in b.joined :: b.joined[x] <= before
    requires forall x, j: nat | Heard(b.doc.sharing.consents[user], x, j) :: j <= b.doc.number && ActiveSince(b.doc.seats, x, j)
    ensures ConsentKnown(b, user)
  {
  }

  // ---------------------------------------------------------------- each process learns what its place requires

  lemma CheckedKnown(r: Chat, user: Id, id: ClientId, reply: Option<ClientId>, base: Doc)
    requires r.doc.version == r.doc.lock + 1 && Once(base, r.doc) && id.Chosen? && Checked(r, user, id, reply, base).Some?
    ensures DraftKnown(r, Checked(r, user, id, reply, base).value)
  {
  }

  lemma InsertedKnows(r: Chat, e: Event, rest: seq<Event>, task: Task)
    requires RoomKnown(r) && Knows(r, Flushing([e] + rest, false, task))
    ensures Knows(WithNotice(r, e), Flushing([e] + rest, true, task))
  {
    hide RoomKnown, EventOf;
    assert ([e] + rest)[0] == e;
    NoticeKept(r, e);
    RoomVersion(r);
    KnowsKept(r, WithNotice(r, e), Flushing([e] + rest, false, task));
  }

  lemma RoomVersion(r: Chat)
    requires RoomKnown(r)
    ensures r.doc.version == r.doc.lock + 1
  {
  }

  lemma PulledKnows(r: Chat, e: Event, rest: seq<Event>, task: Task)
    requires RoomKnown(r) && Knows(r, Flushing([e] + rest, true, task))
    ensures Knows(Pulled(r, e), Flushing(rest, false, task))
  {
  }

  lemma MovedKnows(r: Chat, st: Step, proc: Proc)
    requires RoomKnown(r) && Knows(r, proc)
    requires proc.Reserved? ==> forall id | id in r.log :: r.log[id].number != proc.number
    ensures var moved := Moved(r, st, proc);
      RoomKnown(moved.0) && Grows(r, moved.0) && (moved.1.Some? ==> Knows(moved.0, moved.1.value))
  {
    hide RoomKnown, Grows, WithNotice, Pulled, Numbered, Checked, SaveChange, Shared, Updated, EventOf, InLog, Covered, DraftKnown;
    RoomVersion(r);
    GrowsItself(r);
    match proc {
      case Composing(user, id, reply, base) =>
        if st.CheckSend? && Checked(r, user, id, reply, base).Some? { CheckedKnown(r, user, id, reply, base); }
      case Updating(user, update, base) => UpdatingKnows(r, st, user, update, base);
      case Disclosed(user, update, base) => if st.SaveUpdate? { SavingKnows(r, user, update, base); }
      case ToFlush(task) => if st.ReadEvents? { ReadKnows(r, task); }
      case Flushing(pending, inserted, task) => FlushingKnows(r, st, pending, inserted, task);
      case Reserving(draft) => ReservingKnows(r, st, draft);
      case Reserved(draft, n) => ReservedKnows(r, st, draft, n);
      case Raising(id) => if st.Raise? && id in r.log { RaisedKept(r, id); }
    }
  }

  lemma ReadKnows(r: Chat, task: Task)
    requires RoomKnown(r) && TaskKnown(r, task)
    ensures Knows(r, Flushing(r.doc.events, false, task))
  {
  }

  lemma UpdatingKnows(r: Chat, st: Step, user: Id, update: Update, base: Doc)
    requires RoomKnown(r) && Knows(r, Updating(user, update, base))
    ensures var moved := Moved(r, st, Updating(user, update, base));
      RoomKnown(moved.0) && Grows(r, moved.0) && (moved.1.Some? ==> Knows(moved.0, moved.1.value))
  {
    hide RoomKnown, Grows, Updated, SaveSettings;
    GrowsItself(r);
    if update.AddAssistant? {
      AsideKept(r, r.(cards := r.cards[update.bot := update.card]));
    } else {
      SavingKnows(r, user, update, base);
    }
  }

  lemma SavingKnows(r: Chat, user: Id, update: Update, base: Doc)
    requires RoomKnown(r) && Once(base, r.doc)
    ensures var moved := SaveSettings(r, user, update, base);
      RoomKnown(moved.0) && Grows(r, moved.0) && (moved.1.Some? ==> Knows(moved.0, moved.1.value))
  {
    hide RoomKnown, Grows, Updated, Shared;
    GrowsItself(r);
    if Updated(base.sharing, base.seats, user, update).Some? && r.doc.lock == base.lock { SharedKept(r, base, user, update); }
  }

  /** The time and the cards are no part of what the room keeps. */
  lemma AsideKept(a: Chat, b: Chat)
    requires RoomKnown(a) && b == a.(now := b.now, cards := b.cards) && a.cards.Keys <= b.cards.Keys
    ensures RoomKnown(b) && Grows(a, b)
  {
    hide RoomOk, ConsentKnown, JoinsKnown, NoticesKept, NumbersApart, FencedAfterNotices;
    forall u | u in b.doc.sharing.consents ensures ConsentKnown(b, u) { SameConsent(a, b, u); }
    SameJoins(a, b);
    SameNotices(a, b);
  }

  lemma FlushingKnows(r: Chat, st: Step, pending: seq<Event>, inserted: bool, task: Task)
    requires RoomKnown(r) && Knows(r, Flushing(pending, inserted, task))
    ensures var moved := Moved(r, st, Flushing(pending, inserted, task));
      RoomKnown(moved.0) && Grows(r, moved.0) && (moved.1.Some? ==> Knows(moved.0, moved.1.value))
  {
    hide RoomKnown, Grows, WithNotice, Pulled, EventOf, InLog, SaveChange, Knows;
    GrowsItself(r);
    if pending != [] {
      assert pending == [pending[0]] + pending[1..];
      KnowsFirst(r, pending, inserted, task);
      if st.InsertNotice? && !inserted {
        NoticeKept(r, pending[0]);
        InsertedKnows(r, pending[0], pending[1..], task);
      } else if st.PullNotice? && inserted {
        PulledKept(r, pending[0]);
        PulledKnows(r, pending[0], pending[1..], task);
      }
    } else if st.Save? && task.Changing? {
      SaveChangeKnows(r, task.change, task.base, st.at, inserted);
    } else if st.FindExisting? && task.Appending? {
      FindKnows(r, task.draft, inserted);
    }
  }

  lemma KnowsFirst(r: Chat, pending: seq<Event>, inserted: bool, task: Task)
    requires pending != [] && Knows(r, Flushing(pending, inserted, task))
    ensures EventOf(r.allotted, pending[0]) && (inserted ==> InLog(r.log, pending[0]))
  {
  }

  lemma SaveChangeKnows(r: Chat, change: Change, base: Doc, at: nat, inserted: bool)
    requires RoomKnown(r) && Knows(r, Flushing([], inserted, Changing(change, base)))
    ensures var moved := SaveChange(r, change, base, at);
      RoomKnown(moved.0) && Grows(r, moved.0) && (moved.1.Some? ==> Knows(moved.0, moved.1.value))
  {
    hide RoomKnown, Grows, Apply, Saved;
    GrowsItself(r);
    if Apply(base.seats, change, at, base.number).Changed? && r.doc.lock == base.lock && r.doc.number == base.number {
      SavedKept(r, base, change, at);
    }
  }

  lemma FindKnows(r: Chat, draft: Draft, inserted: bool)
    requires RoomKnown(r) && Knows(r, Flushing([], inserted, Appending(draft)))
    ensures Knows(r, Reserving(draft)) && (draft.id in r.log ==> Knows(r, Raising(draft.id)))
  {
  }

  lemma ReservingKnows(r: Chat, st: Step, draft: Draft)
    requires RoomKnown(r) && Knows(r, Reserving(draft))
    ensures var moved := Moved(r, st, Reserving(draft));
      RoomKnown(moved.0) && Grows(r, moved.0) && (moved.1.Some? ==> Knows(moved.0, moved.1.value))
  {
    hide RoomKnown, Grows;
    GrowsItself(r);
    if st.Reserve? && (draft.expected == None || draft.expected.value == r.doc.version) {
      NumberedKept(r, draft.expected.Some?);
      LengthIsNumber(r);
    }
  }

  lemma LengthIsNumber(r: Chat)
    requires RoomKnown(r)
    ensures r.doc.number == |r.allotted|
  {
  }

  lemma ReservedKnows(r: Chat, st: Step, draft: Draft, n: nat)
    requires RoomKnown(r) && Knows(r, Reserved(draft, n)) && forall id | id in r.log :: r.log[id].number != n
    ensures var moved := Moved(r, st, Reserved(draft, n));
      RoomKnown(moved.0) && Grows(r, moved.0) && (moved.1.Some? ==> Knows(moved.0, moved.1.value))
  {
    hide RoomKnown, Grows;
    GrowsItself(r);
    if st.Insert? && draft.id !in r.log { InsertedKept(r, draft.id, Entry(n, draft.sender, draft.quote)); }
  }

  lemma BegunKnows(r: Chat, st: Step)
    requires RoomKnown(r) && Begun(r, st).Some?
    ensures Knows(r, Begun(r, st).value) && !Begun(r, st).value.Reserved?
  {
  }

  // ---------------------------------------------------------------- reserved numbers stay apart

  /** What a step does to the numbers in use: only p's reserved number enters the log, and a number newly reserved is the next. */
  ghost predicate NumbersBy(a: Chat, b: Chat, before: Proc, after: Option<Proc>) {
    && (forall id | id in b.log && id !in a.log ::
          (before.Reserved? && b.log[id].number == before.number)
          || (HandedTo(a.allotted, id, b.log[id].number) && id.Notice?))
    && (after.Some? && after.value.Reserved? ==> after.value == before || after.value.number == |a.allotted| + 1)
    && (after.Some? && after.value.Reserved? && before.Reserved? ==> b.log == a.log)
  }

  lemma MovedNumbers(r: Chat, st: Step, proc: Proc)
    requires RoomKnown(r) && Knows(r, proc)
    ensures NumbersBy(r, Moved(r, st, proc).0, proc, Moved(r, st, proc).1)
  {
    hide RoomOk, NoticesKept, NumbersApart, FencedAfterNotices, JoinsKnown, ConsentsKnown, FlushedTo, DraftKnown, Checked, Updated, Apply;
    LengthIsNumber(r);
    if proc.Flushing? && proc.pending != [] { KnowsFirst(r, proc.pending, proc.inserted, proc.task); }
  }

  lemma ApartKept(w: World, w': World, p: Id)
    requires RoomKnown(w.room) && AllKnow(w) && ReservedApart(w) && p in w.procs
    requires NumbersBy(w.room, w'.room, w.procs[p], if p in w'.procs then Some(w'.procs[p]) else None)
    requires Grows(w.room, w'.room)
    requires forall q | q != p :: (q in w'.procs <==> q in w.procs) && (q in w.procs ==> w'.procs[q] == w.procs[q])
    ensures ReservedApart(w')
  {
    hide RoomOk, NoticesKept, NumbersApart, FencedAfterNotices, JoinsKnown, ConsentsKnown, FlushedTo, DraftKnown;
    forall q | q in w'.procs && w'.procs[q].Reserved?
      ensures forall id | id in w'.room.log :: w'.room.log[id].number != w'.procs[q].number
    {
      if q in w.procs { assert Knows(w.room, w.procs[q]); }
      forall id | id in w'.room.log ensures w'.room.log[id].number != w'.procs[q].number {
        if id in w.room.log { assert HandedTo(w.room.allotted, id, w.room.log[id].number); }
      }
    }
    forall q, s | q in w'.procs && s in w'.procs && q != s && w'.procs[q].Reserved? && w'.procs[s].Reserved?
      ensures w'.procs[q].number != w'.procs[s].number
    {
      assert Knows(w.room, w.procs[q]) && Knows(w.room, w.procs[s]);
    }
  }

  // ---------------------------------------------------------------- every step

  lemma MovedKeeps(w: World, st: Step, p: Id)
    requires Inv(w) && p in w.procs && !st.Tick? && st.p == p && !st.Crash?
    ensures Inv(Next(w, st)) && Grows(w.room, Next(w, st).room)
  {
    hide RoomKnown, Grows, Knows, Moved, NumbersBy, ReservedApart;
    var w' := Next(w, st);
    assert Knows(w.room, w.procs[p]);
    OwnNumberFree(w, p);
    MovedKnows(w.room, st, w.procs[p]);
    MovedNumbers(w.room, st, w.procs[p]);
    RoomVersion(w.room);
    ApartKept(w, w', p);
    forall q | q in w'.procs ensures Knows(w'.room, w'.procs[q]) {
      if q != p { KnowsKept(w.room, w'.room, w.procs[q]); }
    }
  }

  lemma OwnNumberFree(w: World, p: Id)
    requires ReservedApart(w) && p in w.procs
    ensures w.procs[p].Reserved? ==> forall id | id in w.room.log :: w.room.log[id].number != w.procs[p].number
  {
  }

  lemma AloneKeeps(w: World, st: Step)
    requires Inv(w) && (st.Tick? || st.p !in w.procs || st.Crash?)
    ensures Inv(Next(w, st)) && Grows(w.room, Next(w, st).room)
  {
    hide Knows, NoticesKept, RoomOk, NumbersApart, FencedAfterNotices, JoinsKnown, ConsentsKnown, Begun;
    var w' := Next(w, st);
    GrowsItself(w.room);
    if st.Tick? {
      AsideKept(w.room, w'.room);
      forall q | q in w'.procs ensures Knows(w'.room, w'.procs[q]) { KnowsKept(w.room, w'.room, w.procs[q]); }
    } else if st.p !in w.procs && Begun(w.room, st).Some? {
      BegunKnows(w.room, st);
    }
  }

  lemma InvNext(w: World, st: Step)
    requires Inv(w)
    ensures Inv(Next(w, st)) && Grows(w.room, Next(w, st).room)
  {
    hide Inv, Next, Grows;
    if st.Tick? || st.p !in w.procs || st.Crash? { AloneKeeps(w, st); } else { MovedKeeps(w, st, st.p); }
  }

  lemma InvInitial(w: World)
    requires Initial(w)
    ensures Inv(w)
  {
  }

  /** The room after some run of steps from its creation. */
  ghost predicate Reachable(w: World) {
    exists start, steps :: Initial(start) && w == After(Next, start, steps)
  }

  lemma InvAfter(w: World, steps: seq<Step>)
    requires Inv(w)
    ensures Inv(After(Next, w, steps))
  {
    hide Inv, Next;
    forall v, st | Inv(v) ensures Inv(Next(v, st)) { InvNext(v, st); }
    Kept(Next, Inv, w, steps);
  }

  lemma ReachableInv(w: World)
    requires Reachable(w)
    ensures Inv(w)
  {
    hide Inv, Next, Initial;
    var start, steps :| Initial(start) && w == After(Next, start, steps);
    InvInitial(start);
    InvAfter(start, steps);
  }
}
