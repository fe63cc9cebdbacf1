/**
 The log of one room: numbers handed out by an atomic increment and by guarded saves of the whole
 document, membership notices kept in an outbox on the document until they are in the log, sends fenced
 by the membership version, and agreement to shared assistants. Every step is one database call, by any
 number of requests and workers.
 */
module ConversationLog {
  import opened Common
  import opened Machine
  import opened Room
  import opened SharedAssistants

  /** The `clientId` of a message: chosen by a person, or made from a version or a question. These never coincide. */
  datatype ClientId = Chosen(text: nat) | Notice(version: nat) | Policy(version: nat) | Answered(question: nat)

  /** A message of the log; `quote` is the number of the message it quotes. */
  datatype Entry = Entry(number: nat, sender: Option<Id>, quote: Option<nat>)

  /** A notice waiting on the document. */
  datatype Event = Event(version: nat, number: nat)

  /** The conversation document. `lock` is its optimistic concurrency version. */
  datatype Doc = Doc(lock: nat, number: nat, version: nat, seats: seq<Seat>, events: seq<Event>, last: nat, sharing: Sharing)

  /** History of a number: it was reserved for a message, or for the notice of a membership change. */
  datatype Allotment =
    | ForMessage(fenced: bool)
    | ForNotice(version: nat, accepted: Option<Id>)

  /**
   `log` is the unique index on the client id. History: `allotted`, what each number was handed out for,
   first to last; `joined`, `given` and `reset`, the versions at which a person last accepted, a consent
   was given, and agreement was last cleared; `shown`, the cards as they were at that clearing. `cards` are
   the documents of the assistants shared here.
   */
  datatype Chat = Chat(
    now: nat, doc: Doc, log: map<ClientId, Entry>,
    allotted: seq<Allotment>, joined: map<Id, nat>, given: map<Id, nat>, reset: nat,
    cards: map<Id, Card>, shown: map<Id, Card>)

  /** A message to be appended; `expected` fences it by the membership version. */
  datatype Draft = Draft(id: ClientId, sender: Option<Id>, expected: Option<nat>, quote: Option<nat>)

  /** What a flush of the outbox is followed by. */
  datatype Task = Nothing | Changing(change: Change, base: Doc) | Appending(draft: Draft)

  datatype Proc =
    | Composing(user: Id, id: ClientId, reply: Option<ClientId>, base: Doc)
    | Updating(user: Id, update: Update, base: Doc)
    | Disclosed(user: Id, update: Update, base: Doc)
    | ToFlush(task: Task)
    | Flushing(pending: seq<Event>, inserted: bool, task: Task)
    | Reserving(draft: Draft)
    | Reserved(draft: Draft, number: nat)
    | Raising(id: ClientId)

  datatype World = World(room: Chat, procs: map<Id, Proc>)

  datatype Step =
    | Tick(ms: nat)
    | BeginFlush(p: Id)
    | BeginChange(p: Id, change: Change)
    | BeginSend(p: Id, user: Id, id: nat, reply: Option<ClientId>)
    | BeginAnswer(p: Id, question: nat, expected: Option<nat>)
    | BeginUpdate(p: Id, user: Id, update: Update)
    | CheckSend(p: Id)
    | ReadEvents(p: Id)
    | InsertNotice(p: Id)
    | PullNotice(p: Id)
    | Save(p: Id, at: nat)
    | FindExisting(p: Id)
    | Reserve(p: Id)
    | Insert(p: Id)
    | Raise(p: Id)
    | Disclose(p: Id)
    | SaveUpdate(p: Id)
    | EndFlush(p: Id)
    | Crash(p: Id)

  // ---------------------------------------------------------------- the calls

  /** A notice enters the log unless it is there. */
  function WithNotice(r: Chat, e: Event): Chat {
    if Notice(e.version) in r.log then r else r.(log := r.log[Notice(e.version) := Entry(e.number, None, None)])
  }

  /** The events but the one of this version. */
  function Without(events: seq<Event>, version: nat): (rest: seq<Event>)
    ensures forall e | e in rest :: e in events && e.version != version
    ensures forall e | e in events && e.version != version :: e in rest
  {
    if events == [] then []
    else
      var rest := Without(events[..|events| - 1], version);
      if events[|events| - 1].version == version then rest else rest + [events[|events| - 1]]
  }

  function Pulled(r: Chat, e: Event): Chat {
    r.(doc := r.doc.(events := Without(r.doc.events, e.version), last := Max(r.doc.last, e.number)))
  }

  /** Who accepted by this change, if anyone did. */
  function WhoAccepted(change: Change): Option<Id> {
    if change.Answer? && change.action == Accept then Some(change.user) else None
  }

  /**
   The guarded save of a membership change: the seats after it, the next number and version, and one
   notice, whatever events the document held.
   */
  function Saved(r: Chat, base: Doc, seats: seq<Seat>, accepted: Option<Id>): Chat {
    var version := base.version + 1;
    r.(doc := r.doc.(lock := base.lock + 1, number := base.number + 1, version := version, seats := seats,
                     events := [Event(version, base.number + 1)]),
       allotted := r.allotted + [ForNotice(version, accepted)],
       joined := if accepted.Some? then r.joined[accepted.value := version] else r.joined)
  }

  /** The guarded save of a settings change. */
  function Shared(r: Chat, base: Doc, user: Id, update: Update, sharing: Sharing): Chat {
    var version := base.version + 1;
    var clears := !update.Agree?;
    r.(doc := r.doc.(lock := base.lock + 1, version := version, sharing := sharing),
       given := if clears then map[] else if update.enabled then r.given[user := version] else r.given - {user},
       reset := if clears then version else r.reset,
       shown := if clears then r.cards else r.shown)
  }

  /** The next number, by an atomic increment. */
  function Numbered(r: Chat, fenced: bool): Chat {
    r.(doc := r.doc.(number := r.doc.number + 1), allotted := r.allotted + [ForMessage(fenced)])
  }

  /** A room member sees the messages numbered after their acceptance. */
  predicate Sees(seats: seq<Seat>, user: Id, n: nat) {
    var i := Find(seats, user);
    i.Some? && seats[i.value].state == Active && seats[i.value].joinedAt.Some? && n > seats[i.value].joinedSeq
  }

  /** Every active person's history had begun before this number. */
  predicate SeenByAll(seats: seq<Seat>, n: nat) {
    n > 0 && forall i | 0 <= i < |seats| && seats[i].state == Active :: n > seats[i].joinedSeq
  }

  /** `sendMessage` up to its append: the quoted message must be visible to the sender and to everyone active. */
  function Checked(r: Chat, user: Id, id: ClientId, reply: Option<ClientId>, base: Doc): Option<Draft> {
    if id in r.log then None
    else if reply == None then Some(Draft(id, Some(user), Some(base.version), None))
    else if reply.value in r.log && Sees(base.seats, user, r.log[reply.value].number) && SeenByAll(base.seats, r.log[reply.value].number) then
      Some(Draft(id, Some(user), Some(base.version), Some(r.log[reply.value].number)))
    else None
  }

  /** The room after the step of a process that stands at `proc`, and where it stands then; `None` when it is over. */
  function Moved(r: Chat, st: Step, proc: Proc): (Chat, Option<Proc>) {
    match proc
    case Composing(user, id, reply, base) =>
      if !st.CheckSend? then (r, Some(proc))
      else
        var draft := Checked(r, user, id, reply, base);
        (r, if draft.Some? then Some(ToFlush(Appending(draft.value))) else None)
    case Updating(user, update, base) =>
      if update.AddAssistant? then
        if !st.Disclose? then (r, Some(proc))
        else if Updated(base.sharing, base.seats, user, update) == None then (r, None)
        else (r.(cards := r.cards[update.bot := update.card]), Some(Disclosed(user, update, base)))
      else if st.SaveUpdate? then SaveSettings(r, user, update, base) else (r, Some(proc))
    case Disclosed(user, update, base) => if st.SaveUpdate? then SaveSettings(r, user, update, base) else (r, Some(proc))
    case ToFlush(task) => (r, if st.ReadEvents? then Some(Flushing(r.doc.events, false, task)) else Some(proc))
    case Flushing(pending, inserted, task) =>
      if pending != [] then
        if st.InsertNotice? && !inserted then (WithNotice(r, pending[0]), Some(Flushing(pending, true, task)))
        else if st.PullNotice? && inserted then (Pulled(r, pending[0]), Some(Flushing(pending[1..], false, task)))
        else (r, Some(proc))
      else if st.EndFlush? && task.Nothing? then (r, None)
      else if st.Save? && task.Changing? && st.at <= r.now then SaveChange(r, task.change, task.base, st.at)
      else if st.FindExisting? && task.Appending? then
        (r, Some(if task.draft.id in r.log then Raising(task.draft.id) else Reserving(task.draft)))
      else (r, Some(proc))
    case Reserving(draft) =>
      if !st.Reserve? then (r, Some(proc))
      else if draft.expected.Some? && draft.expected.value != r.doc.version then (r, None)
      else (Numbered(r, draft.expected.Some?), Some(Reserved(draft, r.doc.number + 1)))
    case Reserved(draft, n) =>
      if !st.Insert? then (r, Some(proc))
      else (if draft.id in r.log then r else r.(log := r.log[draft.id := Entry(n, draft.sender, draft.quote)]), Some(Raising(draft.id)))
    case Raising(id) =>
      if st.Raise? && id in r.log then (r.(doc := r.doc.(last := Max(r.doc.last, r.log[id].number))), None) else (r, Some(proc))
  }

  /** The settings decided on the loaded document, and saved if it has not moved. */
  function SaveSettings(r: Chat, user: Id, update: Update, base: Doc): (Chat, Option<Proc>) {
    var sharing := Updated(base.sharing, base.seats, user, update);
    if sharing == None || r.doc.lock != base.lock then (r, None)
    else (Shared(r, base, user, update, sharing.value), Some(ToFlush(Appending(Draft(Policy(base.version + 1), Some(user), None, None)))))
  }

  /** The change decided on the loaded document, and saved if neither it nor the sequence has moved. */
  function SaveChange(r: Chat, change: Change, base: Doc, at: nat): (Chat, Option<Proc>) {
    var outcome := Apply(base.seats, change, at, base.number);
    if !outcome.Changed? || r.doc.lock != base.lock || r.doc.number != base.number then (r, None)
    else (Saved(r, base, outcome.seats, WhoAccepted(change)), Some(ToFlush(Nothing)))
  }

  /** What a process that has just begun has loaded; `None` for steps that begin nothing or are refused at once. */
  function Begun(r: Chat, st: Step): Option<Proc> {
    match st
    case BeginFlush(_) => Some(ToFlush(Nothing))
    case BeginChange(_, change) => Some(ToFlush(Changing(change, r.doc)))
    case BeginSend(_, user, id, reply) => if IsActive(r.doc.seats, user) then Some(Composing(user, Chosen(id), reply, r.doc)) else None
    case BeginAnswer(_, question, expected) =>
      if expected.Some? && expected.value > r.doc.version then None
      else Some(ToFlush(Appending(Draft(Answered(question), None, expected, None))))
    case BeginUpdate(_, user, update) => if IsActive(r.doc.seats, user) then Some(Updating(user, update, r.doc)) else None
    case _ => None
  }

  /** A step whose process is not at that point changes nothing. */
  function Next(w: World, st: Step): World {
    if st.Tick? then w.(room := w.room.(now := w.room.now + st.ms))
    else if st.p !in w.procs then
      var begun := Begun(w.room, st);
      if begun.Some? then w.(procs := w.procs[st.p := begun.value]) else w
    else if st.Crash? then w.(procs := w.procs - {st.p})
    else
      var moved := Moved(w.room, st, w.procs[st.p]);
      World(moved.0, if moved.1.Some? then w.procs[st.p := moved.1.value] else w.procs - {st.p})
  }

  /** A room just created: nothing said, nothing handed out. */
  ghost predicate Initial(w: World) {
    && w.procs == map[] && w.room.log == map[] && w.room.allotted == [] && w.room.joined == map[] && w.room.given == map[] && w.room.reset == 0
    && w.room.doc.lock == 0 && w.room.doc.number == 0 && w.room.doc.version == 1 && w.room.doc.events == [] && w.room.doc.last == 0
    && w.room.doc.sharing.consents == map[] && w.room.doc.sharing.assistants == {} && w.room.cards == map[] && w.room.shown == map[]
    && exists creator, others, at ::
         && 1 <= |others| <= ROOM_LIMIT - 1 && creator !in others && (forall i, j | 0 <= i < j < |others| :: others[i] != others[j])
         && w.room.doc.seats == Created(creator, others, at)
  }
}
