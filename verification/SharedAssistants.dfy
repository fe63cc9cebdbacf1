/** Shared assistants of a room: agreement that is given to one exact audience, and what a settings change does. */
module SharedAssistants {
  import opened Common
  import opened Room

  const MOST_ASSISTANTS: nat := 5

  /** How one person is present. */
  datatype Place = Place(state: State, joinedAt: Option<nat>, joinedSeq: nat)

  /** What is agreed to: these assistants, with exactly these people. Its digest is taken to be injective. */
  datatype Audience = Audience(assistants: set<Id>, people: map<Id, Place>)

  /** The settings of a room. A person has at most one consent. */
  datatype Sharing = Sharing(assistants: set<Id>, consents: map<Id, Audience>, lockedOff: bool, everyoneAdds: bool)

  /** What people are shown of an assistant: its name and its instructions. */
  datatype Card = Card(name: string, personality: string)

  datatype Update =
    | Agree(enabled: bool)
    | AdditionPolicy(everyone: bool)
    | AddAssistant(bot: Id, usable: bool, card: Card)
    | RemoveAssistant(bot: Id)
    | Switch(on: bool)
    | LockOff(on: bool)

  /** Everyone active or invited, each as they are present. */
  function People(seats: seq<Seat>): map<Id, Place> {
    if seats == [] then map[]
    else
      var last := seats[|seats| - 1];
      if Occupies(last) then People(seats[..|seats| - 1])[last.user := Place(last.state, last.joinedAt, last.joinedSeq)]
      else People(seats[..|seats| - 1])
  }

  function AudienceOf(assistants: set<Id>, seats: seq<Seat>): Audience {
    Audience(assistants, People(seats))
  }

  predicate Consented(s: Sharing, seats: seq<Seat>, user: Id) {
    user in s.consents && s.consents[user] == AudienceOf(s.assistants, seats)
  }

  /** Shared assistants may be asked: nobody is still invited, and everyone active agreed to exactly this audience. */
  predicate Enabled(s: Sharing, seats: seq<Seat>) {
    && !s.lockedOff && s.assistants != {}
    && (forall i | 0 <= i < |seats| :: seats[i].state != Invited && seats[i].state != Blocked)
    && (exists i :: 0 <= i < |seats| && seats[i].state == Active)
    && (forall i | 0 <= i < |seats| && seats[i].state == Active :: Consented(s, seats, seats[i].user))
  }

  predicate Manages(seats: seq<Seat>, user: Id) {
    var i := Find(seats, user);
    i.Some? && seats[i.value].state == Active && seats[i.value].role != Member
  }

  /** What one person's update makes of the settings; `None` when it is refused. */
  function Updated(s: Sharing, seats: seq<Seat>, user: Id, update: Update): Option<Sharing> {
    if !IsActive(seats, user) then None
    else
      match update
      case Agree(enabled) =>
        Some(s.(consents := if enabled then s.consents[user := AudienceOf(s.assistants, seats)] else s.consents - {user}))
      case AdditionPolicy(everyone) =>
        if Manages(seats, user) then Some(s.(everyoneAdds := everyone, consents := map[])) else None
      case AddAssistant(bot, usable, _) =>
        if !(s.everyoneAdds || Manages(seats, user)) || s.lockedOff || |s.assistants| >= MOST_ASSISTANTS || !usable || bot in s.assistants
        then None
        else Some(s.(assistants := s.assistants + {bot}, consents := map[]))
      case RemoveAssistant(bot) =>
        if Manages(seats, user) && bot in s.assistants then Some(s.(assistants := s.assistants - {bot}, consents := map[])) else None
      case Switch(_) => None
      case LockOff(on) =>
        if Manages(seats, user) then Some(s.(lockedOff := on, consents := map[])) else None
  }

  /** An audience holds exactly the people active or invited, each with the join they are in. */
  lemma {:induction false} PeopleAreSeated(seats: seq<Seat>)
    requires OneEach(seats)
    ensures forall i | 0 <= i < |seats| && Occupies(seats[i]) ::
      seats[i].user in People(seats) && People(seats)[seats[i].user] == Place(seats[i].state, seats[i].joinedAt, seats[i].joinedSeq)
    ensures forall u | u in People(seats) :: exists i :: 0 <= i < |seats| && seats[i].user == u && Occupies(seats[i])
    decreases |seats|
  {
    if seats != [] {
      var before := seats[..|seats| - 1];
      PeopleAreSeated(before);
      forall u | u in People(seats) ensures exists i :: 0 <= i < |seats| && seats[i].user == u && Occupies(seats[i]) {
        if u in People(before) {
          var i :| 0 <= i < |before| && before[i].user == u && Occupies(before[i]);
          assert seats[i].user == u;
        }
      }
      forall i | 0 <= i < |seats| && Occupies(seats[i])
        ensures seats[i].user in People(seats)
        ensures People(seats)[seats[i].user] == Place(seats[i].state, seats[i].joinedAt, seats[i].joinedSeq)
      {
        if i < |before| { assert before[i] == seats[i]; }
      }
    }
  }

  /** This person is active here, and an owner or admin. */
  predicate Leads(seats: seq<Seat>, user: Id) {
    exists i :: 0 <= i < |seats| && seats[i].user == user && seats[i].state == Active && (seats[i].role == Owner || seats[i].role == Admin)
  }

  predicate Present(seats: seq<Seat>, user: Id) {
    exists i :: 0 <= i < |seats| && seats[i].user == user && seats[i].state == Active
  }

  /** Who may make which change: anyone present agrees; adding may be open to everyone; the rest is for owners and admins. */
  predicate Allowed(s: Sharing, seats: seq<Seat>, user: Id, update: Update) {
    match update
    case Agree(_) => Present(seats, user)
    case AddAssistant(bot, usable, _) =>
      && (Leads(seats, user) || (s.everyoneAdds && Present(seats, user)))
      && !s.lockedOff && |s.assistants| < 5 && usable && bot !in s.assistants
    case RemoveAssistant(bot) => Leads(seats, user) && bot in s.assistants
    case AdditionPolicy(_) => Leads(seats, user)
    case LockOff(_) => Leads(seats, user)
    case Switch(_) => false
  }

  /** The settings after the change: one thing changed by it, and every agreement ended by any change but a consent. */
  ghost predicate Becomes(s: Sharing, seats: seq<Seat>, user: Id, update: Update, after: Sharing) {
    && after.lockedOff == (if update.LockOff? then update.on else s.lockedOff)
    && after.everyoneAdds == (if update.AdditionPolicy? then update.everyone else s.everyoneAdds)
    && (forall bot :: bot in after.assistants <==>
          if update.AddAssistant? && bot == update.bot then true
          else if update.RemoveAssistant? && bot == update.bot then false
          else bot in s.assistants)
    && (forall u :: u in after.consents <==> update.Agree? && (if u == user then update.enabled else u in s.consents))
    && (forall u | u in after.consents ::
          if u == user then after.consents[u] == Audience(s.assistants, People(seats))
          else u in s.consents && after.consents[u] == s.consents[u])
  }

  /** A change is made exactly when it is allowed, and then it is this one. */
  lemma UpdatedExactly(s: Sharing, seats: seq<Seat>, user: Id, update: Update)
    requires OneEach(seats)
    ensures Updated(s, seats, user, update).Some? <==> Allowed(s, seats, user, update)
    ensures Allowed(s, seats, user, update) ==> Becomes(s, seats, user, update, Updated(s, seats, user, update).value)
  {
    assert Present(seats, user) <==> IsActive(seats, user);
    assert Leads(seats, user) <==> Manages(seats, user);
  }

  /** Any change to the assistants, the lock or the addition policy turns sharing off until people agree afresh. */
  lemma ChangeEndsAgreement(s: Sharing, seats: seq<Seat>, user: Id, update: Update)
    requires Updated(s, seats, user, update).Some? && !update.Agree?
    ensures !Enabled(Updated(s, seats, user, update).value, seats)
  {
  }

  /** Two audiences with the same digest have the same assistants and the same people, each in the same join. */
  lemma SameAudienceSameJoins(s: Sharing, before: seq<Seat>, seats: seq<Seat>, assistants: set<Id>)
    requires OneEach(before) && OneEach(seats) && AudienceOf(assistants, before) == AudienceOf(s.assistants, seats)
    ensures assistants == s.assistants
    ensures forall i | 0 <= i < |seats| && seats[i].state == Active ::
      exists j :: 0 <= j < |before| && before[j].user == seats[i].user && before[j].state == Active && before[j].joinedSeq == seats[i].joinedSeq
        && before[j].joinedAt == seats[i].joinedAt
  {
    PeopleAreSeated(before);
    PeopleAreSeated(seats);
  }
}
