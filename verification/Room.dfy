/**
 The people of a room: who is invited, active or gone, who owns it, and where each one's history begins.
 Changes are made in place on a loaded conversation (`RoomDocument`), and each is specified by a function
 of the seats before it.
 */
module Room {
  import opened Common

  const ROOM_LIMIT: nat := 20

  datatype State = Invited | Active | Left | Blocked

  datatype Role = Owner | Admin | Member

  /** A participant. `joinedSeq`: the conversation's sequence number when the invitation was accepted. */
  datatype Seat = Seat(user: Id, state: State, role: Role, joinedAt: Option<nat>, joinedSeq: nat)

  datatype Action = Accept | Decline | Leave | Block

  datatype Change =
    | Answer(user: Id, action: Action)
    | Invite(actor: Id, person: Id, blocked: bool)
    | Remove(actor: Id, target: Id)

  /** A change that is refused, one that finds nothing to do, or the seats after it. */
  datatype Outcome = Refused | Same | Changed(seats: seq<Seat>)

  // ---------------------------------------------------------------- looking at the seats

  /** The first seat of this user. */
  function Find(seats: seq<Seat>, user: Id): (i: Option<nat>)
    ensures i.Some? ==> i.value < |seats| && seats[i.value].user == user && forall j | 0 <= j < i.value :: seats[j].user != user
    ensures i == None ==> forall j | 0 <= j < |seats| :: seats[j].user != user
  {
    if seats == [] then None
    else
      var before := Find(seats[..|seats| - 1], user);
      if before.Some? then before else if seats[|seats| - 1].user == user then Some(|seats| - 1) else None
  }

  /** The first active seat of anyone else. */
  function Successor(seats: seq<Seat>, user: Id): (i: Option<nat>)
    ensures i.Some? ==>
      && i.value < |seats| && seats[i.value].user != user && seats[i.value].state == Active
      && forall j | 0 <= j < i.value :: seats[j].user == user || seats[j].state != Active
    ensures i == None ==> forall j | 0 <= j < |seats| :: seats[j].user == user || seats[j].state != Active
  {
    if seats == [] then None
    else
      var before := Successor(seats[..|seats| - 1], user);
      var last := seats[|seats| - 1];
      if before.Some? then before else if last.user != user && last.state == Active then Some(|seats| - 1) else None
  }

  predicate Occupies(seat: Seat) {
    seat.state == Active || seat.state == Invited
  }

  /** How many are active or invited. */
  function Occupied(seats: seq<Seat>): (n: nat)
    ensures n <= |seats|
  {
    if seats == [] then 0 else Occupied(seats[..|seats| - 1]) + if Occupies(seats[|seats| - 1]) then 1 else 0
  }

  predicate ActiveOwner(seat: Seat) {
    seat.state == Active && seat.role == Owner
  }

  predicate HasOwner(seats: seq<Seat>) {
    exists i :: 0 <= i < |seats| && ActiveOwner(seats[i])
  }

  predicate IsActive(seats: seq<Seat>, user: Id) {
    var i := Find(seats, user);
    i.Some? && seats[i.value].state == Active
  }

  // ---------------------------------------------------------------- the changes

  /** Accepting an invitation: active from now on, with history from here, and owner if there is none. */
  function Accepted(seats: seq<Seat>, i: nat, now: nat, here: nat): (after: seq<Seat>)
    requires i < |seats|
    ensures |after| == |seats| && forall j | 0 <= j < |seats| && j != i :: after[j] == seats[j]
  {
    var joined := seats[i].(state := Active, joinedAt := Some(now), joinedSeq := here);
    seats[i := if HasOwner(seats[i := joined]) then joined else joined.(role := Owner)]
  }

  /** Leaving or declining: an owner hands over to the first other active person. */
  function Departed(seats: seq<Seat>, i: nat): (after: seq<Seat>)
    requires i < |seats|
    ensures |after| == |seats| && forall j | 0 <= j < |seats| :: after[j].user == seats[j].user
  {
    var gone := seats[i := seats[i].(state := Left)];
    var next := Successor(gone, seats[i].user);
    if seats[i].role == Owner && next.Some? then gone[next.value := gone[next.value].(role := Owner)] else gone
  }

  function Answering(seats: seq<Seat>, user: Id, action: Action, now: nat, here: nat): Outcome {
    var i := Find(seats, user);
    if i == None || seats[i.value].state == Left || seats[i.value].state == Blocked then Refused
    else if action == Accept && seats[i.value].state == Active then Same
    else if action == Block then Refused
    else Changed(if action == Accept then Accepted(seats, i.value, now, here) else Departed(seats, i.value))
  }

  function Inviting(seats: seq<Seat>, actor: Id, person: Id, blocked: bool): Outcome {
    var me, i := Find(seats, actor), Find(seats, person);
    if me == None || seats[me.value].state != Active || seats[me.value].role == Member then Refused
    else if i.Some? && seats[i.value].state == Invited then Same
    else if i.Some? && seats[i.value].state != Left then Refused
    else if Occupied(seats) >= ROOM_LIMIT || blocked then Refused
    else if i.Some? then Changed(seats[i.value := seats[i.value].(state := Invited, role := Member, joinedAt := None)])
    else Changed(seats + [Seat(person, Invited, Member, None, 0)])
  }

  function Removing(seats: seq<Seat>, actor: Id, target: Id): Outcome {
    var me, i := Find(seats, actor), Find(seats, target);
    if me == None || seats[me.value].state != Active || seats[me.value].role != Owner then Refused
    else if i == None || target == actor then Refused
    else if seats[i.value].state == Left then Same
    else Changed(seats[i.value := seats[i.value].(state := Left)])
  }

  /** What a change makes of these seats; `here` is the conversation's sequence number. */
  function Apply(seats: seq<Seat>, change: Change, now: nat, here: nat): Outcome {
    match change
    case Answer(user, action) => Answering(seats, user, action, now, here)
    case Invite(actor, person, blocked) => Inviting(seats, actor, person, blocked)
    case Remove(actor, target) => Removing(seats, actor, target)
  }

  /** A new room: its creator, and those invited with it. */
  function Created(creator: Id, others: seq<Id>, now: nat): seq<Seat> {
    [Seat(creator, Active, Owner, Some(now), 0)] + seq(|others|, i requires 0 <= i < |others| => Seat(others[i], Invited, Member, None, 0))
  }

  // ---------------------------------------------------------------- what every change keeps

  predicate WellSeated(seat: Seat) {
    && seat.state != Blocked
    && (seat.state == Invited ==> seat.role == Member && seat.joinedAt == None)
    && (seat.state == Active ==> seat.joinedAt.Some?)
  }

  predicate OneEach(seats: seq<Seat>) {
    forall i, j | 0 <= i < j < |seats| :: seats[i].user != seats[j].user
  }

  /** If anyone is active, exactly one active person is owner. */
  predicate OneOwner(seats: seq<Seat>) {
    && (forall i | 0 <= i < |seats| && seats[i].state == Active :: HasOwner(seats))
    && (forall i, j | 0 <= i < j < |seats| :: !(ActiveOwner(seats[i]) && ActiveOwner(seats[j])))
  }

  predicate RoomOk(seats: seq<Seat>) {
    && OneEach(seats) && OneOwner(seats) && Occupied(seats) <= ROOM_LIMIT
    && forall i | 0 <= i < |seats| :: WellSeated(seats[i])
  }

  lemma {:induction false} OccupiedUpdated(seats: seq<Seat>, i: nat, seat: Seat)
    requires i < |seats|
    ensures Occupied(seats[i := seat]) == Occupied(seats) - (if Occupies(seats[i]) then 1 else 0) + if Occupies(seat) then 1 else 0
    decreases |seats|
  {
    var n := |seats| - 1;
    if i < n {
      OccupiedUpdated(seats[..n], i, seat);
      assert seats[i := seat][..n] == seats[..n][i := seat];
    } else {
      assert seats[i := seat][..n] == seats[..n];
    }
  }

  lemma AcceptedOk(seats: seq<Seat>, i: nat, now: nat, here: nat)
    requires RoomOk(seats) && i < |seats| && seats[i].state == Invited
    ensures RoomOk(Accepted(seats, i, now, here))
  {
    var joined := seats[i].(state := Active, joinedAt := Some(now), joinedSeq := here);
    var after := Accepted(seats, i, now, here);
    OccupiedUpdated(seats, i, after[i]);
    if HasOwner(seats[i := joined]) {
      var k :| 0 <= k < |seats| && ActiveOwner(seats[i := joined][k]);
      assert ActiveOwner(after[k]);
    } else {
      assert ActiveOwner(after[i]);
      forall k | 0 <= k < |seats| && k != i ensures !ActiveOwner(after[k]) {
        assert seats[i := joined][k] == seats[k];
      }
    }
  }

  lemma DepartedOk(seats: seq<Seat>, i: nat)
    requires RoomOk(seats) && i < |seats| && Occupies(seats[i])
    ensures RoomOk(Departed(seats, i))
  {
    var gone := seats[i := seats[i].(state := Left)];
    var next := Successor(gone, seats[i].user);
    var after := Departed(seats, i);
    OccupiedUpdated(seats, i, gone[i]);
    if seats[i].role == Owner {
      assert seats[i].state == Active && ActiveOwner(seats[i]);
      if next.Some? {
        OccupiedUpdated(gone, next.value, after[next.value]);
        assert ActiveOwner(after[next.value]);
      }
    } else {
      forall k | 0 <= k < |seats| && after[k].state == Active ensures HasOwner(after) {
        assert seats[k].state == Active;
        var o :| 0 <= o < |seats| && ActiveOwner(seats[o]);
        assert ActiveOwner(after[o]);
      }
    }
  }

  lemma AnsweringOk(seats: seq<Seat>, user: Id, action: Action, now: nat, here: nat)
    requires RoomOk(seats) && Answering(seats, user, action, now, here).Changed?
    ensures RoomOk(Answering(seats, user, action, now, here).seats)
  {
    hide RoomOk, Accepted, Departed;
    var i := Find(seats, user).value;
    SeatedWell(seats, i);
    if action == Accept { AcceptedOk(seats, i, now, here); } else { DepartedOk(seats, i); }
  }

  lemma SeatedWell(seats: seq<Seat>, i: nat)
    requires RoomOk(seats) && i < |seats|
    ensures WellSeated(seats[i])
  {
  }

  /** Seats other than i stay as they are, and i is not active after; if it was owner there is still one. */
  lemma SeatChangedOk(seats: seq<Seat>, i: nat, seat: Seat)
    requires RoomOk(seats) && i < |seats| && !ActiveOwner(seats[i]) && seat.user == seats[i].user && seat.state != Active
    requires WellSeated(seat) && (Occupies(seat) && !Occupies(seats[i]) ==> Occupied(seats) < ROOM_LIMIT)
    ensures RoomOk(seats[i := seat])
  {
    OccupiedUpdated(seats, i, seat);
    var after := seats[i := seat];
    forall k | 0 <= k < |after| && after[k].state == Active ensures HasOwner(after) {
      assert seats[k].state == Active;
      var o :| 0 <= o < |seats| && ActiveOwner(seats[o]);
      assert ActiveOwner(after[o]);
    }
  }

  lemma SeatAddedOk(seats: seq<Seat>, seat: Seat)
    requires RoomOk(seats) && Find(seats, seat.user) == None && seat.state == Invited && WellSeated(seat) && Occupied(seats) < ROOM_LIMIT
    ensures RoomOk(seats + [seat])
  {
    var after := seats + [seat];
    assert after[..|seats|] == seats;
    forall k | 0 <= k < |after| && after[k].state == Active ensures HasOwner(after) {
      assert seats[k].state == Active;
      var o :| 0 <= o < |seats| && ActiveOwner(seats[o]);
      assert ActiveOwner(after[o]);
    }
  }

  /**
   The state machine of a room: through any accept, decline, leave, invite or removal, user ids stay
   distinct, at most 20 people are active or invited, an invitation carries no rank, and while anyone is
   active exactly one active person is owner.
   */
  lemma ChangeKeepsRoom(seats: seq<Seat>, change: Change, now: nat, here: nat)
    requires RoomOk(seats) && Apply(seats, change, now, here).Changed?
    ensures RoomOk(Apply(seats, change, now, here).seats)
  {
    hide RoomOk, WellSeated, Answering;
    match change {
      case Answer(user, action) => AnsweringOk(seats, user, action, now, here);
      case Invite(actor, person, _) =>
        var i := Find(seats, person);
        if i.Some? {
          LeftIsFree(seats, i.value);
          SeatChangedOk(seats, i.value, seats[i.value].(state := Invited, role := Member, joinedAt := None));
        } else {
          FreshSeat(person);
          SeatAddedOk(seats, Seat(person, Invited, Member, None, 0));
        }
      case Remove(actor, target) =>
        var me, i := Find(seats, actor).value, Find(seats, target).value;
        OnlyOneOwner(seats, me, i);
        LeftIsFree(seats, i);
        SeatChangedOk(seats, i, seats[i].(state := Left));
    }
  }

  lemma FreshSeat(person: Id)
    ensures WellSeated(Seat(person, Invited, Member, None, 0))
  {
  }

  lemma LeftIsFree(seats: seq<Seat>, i: nat)
    requires RoomOk(seats) && i < |seats|
    ensures WellSeated(seats[i].(state := Left)) && WellSeated(seats[i].(state := Invited, role := Member, joinedAt := None))
  {
  }

  lemma OnlyOneOwner(seats: seq<Seat>, me: nat, i: nat)
    requires RoomOk(seats) && me < |seats| && i < |seats| && me != i && ActiveOwner(seats[me])
    ensures !ActiveOwner(seats[i])
  {
  }

  lemma CreatedOk(creator: Id, others: seq<Id>, now: nat)
    requires 1 <= |others| <= ROOM_LIMIT - 1 && creator !in others && forall i, j | 0 <= i < j < |others| :: others[i] != others[j]
    ensures RoomOk(Created(creator, others, now))
  {
  }

  /** How the owner changes: by leaving it passes to the first other active person in the list, and to nobody else. */
  lemma OwnerHandsOver(seats: seq<Seat>, i: nat)
    requires RoomOk(seats) && i < |seats| && ActiveOwner(seats[i])
    ensures var after := Departed(seats, i); var next := Successor(seats, seats[i].user);
      forall k | 0 <= k < |seats| :: ActiveOwner(after[k]) <==> next == Some(k)
  {
  }

  // ---------------------------------------------------------------- who may change what

  /** This person has a seat in one of these states. */
  predicate Seated(seats: seq<Seat>, user: Id, states: set<State>) {
    exists i :: 0 <= i < |seats| && seats[i].user == user && seats[i].state in states
  }

  /** This person is active, with one of these roles. */
  predicate Ranked(seats: seq<Seat>, user: Id, roles: set<Role>) {
    exists i :: 0 <= i < |seats| && seats[i].user == user && seats[i].state == Active && seats[i].role in roles
  }

  /** `after` is `seats` with a seat of this user that `fits`, and every other seat in its place as it was. */
  ghost predicate OnlySeat(seats: seq<Seat>, after: seq<Seat>, user: Id, fits: Seat -> bool) {
    && |seats| <= |after| <= |seats| + 1
    && (|after| == |seats| <==> exists i :: 0 <= i < |seats| && seats[i].user == user)
    && (forall i | 0 <= i < |seats| :: if seats[i].user == user then after[i].user == user && fits(after[i]) else after[i] == seats[i])
    && (|after| > |seats| ==> after[|seats|].user == user && fits(after[|seats|]))
  }

  lemma FindsOnly(seats: seq<Seat>, user: Id, i: nat)
    requires OneEach(seats) && i < |seats| && seats[i].user == user
    ensures Find(seats, user) == Some(i)
  {
  }

  /**
   An invitation is refused exactly when its sender is no active owner or admin, the person is here or blocked, or
   the room is full or the two have blocked each other; a second one changes nothing. Otherwise the person, who had
   left or was never here, is invited without rank, and nobody else's seat changes.
   */
  lemma InvitedExactly(seats: seq<Seat>, actor: Id, person: Id, blocked: bool)
    requires OneEach(seats)
    ensures var outcome := Inviting(seats, actor, person, blocked);
      && (outcome.Refused? <==>
            || !Ranked(seats, actor, {Owner, Admin}) || Seated(seats, person, {Active, Blocked})
            || (!Seated(seats, person, {Invited}) && (Occupied(seats) >= 20 || blocked)))
      && (outcome.Same? <==> Ranked(seats, actor, {Owner, Admin}) && Seated(seats, person, {Invited}))
      && (outcome.Changed? ==>
            OnlySeat(seats, outcome.seats, person, (seat: Seat) => seat.state == Invited && seat.role == Member && seat.joinedAt == None))
  {
    forall i, s: set<State> | 0 <= i < |seats| && seats[i].user == person
      ensures Seated(seats, person, s) <==> seats[i].state in s
    {
      FindsOnly(seats, person, i);
    }
    forall i | 0 <= i < |seats| && seats[i].user == actor
      ensures Ranked(seats, actor, {Owner, Admin}) <==> seats[i].state == Active && seats[i].role != Member
    {
      FindsOnly(seats, actor, i);
    }
  }

  /** A removal is refused exactly when its sender is not the active owner, or the target is themselves or has no seat; nobody else's seat changes. */
  lemma RemovedExactly(seats: seq<Seat>, actor: Id, target: Id)
    requires OneEach(seats)
    ensures var outcome := Removing(seats, actor, target);
      && (outcome.Refused? <==> !Ranked(seats, actor, {Owner}) || actor == target || !Seated(seats, target, {Invited, Active, Left, Blocked}))
      && (outcome.Same? <==> Ranked(seats, actor, {Owner}) && actor != target && Seated(seats, target, {Left}))
      && (outcome.Changed? ==>
            |outcome.seats| == |seats| && OnlySeat(seats, outcome.seats, target, (seat: Seat) => seat.state == Left))
  {
    forall i, s: set<State> | 0 <= i < |seats| && seats[i].user == target
      ensures Seated(seats, target, s) <==> seats[i].state in s
    {
      FindsOnly(seats, target, i);
    }
    forall i | 0 <= i < |seats| && seats[i].user == actor
      ensures Ranked(seats, actor, {Owner}) <==> seats[i].state == Active && seats[i].role == Owner
    {
      FindsOnly(seats, actor, i);
    }
  }

  lemma JoiningOwnsNothing(seats: seq<Seat>, i: nat, joined: Seat)
    requires i < |seats|
    ensures !ActiveOwner(seats[i]) && !ActiveOwner(joined) ==> (HasOwner(seats[i := joined]) <==> HasOwner(seats))
  {
    var after := seats[i := joined];
    if HasOwner(after) { var k :| 0 <= k < |after| && ActiveOwner(after[k]); assert k != i ==> ActiveOwner(seats[k]); }
    if HasOwner(seats) { var k :| 0 <= k < |seats| && ActiveOwner(seats[k]); assert k != i ==> ActiveOwner(after[k]); }
  }

  /**
   An answer is refused exactly when its sender has left, is blocked or has no seat, or means to block. Accepting makes
   an invited person active from now on with history from here, and owner if nobody active is; declining and leaving
   make them left; except for the owner who follows one that left, nobody else's seat changes.
   */
  lemma AnsweredExactly(seats: seq<Seat>, user: Id, action: Action, now: nat, here: nat)
    requires RoomOk(seats)
    ensures var outcome := Answering(seats, user, action, now, here);
      && (outcome.Refused? <==> !Seated(seats, user, {Invited, Active}) || action == Block)
      && (outcome.Same? <==> Seated(seats, user, {Active}) && action == Accept)
      && (outcome.Changed? && action == Accept ==>
            OnlySeat(seats, outcome.seats, user, (seat: Seat) =>
              seat.state == Active && seat.joinedAt == Some(now) && seat.joinedSeq == here
              && (seat.role == Owner <==> !HasOwner(seats))))
      && (outcome.Changed? && action != Accept ==>
            && Seated(outcome.seats, user, {Left})
            && (!Ranked(seats, user, {Owner}) ==> OnlySeat(seats, outcome.seats, user, (seat: Seat) => seat.state == Left)))
  {
    forall i, s: set<State> | 0 <= i < |seats| && seats[i].user == user
      ensures Seated(seats, user, s) <==> seats[i].state in s
    {
      FindsOnly(seats, user, i);
    }
    forall i | 0 <= i < |seats| && seats[i].user == user
      ensures Ranked(seats, user, {Owner}) <==> seats[i].state == Active && seats[i].role == Owner
    {
      FindsOnly(seats, user, i);
    }
    var i := Find(seats, user);
    if i.Some? {
      SeatedWell(seats, i.value);
      JoiningOwnsNothing(seats, i.value, seats[i.value].(state := Active, joinedAt := Some(now), joinedSeq := here));
    }
  }

  // ---------------------------------------------------------------- in place

  /** A conversation loaded for a membership change. */
  class RoomDocument {
    var participants: seq<Seat>
    var version: nat

    constructor (seats: seq<Seat>, membershipVersion: nat)
      ensures participants == seats && version == membershipVersion
    {
      participants, version := seats, membershipVersion;
    }

    /** The index of this user's seat, or the length. */
    method Seek(user: Id) returns (i: nat)
      ensures i <= |participants| && Find(participants, user) == if i < |participants| then Some(i) else None
    {
      i := 0;
      while i < |participants| && participants[i].user != user
        invariant i <= |participants| && forall j | 0 <= j < i :: participants[j].user != user
      {
        i := i + 1;
      }
    }

    method Update(user: Id, action: Action, now: nat, here: nat) returns (outcome: Outcome)
      modifies this
      ensures outcome == Answering(old(participants), user, action, now, here)
      ensures participants == if outcome.Changed? then outcome.seats else old(participants)
      ensures version == old(version) + if outcome.Changed? then 1 else 0
    {
      var i := Seek(user);
      if i == |participants| || participants[i].state == Left || participants[i].state == Blocked { return Refused; }
      if action == Accept && participants[i].state == Active { return Same; }
      if action == Block { return Refused; }
      ghost var was := participants;
      var member := participants[i];
      if action == Accept {
        participants := participants[i := member.(state := Active, joinedAt := Some(now), joinedSeq := here)];
        var owned := OwnerThere();
        if !owned {
          participants := participants[i := participants[i].(role := Owner)];
          assert participants == Accepted(was, i, now, here);
        }
      } else {
        participants := participants[i := member.(state := Left)];
        if member.role == Owner {
          var next := FirstOther(user);
          if next < |participants| {
            participants := participants[next := participants[next].(role := Owner)];
          }
        }
      }
      version := version + 1;
      outcome := Changed(participants);
    }

    method OwnerThere() returns (found: bool)
      ensures found == HasOwner(participants)
    {
      var i := 0;
      while i < |participants| && !ActiveOwner(participants[i])
        invariant i <= |participants| && forall j | 0 <= j < i :: !ActiveOwner(participants[j])
      {
        i := i + 1;
      }
      found := i < |participants|;
    }

    method FirstOther(user: Id) returns (i: nat)
      ensures i <= |participants| && Successor(participants, user) == if i < |participants| then Some(i) else None
    {
      i := 0;
      while i < |participants| && !(participants[i].user != user && participants[i].state == Active)
        invariant i <= |participants| && forall j | 0 <= j < i :: participants[j].user == user || participants[j].state != Active
      {
        i := i + 1;
      }
    }

    method Count() returns (n: nat)
      ensures n == Occupied(participants)
    {
      n := 0;
      for i := 0 to |participants|
        invariant n == Occupied(participants[..i])
      {
        assert participants[..i + 1][..i] == participants[..i];
        if Occupies(participants[i]) { n := n + 1; }
      }
      assert participants[..|participants|] == participants;
    }

    method InvitePerson(actor: Id, person: Id, blocked: bool) returns (outcome: Outcome)
      modifies this
      ensures outcome == Inviting(old(participants), actor, person, blocked)
      ensures participants == if outcome.Changed? then outcome.seats else old(participants)
      ensures version == old(version) + if outcome.Changed? then 1 else 0
    {
      var me := Seek(actor);
      var i := Seek(person);
      if me == |participants| || participants[me].state != Active || participants[me].role == Member { return Refused; }
      if i < |participants| && participants[i].state == Invited { return Same; }
      if i < |participants| && participants[i].state != Left { return Refused; }
      var people := Count();
      if people >= ROOM_LIMIT || blocked { return Refused; }
      if i < |participants| {
        participants := participants[i := participants[i].(state := Invited, role := Member, joinedAt := None)];
      } else {
        participants := participants + [Seat(person, Invited, Member, None, 0)];
      }
      version := version + 1;
      outcome := Changed(participants);
    }

    method RemovePerson(actor: Id, target: Id) returns (outcome: Outcome)
      modifies this
      ensures outcome == Removing(old(participants), actor, target)
      ensures participants == if outcome.Changed? then outcome.seats else old(participants)
      ensures version == old(version) + if outcome.Changed? then 1 else 0
    {
      var me := Seek(actor);
      var i := Seek(target);
      if me == |participants| || participants[me].state != Active || participants[me].role != Owner { return Refused; }
      if i == |participants| || target == actor { return Refused; }
      if participants[i].state == Left { return Same; }
      participants := participants[i := participants[i].(state := Left)];
      version := version + 1;
      outcome := Changed(participants);
    }
  }
}
