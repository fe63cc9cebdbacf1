/**
 What consent to shared assistants says of their names and instructions. An agreement is bound to the ids of
 the assistants; the card behind an id is written before the guarded save that lists it, so an addition that
 loses the race may still rewrite the card of an assistant others have agreed to.
 */
module DisclosedCards {
  import opened Common
  import opened Machine
  import opened Room
  import opened SharedAssistants
  import opened ConversationLog
  import opened ConversationInvariants
  import opened ConversationGuarantees

  /** The cards of the listed assistants are those there were when agreement was last cleared. */
  ghost predicate CardsStand(r: Chat) {
    forall bot | bot in r.doc.sharing.assistants :: bot in r.cards && bot in r.shown && r.cards[bot] == r.shown[bot]
  }

  /** The next step of p writes the card of an assistant it is about to add. */
  predicate Writes(w: World, st: Step) {
    && st.Disclose? && st.p in w.procs && w.procs[st.p].Updating? && w.procs[st.p].update.AddAssistant?
    && Updated(w.procs[st.p].base.sharing, w.procs[st.p].base.seats, w.procs[st.p].user, w.procs[st.p].update).Some?
  }

  /** An addition writes its card although the document has moved since it was loaded: its save is going to fail. */
  predicate WritesLate(w: World, st: Step) {
    Writes(w, st) && w.procs[st.p].base.lock != w.room.doc.lock
  }

  /** A card of a listed assistant is written over with another. */
  predicate Rewrites(w: World, st: Step) {
    && Writes(w, st) && w.procs[st.p].update.bot in w.room.doc.sharing.assistants
    && (w.procs[st.p].update.bot in w.room.cards ==> w.room.cards[w.procs[st.p].update.bot] != w.procs[st.p].update.card)
  }

  ghost predicate NeverRewrites(w: World, steps: seq<Step>)
    decreases |steps|
  {
    steps == [] || (NeverRewrites(w, steps[..|steps| - 1]) && !Rewrites(After(Next, w, steps[..|steps| - 1]), steps[|steps| - 1]))
  }

  ghost predicate NeverWritesLate(w: World, steps: seq<Step>)
    decreases |steps|
  {
    steps == [] || (NeverWritesLate(w, steps[..|steps| - 1]) && !WritesLate(After(Next, w, steps[..|steps| - 1]), steps[|steps| - 1]))
  }

  /** While the document is as it was loaded, what is to be added is not listed: only a late addition rewrites a card. */
  lemma OnlyLateRewrites(w: World, st: Step)
    requires Inv(w) && Rewrites(w, st)
    ensures WritesLate(w, st)
  {
    hide RoomKnown, ReservedApart;
    assert Knows(w.room, w.procs[st.p]);
  }

  /** The cards stand through every step but a rewriting one, and through that they do not. */
  lemma CardsStandExactly(w: World, st: Step)
    requires Inv(w) && CardsStand(w.room)
    ensures CardsStand(Next(w, st).room) <==> !Rewrites(w, st)
  {
    hide RoomKnown, ReservedApart, Moved, Begun;
    if !st.Tick? && st.p in w.procs && !st.Crash? {
      assert Knows(w.room, w.procs[st.p]);
      MovedCards(w.room, st, w.procs[st.p]);
    }
  }

  lemma MovedCards(r: Chat, st: Step, proc: Proc)
    requires Knows(r, proc) && CardsStand(r)
    ensures CardsStand(Moved(r, st, proc).0) <==>
      !(proc.Updating? && st.Disclose? && proc.update.AddAssistant? && Updated(proc.base.sharing, proc.base.seats, proc.user, proc.update).Some?
        && proc.update.bot in r.doc.sharing.assistants && (proc.update.bot in r.cards ==> r.cards[proc.update.bot] != proc.update.card))
  {
    hide Knows, CardsStand, Moved, Updated;
    if proc.Updating? && proc.update.AddAssistant? {
      DisclosedStand(r, st, proc);
    } else if proc.Updating? || proc.Disclosed? {
      SavedStand(r, st, proc);
    } else {
      CardsAside(r, st, proc);
    }
  }

  lemma DisclosedStand(r: Chat, st: Step, proc: Proc)
    requires CardsStand(r) && proc.Updating? && proc.update.AddAssistant?
    ensures CardsStand(Moved(r, st, proc).0) <==>
      !(st.Disclose? && Updated(proc.base.sharing, proc.base.seats, proc.user, proc.update).Some?
        && proc.update.bot in r.doc.sharing.assistants && (proc.update.bot in r.cards ==> r.cards[proc.update.bot] != proc.update.card))
  {
    hide Updated;
    if proc.update.bot in r.doc.sharing.assistants { assert proc.update.bot in r.cards; }
  }

  lemma SavedStand(r: Chat, st: Step, proc: Proc)
    requires Knows(r, proc) && CardsStand(r) && ((proc.Updating? && !proc.update.AddAssistant?) || proc.Disclosed?)
    ensures CardsStand(Moved(r, st, proc).0)
  {
  }

  lemma CardsAside(r: Chat, st: Step, proc: Proc)
    requires CardsStand(r) && !proc.Updating? && !proc.Disclosed?
    ensures CardsStand(Moved(r, st, proc).0)
  {
    hide Checked, Apply;
  }

  lemma {:induction false} CardsStandAfter(w: World, steps: seq<Step>)
    requires Inv(w) && CardsStand(w.room) && NeverRewrites(w, steps)
    ensures Inv(After(Next, w, steps)) && CardsStand(After(Next, w, steps).room)
    decreases |steps|
  {
    hide Inv, Next, CardsStand, Rewrites;
    if steps != [] {
      var before := steps[..|steps| - 1];
      CardsStandAfter(w, before);
      CardsStandExactly(After(Next, w, before), steps[|steps| - 1]);
      InvNext(After(Next, w, before), steps[|steps| - 1]);
    }
  }

  /**
   Consent binds what was shown unless a late addition rewrites it: along any run of steps in which no addition
   writes its card after the document has moved, whenever sharing is enabled everyone active agreed after the
   cards of the listed assistants were last shown, and those cards still stand.
   */
  lemma ConsentBindsCards(start: World, steps: seq<Step>, i: nat)
    requires Initial(start) && NeverWritesLate(start, steps)
    requires var r := After(Next, start, steps).room;
      Enabled(r.doc.sharing, r.doc.seats) && i < |r.doc.seats| && r.doc.seats[i].state == Active
    ensures var r := After(Next, start, steps).room; var u := r.doc.seats[i].user;
      && CardsStand(r) && u in r.given && r.reset < r.given[u]
      && u in r.doc.sharing.consents && r.doc.sharing.consents[u].assistants == r.doc.sharing.assistants
  {
    hide Inv, Next, Initial, CardsStand, Enabled, WritesLate;
    InvInitial(start);
    NoCardsYet(start);
    NoneLateNoneRewritten(start, steps);
    CardsStandAfter(start, steps);
    ConsentBindsAudience(After(Next, start, steps), i);
  }

  lemma NoCardsYet(start: World)
    requires Initial(start)
    ensures CardsStand(start.room)
  {
  }

  lemma {:induction false} NoneLateNoneRewritten(w: World, steps: seq<Step>)
    requires Inv(w) && NeverWritesLate(w, steps)
    ensures NeverRewrites(w, steps)
    decreases |steps|
  {
    hide Inv, Next, Rewrites, WritesLate;
    if steps != [] {
      var before := steps[..|steps| - 1];
      NoneLateNoneRewritten(w, before);
      InvAfter(w, before);
      if Rewrites(After(Next, w, before), steps[|steps| - 1]) { OnlyLateRewrites(After(Next, w, before), steps[|steps| - 1]); }
    }
  }

  /** A rewriting step leaves the settings and every consent as they are: sharing stays enabled with a card nobody agreed to. */
  lemma RewritingKeepsSharing(w: World, st: Step)
    requires Rewrites(w, st)
    ensures var r := Next(w, st).room;
      && r.doc == w.room.doc && w.procs[st.p].update.bot in r.cards
      && r.cards[w.procs[st.p].update.bot] == w.procs[st.p].update.card
  {
  }

  // ---------------------------------------------------------------- a card nobody agreed to

  const OLD_CARD := Card("helper", "old instructions")
  const NEW_CARD := Card("helper", "new instructions")

  /** A room of one person, the other having declined, at this version, with these settings. */
  function Alone(version: nat, sharing: Sharing): Doc
    requires version >= 2
  {
    Doc(version - 1, 1, version, [Seat(0, Active, Owner, Some(0), 0), Seat(1, Left, Member, None, 0)], [Event(2, 1)], 0, sharing)
  }

  function Agreed(): Sharing {
    Sharing({7}, map[0 := AudienceOf({7}, Alone(3, Sharing({7}, map[], false, false)).seats)], false, false)
  }

  function Policies(version: nat): Proc {
    ToFlush(Appending(Draft(Policy(version), Some(0), None, None)))
  }

  const SCENES: nat := 10

  /** One request loads the room to add assistant 7; another adds it meanwhile and it is agreed to; then the first goes on. */
  function Move(k: nat): Step
    requires k < SCENES
  {
    [BeginChange(1, Answer(1, Decline)), ReadEvents(1), Save(1, 0),
     BeginUpdate(2, 0, AddAssistant(7, true, NEW_CARD)), BeginUpdate(3, 0, AddAssistant(7, true, OLD_CARD)), Disclose(3), SaveUpdate(3),
     BeginUpdate(4, 0, Agree(true)), SaveUpdate(4), Disclose(2)][k]
  }

  /** The room before the k-th of these steps. */
  function Scene(k: nat): World
    requires k <= SCENES
  {
    var doc := Doc(0, 0, 1, Created(0, [1], 0), [], 0, Sharing({}, map[], false, false));
    var before := Chat(0, doc, map[], [], map[], map[], 0, map[], map[]);
    var change := Changing(Answer(1, Decline), doc);
    if k == 0 then World(before, map[])
    else if k == 1 then World(before, map[1 := ToFlush(change)])
    else if k == 2 then World(before, map[1 := Flushing([], false, change)])
    else
      var none := Sharing({}, map[], false, false);
      var left := Chat(0, Alone(2, none), map[], [ForNotice(2, None)], map[], map[], 0, map[], map[]);
      var late := Updating(0, AddAssistant(7, true, NEW_CARD), Alone(2, none));
      var add := AddAssistant(7, true, OLD_CARD);
      if k == 3 then World(left, map[1 := ToFlush(Nothing)])
      else if k == 4 then World(left, map[1 := ToFlush(Nothing), 2 := late])
      else if k == 5 then World(left, map[1 := ToFlush(Nothing), 2 := late, 3 := Updating(0, add, Alone(2, none))])
      else
        var cards := map[7 := OLD_CARD];
        if k == 6 then World(left.(cards := cards), map[1 := ToFlush(Nothing), 2 := late, 3 := Disclosed(0, add, Alone(2, none))])
        else
          var listed := Alone(3, Sharing({7}, map[], false, false));
          var shared := left.(doc := listed, reset := 3, cards := cards, shown := cards);
          var procs := map[1 := ToFlush(Nothing), 2 := late, 3 := Policies(3)];
          if k == 7 then World(shared, procs)
          else if k == 8 then World(shared, procs[4 := Updating(0, Agree(true), listed)])
          else
            var agreed := shared.(doc := Alone(4, Agreed()), given := map[0 := 4]);
            if k == 9 then World(agreed, procs[4 := Policies(4)])
            else World(agreed.(cards := map[7 := NEW_CARD]), procs[2 := Disclosed(0, late.update, late.base)][4 := Policies(4)])
  }

  lemma Loaded(k: nat)
    requires k < 2
    ensures Next(Scene(k), Move(k)) == Scene(k + 1)
  {
  }

  lemma Declined(k: nat)
    requires k == 2
    ensures Next(Scene(k), Move(k)) == Scene(k + 1)
  {
  }

  lemma Adding(k: nat)
    requires 3 <= k < 6
    ensures Next(Scene(k), Move(k)) == Scene(k + 1)
  {
  }

  lemma Added(k: nat)
    requires k == 6
    ensures Next(Scene(k), Move(k)) == Scene(k + 1)
  {
  }

  lemma Agreeing(k: nat)
    requires k == 7
    ensures Next(Scene(k), Move(k)) == Scene(k + 1)
  {
  }

  lemma AgreedTo(k: nat)
    requires k == 8
    ensures Next(Scene(k), Move(k)) == Scene(k + 1)
  {
  }

  lemma Rewritten(k: nat)
    requires k == 9
    ensures Next(Scene(k), Move(k)) == Scene(k + 1)
  {
  }

  lemma SceneLeads(k: nat)
    requires k < SCENES
    ensures Next(Scene(k), Move(k)) == Scene(k + 1)
  {
    hide Next, Scene, Move;
    if k < 2 {
      Loaded(k);
    } else if k == 2 {
      Declined(k);
    } else if k < 6 {
      Adding(k);
    } else if k == 6 {
      Added(k);
    } else if k == 7 {
      Agreeing(k);
    } else if k == 8 {
      AgreedTo(k);
    } else {
      Rewritten(k);
    }
  }

  lemma {:induction false} SceneReached(k: nat)
    requires k <= SCENES
    ensures Reachable(Scene(k))
  {
    hide Next, Scene, Move, Reachable;
    if k == 0 {
      FirstScene();
    } else {
      SceneReached(k - 1);
      SceneLeads(k - 1);
      ReachableNext(Scene(k - 1), Move(k - 1));
    }
  }

  lemma FirstScene()
    ensures Reachable(Scene(0))
  {
    hide Next;
    var none: seq<Step> := [];
    var others: seq<Id> := [1];
    assert Scene(0).room.doc.seats == Created(0, others, 0);
    assert Initial(Scene(0)) && Scene(0) == After(Next, Scene(0), none);
  }

  lemma ReachableNext(w: World, st: Step)
    requires Reachable(w)
    ensures Reachable(Next(w, st))
  {
    hide Next, Initial;
    var start, steps :| Initial(start) && w == After(Next, start, steps);
    assert (steps + [st])[..|steps|] == steps;
    assert Next(w, st) == After(Next, start, steps + [st]);
  }

  /** It happens: sharing is enabled by a consent to assistant 7 whose instructions are no longer those agreed to. */
  lemma ConsentCanMissACard()
    ensures exists w ::
      && Reachable(w) && Enabled(w.room.doc.sharing, w.room.doc.seats) && 7 in w.room.doc.sharing.assistants
      && 7 in w.room.cards && 7 in w.room.shown && w.room.cards[7] != w.room.shown[7]
  {
    hide Next, Reachable;
    SceneReached(SCENES);
    var w := Scene(SCENES);
    assert w.room.doc.seats[0].state == Active && Enabled(w.room.doc.sharing, w.room.doc.seats);
  }
}
