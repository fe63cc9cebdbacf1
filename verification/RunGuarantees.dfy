/** What assistant runs promise, over every run of steps from an empty database. */
module RunGuarantees {
  import opened Common
  import opened Machine
  import opened Runs
  import opened RunInvariants

  /** The database as it stands after some run of steps from an empty one. */
  ghost predicate Reachable(w: World) {
    exists steps :: w == After(Next, START, steps)
  }

  lemma ReachableInv(w: World)
    requires Reachable(w)
    ensures Inv(w)
  {
    var steps :| w == After(Next, START, steps);
    InvStart();
    InvAfter(START, steps);
  }

  lemma SealedNeverCompletes(w: World, st: Step, m: nat)
    requires Inv(w) && Sealed(w, m) && !IsCompleted(w, m)
    ensures !IsCompleted(Next(w, st), m)
  {
    hide Inv, Next, Sound;
    var w' := Next(w, st);
    if IsOver(w, m) {
      assert SameQuestion(w.messages[m], w'.messages[m]);
      assert SameRun(w.runs[w.messages[m].run.value], w'.runs[w.messages[m].run.value]);
    } else if IsCompleted(w', m) {
      CompletedByAnswerer(w, st, m);
    }
  }

  /** Only a process that is answering a question completes it. */
  lemma CompletedByAnswerer(w: World, st: Step, m: nat)
    requires Inv(w) && !IsOver(w, m) && IsCompleted(Next(w, st), m)
    ensures Answering(w, st.p, m)
    ensures st.Complete?
  {
    hide Orders, Balanced, NeverOvertaken, AllSealing, SameMoney, KnowsCandidates, Next;
    var w' := Next(w, st);
    var r := w'.messages[m].run.value;
    InvNext(w, st);
    assert Accounted(w'.runs, w'.messages[m], m);
    if r < |w.runs| {
      assert SameRun(w.runs[r], w'.runs[r]);
      assert Belongs(w.messages, w.now, w.runs[r], r);
    }
    CompletesOwn(w, st, r);
  }

  lemma CompletesOwn(w: World, st: Step, r: nat)
    requires r < |Next(w, st).runs| && Next(w, st).runs[r].phase == Completed
    requires r < |w.runs| ==> w.runs[r].phase != Completed
    ensures r < |w.runs| && st.Complete? && st.p in w.procs
    ensures w.procs[st.p].Executing? && w.procs[st.p].run == r && PastTrigger(w.procs[st.p].stage)
  {
    hide Sound, Grows, OnlyProc;
    if SameMoney(w, Next(w, st)) { QuietlyCompletesNothing(w, Next(w, st), r); }
  }

  lemma QuietlyCompletesNothing(a: World, b: World, r: nat)
    requires SameMoney(a, b)
    ensures r < |b.runs| && b.runs[r].phase == Completed ==> r < |a.runs| && a.runs[r].phase == Completed
  {
  }

  lemma SealedForGood(w: World, steps: seq<Step>, m: nat)
    requires Inv(w) && Sealed(w, m) && !IsCompleted(w, m)
    ensures Sealed(After(Next, w, steps), m) && !IsCompleted(After(Next, w, steps), m)
  {
    hide Inv, Sealed, Next;
    var inv := (v: World) => Inv(v) && Sealed(v, m) && !IsCompleted(v, m);
    forall v, st | inv(v) ensures inv(Next(v, st)) {
      InvNext(v, st);
      SealedNeverCompletes(v, st, m);
      SealedByOne(v, st, m);
    }
    Kept(Next, inv, w, steps);
  }

  lemma SealedByOne(w: World, st: Step, m: nat)
    requires Inv(w) && Sealed(w, m)
    ensures Sealed(Next(w, st), m)
  {
    SealedByStep(w, st, m);
  }

  // ---------------------------------------------------------------- the guarantees

  /**
   Cancel is final. Once a `cancelRuns` has returned, no question its caller had stored in that
   conversation before it began is completed later, whatever any replica or request does next.
   */
  lemma CancelIsFinal(w: World, p: Id, later: seq<Step>, m: nat)
    requires Reachable(w) && p in w.procs && w.procs[p].Done?
    requires Covered(w, w.procs[p].user, w.procs[p].conversation, w.procs[p].stored, m)
    ensures IsCompleted(After(Next, w, later), m) ==> IsCompleted(w, m)
  {
    ReachableInv(w);
    assert Sealing(w, w.procs[p]);
    if !IsCompleted(w, m) { SealedForGood(w, later, m); }
  }

  /** Every question stored when `cancelRuns` reads the open runs is one it covers. */
  lemma CancelCoversStored(w: World, p: Id, user: Id, conversation: Id, m: nat)
    requires p !in w.procs && Covers(w, user, conversation, m)
    ensures var w' := Next(w, FindOpen(p, user, conversation)); p in w'.procs && Covered(w', user, conversation, w'.procs[p].stored, m)
  {
  }

  /** The tokens of the answers given to a user on a day. */
  function AnsweredTokens(runs: seq<Run>, user: Id, day: nat): int {
    if runs == [] then 0
    else
      var run := runs[|runs| - 1];
      AnsweredTokens(runs[..|runs| - 1], user, day)
        + if run.user == user && run.charged == Some(day) && run.phase == Completed then run.Tokens() else 0
  }

  lemma {:induction false} AnswersWithinCharges(runs: seq<Run>, user: Id, day: nat)
    requires forall r: nat | r < |runs| :: Orderly(runs[r])
    ensures AnsweredTokens(runs, user, day) <= Charges(runs, user, day)
    decreases |runs|
  {
    if runs != [] {
      assert Orderly(runs[|runs| - 1]);
      AnswersWithinCharges(runs[..|runs| - 1], user, day);
    }
  }

  /**
   The budget is conserved: what is reserved is exactly the sum over the runs charged to that day, a
   reservation each until settled and its tokens after, so it covers every answer and never exceeds the
   largest limit it was checked against.
   */
  lemma BudgetConserved(w: World, user: Id, day: nat)
    requires Reachable(w)
    ensures AnsweredTokens(w.runs, user, day) <= Reserved(w, user, day) == Charges(w.runs, user, day) <= Ceiling(w, user, day)
  {
    ReachableInv(w);
    AnswersWithinCharges(w.runs, user, day);
  }

  /** A charge stays, is made as a reservation, or is lowered to the tokens used. */
  predicate ChargeMoves(a: Run, b: Run) {
    || (b.charged == a.charged && b.settled == a.settled)
    || (a.charged == None && b.charged.Some? && !b.settled)
    || (a.charged.Some? && b.charged == a.charged && !a.settled && b.settled && b.Tokens() <= RESERVATION)
  }

  /** Each run is charged at most once and settled at most once, and settling never raises its charge. */
  lemma ChargesMoveOneWay(w: World, st: Step, r: nat)
    requires Reachable(w) && r < |w.runs|
    ensures r < |Next(w, st).runs| && ChargeMoves(w.runs[r], Next(w, st).runs[r])
  {
    hide Sound, Orders, AllKnow, OnlyProc, Balanced, NeverOvertaken, AllSealing, SameMoney, ChargeMoves, Moved, Alone, Begun;
    ReachableInv(w);
    var w' := Next(w, st);
    QuietChargeMoves(w, w, r);
    if st.Tick? || st.Store? || st.RevokeMessage? || st.RevokeRun? {
      QuietChargeMoves(w, w', r);
    } else if st.p in w.procs && !st.Crash? {
      MovedChargeMoves(w, st, st.p, r);
    }
  }

  lemma QuietChargeMoves(a: World, b: World, r: nat)
    ensures SameMoney(a, b) && r < |a.runs| ==> r < |b.runs| && ChargeMoves(a.runs[r], b.runs[r])
    ensures r < |a.runs| ==> ChargeMoves(a.runs[r], a.runs[r])
  {
  }

  lemma MovedChargeMoves(w: World, st: Step, p: Id, r: nat)
    requires Inv(w) && p in w.procs && r < |w.runs|
    ensures r < |Moved(w, st, p, w.procs[p]).runs| && ChargeMoves(w.runs[r], Moved(w, st, p, w.procs[p]).runs[r])
  {
    hide Sound, AllKnow, OnlyProc, Balanced, NeverOvertaken, AllSealing, Executed, Grows;
    match w.procs[p] {
      case Executing(q, stage) =>
        OrdersAt(w, p);
        ExecutedChargeMoves(w, st, p, q, stage, r);
      case Holding(_, _, _) =>
      case Recovering(_) =>
      case _ =>
        QuietlyMoved(w, st, p);
        QuietChargeMoves(w, Moved(w, st, p, w.procs[p]), r);
    }
  }

  lemma ExecutedChargeMoves(w: World, st: Step, p: Id, q: nat, stage: Stage, r: nat)
    requires q < |w.runs| && Agrees(w.runs[q], stage) && Orderly(w.runs[q]) && r < |w.runs|
    ensures r < |Executed(w, st, p, q, stage).runs| && ChargeMoves(w.runs[r], Executed(w, st, p, q, stage).runs[r])
  {
    hide Sound, OnlyProc, Grows, SameMoney, ExecutedQuietly;
    if st.Reserve? && stage.Priced? {
    } else if st.Complete? && stage.Answered? {
    } else if st.Settle? && stage.Finished? {
    } else {
      QuietChargeMoves(w, ExecutedQuietly(w, st, p, q, stage), r);
    }
  }

  /**
   No overtaking: a run is claimed at most once, each question has at most one run, and when a run has
   been claimed every older run of its conversation has left `queued`.
   */
  lemma RunsInOrder(w: World)
    requires Reachable(w)
    ensures forall r: nat | r < |w.runs| :: w.runs[r].attempt <= 1
    ensures forall q: nat, r: nat | q < r < |w.runs| :: w.runs[q].message != w.runs[r].message
    ensures forall r: nat, q: nat | r < |w.runs| && q < |w.runs| && Older(w.runs[r], w.runs[q]) && w.runs[q].attempt == 1 ::
              w.runs[r].phase != Queued
  {
    ReachableInv(w);
    assert forall r: nat | r < |w.runs| :: Orderly(w.runs[r]) && Belongs(w.messages, w.now, w.runs[r], r);
  }

  /** A run that is over stays as it ended, tokens included. */
  lemma {:induction false} EndIsFinal(w: World, later: seq<Step>, r: nat)
    requires r < |w.runs| && w.runs[r].Over()
    ensures r < |After(Next, w, later).runs| && After(Next, w, later).runs[r].phase == w.runs[r].phase
    ensures After(Next, w, later).runs[r].Tokens() == w.runs[r].Tokens()
  {
    Growing(w, later);
    assert SameRun(w.runs[r], After(Next, w, later).runs[r]);
  }
}
