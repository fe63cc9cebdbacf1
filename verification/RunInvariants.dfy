/**
 What every step of `Runs` keeps: what each process knows, one execution for each run, budgets that
 balance, claims in order, and questions that a `cancelRuns` has put out of reach.
 */
module RunInvariants {
  import opened Common
  import opened Machine
  import opened Runs

  // ---------------------------------------------------------------- what every step keeps

  /** Over any run of steps everything only moves forward. */
  lemma Growing(w: World, steps: seq<Step>)
    ensures Grows(w, After(Next, w, steps))
  {
    hide Next, Grows;
    forall a ensures Grows(a, a) { GrowsByItself(a); }
    forall a, b, c | Grows(a, b) && Grows(b, c) ensures Grows(a, c) { GrowsOn(a, b, c); }
    Related(Next, (st: Step) => true, Grows, w, steps);
  }

  lemma GrowsByItself(w: World)
    ensures Grows(w, w)
  {
  }

  lemma GrowsOn(a: World, b: World, c: World)
    requires Grows(a, b) && Grows(b, c)
    ensures Grows(a, c)
  {
  }

  /** What a process knows stays true whatever the others do. */
  lemma KnowledgeKept(a: World, b: World, proc: Proc)
    requires Sound(a) && Sound(b) && Grows(a, b) && Knows(a, proc)
    ensures Knows(b, proc)
  {
    match proc {
      case Claiming(c, at, skipped) => CandidatesKept(a, b, c, at, skipped);
      case Holding(c, at, skipped) => CandidatesKept(a, b, c, at, skipped);
      case Releasing(c, at, skipped) => CandidatesKept(a, b, c, at, skipped);
      case Marking(user, conversation, stored, open, todo) =>
        forall m: nat | m < stored && Covers(b, user, conversation, m) && m !in todo
          ensures b.messages[m].cancelled || HasRun(b, m)
        {
          assert SameQuestion(a.messages[m], b.messages[m]);
        }
      case Expiring(found) => assert forall r | r in found :: SameRun(a.runs[r], b.runs[r]);
      case Clearing(found) => assert forall r | r in found :: SameRun(a.runs[r], b.runs[r]);
      case _ =>
    }
  }

  /** After its own step a process knows what its new place requires. */
  ghost predicate ActorKnows(w: World, p: Id) {
    p in w.procs ==> Knows(w, w.procs[p])
  }

  lemma LockKnows(w: World, p: Id, c: seq<nat>, at: nat, skipped: set<Id>)
    requires Sound(w) && Knows(w, Claiming(c, at, skipped))
    ensures ActorKnows(TryLock(w, p, c, at, skipped), p)
  {
    var w' := TryLock(w, p, c, at, skipped);
    CandidatesKept(w, w', c, at, skipped);
  }

  lemma ClaimKnows(w: World, p: Id, c: seq<nat>, at: nat, skipped: set<Id>)
    requires Sound(w) && Knows(w, Holding(c, at, skipped))
    ensures ActorKnows(ClaimRun(w, p, c, at, skipped), p)
  {
    CandidatesKept(w, ClaimRun(w, p, c, at, skipped), c, at, skipped);
  }

  lemma ReleaseKnows(w: World, p: Id, c: seq<nat>, at: nat, skipped: set<Id>)
    requires Sound(w) && Knows(w, Releasing(c, at, skipped))
    ensures ActorKnows(ReleaseLock(w, p, c, at, skipped), p)
  {
    CandidatesKept(w, ReleaseLock(w, p, c, at, skipped), c, at, skipped);
  }

  /** An execution stays with its run. */
  ghost predicate StaysWith(w: World, p: Id, r: nat) {
    p in w.procs ==> w.procs[p].Executing? && w.procs[p].run == r
  }

  lemma ExecutedStays(w: World, st: Step, p: Id, r: nat, stage: Stage)
    requires p in w.procs && w.procs[p] == Executing(r, stage)
    ensures StaysWith(Executed(w, st, p, r, stage), p, r)
  {
    hide Sound, Grows, SameMoney, OnlyProc, ChargeRun, ExecutedQuietly;
    QuietlyStays(w, st, p, r, stage);
  }

  lemma QuietlyStays(w: World, st: Step, p: Id, r: nat, stage: Stage)
    requires p in w.procs && w.procs[p] == Executing(r, stage)
    ensures StaysWith(ExecutedQuietly(w, st, p, r, stage), p, r)
  {
    hide Sound, Grows, SameMoney, OnlyProc, EndRun, Unlocked;
  }

  lemma ExecutedKnows(w: World, st: Step, p: Id, r: nat, stage: Stage)
    requires Sound(w) && Knows(w, Executing(r, stage)) && p in w.procs && w.procs[p] == Executing(r, stage)
    ensures ActorKnows(Executed(w, st, p, r, stage), p)
  {
    hide Executed, Sound, SameMoney, OnlyProc;
    ExecutedStays(w, st, p, r, stage);
    assert SameRun(w.runs[r], Executed(w, st, p, r, stage).runs[r]);
  }

  lemma QueueKnows(w: World, p: Id, pending: seq<nat>)
    requires Sound(w) && p in w.procs && w.procs[p] == Recovering(pending) && Knows(w, w.procs[p])
    ensures ActorKnows(QueueRun(w, p, pending), p)
    ensures ActorKnows(SkipPending(w, p, pending), p)
  {
    hide Sound;
    var w' := QueueRun(w, p, pending);
    assert forall m | m in pending :: SameQuestion(w.messages[m], w'.messages[m]);
    if pending != [] { assert forall m | m in pending[1..] :: m in pending; }
  }

  lemma UnsetKnows(w: World, p: Id, pending: seq<nat>)
    requires Sound(w) && p in w.procs && w.procs[p] == Unsetting(pending) && Knows(w, w.procs[p])
    ensures ActorKnows(UnsetRequest(w, p, pending), p)
  {
    var w' := UnsetRequest(w, p, pending);
    assert forall m | m in pending :: SameQuestion(w.messages[m], w'.messages[m]);
    assert forall m | m in pending[1..] :: m in pending;
  }

  lemma MarkKnows(w: World, p: Id, user: Id, conversation: Id, stored: nat, open: set<nat>, todo: set<nat>, m: nat)
    requires Sound(w) && p in w.procs && w.procs[p] == Marking(user, conversation, stored, open, todo) && Knows(w, w.procs[p])
    ensures ActorKnows(MarkMessage(w, p, user, conversation, stored, open, todo, m), p)
  {
  }

  lemma ExpireKnows(w: World, p: Id, found: seq<nat>)
    requires p in w.procs && w.procs[p] == Expiring(found) && Knows(w, w.procs[p])
    ensures ActorKnows(ExpireRun(w, p, found), p)
  {
    hide Sound, SameMoney, OnlyProc;
    var w' := ExpireRun(w, p, found);
    assert forall r | r in found :: SameRun(w.runs[r], w'.runs[r]);
    if found != [] { assert found[0] in found; }
  }

  lemma ClearKnows(w: World, p: Id, found: seq<nat>)
    requires p in w.procs && w.procs[p] == Clearing(found) && Knows(w, w.procs[p])
    ensures ActorKnows(ClearExpired(w, p, found), p)
  {
    hide Sound, SameMoney, OnlyProc;
    assert forall r | r in found[1..] :: r in found;
    assert ClearExpired(w, p, found).runs == w.runs;
  }

  lemma MovedKnows(w: World, st: Step, p: Id, proc: Proc)
    requires Sound(w) && p in w.procs && w.procs[p] == proc && Knows(w, proc)
    ensures ActorKnows(Moved(w, st, p, proc), p)
  {
    hide TryLock, ClaimRun, ReleaseLock, Executed, QueueRun, SkipPending, UnsetRequest, MarkMessage, ExpireRun,
      ClearExpired, Sound, OnlyProc, SameMoney, KnowsCandidates;
    match proc {
      case Claiming(c, at, skipped) => LockKnows(w, p, c, at, skipped);
      case Holding(c, at, skipped) => ClaimKnows(w, p, c, at, skipped);
      case Releasing(c, at, skipped) => ReleaseKnows(w, p, c, at, skipped);
      case Executing(r, stage) => ExecutedKnows(w, st, p, r, stage);
      case Recovering(pending) => QueueKnows(w, p, pending);
      case Unsetting(pending) => UnsetKnows(w, p, pending);
      case Expiring(found) => ExpireKnows(w, p, found);
      case Clearing(found) => ClearKnows(w, p, found);
      case Marking(user, conversation, stored, open, todo) =>
        if st.Mark? { MarkKnows(w, p, user, conversation, stored, open, todo, st.m); }
      case Stopping(_, _, _, _) =>
      case Done(_, _, _) =>
    }
  }

  lemma CandidatesKept(a: World, b: World, c: seq<nat>, at: nat, skipped: set<Id>)
    requires Sound(a) && Grows(a, b) && KnowsCandidates(a, c, at, skipped)
    ensures KnowsCandidates(b, c, at, skipped)
    ensures forall k | 0 <= k < |c| :: SameRun(a.runs[c[k]], b.runs[c[k]])
  {
    forall k | at <= k < |c|
      ensures OlderAreEarlier(b, c, k)
    {
      assert OlderAreEarlier(a, c, k);
      assert SameRun(a.runs[c[k]], b.runs[c[k]]) && Belongs(a.messages, a.now, a.runs[c[k]], c[k]);
      forall r: nat | r < |b.runs| && Older(b.runs[r], b.runs[c[k]]) && b.runs[r].phase == Queued
        ensures r in c[..k]
      {
        assert r < |a.runs|;
        assert SameRun(a.runs[r], b.runs[r]);
      }
    }
  }

  // ---------------------------------------------------------------- budgets balance

  lemma {:induction false} ChargesEqual(a: seq<Run>, b: seq<Run>, user: Id, day: nat)
    requires |a| == |b| && forall r: nat | r < |a| :: Charge(a[r], user, day) == Charge(b[r], user, day)
    ensures Charges(a, user, day) == Charges(b, user, day)
    decreases |a|
  {
    if a != [] {
      var n := |a| - 1;
      ChargesEqual(a[..n], b[..n], user, day);
    }
  }

  lemma {:induction false} ChargesUpdated(runs: seq<Run>, r: nat, run: Run, user: Id, day: nat)
    requires r < |runs|
    ensures Charges(runs[r := run], user, day) == Charges(runs, user, day) - Charge(runs[r], user, day) + Charge(run, user, day)
    decreases |runs|
  {
    var n := |runs| - 1;
    if r < n {
      ChargesUpdated(runs[..n], r, run, user, day);
      assert runs[r := run][..n] == runs[..n][r := run];
    } else {
      assert runs[r := run][..n] == runs[..n];
    }
  }

  lemma BalancedQuietly(a: World, b: World)
    requires Balanced(a) && SameMoney(a, b)
    ensures Balanced(b)
  {
    forall user: Id, day: nat
      ensures Reserved(b, user, day) == Charges(b.runs, user, day) <= Ceiling(b, user, day)
    {
      ChargesEqual(a.runs, b.runs, user, day);
    }
  }

  lemma BalancedByReserving(w: World, p: Id, r: nat, limit: int, day: nat)
    requires Balanced(w) && r < |w.runs| && w.runs[r].charged == None && !w.runs[r].settled
    ensures Balanced(MakeReservation(w, p, r, limit, day))
  {
    hide Sound, Grows, OnlyProc;
    var w' := MakeReservation(w, p, r, limit, day);
    forall user: Id, d: nat
      ensures Reserved(w', user, d) == Charges(w'.runs, user, d) <= Ceiling(w', user, d)
    {
      ChargesUpdated(w.runs, r, w.runs[r].(charged := Some(day)), user, d);
    }
  }

  lemma BalancedByCompleting(w: World, p: Id, r: nat, day: nat, input: nat, output: nat)
    requires Balanced(w) && r < |w.runs| && !w.runs[r].settled
    ensures Balanced(CompleteRun(w, p, r, day, input, output))
  {
    var w' := CompleteRun(w, p, r, day, input, output);
    forall user: Id, d: nat
      ensures Reserved(w', user, d) == Charges(w'.runs, user, d) <= Ceiling(w', user, d)
    {
      ChargesUpdated(w.runs, r, w.runs[r].(phase := Completed, input := input, output := output), user, d);
    }
  }

  lemma BalancedBySettling(w: World, p: Id, r: nat, day: nat, input: nat, output: nat)
    requires Balanced(w) && r < |w.runs| && input + output <= RESERVATION
    requires Agrees(w.runs[r], Finished(day, input, output))
    ensures Balanced(SettleRun(w, p, r, day, input, output))
  {
    var w' := SettleRun(w, p, r, day, input, output);
    forall user: Id, d: nat
      ensures Reserved(w', user, d) == Charges(w'.runs, user, d) <= Ceiling(w', user, d)
    {
      ChargesUpdated(w.runs, r, w.runs[r].(settled := true), user, d);
    }
  }

  lemma BalancedByQueueing(w: World, p: Id, pending: seq<nat>)
    requires Balanced(w)
    ensures Balanced(QueueRun(w, p, pending))
  {
  }

  lemma ExecutedBalanced(w: World, st: Step, p: Id, r: nat, stage: Stage)
    requires Balanced(w) && r < |w.runs| && Orderly(w.runs[r]) && Agrees(w.runs[r], stage)
    ensures Balanced(Executed(w, st, p, r, stage))
  {
    hide MakeReservation, CompleteRun, SettleRun, ExecutedQuietly, Balanced, Sound, Grows, SameMoney, OnlyProc;
    if st.Reserve? && stage.Priced? {
      BalancedByReserving(w, p, r, stage.limit, stage.day);
    } else if st.Complete? && stage.Answered? {
      BalancedByCompleting(w, p, r, stage.day, stage.input, stage.output);
    } else if st.Settle? && stage.Finished? {
      BalancedBySettling(w, p, r, stage.day, stage.input, stage.output);
    } else {
      BalancedQuietly(w, Executed(w, st, p, r, stage));
    }
  }

  // ---------------------------------------------------------------- executions stay orderly

  lemma OrdersQuietly(a: World, b: World, p: Id)
    requires Orders(a) && SameMoney(a, b) && OnlyProc(a, b, p)
    requires p in b.procs && b.procs[p].Executing? ==>
      && b.procs[p].run < |b.runs| && Agrees(b.runs[b.procs[p].run], b.procs[p].stage)
      && (forall q | q in a.procs && q != p && a.procs[q].Executing? :: a.procs[q].run != b.procs[p].run)
    ensures Orders(b)
  {
    forall r: nat | r < |b.runs|
      ensures Orderly(b.runs[r])
    {
      assert Orderly(a.runs[r]) && MoneySame(a.runs[r], b.runs[r]);
    }
    forall q | q in b.procs && b.procs[q].Executing?
      ensures b.procs[q].run < |b.runs| && Agrees(b.runs[b.procs[q].run], b.procs[q].stage)
    {
      if q != p { assert MoneySame(a.runs[a.procs[q].run], b.runs[b.procs[q].run]); }
    }
  }

  /** A step of the executor of run r that changes this run alone. */
  lemma OrdersOfOwn(a: World, b: World, p: Id, r: nat, stage: Stage, run: Run)
    requires Orders(a) && OnlyProc(a, b, p) && p in a.procs && a.procs[p] == Executing(r, stage)
    requires b.runs == a.runs[r := run] && Orderly(run)
    requires p in b.procs && b.procs[p].Executing? && b.procs[p].run == r && Agrees(run, b.procs[p].stage)
    ensures Orders(b)
  {
  }

  lemma QuietAgrees(w: World, st: Step, p: Id, r: nat, stage: Stage)
    requires p in w.procs && w.procs[p] == Executing(r, stage) && r < |w.runs| && Agrees(w.runs[r], stage)
    ensures var w' := ExecutedQuietly(w, st, p, r, stage);
      && r < |w'.runs|
      && (p in w'.procs ==> w'.procs[p].Executing? && w'.procs[p].run == r && Agrees(w'.runs[r], w'.procs[p].stage))
  {
    hide Sound, Grows, OnlyProc;
    var w' := ExecutedQuietly(w, st, p, r, stage);
    assert SameMoney(w, w');
    assert MoneySame(w.runs[r], w'.runs[r]);
  }

  lemma ExecutedOrders(w: World, st: Step, p: Id, r: nat, stage: Stage)
    requires Orders(w) && p in w.procs && w.procs[p] == Executing(r, stage) && Knows(w, w.procs[p])
    ensures Orders(Executed(w, st, p, r, stage))
  {
    hide Orders, MakeReservation, CompleteRun, SettleRun, ExecutedQuietly, Sound, Grows, SameMoney, OnlyProc, Agrees, Orderly;
    if st.Reserve? && stage.Priced? {
      ReservedOrders(w, p, r, stage.limit, stage.day);
    } else if st.Complete? && stage.Answered? {
      CompletedOrders(w, p, r, stage.day, stage.input, stage.output);
    } else if st.Settle? && stage.Finished? {
      SettledOrders(w, p, r, stage.day, stage.input, stage.output);
    } else {
      QuietOrders(w, st, p, r, stage);
    }
  }

  lemma QuietOrders(w: World, st: Step, p: Id, r: nat, stage: Stage)
    requires Orders(w) && p in w.procs && w.procs[p] == Executing(r, stage) && Knows(w, w.procs[p])
    ensures Orders(ExecutedQuietly(w, st, p, r, stage))
  {
    hide Orders, ExecutedQuietly, Sound, Grows, SameMoney, OnlyProc, Agrees, Orderly;
    OrdersAt(w, p);
    QuietAgrees(w, st, p, r, stage);
    OrdersQuietly(w, ExecutedQuietly(w, st, p, r, stage), p);
  }

  lemma ReservedOrders(w: World, p: Id, r: nat, limit: int, day: nat)
    requires Orders(w) && p in w.procs && w.procs[p] == Executing(r, Priced(limit, day)) && Knows(w, w.procs[p])
    ensures Orders(MakeReservation(w, p, r, limit, day))
  {
    OrdersAt(w, p);
    var w' := MakeReservation(w, p, r, limit, day);
    OrdersOfOwn(w, w', p, r, w.procs[p].stage, w'.runs[r]);
  }

  lemma CompletedOrders(w: World, p: Id, r: nat, day: nat, input: nat, output: nat)
    requires Orders(w) && p in w.procs && w.procs[p] == Executing(r, Answered(day, input, output)) && Knows(w, w.procs[p])
    ensures Orders(CompleteRun(w, p, r, day, input, output))
  {
    OrdersAt(w, p);
    var w' := CompleteRun(w, p, r, day, input, output);
    OrdersOfOwn(w, w', p, r, w.procs[p].stage, w'.runs[r]);
  }

  lemma SettledOrders(w: World, p: Id, r: nat, day: nat, input: nat, output: nat)
    requires Orders(w) && p in w.procs && w.procs[p] == Executing(r, Finished(day, input, output)) && Knows(w, w.procs[p])
    ensures Orders(SettleRun(w, p, r, day, input, output))
  {
    OrdersAt(w, p);
    var w' := SettleRun(w, p, r, day, input, output);
    OrdersOfOwn(w, w', p, r, w.procs[p].stage, w'.runs[r]);
  }

  lemma OrdersAt(w: World, p: Id)
    requires Orders(w) && p in w.procs && w.procs[p].Executing?
    ensures w.procs[p].run < |w.runs| && Agrees(w.runs[w.procs[p].run], w.procs[p].stage) && Orderly(w.runs[w.procs[p].run])
    ensures forall q | q in w.procs && q != p && w.procs[q].Executing? :: w.procs[q].run != w.procs[p].run
  {
  }

  lemma ClaimedOrders(w: World, p: Id, c: seq<nat>, at: nat, skipped: set<Id>)
    requires Orders(w) && AllKnow(w) && p in w.procs && w.procs[p] == Holding(c, at, skipped)
    ensures Orders(ClaimRun(w, p, c, at, skipped))
  {
    hide Sound, Grows, OnlyProc, AllKnow, KnowsCandidates;
    KnowsHolding(w, p, c, at, skipped);
    if w.runs[c[at]].phase == Queued { QueuedIsIdle(w, c[at]); }
  }

  lemma KnowsHolding(w: World, p: Id, c: seq<nat>, at: nat, skipped: set<Id>)
    requires AllKnow(w) && p in w.procs && w.procs[p] == Holding(c, at, skipped)
    ensures at < |c| && c[at] < |w.runs|
  {
  }

  /** Nobody executes a queued run. */
  lemma QueuedIsIdle(w: World, r: nat)
    requires AllKnow(w) && r < |w.runs| && w.runs[r].phase == Queued
    ensures forall q | q in w.procs && w.procs[q].Executing? :: w.procs[q].run != r
  {
  }

  lemma BalancedByClaiming(w: World, p: Id, c: seq<nat>, at: nat, skipped: set<Id>)
    requires Balanced(w) && at < |c| && c[at] < |w.runs|
    ensures Balanced(ClaimRun(w, p, c, at, skipped))
  {
    var w' := ClaimRun(w, p, c, at, skipped);
    forall user: Id, day: nat
      ensures Reserved(w', user, day) == Charges(w'.runs, user, day) <= Ceiling(w', user, day)
    {
      ChargesEqual(w.runs, w'.runs, user, day);
    }
  }

  lemma QueuedOrders(w: World, p: Id, pending: seq<nat>)
    requires Orders(w) && p in w.procs && w.procs[p] == Recovering(pending)
    ensures Orders(QueueRun(w, p, pending))
  {
  }

  lemma MovedOrderlyAndBalanced(w: World, st: Step, p: Id)
    requires AllKnow(w) && Orders(w) && Balanced(w) && p in w.procs
    ensures Orders(Moved(w, st, p, w.procs[p])) && Balanced(Moved(w, st, p, w.procs[p]))
  {
    hide Executed, TryLock, ClaimRun, ReleaseLock, QueueRun, SkipPending, UnsetRequest, MarkMessage, StopRun,
      Orders, Balanced, Sound, Grows, SameMoney, OnlyProc, Agrees, Orderly, KnowsCandidates;
    var w' := Moved(w, st, p, w.procs[p]);
    match w.procs[p] {
      case Executing(r, stage) =>
        OrdersAt(w, p);
        ExecutedOrders(w, st, p, r, stage);
        ExecutedBalanced(w, st, p, r, stage);
      case Holding(c, at, skipped) =>
        if st.TakeRun? {
          KnowsHolding(w, p, c, at, skipped);
          ClaimedOrders(w, p, c, at, skipped);
          BalancedByClaiming(w, p, c, at, skipped);
        }
      case Recovering(pending) =>
        QueuedOrders(w, p, pending);
        BalancedByQueueing(w, p, pending);
        if !st.Queue? { QuietlyMoved(w, st, p); QuietMove(w, w', p); }
      case _ =>
        QuietlyMoved(w, st, p);
        QuietMove(w, w', p);
    }
  }

  lemma QuietlyMoved(w: World, st: Step, p: Id)
    requires p in w.procs && !w.procs[p].Executing? && !w.procs[p].Holding? && !(w.procs[p].Recovering? && st.Queue?)
    ensures var w' := Moved(w, st, p, w.procs[p]); SameMoney(w, w') && (p in w'.procs ==> !w'.procs[p].Executing?)
  {
    hide Sound, Grows, OnlyProc;
  }

  lemma QuietMove(a: World, b: World, p: Id)
    requires Orders(a) && Balanced(a) && SameMoney(a, b) && OnlyProc(a, b, p)
    requires p in b.procs ==> !b.procs[p].Executing?
    ensures Orders(b) && Balanced(b)
  {
    OrdersQuietly(a, b, p);
    BalancedQuietly(a, b);
  }

  // ---------------------------------------------------------------- no overtaking

  /** When a run has been claimed, every older run of its conversation has already left `queued`. */
  ghost predicate NeverOvertaken(w: World) {
    forall r: nat, q: nat | r < |w.runs| && q < |w.runs| && Older(w.runs[r], w.runs[q]) && w.runs[q].attempt >= 1 ::
      w.runs[r].phase != Queued
  }

  /** Steps that claim nothing overtake nothing. */
  lemma NotOvertaking(a: World, b: World)
    requires Sound(a) && Grows(a, b) && NeverOvertaken(a)
    requires forall q: nat | q < |b.runs| :: b.runs[q].attempt == if q < |a.runs| then a.runs[q].attempt else 0
    ensures NeverOvertaken(b)
  {
  }

  /** Every run older than the one whose conversation is held has left `queued`: it would have been tried before. */
  lemma OlderHasLeft(w: World, c: seq<nat>, at: nat, skipped: set<Id>, r: nat)
    requires Knows(w, Holding(c, at, skipped)) && r < |w.runs| && Older(w.runs[r], w.runs[c[at]])
    ensures w.runs[r].phase != Queued
  {
    assert OlderAreEarlier(w, c, at);
  }

  lemma ClaimOvertakesNothing(w: World, p: Id, c: seq<nat>, at: nat, skipped: set<Id>)
    requires Sound(w) && NeverOvertaken(w) && Knows(w, Holding(c, at, skipped))
    ensures NeverOvertaken(ClaimRun(w, p, c, at, skipped))
  {
    var w' := ClaimRun(w, p, c, at, skipped);
    forall r: nat, q: nat | r < |w'.runs| && q < |w'.runs| && Older(w'.runs[r], w'.runs[q]) && w'.runs[q].attempt >= 1
      ensures w'.runs[r].phase != Queued
    {
      assert SameRun(w.runs[r], w'.runs[r]) && SameRun(w.runs[q], w'.runs[q]) && Older(w.runs[r], w.runs[q]);
      if q == c[at] { OlderHasLeft(w, c, at, skipped, r); }
    }
  }

  lemma MovedOvertakesNothing(w: World, st: Step, p: Id)
    requires Sound(w) && AllKnow(w) && NeverOvertaken(w) && p in w.procs
    ensures NeverOvertaken(Moved(w, st, p, w.procs[p]))
  {
    hide NeverOvertaken, Sound, Grows, OnlyProc, KnowsCandidates;
    var w' := Moved(w, st, p, w.procs[p]);
    if w.procs[p].Holding? && st.TakeRun? {
      assert Knows(w, w.procs[p]);
      ClaimOvertakesNothing(w, p, w.procs[p].candidates, w.procs[p].at, w.procs[p].skipped);
    } else {
      AttemptsKept(w, st, p);
      NotOvertaking(w, w');
    }
  }

  lemma AttemptsKept(w: World, st: Step, p: Id)
    requires p in w.procs && !(w.procs[p].Holding? && st.TakeRun?)
    ensures var w' := Moved(w, st, p, w.procs[p]);
      forall q: nat | q < |w'.runs| :: w'.runs[q].attempt == if q < |w.runs| then w.runs[q].attempt else 0
  {
    hide Sound, Grows, OnlyProc, ExecutedQuietly, TryLock, ReleaseLock, UnsetRequest, MarkMessage, SkipPending, StopRun;
    var w' := Moved(w, st, p, w.procs[p]);
    if SameMoney(w, w') {
      forall q: nat | q < |w'.runs|
        ensures w'.runs[q].attempt == w.runs[q].attempt
      {
        assert MoneySame(w.runs[q], w'.runs[q]);
      }
    }
  }

  // ---------------------------------------------------------------- cancelling

  predicate PastTrigger(stage: Stage) {
    stage.Triggered? || stage.Limited? || stage.Priced? || stage.Charged? || stage.Answered? || stage.Finished?
  }

  /** Process p has read the trigger of message m as not cancelled and is on its way to an answer. */
  ghost predicate Answering(w: World, p: Id, m: nat) {
    && p in w.procs && w.procs[p].Executing? && PastTrigger(w.procs[p].stage)
    && w.procs[p].run < |w.runs| && w.runs[w.procs[p].run].message == m
  }

  predicate IsOver(w: World, m: nat) {
    m < |w.messages| && w.messages[m].run.Some? && w.messages[m].run.value < |w.runs| && w.runs[w.messages[m].run.value].Over()
  }

  predicate IsCompleted(w: World, m: nat) {
    IsOver(w, m) && w.runs[w.messages[m].run.value].phase == Completed
  }

  /** The run of message m is over, or m is cancelled and nobody is answering it. */
  ghost predicate Sealed(w: World, m: nat) {
    IsOver(w, m) || (m < |w.messages| && w.messages[m].cancelled && forall p :: !Answering(w, p, m))
  }

  lemma SealedStays(a: World, b: World, m: nat)
    requires Grows(a, b) && Sealed(a, m)
    requires a.messages[m].cancelled ==> forall p | Answering(b, p, m) :: Answering(a, p, m)
    ensures Sealed(b, m)
    ensures IsOver(a, m) ==> (IsCompleted(a, m) <==> IsCompleted(b, m))
  {
  }

  /** An execution passes the trigger only when it reads it as not cancelled. */
  lemma ExecutedAnswering(w: World, st: Step, p: Id, r: nat, stage: Stage)
    requires r < |w.runs| && w.runs[r].message < |w.messages|
    requires p in w.procs && w.procs[p] == Executing(r, stage)
    ensures var w' := Executed(w, st, p, r, stage);
      (p in w'.procs && w'.procs[p].Executing? && PastTrigger(w'.procs[p].stage) && w.messages[w.runs[r].message].cancelled)
      ==> PastTrigger(stage)
    ensures StaysWith(Executed(w, st, p, r, stage), p, r)
  {
    hide Sound, SameMoney, Grows, OnlyProc, EndRun, Unlocked, ChargeRun, StaysWith;
    ExecutedStays(w, st, p, r, stage);
    if !PastTrigger(stage) {
      assert Executed(w, st, p, r, stage) == ExecutedQuietly(w, st, p, r, stage);
    }
  }

  lemma MovedAnswering(w: World, st: Step, p: Id)
    requires p in w.procs && !w.procs[p].Executing?
    ensures var w' := Moved(w, st, p, w.procs[p]);
      p in w'.procs && w'.procs[p].Executing? ==> w'.procs[p].stage == Fresh
  {
    hide Sound, SameMoney, Grows, OnlyProc, AddRun, CancelMessage, CancelRun, Unlocked;
  }

  /** No step makes anyone answer a cancelled message who was not answering it before. */
  lemma NobodyStartsAnswering(w: World, st: Step, m: nat, p: Id)
    requires Sound(w) && AllKnow(w) && m < |w.messages| && w.messages[m].cancelled
    requires Answering(Next(w, st), p, m)
    ensures Answering(w, p, m)
  {
    hide Sound, SameMoney, KnowsCandidates, Executed;
    var w' := Next(w, st);
    var r := w'.procs[p].run;
    if p in w.procs && w.procs[p].Executing? {
      assert Knows(w, w.procs[p]);
      assert SameRun(w.runs[w.procs[p].run], w'.runs[w.procs[p].run]);
      if w.procs[p] != w'.procs[p] {
        RunHasQuestion(w, w.procs[p].run);
        ActsAlone(w, st, p);
        ExecutedAnswering(w, st, p, w.procs[p].run, w.procs[p].stage);
      }
    } else {
      ActsAlone(w, st, p);
      if p in w.procs { MovedAnswering(w, st, p); }
    }
  }

  lemma RunHasQuestion(w: World, r: nat)
    requires Sound(w) && r < |w.runs|
    ensures w.runs[r].message < |w.messages|
  {
  }

  /** Who changed did it by a step of its own, either its first one or one from where it stood. */
  lemma ActsAlone(w: World, st: Step, p: Id)
    requires p in Next(w, st).procs && !(p in w.procs && w.procs[p] == Next(w, st).procs[p])
    ensures p in w.procs ==> Next(w, st) == Moved(w, st, p, w.procs[p])
    ensures p !in w.procs ==> !Next(w, st).procs[p].Executing?
  {
  }

  lemma SealedByStep(w: World, st: Step, m: nat)
    requires Sound(w) && AllKnow(w) && Sealed(w, m)
    ensures Sealed(Next(w, st), m)
  {
    hide Sound, AllKnow, Next;
    if w.messages[m].cancelled {
      forall p | Answering(Next(w, st), p, m)
        ensures Answering(w, p, m)
      {
        NobodyStartsAnswering(w, st, m, p);
      }
    }
    SealedStays(w, Next(w, st), m);
  }

  /** The questions a `cancelRuns` covers: those of this user in this conversation stored when it began. */
  ghost predicate Covered(w: World, user: Id, conversation: Id, stored: nat, m: nat) {
    m < stored && Covers(w, user, conversation, m)
  }

  /** While `cancelRuns` stops runs, a covered question is sealed or its run is still to be reached. */
  ghost predicate Sealing(w: World, proc: Proc) {
    match proc
    case Stopping(user, conversation, stored, todo) =>
      forall m: nat | Covered(w, user, conversation, stored, m) ::
        Sealed(w, m) || (w.messages[m].run.Some? && w.messages[m].run.value in todo)
    case Done(user, conversation, stored) =>
      forall m: nat | Covered(w, user, conversation, stored, m) :: Sealed(w, m)
    case _ => true
  }

  ghost predicate AllSealing(w: World) {
    forall p | p in w.procs :: Sealing(w, w.procs[p])
  }

  lemma SealingStays(w: World, st: Step, proc: Proc)
    requires Sound(w) && AllKnow(w) && Knows(w, proc) && Sealing(w, proc)
    ensures Sealing(Next(w, st), proc)
  {
    hide Next, Sound, AllKnow, Sealed;
    var w' := Next(w, st);
    if proc.Stopping? || proc.Done? {
      forall m: nat | Covered(w', proc.user, proc.conversation, proc.stored, m)
        ensures Sealed(w', m) || (proc.Stopping? && w'.messages[m].run.Some? && w'.messages[m].run.value in proc.todo)
      {
        assert SameQuestion(w.messages[m], w'.messages[m]) && Covered(w, proc.user, proc.conversation, proc.stored, m);
        if Sealed(w, m) { SealedByStep(w, st, m); }
      }
    }
  }

  /** When every message has been reached, a covered question has a run to stop or can never be answered. */
  lemma MarkedIsSealing(w: World, p: Id, user: Id, conversation: Id, stored: nat, open: set<nat>)
    requires Sound(w) && AllKnow(w) && p in w.procs && w.procs[p] == Marking(user, conversation, stored, open, {})
    ensures var w' := SetProc(w, p, Stopping(user, conversation, stored, RunsOf(w, user, conversation)));
      Sealing(w', w'.procs[p])
  {
  }

  /** A run that has been reached is over. */
  lemma StoppedIsSealing(w: World, p: Id, user: Id, conversation: Id, stored: nat, todo: set<nat>, r: nat)
    requires Sound(w) && AllKnow(w) && AllSealing(w) && p in w.procs && w.procs[p] == Stopping(user, conversation, stored, todo)
    ensures var w' := StopRun(w, p, user, conversation, stored, todo, r); p in w'.procs && Sealing(w', w'.procs[p])
  {
    var w' := StopRun(w, p, user, conversation, stored, todo, r);
    assert Sealing(w, w.procs[p]) && Knows(w, w.procs[p]);
    if w' != w {
      forall m: nat | Covered(w', user, conversation, stored, m)
        ensures Sealed(w', m) || (w'.messages[m].run.Some? && w'.messages[m].run.value in todo - {r})
      {
        assert Covered(w, user, conversation, stored, m) && Accounted(w.runs, w.messages[m], m);
        if Sealed(w, m) {
          assert forall q :: Answering(w', q, m) ==> Answering(w, q, m);
          SealedStays(w, w', m);
        }
      }
    }
  }

  lemma MovedSealing(w: World, st: Step, p: Id)
    requires Sound(w) && AllKnow(w) && AllSealing(w) && p in w.procs
    ensures var w' := Moved(w, st, p, w.procs[p]); p in w'.procs ==> Sealing(w', w'.procs[p])
  {
    hide Sound, AllKnow, Grows, SameMoney, OnlyProc, Sealed;
    assert Sealing(w, w.procs[p]);
    match w.procs[p] {
      case Marking(user, conversation, stored, open, todo) =>
        if st.EndMarking? && todo == {} { MarkedIsSealing(w, p, user, conversation, stored, open); }
      case Stopping(user, conversation, stored, todo) =>
        if st.Stop? { StoppedIsSealing(w, p, user, conversation, stored, todo, st.r); }
        else { EndStoppingSeals(w, st, p, user, conversation, stored, todo); }
      case _ => NotSealing(w, st, p);
    }
  }

  lemma NotSealing(w: World, st: Step, p: Id)
    requires p in w.procs && !w.procs[p].Marking? && !w.procs[p].Stopping?
    ensures var w' := Moved(w, st, p, w.procs[p]);
      w' == w || (p in w'.procs ==> !w'.procs[p].Stopping? && !w'.procs[p].Done?)
  {
    hide Sound, Grows, SameMoney, OnlyProc, Executed, AddRun, CancelMessage, CancelRun, Unlocked;
    if w.procs[p].Executing? { ExecutedStays(w, st, p, w.procs[p].run, w.procs[p].stage); }
  }

  lemma EndStoppingSeals(w: World, st: Step, p: Id, user: Id, conversation: Id, stored: nat, todo: set<nat>)
    requires p in w.procs && w.procs[p] == Stopping(user, conversation, stored, todo) && Sealing(w, w.procs[p]) && !st.Stop?
    ensures var w' := Moved(w, st, p, w.procs[p]); p in w'.procs && Sealing(w', w'.procs[p])
  {
    var w' := Moved(w, st, p, w.procs[p]);
    forall m: nat | Covered(w, user, conversation, stored, m) && Sealed(w, m)
      ensures Sealed(w', m)
    {
      assert forall q :: Answering(w', q, m) ==> Answering(w, q, m);
    }
  }

  // ---------------------------------------------------------------- over whole runs of steps

  ghost predicate Inv(w: World) {
    Sound(w) && AllKnow(w) && Orders(w) && Balanced(w) && NeverOvertaken(w) && AllSealing(w)
  }

  lemma BegunKnows(w: World, st: Step)
    requires Sound(w) && Begun(w, st).Some?
    ensures Knows(w, Begun(w, st).value) && Sealing(w, Begun(w, st).value)
    ensures !Begun(w, st).value.Executing?
  {
    match st {
      case BeginClaim(_, c) =>
        forall k | 0 <= k < |c|
          ensures OlderAreEarlier(w, c, k)
        {
          CandidatesInOrder(w, c, k);
        }
      case BeginRecovery(_, pending) =>
        assert forall m | m in pending :: Accounted(w.runs, w.messages[m], m);
      case _ =>
    }
  }

  /** Among the oldest queued runs, oldest first, whatever is older than one of them stands before it. */
  lemma CandidatesInOrder(w: World, c: seq<nat>, k: nat)
    requires OldestQueued(w, c) && k < |c|
    ensures OlderAreEarlier(w, c, k)
  {
  }

  lemma EveryoneKnows(w: World, st: Step)
    requires Sound(w) && AllKnow(w)
    ensures AllKnow(Next(w, st))
  {
    hide Moved, Alone, Begun, Knows, Grows, SameMoney;
    var w' := Next(w, st);
    forall p | p in w'.procs
      ensures Knows(w', w'.procs[p])
    {
      if p in w.procs && w.procs[p] == w'.procs[p] {
        KnowledgeKept(w, w', w.procs[p]);
      } else {
        ActorLearns(w, st, p);
      }
    }
  }

  lemma ActorLearns(w: World, st: Step, p: Id)
    requires Sound(w) && AllKnow(w)
    requires p in Next(w, st).procs && !(p in w.procs && w.procs[p] == Next(w, st).procs[p])
    ensures Knows(Next(w, st), Next(w, st).procs[p])
    ensures AllSealing(w) ==> Sealing(Next(w, st), Next(w, st).procs[p])
  {
    hide Sound, Moved, Knows, Grows, SameMoney, Sealing, Begun, Alone;
    var w' := Next(w, st);
    if p in w.procs {
      ActsAlone(w, st, p);
      assert Knows(w, w.procs[p]);
      MovedKnows(w, st, p, w.procs[p]);
      if AllSealing(w) { MovedSealing(w, st, p); }
    } else {
      BegunAlone(w, st, p);
      BegunKnows(w, st);
      KnowledgeKept(w, w', w'.procs[p]);
      if AllSealing(w) { SealingStays(w, st, w'.procs[p]); }
    }
  }

  lemma BegunAlone(w: World, st: Step, p: Id)
    requires p in Next(w, st).procs && p !in w.procs
    ensures Begun(w, st) == Some(Next(w, st).procs[p])
  {
  }

  lemma EveryoneSeals(w: World, st: Step)
    requires Sound(w) && AllKnow(w) && AllSealing(w)
    ensures AllSealing(Next(w, st))
  {
    hide Next, Knows, Sealing;
    var w' := Next(w, st);
    forall p | p in w'.procs
      ensures Sealing(w', w'.procs[p])
    {
      if p in w.procs && w.procs[p] == w'.procs[p] {
        assert Knows(w, w.procs[p]) && Sealing(w, w.procs[p]);
        SealingStays(w, st, w.procs[p]);
      } else {
        ActorLearns(w, st, p);
      }
    }
  }

  /** Orders, balance and claim order through any step. */
  lemma MoneyAndOrderKept(w: World, st: Step)
    requires Inv(w)
    ensures Orders(Next(w, st)) && Balanced(Next(w, st)) && NeverOvertaken(Next(w, st))
  {
    hide Moved, Alone, Begun, Orders, Balanced, NeverOvertaken, Sound, AllKnow, Grows, SameMoney, OnlyProc, AllSealing;
    var w' := Next(w, st);
    if st.Tick? || st.Store? || st.RevokeMessage? || st.RevokeRun? {
      AloneKept(w, st);
    } else if st.p !in w.procs {
      if Begun(w, st).Some? {
        BegunKnows(w, st);
        SettingKept(w, st.p, Begun(w, st).value);
      }
    } else if st.Crash? {
      EndingKept(w, st.p);
    } else {
      MovedOrderlyAndBalanced(w, st, st.p);
      MovedOvertakesNothing(w, st, st.p);
    }
  }

  lemma AloneKept(w: World, st: Step)
    requires Inv(w)
    ensures Orders(Alone(w, st)) && Balanced(Alone(w, st)) && NeverOvertaken(Alone(w, st))
  {
    hide Alone, Balanced, AllKnow, AllSealing;
    var w' := Alone(w, st);
    assert forall r: nat | r < |w.runs| :: MoneySame(w.runs[r], w'.runs[r]);
    BalancedQuietly(w, w');
    NotOvertaking(w, w');
  }

  lemma SettingKept(w: World, p: Id, proc: Proc)
    requires Inv(w) && !proc.Executing?
    ensures Orders(SetProc(w, p, proc)) && Balanced(SetProc(w, p, proc)) && NeverOvertaken(SetProc(w, p, proc))
  {
  }

  lemma EndingKept(w: World, p: Id)
    requires Inv(w)
    ensures Orders(EndProc(w, p)) && Balanced(EndProc(w, p)) && NeverOvertaken(EndProc(w, p))
  {
  }

  lemma InvNext(w: World, st: Step)
    requires Inv(w)
    ensures Inv(Next(w, st))
  {
    hide Next, Sound, AllKnow, Orders, Balanced, NeverOvertaken, AllSealing;
    EveryoneKnows(w, st);
    EveryoneSeals(w, st);
    MoneyAndOrderKept(w, st);
  }

  lemma InvAfter(w: World, steps: seq<Step>)
    requires Inv(w)
    ensures Inv(After(Next, w, steps))
  {
    hide Inv, Next;
    forall v, st | Inv(v) ensures Inv(Next(v, st)) { InvNext(v, st); }
    Kept(Next, Inv, w, steps);
  }

  lemma InvStart()
    ensures Inv(START)
  {
  }
}
