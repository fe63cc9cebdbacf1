/**
 When runs of one conversation exclude each other. A run that is under way is named by its conversation's
 lock, and no other is under way beside it, for as long as no worker takes over an expired lock from a run
 that is still going; and as soon as one does, two runs can be under way at once.
 */
module RunExclusion {
  import opened Common
  import opened Machine
  import opened Runs
  import opened RunInvariants
  import opened RunGuarantees

  /** The lock of its conversation names run r. */
  predicate Names(w: World, r: nat) {
    r < |w.runs| && w.runs[r].conversation in w.locks && w.locks[w.runs[r].conversation].run == r
  }

  /** No two runs of one conversation are running. */
  ghost predicate NoOverlap(w: World) {
    forall q: nat, r: nat | q < r < |w.runs| && w.runs[q].phase == Running && w.runs[r].phase == Running ::
      w.runs[q].conversation != w.runs[r].conversation
  }

  /** The run a process has locked a conversation for and is about to start. */
  predicate Holds(proc: Proc, r: nat) {
    proc.Holding? && proc.at < |proc.candidates| && proc.candidates[proc.at] == r
  }

  /** A lock is held only for a run that is not running yet, and given up only for one that is over. */
  predicate HoldsRightly(w: World, proc: Proc) {
    match proc
    case Holding(c, at, _) =>
      at < |c| && c[at] < |w.runs| ==> w.runs[c[at]].phase != Running && (w.runs[c[at]].phase == Queued ==> Names(w, c[at]))
    case Releasing(c, at, _) => at < |c| && c[at] < |w.runs| ==> w.runs[c[at]].Over()
    case Executing(r, stage) => stage.Leaving? && r < |w.runs| ==> w.runs[r].Over()
    case _ => true
  }

  ghost predicate LocksKnown(w: World) {
    forall c | c in w.locks :: w.locks[c].run < |w.runs| && w.runs[w.locks[c].run].conversation == c
  }

  /** Every running run has its conversation's lock, and nobody else is about to start or give up that run. */
  ghost predicate Exclusive(w: World) {
    && LocksKnown(w)
    && (forall r: nat | r < |w.runs| && w.runs[r].phase == Running :: Names(w, r))
    && (forall p | p in w.procs :: HoldsRightly(w, w.procs[p]))
    && (forall p, q, r: nat | p in w.procs && q in w.procs && p != q && Holds(w.procs[p], r) && Holds(w.procs[q], r)
          && r < |w.runs| :: w.runs[r].Over())
  }

  // ---------------------------------------------------------------- taking over

  /** The next step of p is to lock this conversation for this candidate. */
  predicate Locking(w: World, p: Id, r: nat) {
    && p in w.procs && w.procs[p].Claiming? && w.procs[p].at < |w.procs[p].candidates|
    && w.procs[p].candidates[w.procs[p].at] == r && r < |w.runs| && w.runs[r].conversation !in w.procs[p].skipped
  }

  /** A worker takes over a lock that has expired. */
  predicate TakesOver(w: World, st: Step) {
    && st.TakeLock? && st.p in w.procs && w.procs[st.p].Claiming? && w.procs[st.p].at < |w.procs[st.p].candidates|
    && var r := w.procs[st.p].candidates[w.procs[st.p].at];
      Locking(w, st.p, r) && w.runs[r].conversation in w.locks && w.locks[w.runs[r].conversation].until < w.now
  }

  /** Run r is running, or queued and about to be started by a process that has locked its conversation. */
  ghost predicate Going(w: World, r: nat) {
    r < |w.runs| && (w.runs[r].phase == Running || (w.runs[r].phase == Queued && exists q :: q in w.procs && Holds(w.procs[q], r)))
  }

  /** The run whose lock the step takes over. */
  function Loser(w: World, st: Step): nat
    requires TakesOver(w, st)
  {
    w.locks[w.runs[w.procs[st.p].candidates[w.procs[st.p].at]].conversation].run
  }

  /** A lock is taken over from a run that is still going. */
  ghost predicate Displaces(w: World, st: Step) {
    TakesOver(w, st) && Going(w, Loser(w, st))
  }

  ghost predicate NeverDisplaces(w: World, steps: seq<Step>)
    decreases |steps|
  {
    steps == [] || (NeverDisplaces(w, steps[..|steps| - 1]) && !Displaces(After(Next, w, steps[..|steps| - 1]), steps[|steps| - 1]))
  }

  ghost predicate NeverTakesOver(w: World, steps: seq<Step>)
    decreases |steps|
  {
    steps == [] || (NeverTakesOver(w, steps[..|steps| - 1]) && !TakesOver(After(Next, w, steps[..|steps| - 1]), steps[|steps| - 1]))
  }

  // ---------------------------------------------------------------- every other step keeps runs apart

  /** Nothing starts running, the locks of runs not over stay, and no process comes to hold a lock. */
  ghost predicate Quietly(a: World, b: World) {
    && LocksKnown(b)
    && (forall r: nat | r < |b.runs| && b.runs[r].phase == Running :: r < |a.runs| && a.runs[r].phase == Running)
    && (forall r: nat | r < |a.runs| && r < |b.runs| && !b.runs[r].Over() && Names(a, r) :: Names(b, r))
    && (forall q | q in b.procs && !(q in a.procs && b.procs[q] == a.procs[q]) :: !b.procs[q].Holding? && HoldsRightly(b, b.procs[q]))
  }

  lemma RightlyKept(a: World, b: World, proc: Proc)
    requires Grows(a, b) && Quietly(a, b) && Knows(a, proc) && HoldsRightly(a, proc)
    ensures HoldsRightly(b, proc)
  {
    match proc {
      case Holding(c, at, _) => assert SameRun(a.runs[c[at]], b.runs[c[at]]);
      case Releasing(c, at, _) => assert SameRun(a.runs[c[at]], b.runs[c[at]]);
      case Executing(r, _) => assert SameRun(a.runs[r], b.runs[r]);
      case _ =>
    }
  }

  lemma QuietlyExclusive(a: World, b: World)
    requires AllKnow(a) && Exclusive(a) && Grows(a, b) && Quietly(a, b)
    ensures Exclusive(b)
  {
    hide Grows, KnowsCandidates;
    forall q | q in b.procs ensures HoldsRightly(b, b.procs[q]) {
      if q in a.procs && b.procs[q] == a.procs[q] { assert Knows(a, a.procs[q]); RightlyKept(a, b, a.procs[q]); }
    }
    forall p, q, r: nat | p in b.procs && q in b.procs && p != q && Holds(b.procs[p], r) && Holds(b.procs[q], r) && r < |b.runs|
      ensures b.runs[r].Over()
    {
      HeldExists(a, p, r);
      OverKept(a, b, r);
    }
  }

  lemma HeldExists(w: World, p: Id, r: nat)
    requires AllKnow(w) && p in w.procs && Holds(w.procs[p], r)
    ensures r < |w.runs|
  {
    assert Knows(w, w.procs[p]);
  }

  lemma OverKept(a: World, b: World, r: nat)
    requires Grows(a, b) && r < |a.runs|
    ensures r < |b.runs| && (a.runs[r].Over() ==> b.runs[r].Over()) && b.runs[r].conversation == a.runs[r].conversation
  {
    assert SameRun(a.runs[r], b.runs[r]);
  }

  /** Steps that touch no lock and start no run. */
  lemma SameLocksQuietly(a: World, b: World)
    requires LocksKnown(a) && Grows(a, b) && b.locks == a.locks
    requires forall r: nat | r < |b.runs| && b.runs[r].phase == Running :: r < |a.runs| && a.runs[r].phase == Running
    requires forall q | q in b.procs && !(q in a.procs && b.procs[q] == a.procs[q]) :: !b.procs[q].Holding? && HoldsRightly(b, b.procs[q])
    ensures Quietly(a, b)
  {
    hide HoldsRightly;
    forall c | c in b.locks ensures b.locks[c].run < |b.runs| && b.runs[b.locks[c].run].conversation == c { OverKept(a, b, a.locks[c].run); }
    forall r: nat | r < |a.runs| && r < |b.runs| && Names(a, r) ensures Names(b, r) { OverKept(a, b, r); }
  }

  /** A lock cleared after its run is over takes nothing from anyone. */
  lemma ClearingQuietly(a: World, b: World, r: nat)
    requires LocksKnown(a) && r < |a.runs| && a.runs[r].Over() && b.runs == a.runs && b.locks == Unlocked(a, r).locks
    requires forall q | q in b.procs && !(q in a.procs && b.procs[q] == a.procs[q]) :: !b.procs[q].Holding? && HoldsRightly(b, b.procs[q])
    ensures Quietly(a, b)
  {
    hide HoldsRightly;
  }

  // ---------------------------------------------------------------- each process

  /** A lock taken when it is free, or from a run that is not going. */
  lemma LockedExclusive(w: World, p: Id, c: seq<nat>, at: nat, skipped: set<Id>)
    requires AllKnow(w) && Exclusive(w) && p in w.procs && w.procs[p] == Claiming(c, at, skipped) && at < |c| && Locking(w, p, c[at])
    requires w.runs[c[at]].conversation in w.locks ==>
      w.locks[w.runs[c[at]].conversation].until < w.now && !Going(w, w.locks[w.runs[c[at]].conversation].run)
    ensures Exclusive(TryLock(w, p, c, at, skipped))
  {
    hide Grows, SameMoney, Sound, Knows, Exclusive, Going;
    var w' := TryLock(w, p, c, at, skipped);
    NobodyGoing(w, p, c[at]);
    LockTaken(w, w', p, c[at]);
    HeldApart(w, w', p, c[at]);
  }

  /** p has come to hold the lock of r's conversation, where nothing is running or held. */
  ghost predicate Taken(a: World, b: World, p: Id, r: nat) {
    && r < |a.runs| && b.runs == a.runs && p in b.procs && Holds(b.procs[p], r)
    && (forall q | q in b.procs && q != p :: q in a.procs && b.procs[q] == a.procs[q])
    && a.runs[r].conversation in b.locks && b.locks[a.runs[r].conversation].run == r
    && (forall c | c != a.runs[r].conversation :: (c in b.locks <==> c in a.locks) && (c in a.locks ==> b.locks[c] == a.locks[c]))
    && (forall x: nat | x < |a.runs| && a.runs[x].conversation == a.runs[r].conversation :: a.runs[x].phase != Running)
    && (forall q, x: nat | q in a.procs && Holds(a.procs[q], x) && x < |a.runs| && a.runs[x].conversation == a.runs[r].conversation ::
          a.runs[x].Over())
  }

  lemma LockTaken(a: World, b: World, p: Id, r: nat)
    requires Exclusive(a) && Taken(a, b, p, r)
    ensures LocksKnown(b) && forall x: nat | x < |b.runs| && b.runs[x].phase == Running :: Names(b, x)
    ensures forall q | q in b.procs :: HoldsRightly(b, b.procs[q])
  {
    forall x: nat | x < |b.runs| && b.runs[x].phase == Running ensures Names(b, x) { assert Names(a, x); }
    forall q | q in b.procs && q != p ensures HoldsRightly(b, b.procs[q]) { RightlyElsewhere(a, b, q, r); }
  }

  lemma HeldApart(a: World, b: World, p: Id, r: nat)
    requires Exclusive(a) && Taken(a, b, p, r)
    requires LocksKnown(b) && (forall x: nat | x < |b.runs| && b.runs[x].phase == Running :: Names(b, x))
    requires forall q | q in b.procs :: HoldsRightly(b, b.procs[q])
    ensures Exclusive(b)
  {
    hide HoldsRightly, LocksKnown, Names;
  }

  /** Of the conversation whose lock is free to take, no run is running and none is held. */
  lemma NobodyGoing(w: World, p: Id, r: nat)
    requires Exclusive(w) && r < |w.runs|
    requires w.runs[r].conversation in w.locks ==> !Going(w, w.locks[w.runs[r].conversation].run)
    ensures forall x: nat | x < |w.runs| && w.runs[x].conversation == w.runs[r].conversation :: w.runs[x].phase != Running
    ensures forall q, x: nat | q in w.procs && Holds(w.procs[q], x) && x < |w.runs| && w.runs[x].conversation == w.runs[r].conversation ::
              w.runs[x].Over()
  {
    forall x: nat | x < |w.runs| && w.runs[x].conversation == w.runs[r].conversation ensures w.runs[x].phase != Running {
      assert w.runs[x].phase == Running ==> Names(w, x) && Going(w, x);
    }
    forall q, x: nat | q in w.procs && Holds(w.procs[q], x) && x < |w.runs| && w.runs[x].conversation == w.runs[r].conversation
      ensures w.runs[x].Over()
    {
      assert HoldsRightly(w, w.procs[q]);
      assert w.runs[x].phase == Queued ==> Names(w, x) && Going(w, x);
    }
  }

  lemma RightlyElsewhere(a: World, b: World, q: Id, r: nat)
    requires q in a.procs && q in b.procs && b.procs[q] == a.procs[q] && HoldsRightly(a, a.procs[q]) && b.runs == a.runs && r < |a.runs|
    requires forall c | c in a.locks && c != a.runs[r].conversation :: c in b.locks && b.locks[c] == a.locks[c]
    requires forall x: nat | Holds(a.procs[q], x) && x < |a.runs| && a.runs[x].conversation == a.runs[r].conversation :: a.runs[x].Over()
    ensures HoldsRightly(b, b.procs[q])
  {
    match a.procs[q] {
      case Holding(c, at, _) => if at < |c| { assert Holds(a.procs[q], c[at]); }
      case _ =>
    }
  }

  lemma TriedExclusive(w: World, p: Id, c: seq<nat>, at: nat, skipped: set<Id>)
    requires AllKnow(w) && Exclusive(w) && p in w.procs && w.procs[p] == Claiming(c, at, skipped)
    requires !Displaces(w, TakeLock(p))
    ensures Exclusive(TryLock(w, p, c, at, skipped))
  {
    hide SameMoney, Sound, KnowsCandidates, Exclusive;
    var w' := TryLock(w, p, c, at, skipped);
    if at < |c| && Locking(w, p, c[at]) && Free(w, w.runs[c[at]].conversation) {
      LockedExclusive(w, p, c, at, skipped);
    } else {
      LocksOf(w);
      SameLocksQuietly(w, w');
      QuietlyExclusive(w, w');
    }
  }

  /** The conversation has no lock, or one that has expired. */
  predicate Free(w: World, conversation: Id) {
    conversation in w.locks ==> w.locks[conversation].until < w.now
  }

  lemma LocksOf(w: World)
    requires Exclusive(w)
    ensures LocksKnown(w) && forall p | p in w.procs :: HoldsRightly(w, w.procs[p])
  {
  }

  /** The run p held is running; it has its conversation's lock, and nobody else holds it. */
  lemma RunStarted(a: World, b: World, p: Id, r: nat, run: Run)
    requires AllKnow(a) && Exclusive(a) && p in a.procs && r < |a.runs| && Holds(a.procs[p], r) && a.runs[r].phase == Queued
    requires b.locks == a.locks && b.runs == a.runs[r := run] && run.conversation == a.runs[r].conversation && !run.Over()
    requires p in b.procs && b.procs[p] == Executing(r, Fresh)
    requires forall q | q in b.procs && q != p :: q in a.procs && b.procs[q] == a.procs[q]
    ensures Exclusive(b)
  {
    hide KnowsCandidates, Knows;
    assert HoldsRightly(a, a.procs[p]);
    forall x: nat | x < |b.runs| && b.runs[x].phase == Running ensures Names(b, x) { assert x != r ==> Names(a, x); }
    forall q | q in b.procs && q != p ensures HoldsRightly(b, b.procs[q]) { StillRightly(a, b, p, r, q); }
  }

  lemma StillRightly(a: World, b: World, p: Id, r: nat, q: Id)
    requires AllKnow(a) && Exclusive(a) && p in a.procs && r < |a.runs| && Holds(a.procs[p], r) && a.runs[r].phase == Queued
    requires b.locks == a.locks && |b.runs| == |a.runs| && b.runs[r].conversation == a.runs[r].conversation
    requires forall x: nat | x < |a.runs| && x != r :: b.runs[x] == a.runs[x]
    requires q in a.procs && q in b.procs && q != p && b.procs[q] == a.procs[q]
    ensures HoldsRightly(b, b.procs[q])
  {
    hide KnowsCandidates;
    assert HoldsRightly(a, a.procs[q]) && Knows(a, a.procs[q]);
    match a.procs[q] {
      case Holding(c, at, _) => if at < |c| { assert Holds(a.procs[q], c[at]); }
      case _ =>
    }
  }

  lemma StartedExclusive(w: World, p: Id, c: seq<nat>, at: nat, skipped: set<Id>)
    requires AllKnow(w) && Exclusive(w) && p in w.procs && w.procs[p] == Holding(c, at, skipped)
    ensures Exclusive(ClaimRun(w, p, c, at, skipped))
  {
    hide Sound, Grows, SameMoney, Exclusive, LocksKnown, Knows;
    var w' := ClaimRun(w, p, c, at, skipped);
    KnowsHolding(w, p, c, at, skipped);
    LocksOf(w);
    if w.runs[c[at]].phase == Queued {
      RunStarted(w, w', p, c[at], w'.runs[c[at]]);
    } else {
      SameLocksQuietly(w, w');
      QuietlyExclusive(w, w');
    }
  }

  lemma ReleasedExclusive(w: World, p: Id, c: seq<nat>, at: nat, skipped: set<Id>)
    requires AllKnow(w) && Exclusive(w) && p in w.procs && w.procs[p] == Releasing(c, at, skipped)
    ensures Exclusive(ReleaseLock(w, p, c, at, skipped))
  {
    hide SameMoney, Sound, KnowsCandidates, Exclusive;
    LocksOf(w);
    var w' := ReleaseLock(w, p, c, at, skipped);
    if w' != w {
      ClearingQuietly(w, w', c[at]);
      QuietlyExclusive(w, w');
    }
  }

  lemma ClearedExclusive(w: World, p: Id, found: seq<nat>)
    requires AllKnow(w) && Exclusive(w) && p in w.procs && w.procs[p] == Clearing(found)
    ensures Exclusive(ClearExpired(w, p, found))
  {
    hide SameMoney, Sound, KnowsCandidates, Exclusive;
    LocksOf(w);
    assert Knows(w, w.procs[p]);
    ClearingQuietly(w, ClearExpired(w, p, found), found[0]);
    QuietlyExclusive(w, ClearExpired(w, p, found));
  }

  lemma ExecutedExclusive(w: World, st: Step, p: Id, r: nat, stage: Stage)
    requires AllKnow(w) && Orders(w) && Exclusive(w) && p in w.procs && w.procs[p] == Executing(r, stage)
    ensures Exclusive(Executed(w, st, p, r, stage))
  {
    hide SameMoney, Sound, KnowsCandidates, Exclusive, Executed, Orders, Grows;
    LocksOf(w);
    var w' := Executed(w, st, p, r, stage);
    OrdersAt(w, p);
    assert Knows(w, w.procs[p]);
    if st.Leave? && stage.Leaving? {
      LeftClears(w, st, p, r, stage);
      ClearingQuietly(w, w', r);
    } else {
      ExecutedStarts(w, st, p, r, stage);
      SameLocksQuietly(w, w');
    }
    QuietlyExclusive(w, w');
  }

  lemma LeftClears(w: World, st: Step, p: Id, r: nat, stage: Stage)
    requires st.Leave? && stage.Leaving? && r < |w.runs|
    ensures var w' := Executed(w, st, p, r, stage);
      w'.runs == w.runs && w'.locks == Unlocked(w, r).locks && w'.procs == w.procs - {p}
  {
    hide Sound, Grows, SameMoney, OnlyProc, Unlocked;
    UnlockedRuns(w, r);
  }

  lemma UnlockedRuns(w: World, r: nat)
    requires r < |w.runs|
    ensures Unlocked(w, r).runs == w.runs && Unlocked(w, r).procs == w.procs
  {
  }

  /** An execution touches no lock until it leaves, starts nothing, and comes to leave only once its run is over. */
  lemma ExecutedStarts(w: World, st: Step, p: Id, r: nat, stage: Stage)
    requires !(st.Leave? && stage.Leaving?) && r < |w.runs| && w.runs[r].phase != Queued && Agrees(w.runs[r], stage)
    requires p in w.procs && w.procs[p] == Executing(r, stage) && HoldsRightly(w, w.procs[p])
    ensures var w' := Executed(w, st, p, r, stage);
      && w'.locks == w.locks
      && (forall q: nat | q < |w'.runs| && w'.runs[q].phase == Running :: q < |w.runs| && w.runs[q].phase == Running)
      && p in w'.procs && w'.procs[p].Executing? && HoldsRightly(w', w'.procs[p])
      && (forall q | q != p && q in w'.procs :: q in w.procs && w'.procs[q] == w.procs[q])
  {
    hide Sound, Grows, SameMoney, OnlyProc, ExecutedQuietly;
    QuietlyStarts(w, st, p, r, stage);
  }

  lemma QuietlyStarts(w: World, st: Step, p: Id, r: nat, stage: Stage)
    requires !(st.Leave? && stage.Leaving?) && r < |w.runs| && w.runs[r].phase != Queued
    requires p in w.procs && w.procs[p] == Executing(r, stage) && HoldsRightly(w, w.procs[p])
    ensures var w' := ExecutedQuietly(w, st, p, r, stage);
      && w'.locks == w.locks
      && (forall q: nat | q < |w'.runs| && w'.runs[q].phase == Running :: q < |w.runs| && w.runs[q].phase == Running)
      && p in w'.procs && w'.procs[p].Executing? && HoldsRightly(w', w'.procs[p])
      && (forall q | q != p && q in w'.procs :: q in w.procs && w'.procs[q] == w.procs[q])
  {
    hide Sound, Grows, SameMoney, OnlyProc, Unlocked;
  }

  /** Steps of processes that touch no lock. */
  lemma LocklessExclusive(w: World, st: Step, p: Id)
    requires Inv(w) && Exclusive(w) && p in w.procs
    requires w.procs[p].Recovering? || w.procs[p].Unsetting? || w.procs[p].Expiring? || w.procs[p].Marking? || w.procs[p].Stopping?
             || w.procs[p].Done?
    ensures Exclusive(Moved(w, st, p, w.procs[p]))
  {
    hide SameMoney, Inv, KnowsCandidates, Exclusive, Sound;
    LocksOf(w);
    var w' := Moved(w, st, p, w.procs[p]);
    KnowsAll(w);
    LocklessSame(w, st, p);
    SameLocksQuietly(w, w');
    QuietlyExclusive(w, w');
  }

  lemma KnowsAll(w: World)
    requires Inv(w)
    ensures Sound(w) && AllKnow(w) && Orders(w)
  {
  }

  /** No lock is touched, no run started, and nobody comes to hold or leave one. */
  ghost predicate Lockless(a: World, b: World) {
    && b.locks == a.locks
    && (forall r: nat | r < |b.runs| && b.runs[r].phase == Running :: r < |a.runs| && a.runs[r].phase == Running)
    && (forall q | q in b.procs && !(q in a.procs && b.procs[q] == a.procs[q]) ::
          !b.procs[q].Holding? && !b.procs[q].Releasing? && !b.procs[q].Executing?)
  }

  lemma LocklessSame(w: World, st: Step, p: Id)
    requires p in w.procs
    requires w.procs[p].Recovering? || w.procs[p].Unsetting? || w.procs[p].Expiring? || w.procs[p].Marking? || w.procs[p].Stopping?
             || w.procs[p].Done?
    ensures Lockless(w, Moved(w, st, p, w.procs[p]))
  {
    hide SameMoney, Sound, Grows, OnlyProc, Executed, TryLock, ClaimRun, ReleaseLock, ClearExpired, QueueRun, SkipPending, UnsetRequest,
      ExpireRun, MarkMessage, StopRun, RunsOf;
    if w.procs[p].Recovering? || w.procs[p].Unsetting? || w.procs[p].Expiring? { HousekeepingLockless(w, p); }
    if w.procs[p].Marking? || w.procs[p].Stopping? { CancellingLockless(w, st, p); }
  }

  lemma HousekeepingLockless(w: World, p: Id)
    requires p in w.procs
    ensures forall pending :: w.procs[p] == Recovering(pending) ==> Lockless(w, QueueRun(w, p, pending)) && Lockless(w, SkipPending(w, p, pending))
    ensures forall pending :: w.procs[p] == Unsetting(pending) ==> Lockless(w, UnsetRequest(w, p, pending))
    ensures forall found :: w.procs[p] == Expiring(found) ==> Lockless(w, ExpireRun(w, p, found))
  {
    hide SameMoney, Sound, Grows, OnlyProc;
  }

  lemma CancellingLockless(w: World, st: Step, p: Id)
    requires p in w.procs && (w.procs[p].Marking? || w.procs[p].Stopping?)
    ensures Lockless(w, Moved(w, st, p, w.procs[p]))
  {
    hide SameMoney, Sound, Grows, OnlyProc, RunsOf;
  }

  lemma AloneExclusive(w: World, st: Step)
    requires Inv(w) && Exclusive(w)
    ensures Exclusive(Alone(w, st))
  {
    hide SameMoney, Inv, Knows, Exclusive, Sound, Grows;
    LocksOf(w);
    KnowsAll(w);
    SameLocksQuietly(w, Alone(w, st));
    QuietlyExclusive(w, Alone(w, st));
  }

  lemma PlacedExclusive(w: World, w': World)
    requires Inv(w) && Exclusive(w) && w' == w.(procs := w'.procs) && Grows(w, w')
    requires forall q | q in w'.procs && !(q in w.procs && w'.procs[q] == w.procs[q]) :: !w'.procs[q].Holding? && HoldsRightly(w', w'.procs[q])
    ensures Exclusive(w')
  {
    hide SameMoney, Inv, Knows, Exclusive, Sound, Grows;
    LocksOf(w);
    KnowsAll(w);
    SameLocksQuietly(w, w');
    QuietlyExclusive(w, w');
  }

  lemma BegunPlain(w: World, st: Step)
    requires Begun(w, st).Some?
    ensures !Begun(w, st).value.Holding? && HoldsRightly(w, Begun(w, st).value)
  {
  }

  /** Every step that displaces nobody keeps runs apart. */
  lemma ExclusiveNext(w: World, st: Step)
    requires Inv(w) && Exclusive(w) && !Displaces(w, st)
    ensures Exclusive(Next(w, st))
  {
    hide Inv, Exclusive, Alone, Begun, Grows, SameMoney, Sound, HoldsRightly, OnlyProc;
    if st.Tick? || st.Store? || st.RevokeMessage? || st.RevokeRun? {
      AloneExclusive(w, st);
    } else if st.p !in w.procs {
      if Begun(w, st).Some? {
        BegunPlain(w, st);
        SameRightly(w, SetProc(w, st.p, Begun(w, st).value), Begun(w, st).value);
        PlacedExclusive(w, SetProc(w, st.p, Begun(w, st).value));
      }
    } else if st.Crash? {
      PlacedExclusive(w, EndProc(w, st.p));
    } else {
      MovedExclusive(w, st, st.p);
    }
  }

  lemma SameRightly(a: World, b: World, proc: Proc)
    requires b.runs == a.runs && b.locks == a.locks && HoldsRightly(a, proc)
    ensures HoldsRightly(b, proc)
  {
  }

  lemma MovedExclusive(w: World, st: Step, p: Id)
    requires Inv(w) && Exclusive(w) && p in w.procs && (st.TakeLock? ==> st.p == p) && !Displaces(w, st)
    ensures Exclusive(Moved(w, st, p, w.procs[p]))
  {
    hide Inv, Exclusive, Grows, SameMoney, Sound, HoldsRightly, OnlyProc, TryLock, ClaimRun, ReleaseLock, ClearExpired, Executed;
    KnowsAll(w);
    match w.procs[p] {
      case Claiming(c, at, skipped) => if st.TakeLock? { TriedExclusive(w, p, c, at, skipped); }
      case Holding(c, at, skipped) => if st.TakeRun? { StartedExclusive(w, p, c, at, skipped); }
      case Releasing(c, at, skipped) => if st.Release? { ReleasedExclusive(w, p, c, at, skipped); }
      case Executing(r, stage) => ExecutedExclusive(w, st, p, r, stage);
      case Clearing(found) => if st.ClearLock? { ClearedExclusive(w, p, found); }
      case _ => LocklessExclusive(w, st, p);
    }
  }

  // ---------------------------------------------------------------- the guarantees

  lemma {:induction false} ExclusiveAfter(w: World, steps: seq<Step>)
    requires Inv(w) && Exclusive(w) && NeverDisplaces(w, steps)
    ensures Inv(After(Next, w, steps)) && Exclusive(After(Next, w, steps))
    decreases |steps|
  {
    hide Inv, Exclusive, Next, Displaces;
    if steps != [] {
      var before := steps[..|steps| - 1];
      ExclusiveAfter(w, before);
      ExclusiveNext(After(Next, w, before), steps[|steps| - 1]);
      InvNext(After(Next, w, before), steps[|steps| - 1]);
    }
  }

  lemma ExclusiveMeans(w: World)
    requires Exclusive(w)
    ensures NoOverlap(w) && forall r: nat | r < |w.runs| && w.runs[r].phase == Running :: Names(w, r)
  {
  }

  /**
   Runs of a conversation never overlap unless a lock is displaced: along any run of steps in which no lock
   is taken over from a run still going, at most one run of each conversation is running, and it is the one
   its conversation's lock names. Workers may crash, runs expire, be cancelled or revoked, and their locks be
   cleared, at any point.
   */
  lemma RunsNeverOverlap(steps: seq<Step>)
    requires NeverDisplaces(START, steps)
    ensures var w := After(Next, START, steps);
      NoOverlap(w) && forall r: nat | r < |w.runs| && w.runs[r].phase == Running :: Names(w, r)
  {
    hide Inv, Next, Exclusive, NoOverlap;
    InvStart();
    StartExclusive();
    ExclusiveAfter(START, steps);
    ExclusiveMeans(After(Next, START, steps));
  }

  lemma StartExclusive()
    ensures Exclusive(START)
  {
  }

  /** In particular while no lock is taken over after it has expired: for as long as every execution ends in time. */
  lemma NoOverlapWhileLocksLast(steps: seq<Step>)
    requires NeverTakesOver(START, steps)
    ensures var w := After(Next, START, steps);
      NoOverlap(w) && forall r: nat | r < |w.runs| && w.runs[r].phase == Running :: Names(w, r)
  {
    hide Next, NoOverlap, TakesOver;
    TakesNoneDisplacesNone(START, steps);
    RunsNeverOverlap(steps);
  }

  lemma {:induction false} TakesNoneDisplacesNone(w: World, steps: seq<Step>)
    requires NeverTakesOver(w, steps)
    ensures NeverDisplaces(w, steps)
    decreases |steps|
  {
    hide Next, TakesOver;
    if steps != [] { TakesNoneDisplacesNone(w, steps[..|steps| - 1]); }
  }

  /** What is to be taken over next: the lock of the candidate's conversation, which names another run of it. */
  predicate TakesOverFor(w: World, p: Id, r: nat) {
    Locking(w, p, r) && TakesOver(w, TakeLock(p)) && w.runs[r].phase == Queued && Loser(w, TakeLock(p)) != r
  }

  /** Two steps at most: whoever held the displaced run starts it, and the one who took over starts the other. */
  function Starting(w: World, p: Id, h: Id): seq<Step> {
    if h == p then [TakeRun(p)] else [TakeRun(h), TakeRun(p)]
  }

  lemma TakenOver(w: World, p: Id, r: nat)
    requires TakesOverFor(w, p, r)
    ensures var v := Next(w, TakeLock(p)); v.runs == w.runs && p in v.procs && Holds(v.procs[p], r)
    ensures forall q | q in w.procs && q != p :: q in Next(w, TakeLock(p)).procs && Next(w, TakeLock(p)).procs[q] == w.procs[q]
  {
    hide Sound, Grows, SameMoney, KnowsCandidates, Inv, Knows;
  }

  lemma Starts(w: World, p: Id, r: nat)
    requires p in w.procs && Holds(w.procs[p], r) && r < |w.runs| && w.runs[r].phase == Queued
    ensures var v := Next(w, TakeRun(p));
      && |v.runs| == |w.runs| && v.runs[r].phase == Running && v.runs[r].conversation == w.runs[r].conversation
      && (forall x: nat | x < |w.runs| && x != r :: v.runs[x] == w.runs[x])
      && (forall q | q in w.procs && q != p :: q in v.procs && v.procs[q] == w.procs[q])
  {
    hide Sound, Grows, SameMoney;
  }

  lemma StartingDisplacesNone(w: World, p: Id, h: Id)
    ensures NeverDisplaces(w, Starting(w, p, h))
  {
    hide Next, Going;
    OneTakeRun(w, h);
    if h != p {
      var both := [TakeRun(h), TakeRun(p)];
      assert both[..1] == [TakeRun(h)] && both[1] == TakeRun(p);
    }
  }

  lemma OneTakeRun(w: World, p: Id)
    ensures NeverDisplaces(w, [TakeRun(p)])
  {
    hide Next, Going;
    assert [TakeRun(p)][..0] == [] && NeverDisplaces(w, []);
  }

  /** A lock displaced from a run of the same conversation leads at once to an overlap. */
  lemma DisplacedOverlaps(w: World, p: Id, r: nat)
    requires LocksKnown(w) && TakesOverFor(w, p, r) && Displaces(w, TakeLock(p))
    ensures exists later :: NeverDisplaces(Next(w, TakeLock(p)), later) && !NoOverlap(After(Next, Next(w, TakeLock(p)), later))
  {
    hide Next, NoOverlap, NeverDisplaces;
    var v, x := Next(w, TakeLock(p)), Loser(w, TakeLock(p));
    TakenOver(w, p, r);
    if w.runs[x].phase == Running {
      StartingDisplacesNone(v, p, p);
      AfterOne(Next, v, TakeRun(p));
      Starts(v, p, r);
      TwoRunning(Next(v, TakeRun(p)), x, r);
      assert !NoOverlap(After(Next, v, Starting(v, p, p)));
    } else {
      var h :| h in w.procs && Holds(w.procs[h], x);
      StartingDisplacesNone(v, p, h);
      AfterTwo(Next, v, TakeRun(h), TakeRun(p));
      Starts(v, h, x);
      Starts(Next(v, TakeRun(h)), p, r);
      TwoRunning(Next(Next(v, TakeRun(h)), TakeRun(p)), x, r);
      assert !NoOverlap(After(Next, v, Starting(v, p, h)));
    }
  }

  lemma TwoRunning(w: World, x: nat, r: nat)
    requires x < |w.runs| && r < |w.runs| && x != r && w.runs[x].conversation == w.runs[r].conversation
    requires w.runs[x].phase == Running && w.runs[r].phase == Running
    ensures !NoOverlap(w)
  {
    assert if x < r then x < r < |w.runs| else r < x < |w.runs|;
  }

  /**
   Exactly the displacing take-overs endanger a conversation: after a worker takes over an expired lock for
   another queued run, two runs can come to overlap without any further displacement if and only if the run
   that lost the lock was still going.
   */
  lemma OverlapExactlyWhenDisplaced(steps: seq<Step>, p: Id, r: nat)
    requires NeverDisplaces(START, steps) && TakesOverFor(After(Next, START, steps), p, r)
    ensures var w := After(Next, START, steps);
      (exists later :: NeverDisplaces(Next(w, TakeLock(p)), later) && !NoOverlap(After(Next, Next(w, TakeLock(p)), later)))
      <==> Displaces(w, TakeLock(p))
  {
    hide Next, NoOverlap, NeverDisplaces, Inv, Exclusive, TakesOver, Going, LocksKnown;
    var w := After(Next, START, steps);
    InvStart();
    StartExclusive();
    ExclusiveAfter(START, steps);
    LocksOf(w);
    if Displaces(w, TakeLock(p)) {
      DisplacedOverlaps(w, p, r);
    } else {
      InvNext(w, TakeLock(p));
      ExclusiveNext(w, TakeLock(p));
      forall later | NeverDisplaces(Next(w, TakeLock(p)), later) ensures NoOverlap(After(Next, Next(w, TakeLock(p)), later)) {
        ExclusiveAfter(Next(w, TakeLock(p)), later);
        ExclusiveMeans(After(Next, Next(w, TakeLock(p)), later));
      }
    }
  }

  // ---------------------------------------------------------------- an overlap

  lemma ReachableNext(w: World, st: Step)
    requires Reachable(w)
    ensures Reachable(Next(w, st))
  {
    hide Next;
    var steps :| w == After(Next, START, steps);
    assert (steps + [st])[..|steps|] == steps;
    assert Next(w, st) == After(Next, START, steps + [st]);
  }

  /** A question of user 0 in conversation 0, and its run before anyone has claimed it. */
  function Question(request: bool, run: Option<nat>): Message {
    Message(0, 0, true, true, request, false, run)
  }

  function Waiting(m: nat): Run {
    Run(m, 0, 0, 0, Queued, 0, 0, 0, 0, None, false)
  }

  function Started(m: nat, lease: nat): Run {
    Waiting(m).(phase := Running, attempt := 1, lease := lease)
  }

  /** Two questions asked, as they stand, with their runs so far. */
  function Asked(first: Message, second: Message, runs: seq<Run>, procs: map<Id, Proc>): World {
    World(0, [first, second], runs, map[], map[], procs)
  }

  /** Two questions queued, with these runs, at this time. */
  function Two(now: nat, first: Run, second: Run, locks: map<Id, Lock>, procs: map<Id, Proc>): World {
    World(now, [Question(false, Some(0)), Question(false, Some(1))], [first, second], locks, map[], procs)
  }

  const SCENES: nat := 16

  /** What happens: two questions are stored and queued, and two workers claim, the second when the lock has just expired. */
  function Move(k: nat): Step
    requires k < SCENES
  {
    [Store(0, 0, true, true), Store(0, 0, true, true), BeginRecovery(0, [0, 1]), Queue(0), Unset(0), Queue(0), Unset(0), Skip(0),
     BeginClaim(1, [0, 1]), TakeLock(1), Tick(1), TakeRun(1), Tick(LEASE_MS), BeginClaim(2, [1]), TakeLock(2), TakeRun(2)][k]
  }

  /** The database before the k-th of these steps. */
  function Scene(k: nat): World
    requires k <= SCENES
  {
    var first, lock := Executing(0, Fresh), map[0 := Lock(LEASE_MS, 0)];
    if k == 0 then START
    else if k == 1 then START.(messages := [Question(true, None)])
    else if k == 2 then Asked(Question(true, None), Question(true, None), [], map[])
    else if k == 3 then Asked(Question(true, None), Question(true, None), [], map[0 := Recovering([0, 1])])
    else if k == 4 then Asked(Question(true, Some(0)), Question(true, None), [Waiting(0)], map[0 := Unsetting([0, 1])])
    else if k == 5 then Asked(Question(false, Some(0)), Question(true, None), [Waiting(0)], map[0 := Recovering([1])])
    else if k == 6 then Asked(Question(false, Some(0)), Question(true, Some(1)), [Waiting(0), Waiting(1)], map[0 := Unsetting([1])])
    else if k == 7 then Two(0, Waiting(0), Waiting(1), map[], map[0 := Recovering([])])
    else if k == 8 then Two(0, Waiting(0), Waiting(1), map[], map[])
    else if k == 9 then Two(0, Waiting(0), Waiting(1), map[], map[1 := Claiming([0, 1], 0, {})])
    else if k == 10 then Two(0, Waiting(0), Waiting(1), lock, map[1 := Holding([0, 1], 0, {0})])
    else if k == 11 then Two(1, Waiting(0), Waiting(1), lock, map[1 := Holding([0, 1], 0, {0})])
    else if k == 12 then Two(1, Started(0, LEASE_MS + 1), Waiting(1), lock, map[1 := first])
    else if k == 13 then Two(LEASE_MS + 1, Started(0, LEASE_MS + 1), Waiting(1), lock, map[1 := first])
    else if k == 14 then Two(LEASE_MS + 1, Started(0, LEASE_MS + 1), Waiting(1), lock, map[1 := first, 2 := Claiming([1], 0, {})])
    else
      var taken := map[0 := Lock(2 * LEASE_MS + 1, 1)];
      if k == 15 then Two(LEASE_MS + 1, Started(0, LEASE_MS + 1), Waiting(1), taken, map[1 := first, 2 := Holding([1], 0, {0})])
      else
        Two(LEASE_MS + 1, Started(0, LEASE_MS + 1), Started(1, 2 * LEASE_MS + 1), taken, map[1 := first, 2 := Executing(1, Fresh)])
  }

  lemma Asking(k: nat)
    requires k < 4
    ensures Next(Scene(k), Move(k)) == Scene(k + 1)
  {
    hide Sound, Grows, SameMoney, OnlyProc;
  }

  lemma FirstQueued(k: nat)
    requires k == 4 || k == 5
    ensures Next(Scene(k), Move(k)) == Scene(k + 1)
  {
    hide Sound, Grows, SameMoney, OnlyProc;
    assert [0, 1][1..] == [1];
  }

  lemma SecondQueued(k: nat)
    requires k == 6 || k == 7
    ensures Next(Scene(k), Move(k)) == Scene(k + 1)
  {
    hide Sound, Grows, SameMoney, OnlyProc;
    assert [1][1..] == [];
  }

  lemma Finding(k: nat)
    requires k == 8 || k == 13
    ensures Next(Scene(k), Move(k)) == Scene(k + 1)
  {
    hide Sound, Grows, SameMoney, OnlyProc;
    assert [0, 1][0] == 0 && [0, 1][1] == 1 && [1][0] == 1;
    assert OldestQueued(Scene(k), Move(k).candidates);
  }

  lemma FirstStarted(k: nat)
    requires 9 <= k < 12
    ensures Next(Scene(k), Move(k)) == Scene(k + 1)
  {
    hide Sound, Grows, SameMoney, OnlyProc;
    var nobody: set<Id> := {};
    assert nobody + {0} == {0};
    assert Next(Scene(k), Move(k)).runs == Scene(k + 1).runs;
    assert Next(Scene(k), Move(k)).locks == Scene(k + 1).locks;
    assert Next(Scene(k), Move(k)).procs == Scene(k + 1).procs;
  }

  lemma SecondStarted(k: nat)
    requires k == 12 || k == 14 || k == 15
    ensures Next(Scene(k), Move(k)) == Scene(k + 1)
  {
    hide Sound, Grows, SameMoney, OnlyProc;
    var nobody: set<Id> := {};
    assert nobody + {0} == {0};
    assert Next(Scene(k), Move(k)).runs == Scene(k + 1).runs;
    assert Next(Scene(k), Move(k)).locks == Scene(k + 1).locks;
    assert Next(Scene(k), Move(k)).procs == Scene(k + 1).procs;
  }

  lemma SceneLeads(k: nat)
    requires k < SCENES
    ensures Next(Scene(k), Move(k)) == Scene(k + 1)
  {
    hide Next, Scene, Move;
    if k < 4 {
      Asking(k);
    } else if k < 6 {
      FirstQueued(k);
    } else if k < 8 {
      SecondQueued(k);
    } else if k == 8 || k == 13 {
      Finding(k);
    } else if k < 12 {
      FirstStarted(k);
    } else {
      SecondStarted(k);
    }
  }

  lemma {:induction false} SceneReached(k: nat)
    requires k <= SCENES
    ensures Reachable(Scene(k))
  {
    hide Next, Scene, Move, Reachable;
    if k == 0 {
      Empty();
    } else {
      SceneReached(k - 1);
      SceneLeads(k - 1);
      ReachableNext(Scene(k - 1), Move(k - 1));
    }
  }

  lemma Empty()
    ensures Reachable(Scene(0))
  {
    var none: seq<Step> := [];
    assert START == After(Next, START, none);
  }

  /**
   Runs do overlap: from an empty database, a second worker takes over the lock the moment it has expired and
   starts the next question, while the first run is running and its own lease, given a little later than the
   lock, has not run out.
   */
  lemma RunsCanOverlap()
    ensures exists w ::
      && Reachable(w) && |w.runs| == 2 && w.runs[0].conversation == w.runs[1].conversation
      && w.runs[0].phase == Running && w.runs[1].phase == Running && w.runs[0].lease >= w.now && w.runs[1].lease >= w.now
  {
    hide Next, Reachable;
    SceneReached(SCENES);
    var w := Scene(SCENES);
    assert w.runs == [Started(0, LEASE_MS + 1), Started(1, 2 * LEASE_MS + 1)];
  }
}
