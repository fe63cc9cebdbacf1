/**
 What the calls of `Runs` do, read from the documents' side: what turns a run, a message, a lock or a budget,
 and what an execution comes to when nobody disturbs it.
 */
module RunEffects {
  import opened Common
  import opened Machine
  import opened Runs

  // ---------------------------------------------------------------- what turns a run

  predicate StandsAt(w: World, p: Id, proc: Proc) {
    p in w.procs && w.procs[p] == proc
  }

  predicate OfNobody(st: Step) {
    st.Tick? || st.Store? || st.RevokeMessage? || st.RevokeRun?
  }

  /** The step is the next call of a process there is. */
  predicate Acts(w: World, st: Step) {
    !OfNobody(st) && !st.Crash? && st.p in w.procs
  }

  /** A cancel reaches the open run, its assistant is revoked, or its executor has found the trigger cancelled. */
  predicate Cancels(w: World, st: Step, r: nat)
    requires r < |w.runs|
  {
    var run := w.runs[r];
    match st
    case Stop(p, q) =>
      q == r && p in w.procs && w.procs[p].Stopping? && w.procs[p].user == run.user && w.procs[p].conversation == run.conversation
        && (run.phase == Queued || run.phase == Running)
    case RevokeRun(q) => q == r && (run.phase == Queued || run.phase == Running)
    case CancelOwn(p) => StandsAt(w, p, Executing(r, Refusing)) && run.phase == Running
    case _ => false
  }

  /** Its executor reports an error, or housekeeping reaches it past its lease. */
  predicate Fails(w: World, st: Step, r: nat)
    requires r < |w.runs|
  {
    match st
    case Fail(p) => StandsAt(w, p, Executing(r, Failing)) && w.runs[r].phase == Running
    case Expire(p) =>
      p in w.procs && w.procs[p].Expiring? && w.procs[p].found != [] && w.procs[p].found[0] == r
        && w.runs[r].phase == Running && w.runs[r].lease < w.now
    case _ => false
  }

  predicate Completes(w: World, st: Step, r: nat)
    requires r < |w.runs|
  {
    st.Complete? && st.p in w.procs && w.procs[st.p].Executing? && w.procs[st.p].run == r && w.procs[st.p].stage.Answered?
      && w.runs[r].phase == Running
  }

  /** A worker that holds the conversation takes the queued run. */
  predicate Takes(w: World, st: Step, r: nat)
    requires r < |w.runs|
  {
    st.TakeRun? && st.p in w.procs && w.procs[st.p].Holding? && w.procs[st.p].at < |w.procs[st.p].candidates|
      && w.procs[st.p].candidates[w.procs[st.p].at] == r && w.runs[r].phase == Queued
  }

  /** The reservation fits under the limit that was read. */
  predicate Charges(w: World, st: Step, r: nat)
    requires r < |w.runs|
  {
    st.Reserve? && st.p in w.procs && w.procs[st.p].Executing? && w.procs[st.p].run == r && w.procs[st.p].stage.Priced?
      && Reserved(w, w.runs[r].user, w.procs[st.p].stage.day) + 160000 <= w.procs[st.p].stage.limit
  }

  predicate Settles(w: World, st: Step, r: nat)
    requires r < |w.runs|
  {
    st.Settle? && st.p in w.procs && w.procs[st.p].Executing? && w.procs[st.p].run == r && w.procs[st.p].stage.Finished?
  }

  /**
   What the step makes of run r: `cancelled` exactly by a cancel, a revocation or its own executor, `failed` exactly
   by its executor or by housekeeping past its lease, `completed` exactly by the completion, with the tokens of the
   answer, and `running` exactly by a claim, which alone gives a lease and counts an attempt.
   */
  predicate Turned(w: World, st: Step, r: nat, w': World)
    requires r < |w.runs|
  {
    && r < |w'.runs|
    && var a, b := w.runs[r], w'.runs[r];
      && b.phase == (if Cancels(w, st, r) then Cancelled else if Fails(w, st, r) then Failed
                     else if Completes(w, st, r) then Completed else if Takes(w, st, r) then Running else a.phase)
      && b.lease == (if Takes(w, st, r) then w.now + 300000 else a.lease)
      && b.attempt == (if Takes(w, st, r) then a.attempt + 1 else a.attempt)
      && b.input == (if Completes(w, st, r) then w.procs[st.p].stage.input else a.input)
      && b.output == (if Completes(w, st, r) then w.procs[st.p].stage.output else a.output)
      && b.charged == (if Charges(w, st, r) then Some(w.procs[st.p].stage.day) else a.charged)
      && b.settled == (a.settled || Settles(w, st, r))
      && b.message == a.message && b.conversation == a.conversation && b.user == a.user && b.created == a.created
  }

  /** Every step turns every run as it says, and no other way. */
  lemma RunTurns(w: World, st: Step, r: nat)
    requires r < |w.runs|
    ensures Turned(w, st, r, Next(w, st))
  {
    hide Grows, Sound, SameMoney, OnlyProc, Moved, Alone, Turned, Begun;
    if OfNobody(st) {
      AloneTurns(w, st, r);
    } else if st.p !in w.procs || st.Crash? {
      ProcsAside(w, st, r, Next(w, st).procs);
    } else {
      MovedTurns(w, st, r);
    }
  }

  lemma ProcsAside(w: World, st: Step, r: nat, procs: map<Id, Proc>)
    requires r < |w.runs| && !OfNobody(st) && (st.p !in w.procs || st.Crash?)
    ensures Turned(w, st, r, w.(procs := procs))
  {
  }

  lemma AloneTurns(w: World, st: Step, r: nat)
    requires r < |w.runs| && OfNobody(st)
    ensures Turned(w, st, r, Alone(w, st))
  {
    hide Grows, Sound, SameMoney, OnlyProc;
  }

  lemma MovedTurns(w: World, st: Step, r: nat)
    requires r < |w.runs| && Acts(w, st)
    ensures Turned(w, st, r, Moved(w, st, st.p, w.procs[st.p]))
  {
    hide Grows, Sound, SameMoney, OnlyProc, Executed, Turned;
    match w.procs[st.p] {
      case Executing(q, stage) => ExecutedTurns(w, st, r, q, stage);
      case _ => UnexecutedTurns(w, st, r);
    }
  }

  lemma ExecutedTurns(w: World, st: Step, r: nat, q: nat, stage: Stage)
    requires r < |w.runs| && Acts(w, st) && w.procs[st.p] == Executing(q, stage)
    ensures Turned(w, st, r, Executed(w, st, st.p, q, stage))
  {
    hide Grows, Sound, SameMoney, OnlyProc, ExecutedQuietly, Turned;
    if st.Reserve? {
      ReservedTurns(w, st, r, q, stage);
    } else if st.Complete? || st.Settle? {
      AnsweredTurns(w, st, r, q, stage);
    } else {
      QuietlyTurns(w, st, r, q, stage);
    }
  }

  lemma ReservedTurns(w: World, st: Step, r: nat, q: nat, stage: Stage)
    requires r < |w.runs| && st.Reserve? && StandsAt(w, st.p, Executing(q, stage))
    ensures Turned(w, st, r, Executed(w, st, st.p, q, stage))
  {
    hide Grows, Sound, SameMoney, OnlyProc;
  }

  lemma AnsweredTurns(w: World, st: Step, r: nat, q: nat, stage: Stage)
    requires r < |w.runs| && (st.Complete? || st.Settle?) && StandsAt(w, st.p, Executing(q, stage))
    ensures Turned(w, st, r, Executed(w, st, st.p, q, stage))
  {
    hide Grows, Sound, SameMoney, OnlyProc;
  }

  lemma QuietlyTurns(w: World, st: Step, r: nat, q: nat, stage: Stage)
    requires r < |w.runs| && Acts(w, st) && w.procs[st.p] == Executing(q, stage)
    requires !st.Reserve? && !st.Complete? && !st.Settle?
    ensures Turned(w, st, r, ExecutedQuietly(w, st, st.p, q, stage))
  {
    hide Grows, Sound, SameMoney, OnlyProc, ExecutedQuietly, Turned;
    if st.CancelOwn? || st.Fail? {
      EndedTurns(w, st, r, q, stage);
    } else {
      StagesAside(w, st, q, stage);
      NothingTurned(w, st, r, ExecutedQuietly(w, st, st.p, q, stage));
    }
  }

  lemma EndedTurns(w: World, st: Step, r: nat, q: nat, stage: Stage)
    requires r < |w.runs| && Acts(w, st) && w.procs[st.p] == Executing(q, stage) && (st.CancelOwn? || st.Fail?)
    ensures Turned(w, st, r, ExecutedQuietly(w, st, st.p, q, stage))
  {
    hide Grows, Sound, SameMoney, OnlyProc;
  }

  lemma StagesAside(w: World, st: Step, q: nat, stage: Stage)
    requires Acts(w, st) && !st.CancelOwn? && !st.Fail?
    ensures ExecutedQuietly(w, st, st.p, q, stage).runs == w.runs
  {
    hide Grows, Sound, SameMoney, OnlyProc;
  }

  lemma UnexecutedTurns(w: World, st: Step, r: nat)
    requires r < |w.runs| && Acts(w, st)
    requires !w.procs[st.p].Executing?
    ensures Turned(w, st, r, Moved(w, st, st.p, w.procs[st.p]))
  {
    hide Grows, Sound, SameMoney, OnlyProc, Executed, Turned;
    match w.procs[st.p] {
      case Holding(_, _, _) => HoldingTurns(w, st, r);
      case Recovering(_) => RecoveringTurns(w, st, r);
      case Expiring(_) => ExpiringTurns(w, st, r);
      case Stopping(_, _, _, _) => StoppingTurns(w, st, r);
      case _ => RestTurns(w, st, r);
    }
  }

  lemma HoldingTurns(w: World, st: Step, r: nat)
    requires r < |w.runs| && Acts(w, st)
    requires w.procs[st.p].Holding?
    ensures Turned(w, st, r, Moved(w, st, st.p, w.procs[st.p]))
  {
    hide Grows, Sound, SameMoney, OnlyProc, Executed;
  }

  lemma RecoveringTurns(w: World, st: Step, r: nat)
    requires r < |w.runs| && Acts(w, st)
    requires w.procs[st.p].Recovering?
    ensures Turned(w, st, r, Moved(w, st, st.p, w.procs[st.p]))
  {
    hide Grows, Sound, SameMoney, OnlyProc, Executed;
  }

  lemma ExpiringTurns(w: World, st: Step, r: nat)
    requires r < |w.runs| && Acts(w, st)
    requires w.procs[st.p].Expiring?
    ensures Turned(w, st, r, Moved(w, st, st.p, w.procs[st.p]))
  {
    hide Grows, Sound, SameMoney, OnlyProc, Executed;
  }

  lemma StoppingTurns(w: World, st: Step, r: nat)
    requires r < |w.runs| && Acts(w, st)
    requires w.procs[st.p].Stopping?
    ensures Turned(w, st, r, Moved(w, st, st.p, w.procs[st.p]))
  {
    hide Grows, Sound, SameMoney, OnlyProc, Executed;
  }

  lemma RestTurns(w: World, st: Step, r: nat)
    requires r < |w.runs| && Acts(w, st)
    requires var proc := w.procs[st.p]; !proc.Executing? && !proc.Holding? && !proc.Recovering? && !proc.Expiring? && !proc.Stopping?
    ensures Turned(w, st, r, Moved(w, st, st.p, w.procs[st.p]))
  {
    hide Grows, Sound, SameMoney, OnlyProc, Executed, Turned, Moved;
    RunsAside(w, st);
    NothingTurned(w, st, r, Moved(w, st, st.p, w.procs[st.p]));
  }

  lemma NothingTurned(w: World, st: Step, r: nat, w': World)
    requires r < |w.runs| && w'.runs == w.runs && !Cancels(w, st, r) && !Fails(w, st, r) && !Completes(w, st, r) && !Takes(w, st, r)
    requires !Charges(w, st, r) && !Settles(w, st, r)
    ensures Turned(w, st, r, w')
  {
  }

  lemma RunsAside(w: World, st: Step)
    requires Acts(w, st)
    requires var proc := w.procs[st.p]; !proc.Executing? && !proc.Holding? && !proc.Recovering? && !proc.Expiring? && !proc.Stopping?
    ensures Moved(w, st, st.p, w.procs[st.p]).runs == w.runs
  {
    hide Grows, Sound, SameMoney, OnlyProc, Executed;
  }

  // ---------------------------------------------------------------- what turns a message

  /** A cancel reaches a message in the outbox or with a run it found open; or its assistant is revoked while it is in the outbox. */
  predicate Marks(w: World, st: Step, m: nat)
    requires m < |w.messages|
  {
    match st
    case Mark(p, k) =>
      k == m && p in w.procs && w.procs[p].Marking? && w.messages[m].sender == w.procs[p].user
        && w.messages[m].conversation == w.procs[p].conversation && (w.messages[m].request || m in w.procs[p].open)
    case RevokeMessage(k) => k == m && w.messages[m].request
    case _ => false
  }

  predicate Unsets(w: World, st: Step, m: nat)
    requires m < |w.messages|
  {
    st.Unset? && st.p in w.procs && w.procs[st.p].Unsetting? && w.procs[st.p].pending != [] && w.procs[st.p].pending[0] == m
  }

  predicate Queues(w: World, st: Step, m: nat)
    requires m < |w.messages|
  {
    st.Queue? && st.p in w.procs && w.procs[st.p].Recovering? && w.procs[st.p].pending != [] && w.procs[st.p].pending[0] == m
      && w.messages[m].complete && w.messages[m].run == None
  }

  /**
   What the step makes of message m: cancelled exactly by a cancel or a revocation, out of the outbox exactly then or
   once it has been queued, and given a run exactly by the insert that finds none.
   */
  predicate Noted(w: World, st: Step, m: nat, w': World)
    requires m < |w.messages|
  {
    && m < |w'.messages|
    && var a, b := w.messages[m], w'.messages[m];
      && b.cancelled == (a.cancelled || Marks(w, st, m)) && b.request == (a.request && !Marks(w, st, m) && !Unsets(w, st, m))
      && b.run == (if Queues(w, st, m) then Some(|w.runs|) else a.run)
      && b.conversation == a.conversation && b.sender == a.sender && b.asked == a.asked && b.complete == a.complete
  }

  lemma MessageTurns(w: World, st: Step, m: nat)
    requires m < |w.messages|
    ensures Noted(w, st, m, Next(w, st))
  {
    hide Grows, Sound, SameMoney, OnlyProc, Moved, Begun, Alone, Noted;
    if OfNobody(st) {
      AloneNotes(w, st, m);
    } else if Acts(w, st) {
      MovedNotes(w, st, m);
    } else {
      NothingNoted(w, st, m, Next(w, st));
    }
  }

  lemma AloneNotes(w: World, st: Step, m: nat)
    requires m < |w.messages| && OfNobody(st)
    ensures Noted(w, st, m, Alone(w, st))
  {
    hide Grows, Sound, SameMoney, OnlyProc;
  }

  lemma NothingNoted(w: World, st: Step, m: nat, w': World)
    requires m < |w.messages| && !OfNobody(st) && w'.messages == w.messages && !Marks(w, st, m) && !Unsets(w, st, m) && !Queues(w, st, m)
    ensures Noted(w, st, m, w')
  {
  }

  lemma MovedNotes(w: World, st: Step, m: nat)
    requires m < |w.messages| && Acts(w, st)
    ensures Noted(w, st, m, Moved(w, st, st.p, w.procs[st.p]))
  {
    hide Grows, Sound, SameMoney, OnlyProc, Noted, TryLock, ClaimRun, ReleaseLock, Executed, ExpireRun, ClearExpired, StopRun,
      QueueRun, SkipPending, UnsetRequest, MarkMessage;
    match w.procs[st.p] {
      case Marking(_, _, _, _, _) => MarkingNotes(w, st, m);
      case Recovering(_) => RecoveringNotes(w, st, m);
      case Unsetting(_) => UnsettingNotes(w, st, m);
      case _ =>
        MessagesAside(w, st);
        NothingNoted(w, st, m, Moved(w, st, st.p, w.procs[st.p]));
    }
  }

  lemma MarkingNotes(w: World, st: Step, m: nat)
    requires m < |w.messages| && Acts(w, st) && w.procs[st.p].Marking?
    ensures Noted(w, st, m, Moved(w, st, st.p, w.procs[st.p]))
  {
    hide Grows, Sound, SameMoney, OnlyProc;
  }

  lemma RecoveringNotes(w: World, st: Step, m: nat)
    requires m < |w.messages| && Acts(w, st) && w.procs[st.p].Recovering?
    ensures Noted(w, st, m, Moved(w, st, st.p, w.procs[st.p]))
  {
    hide Grows, Sound, SameMoney, OnlyProc;
  }

  lemma UnsettingNotes(w: World, st: Step, m: nat)
    requires m < |w.messages| && Acts(w, st) && w.procs[st.p].Unsetting?
    ensures Noted(w, st, m, Moved(w, st, st.p, w.procs[st.p]))
  {
    hide Grows, Sound, SameMoney, OnlyProc;
  }

  lemma MessagesAside(w: World, st: Step)
    requires Acts(w, st) && !w.procs[st.p].Marking? && !w.procs[st.p].Recovering? && !w.procs[st.p].Unsetting?
    ensures Moved(w, st, st.p, w.procs[st.p]).messages == w.messages
  {
    hide Grows, Sound, SameMoney, OnlyProc, Executed;
    if w.procs[st.p].Executing? { ExecutedAside(w, st, w.procs[st.p].run, w.procs[st.p].stage); }
  }

  // ---------------------------------------------------------------- what turns a lock

  /** A worker whose candidate is of this conversation finds it untried and its lock free or expired. */
  predicate Locks(w: World, st: Step, c: Id) {
    st.TakeLock? && st.p in w.procs && w.procs[st.p].Claiming? && w.procs[st.p].at < |w.procs[st.p].candidates|
      && w.procs[st.p].candidates[w.procs[st.p].at] < |w.runs| && w.runs[w.procs[st.p].candidates[w.procs[st.p].at]].conversation == c
      && c !in w.procs[st.p].skipped && (c in w.locks ==> w.locks[c].until < w.now)
  }

  /** Run r is done with its conversation: given up before it started, executed, or expired. */
  predicate LetsGo(w: World, st: Step, r: nat) {
    match st
    case Release(p) =>
      p in w.procs && w.procs[p].Releasing? && w.procs[p].at < |w.procs[p].candidates| && w.procs[p].candidates[w.procs[p].at] == r
    case Leave(p) => StandsAt(w, p, Executing(r, Leaving))
    case ClearLock(p) => p in w.procs && w.procs[p].Clearing? && w.procs[p].found != [] && w.procs[p].found[0] == r
    case _ => false
  }

  /** The lock of conversation c after the step: taken for five minutes, let go by the run that it names, or as it was. */
  predicate LockedAfter(w: World, st: Step, c: Id, locks: map<Id, Lock>) {
    if Locks(w, st, c) then
      c in locks && locks[c] == Lock(w.now + 300000, w.procs[st.p].candidates[w.procs[st.p].at])
    else if c in w.locks && w.locks[c].run < |w.runs| && w.runs[w.locks[c].run].conversation == c && LetsGo(w, st, w.locks[c].run) then
      c !in locks
    else (c in locks <==> c in w.locks) && (c in locks ==> locks[c] == w.locks[c])
  }

  lemma LockTurns(w: World, st: Step, c: Id)
    ensures LockedAfter(w, st, c, Next(w, st).locks)
  {
    hide Grows, Sound, SameMoney, OnlyProc, Moved, Begun, Alone, LockedAfter;
    if Acts(w, st) {
      MovedLocks(w, st, c);
    } else {
      LocksAside(w, st, c);
    }
  }

  lemma LocksAside(w: World, st: Step, c: Id)
    requires !Acts(w, st)
    ensures LockedAfter(w, st, c, Next(w, st).locks)
  {
    hide Grows, Sound, SameMoney, OnlyProc, Moved, Begun;
  }

  lemma MovedLocks(w: World, st: Step, c: Id)
    requires Acts(w, st)
    ensures LockedAfter(w, st, c, Moved(w, st, st.p, w.procs[st.p]).locks)
  {
    hide Grows, Sound, SameMoney, OnlyProc, LockedAfter, TryLock, ClaimRun, ReleaseLock, Executed, ExpireRun, ClearExpired, StopRun,
      QueueRun, SkipPending, UnsetRequest, MarkMessage;
    var proc := w.procs[st.p];
    if proc.Claiming? || proc.Releasing? || proc.Clearing? { ClaimLocks(w, st, c); }
    else if proc.Executing? { ExecutedLocks(w, st, c); }
    else { OtherLocks(w, st, c); }
  }

  lemma ClaimLocks(w: World, st: Step, c: Id)
    requires Acts(w, st) && (w.procs[st.p].Claiming? || w.procs[st.p].Releasing? || w.procs[st.p].Clearing?)
    ensures LockedAfter(w, st, c, Moved(w, st, st.p, w.procs[st.p]).locks)
  {
    hide Grows, Sound, SameMoney, OnlyProc;
  }

  lemma ExecutedLocks(w: World, st: Step, c: Id)
    requires Acts(w, st) && w.procs[st.p].Executing?
    ensures LockedAfter(w, st, c, Moved(w, st, st.p, w.procs[st.p]).locks)
  {
    hide Grows, Sound, SameMoney, OnlyProc, Executed;
    if st.Leave? {
      LeavingLocks(w, st, c, w.procs[st.p].run, w.procs[st.p].stage);
    } else {
      ExecutedAside(w, st, w.procs[st.p].run, w.procs[st.p].stage);
    }
  }

  lemma LeavingLocks(w: World, st: Step, c: Id, r: nat, stage: Stage)
    requires Acts(w, st) && st.Leave? && w.procs[st.p] == Executing(r, stage)
    ensures LockedAfter(w, st, c, Executed(w, st, st.p, r, stage).locks)
  {
    hide Grows, Sound, SameMoney, OnlyProc;
  }

  /** An execution touches no message, and no lock before it leaves. */
  lemma ExecutedAside(w: World, st: Step, r: nat, stage: Stage)
    requires Acts(w, st) && w.procs[st.p] == Executing(r, stage)
    ensures Executed(w, st, st.p, r, stage).messages == w.messages
    ensures !st.Leave? ==> Executed(w, st, st.p, r, stage).locks == w.locks
  {
    hide Grows, Sound, SameMoney, OnlyProc, ExecutedQuietly;
    QuietlyAside(w, st, r, stage);
  }

  lemma QuietlyAside(w: World, st: Step, r: nat, stage: Stage)
    requires Acts(w, st)
    ensures ExecutedQuietly(w, st, st.p, r, stage).messages == w.messages
    ensures !st.Leave? ==> ExecutedQuietly(w, st, st.p, r, stage).locks == w.locks
  {
    hide Grows, Sound, SameMoney, OnlyProc;
  }

  lemma OtherLocks(w: World, st: Step, c: Id)
    requires Acts(w, st)
    requires var proc := w.procs[st.p]; !proc.Claiming? && !proc.Releasing? && !proc.Clearing? && !proc.Executing?
    ensures LockedAfter(w, st, c, Moved(w, st, st.p, w.procs[st.p]).locks)
  {
    hide Grows, Sound, SameMoney, OnlyProc, Executed, Moved;
    OthersKeepLocks(w, st);
  }

  lemma OthersKeepLocks(w: World, st: Step)
    requires Acts(w, st)
    requires var proc := w.procs[st.p]; !proc.Claiming? && !proc.Releasing? && !proc.Clearing? && !proc.Executing?
    ensures Moved(w, st, st.p, w.procs[st.p]).locks == w.locks
  {
    hide Grows, Sound, SameMoney, OnlyProc, Executed;
  }

  // ---------------------------------------------------------------- undisturbed

  /** A run claimed and not yet begun, for a question that is there. */
  predicate Claimed(w: World, p: Id, r: nat) {
    StandsAt(w, p, Executing(r, Fresh)) && r < |w.runs| && w.runs[r].phase == Running && w.runs[r].message < |w.messages|
  }

  /** The calls of an execution that ends with an answer. */
  function Answering(p: Id, limit: int, input: nat, output: nat): seq<Step> {
    [Guard(p), ReadTrigger(p), ReadSettings(p, limit), ReadDay(p), Reserve(p), Answer(p, input, output), Complete(p), Settle(p), Leave(p)]
  }

  /** The world with its executor at this stage. */
  function Staged(w: World, p: Id, r: nat, stage: Stage): World {
    w.(procs := w.procs[p := Executing(r, stage)])
  }

  /** Run r as it is after it has been charged, completed and settled, with this much reserved. */
  function Paid(w: World, r: nat, run: Run, reserved: int, limit: int): World
    requires r < |w.runs|
  {
    var key := (w.runs[r].user, w.now / 86400000);
    w.(runs := w.runs[r := run], budgets := w.budgets[key := Budget(reserved, Max(Ceiling(w, key.0, key.1), limit))])
  }

  function Freed(w: World, p: Id, r: nat): World
    requires r < |w.runs|
  {
    var c := w.runs[r].conversation;
    w.(procs := w.procs - {p}, locks := if c in w.locks && w.locks[c].run == r then w.locks - {c} else w.locks)
  }

  /** The world after the first k calls of an execution that ends with an answer. */
  function Answered(w: World, p: Id, r: nat, limit: int, input: nat, output: nat, k: nat): World
    requires r < |w.runs|
  {
    var run, day := w.runs[r], w.now / 86400000;
    var reserved := Reserved(w, run.user, day);
    var charged := run.(charged := Some(day));
    var completed := charged.(phase := Completed, input := input, output := output);
    if k == 0 then w
    else if k == 1 then Staged(w, p, r, Guarded)
    else if k == 2 then Staged(w, p, r, Triggered)
    else if k == 3 then Staged(w, p, r, Limited(limit))
    else if k == 4 then Staged(w, p, r, Priced(limit, day))
    else if k == 5 then Staged(Paid(w, r, charged, reserved + 160000, limit), p, r, Stage.Charged(day))
    else if k == 6 then Staged(Paid(w, r, charged, reserved + 160000, limit), p, r, Stage.Answered(day, input, output))
    else if k == 7 then Staged(Paid(w, r, completed, reserved + 160000, limit), p, r, Finished(day, input, output))
    else
      var settled := Paid(w, r, completed.(settled := true), reserved + input + output, limit);
      if k == 8 then Staged(settled, p, r, Leaving) else Freed(settled, p, r)
  }

  /** Nothing stands in the way of the answer. */
  predicate Unhindered(w: World, r: nat, limit: int, input: nat, output: nat)
    requires r < |w.runs| && w.runs[r].message < |w.messages|
  {
    && !w.messages[w.runs[r].message].cancelled && input + output <= 160000
    && Reserved(w, w.runs[r].user, w.now / 86400000) + 160000 <= limit
  }

  lemma NextExecuted(w: World, st: Step, p: Id, r: nat, stage: Stage)
    requires Acts(w, st) && st.p == p && w.procs[p] == Executing(r, stage)
    ensures Next(w, st) == Executed(w, st, p, r, stage)
  {
    hide Grows, Sound, SameMoney, OnlyProc, Executed, Begun, Alone;
  }

  lemma ReadingLeads(w: World, p: Id, r: nat, limit: int, input: nat, output: nat, k: nat)
    requires Claimed(w, p, r) && Unhindered(w, r, limit, input, output) && k < 4
    ensures Next(Answered(w, p, r, limit, input, output, k), Answering(p, limit, input, output)[k]) == Answered(w, p, r, limit, input, output, k + 1)
  {
    hide Grows, Sound, SameMoney, OnlyProc, Next, Paid, Freed;
    var v := Answered(w, p, r, limit, input, output, k);
    NextExecuted(v, Answering(p, limit, input, output)[k], p, r, v.procs[p].stage);
  }

  lemma ReservingLeads(w: World, p: Id, r: nat, limit: int, input: nat, output: nat)
    requires Claimed(w, p, r) && Unhindered(w, r, limit, input, output)
    ensures Next(Answered(w, p, r, limit, input, output, 4), Reserve(p)) == Answered(w, p, r, limit, input, output, 5)
  {
    hide Grows, Sound, SameMoney, OnlyProc, Next, ExecutedQuietly, Freed;
    var v := Answered(w, p, r, limit, input, output, 4);
    NextExecuted(v, Reserve(p), p, r, v.procs[p].stage);
  }

  lemma ReplyingLeads(w: World, p: Id, r: nat, limit: int, input: nat, output: nat)
    requires Claimed(w, p, r) && Unhindered(w, r, limit, input, output)
    ensures Next(Answered(w, p, r, limit, input, output, 5), Answer(p, input, output)) == Answered(w, p, r, limit, input, output, 6)
  {
    hide Grows, Sound, SameMoney, OnlyProc, Next, Paid, Freed;
    var v := Answered(w, p, r, limit, input, output, 5);
    NextExecuted(v, Answer(p, input, output), p, r, v.procs[p].stage);
  }

  lemma CompletingLeads(w: World, p: Id, r: nat, limit: int, input: nat, output: nat)
    requires Claimed(w, p, r) && Unhindered(w, r, limit, input, output)
    ensures Next(Answered(w, p, r, limit, input, output, 6), Complete(p)) == Answered(w, p, r, limit, input, output, 7)
  {
    hide Grows, Sound, SameMoney, OnlyProc, Next, ExecutedQuietly, Freed;
    var v := Answered(w, p, r, limit, input, output, 6);
    NextExecuted(v, Complete(p), p, r, v.procs[p].stage);
  }

  lemma SettlingLeads(w: World, p: Id, r: nat, limit: int, input: nat, output: nat)
    requires Claimed(w, p, r) && Unhindered(w, r, limit, input, output)
    ensures Next(Answered(w, p, r, limit, input, output, 7), Settle(p)) == Answered(w, p, r, limit, input, output, 8)
  {
    hide Grows, Sound, SameMoney, OnlyProc, Next, ExecutedQuietly, Freed;
    var v := Answered(w, p, r, limit, input, output, 7);
    NextExecuted(v, Settle(p), p, r, v.procs[p].stage);
  }

  lemma LeavingLeads(w: World, p: Id, r: nat, limit: int, input: nat, output: nat)
    requires Claimed(w, p, r) && Unhindered(w, r, limit, input, output)
    ensures Next(Answered(w, p, r, limit, input, output, 8), Leave(p)) == Answered(w, p, r, limit, input, output, 9)
  {
    hide Grows, Sound, SameMoney, OnlyProc, Next;
    var v := Answered(w, p, r, limit, input, output, 8);
    NextExecuted(v, Leave(p), p, r, v.procs[p].stage);
  }

  /**
   Undisturbed, a claimed run whose trigger is not cancelled and whose day has room for a reservation is answered:
   it is completed and settled with the tokens given, exactly those are added to what its day has reserved, its
   conversation is let go if it is the run's, and nothing else has changed.
   */
  lemma AnsweredAlone(w: World, p: Id, r: nat, limit: int, input: nat, output: nat)
    requires Claimed(w, p, r) && Unhindered(w, r, limit, input, output)
    ensures var run, day := w.runs[r], w.now / 86400000;
      var w' := After(Next, w, Answering(p, limit, input, output));
      && w'.runs == w.runs[r := run.(phase := Completed, input := input, output := output, charged := Some(day), settled := true)]
      && (forall user: Id, d: nat :: Reserved(w', user, d) ==
            Reserved(w, user, d) + if user == run.user && d == day then input + output else 0)
      && w'.procs == w.procs - {p} && w'.messages == w.messages && w'.now == w.now
      && w'.locks == if run.conversation in w.locks && w.locks[run.conversation].run == r then w.locks - {run.conversation} else w.locks
  {
    hide Next, Grows, Sound, AllKnow;
    AnsweringEnds(w, p, r, limit, input, output);
  }

  lemma AnsweringEnds(w: World, p: Id, r: nat, limit: int, input: nat, output: nat)
    requires Claimed(w, p, r) && Unhindered(w, r, limit, input, output)
    ensures After(Next, w, Answering(p, limit, input, output)) == Answered(w, p, r, limit, input, output, 9)
  {
    hide Next, Answered, Claimed, Unhindered, Grows, Sound, AllKnow;
    ClaimedIsThere(w, p, r);
    var steps := Answering(p, limit, input, output);
    var scene := (k: nat) => Answered(w, p, r, limit, input, output, k);
    forall k: nat | k < |steps| ensures Next(scene(k), steps[k]) == scene(k + 1) {
      AnsweringLeads(w, p, r, limit, input, output, k);
    }
    Follows(Next, scene, steps);
    AnsweredFirst(w, p, r, limit, input, output);
  }

  lemma ClaimedIsThere(w: World, p: Id, r: nat)
    requires Claimed(w, p, r)
    ensures r < |w.runs| && w.runs[r].message < |w.messages|
  {
  }

  lemma AnsweredFirst(w: World, p: Id, r: nat, limit: int, input: nat, output: nat)
    requires r < |w.runs|
    ensures Answered(w, p, r, limit, input, output, 0) == w
  {
  }

  lemma AnsweringLeads(w: World, p: Id, r: nat, limit: int, input: nat, output: nat, k: nat)
    requires Claimed(w, p, r) && Unhindered(w, r, limit, input, output) && k < 9
    ensures Next(Answered(w, p, r, limit, input, output, k), Answering(p, limit, input, output)[k]) == Answered(w, p, r, limit, input, output, k + 1)
  {
    hide Next, Answered, Claimed, Unhindered;
    if k < 4 {
      ReadingLeads(w, p, r, limit, input, output, k);
    } else if k == 4 {
      ReservingLeads(w, p, r, limit, input, output);
    } else if k == 5 {
      ReplyingLeads(w, p, r, limit, input, output);
    } else if k == 6 {
      CompletingLeads(w, p, r, limit, input, output);
    } else if k == 7 {
      SettlingLeads(w, p, r, limit, input, output);
    } else {
      LeavingLeads(w, p, r, limit, input, output);
    }
  }

  /** The calls of an execution that is turned away: its trigger was cancelled, or its day has no room left. */
  function TurningAway(p: Id, cancelled: bool, limit: int): seq<Step> {
    (if cancelled then [Guard(p), ReadTrigger(p), CancelOwn(p)]
     else [Guard(p), ReadTrigger(p), ReadSettings(p, limit), ReadDay(p), Reserve(p)]) + [Fail(p), Leave(p)]
  }

  /** The world after the first k of them. */
  function TurnedAway(w: World, p: Id, r: nat, cancelled: bool, limit: int, k: nat): World
    requires r < |w.runs|
  {
    var over := w.(runs := w.runs[r := w.runs[r].(phase := if cancelled then Cancelled else Failed)]);
    if k == 0 then w
    else if k == 1 then Staged(w, p, r, Guarded)
    else if cancelled then
      if k == 2 then Staged(w, p, r, Refusing)
      else if k == 3 then Staged(over, p, r, Failing)
      else if k == 4 then Staged(over, p, r, Leaving)
      else Freed(over, p, r)
    else if k == 2 then Staged(w, p, r, Triggered)
    else if k == 3 then Staged(w, p, r, Limited(limit))
    else if k == 4 then Staged(w, p, r, Priced(limit, w.now / 86400000))
    else if k == 5 then Staged(w, p, r, Failing)
    else if k == 6 then Staged(over, p, r, Leaving)
    else Freed(over, p, r)
  }

  /** What turns it away. */
  predicate Hindered(w: World, r: nat, cancelled: bool, limit: int)
    requires r < |w.runs| && w.runs[r].message < |w.messages|
  {
    && (cancelled <==> w.messages[w.runs[r].message].cancelled)
    && (!cancelled ==> Reserved(w, w.runs[r].user, w.now / 86400000) + 160000 > limit)
  }

  lemma TurningAwayLeads(w: World, p: Id, r: nat, cancelled: bool, limit: int, k: nat)
    requires Claimed(w, p, r) && Hindered(w, r, cancelled, limit) && k + 1 < |TurningAway(p, cancelled, limit)|
    ensures Next(TurnedAway(w, p, r, cancelled, limit, k), TurningAway(p, cancelled, limit)[k]) == TurnedAway(w, p, r, cancelled, limit, k + 1)
  {
    hide Next, TurnedAway;
    if cancelled {
      CancelledLeads(w, p, r, limit, k);
    } else {
      NoRoomLeads(w, p, r, limit, k);
    }
  }

  lemma CancelledLeads(w: World, p: Id, r: nat, limit: int, k: nat)
    requires Claimed(w, p, r) && Hindered(w, r, true, limit) && k < 4
    ensures Next(TurnedAway(w, p, r, true, limit, k), TurningAway(p, true, limit)[k]) == TurnedAway(w, p, r, true, limit, k + 1)
  {
    hide Grows, Sound, SameMoney, OnlyProc, Next, Freed;
    var v := TurnedAway(w, p, r, true, limit, k);
    NextExecuted(v, TurningAway(p, true, limit)[k], p, r, v.procs[p].stage);
  }

  lemma NoRoomLeads(w: World, p: Id, r: nat, limit: int, k: nat)
    requires Claimed(w, p, r) && Hindered(w, r, false, limit) && k < 6
    ensures Next(TurnedAway(w, p, r, false, limit, k), TurningAway(p, false, limit)[k]) == TurnedAway(w, p, r, false, limit, k + 1)
  {
    hide Grows, Sound, SameMoney, OnlyProc, Next, Freed;
    var v := TurnedAway(w, p, r, false, limit, k);
    NextExecuted(v, TurningAway(p, false, limit)[k], p, r, v.procs[p].stage);
  }

  lemma LeavingAway(w: World, p: Id, r: nat, cancelled: bool, limit: int, k: nat)
    requires Claimed(w, p, r) && k + 1 == |TurningAway(p, cancelled, limit)|
    ensures Next(TurnedAway(w, p, r, cancelled, limit, k), TurningAway(p, cancelled, limit)[k]) == TurnedAway(w, p, r, cancelled, limit, k + 1)
  {
    hide Grows, Sound, SameMoney, OnlyProc, Next;
    var v := TurnedAway(w, p, r, cancelled, limit, k);
    NextExecuted(v, Leave(p), p, r, v.procs[p].stage);
  }

  /**
   Undisturbed, a claimed run is turned away if its trigger is cancelled, and ends `cancelled`, or if its day has no
   room for a reservation, and ends `failed`; either way nothing is charged.
   */
  lemma TurnedAwayAlone(w: World, p: Id, r: nat, cancelled: bool, limit: int)
    requires Claimed(w, p, r) && Hindered(w, r, cancelled, limit)
    ensures var run, w' := w.runs[r], After(Next, w, TurningAway(p, cancelled, limit));
      && w'.runs == w.runs[r := run.(phase := if cancelled then Cancelled else Failed)]
      && w'.budgets == w.budgets && w'.procs == w.procs - {p} && w'.messages == w.messages && w'.now == w.now
      && w'.locks == if run.conversation in w.locks && w.locks[run.conversation].run == r then w.locks - {run.conversation} else w.locks
  {
    hide Next, Grows, Sound, AllKnow;
    TurningAwayEnds(w, p, r, cancelled, limit);
  }

  lemma TurningAwayEnds(w: World, p: Id, r: nat, cancelled: bool, limit: int)
    requires Claimed(w, p, r) && Hindered(w, r, cancelled, limit)
    ensures After(Next, w, TurningAway(p, cancelled, limit)) == TurnedAway(w, p, r, cancelled, limit, if cancelled then 5 else 7)
  {
    hide Next, TurnedAway, Claimed, Hindered, Grows, Sound, AllKnow;
    ClaimedIsThere(w, p, r);
    var steps := TurningAway(p, cancelled, limit);
    var scene := (k: nat) => TurnedAway(w, p, r, cancelled, limit, k);
    forall k: nat | k < |steps| ensures Next(scene(k), steps[k]) == scene(k + 1) {
      if k + 1 < |steps| {
        TurningAwayLeads(w, p, r, cancelled, limit, k);
      } else {
        LeavingAway(w, p, r, cancelled, limit, k);
      }
    }
    Follows(Next, scene, steps);
    TurnedAwayFirst(w, p, r, cancelled, limit);
  }

  lemma TurnedAwayFirst(w: World, p: Id, r: nat, cancelled: bool, limit: int)
    requires r < |w.runs|
    ensures TurnedAway(w, p, r, cancelled, limit, 0) == w
  {
  }

  /** The conversation of run r may be locked. */
  predicate MayLock(w: World, r: nat)
    requires r < |w.runs|
  {
    w.runs[r].conversation in w.locks ==> w.locks[w.runs[r].conversation].until < w.now
  }

  /**
   Undisturbed, a worker starts the oldest queued run exactly when its conversation is free or its lock expired, under
   a lock and a lease of five minutes; otherwise it passes the conversation over and changes nothing.
   */
  lemma ClaimedAlone(w: World, p: Id, candidates: seq<nat>)
    requires p !in w.procs && OldestQueued(w, candidates) && candidates != []
    ensures var r := candidates[0]; var run := w.runs[r];
      MayLock(w, r) ==>
        After(Next, w, [BeginClaim(p, candidates), TakeLock(p), TakeRun(p)])
          == w.(runs := w.runs[r := run.(phase := Running, lease := w.now + 300000, attempt := run.attempt + 1)],
                locks := w.locks[run.conversation := Lock(w.now + 300000, r)], procs := w.procs[p := Executing(r, Fresh)])
    ensures var r := candidates[0];
      !MayLock(w, r) ==>
        After(Next, w, [BeginClaim(p, candidates), TakeLock(p)]) == w.(procs := w.procs[p := Claiming(candidates, 1, {w.runs[r].conversation})])
  {
    hide Next, OldestQueued;
    OldestIsQueued(w, candidates);
    FindsQueued(w, p, candidates);
    LocksFound(w, p, candidates);
    AfterTwo(Next, w, BeginClaim(p, candidates), TakeLock(p));
    AfterThree(Next, w, BeginClaim(p, candidates), TakeLock(p), TakeRun(p));
    StartsLocked(w, p, candidates);
  }

  lemma OldestIsQueued(w: World, candidates: seq<nat>)
    requires OldestQueued(w, candidates) && candidates != []
    ensures candidates[0] < |w.runs| && w.runs[candidates[0]].phase == Queued
  {
  }

  lemma FindsQueued(w: World, p: Id, candidates: seq<nat>)
    requires p !in w.procs && OldestQueued(w, candidates)
    ensures Next(w, BeginClaim(p, candidates)) == w.(procs := w.procs[p := Claiming(candidates, 0, {})])
  {
    hide Grows, Sound, SameMoney, OnlyProc, Moved, Alone;
  }

  lemma LocksFound(w: World, p: Id, candidates: seq<nat>)
    requires candidates != [] && candidates[0] < |w.runs|
    ensures var r := candidates[0]; var c := w.runs[r].conversation;
      Next(w.(procs := w.procs[p := Claiming(candidates, 0, {})]), TakeLock(p))
        == if MayLock(w, r) then
             w.(locks := w.locks[c := Lock(w.now + 300000, r)], procs := w.procs[p := Holding(candidates, 0, {c})])
           else w.(procs := w.procs[p := Claiming(candidates, 1, {c})])
  {
    hide Grows, Sound, SameMoney, OnlyProc;
    var none: set<Id> := {};
    assert none + {w.runs[candidates[0]].conversation} == {w.runs[candidates[0]].conversation};
  }

  lemma StartsLocked(w: World, p: Id, candidates: seq<nat>)
    requires candidates != [] && candidates[0] < |w.runs| && w.runs[candidates[0]].phase == Queued
    ensures var r := candidates[0]; var run := w.runs[r]; var locks := w.locks[run.conversation := Lock(w.now + 300000, r)];
      Next(w.(locks := locks, procs := w.procs[p := Holding(candidates, 0, {run.conversation})]), TakeRun(p))
        == w.(runs := w.runs[r := run.(phase := Running, lease := w.now + 300000, attempt := run.attempt + 1)],
              locks := locks, procs := w.procs[p := Executing(r, Fresh)])
  {
    hide Grows, Sound, SameMoney, OnlyProc;
  }

  /** The calls that bring a question from its sender to the queue. */
  function Asking(p: Id, conversation: Id, sender: Id, m: nat): seq<Step> {
    [Store(conversation, sender, true, true), BeginRecovery(p, [m]), Queue(p), Unset(p), Skip(p)]
  }

  /** The world after the first k of them. */
  function Asked(w: World, p: Id, conversation: Id, sender: Id, k: nat): World {
    var m := |w.messages|;
    var stored := Message(conversation, sender, true, true, true, false, None);
    var queued := stored.(run := Some(|w.runs|));
    var runs := w.runs + [Run(m, conversation, sender, w.now, Queued, 0, 0, 0, 0, None, false)];
    if k == 0 then w
    else if k == 1 then w.(messages := w.messages + [stored])
    else if k == 2 then w.(messages := w.messages + [stored], procs := w.procs[p := Recovering([m])])
    else if k == 3 then w.(messages := w.messages + [queued], runs := runs, procs := w.procs[p := Unsetting([m])])
    else
      var out := w.(messages := w.messages + [queued.(request := false)], runs := runs);
      if k == 4 then out.(procs := w.procs[p := Recovering([])]) else out
  }

  lemma AskingLeads(w: World, p: Id, conversation: Id, sender: Id, k: nat)
    requires p !in w.procs && k < 5
    ensures Next(Asked(w, p, conversation, sender, k), Asking(p, conversation, sender, |w.messages|)[k]) == Asked(w, p, conversation, sender, k + 1)
  {
    hide Next, Asked;
    if k < 2 {
      StoredLeads(w, p, conversation, sender, k);
    } else if k == 2 {
      QueuedLeads(w, p, conversation, sender);
    } else {
      UnsetLeads(w, p, conversation, sender, k);
    }
  }

  lemma StoredLeads(w: World, p: Id, conversation: Id, sender: Id, k: nat)
    requires p !in w.procs && k < 2
    ensures Next(Asked(w, p, conversation, sender, k), Asking(p, conversation, sender, |w.messages|)[k]) == Asked(w, p, conversation, sender, k + 1)
  {
    hide Grows, Sound, SameMoney, OnlyProc, Moved;
  }

  lemma QueuedLeads(w: World, p: Id, conversation: Id, sender: Id)
    requires p !in w.procs
    ensures Next(Asked(w, p, conversation, sender, 2), Queue(p)) == Asked(w, p, conversation, sender, 3)
  {
    hide Grows, Sound, SameMoney, OnlyProc, Begun, Alone;
  }

  lemma UnsetLeads(w: World, p: Id, conversation: Id, sender: Id, k: nat)
    requires p !in w.procs && 3 <= k < 5
    ensures Next(Asked(w, p, conversation, sender, k), Asking(p, conversation, sender, |w.messages|)[k]) == Asked(w, p, conversation, sender, k + 1)
  {
    hide Grows, Sound, SameMoney, OnlyProc, Begun, Alone;
    assert [|w.messages|][1..] == [];
  }

  /**
   Undisturbed, a question that is stored comes into the queue: one run of it, for its sender in its conversation,
   queued now with nothing used, and the question out of the outbox.
   */
  lemma QueuedAlone(w: World, p: Id, conversation: Id, sender: Id)
    requires p !in w.procs
    ensures var m := |w.messages|; var w' := After(Next, w, Asking(p, conversation, sender, m));
      && w'.messages == w.messages + [Message(conversation, sender, true, true, false, false, Some(|w.runs|))]
      && w'.runs == w.runs + [Run(m, conversation, sender, w.now, Queued, 0, 0, 0, 0, None, false)]
      && w'.procs == w.procs && w'.locks == w.locks && w'.budgets == w.budgets && w'.now == w.now
  {
    hide Next, Grows, Sound, AllKnow;
    AskingEnds(w, p, conversation, sender);
  }

  lemma AskingEnds(w: World, p: Id, conversation: Id, sender: Id)
    requires p !in w.procs
    ensures After(Next, w, Asking(p, conversation, sender, |w.messages|)) == Asked(w, p, conversation, sender, 5)
  {
    hide Next, Asked, Grows, Sound, AllKnow;
    var steps := Asking(p, conversation, sender, |w.messages|);
    var scene := (k: nat) => Asked(w, p, conversation, sender, k);
    forall k: nat | k < |steps| ensures Next(scene(k), steps[k]) == scene(k + 1) { AskingLeads(w, p, conversation, sender, k); }
    Follows(Next, scene, steps);
    AskedFirst(w, p, conversation, sender);
  }

  lemma AskedFirst(w: World, p: Id, conversation: Id, sender: Id)
    ensures Asked(w, p, conversation, sender, 0) == w
  {
  }
}
