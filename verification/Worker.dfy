/**
 The procedures of the chat worker and of `cancelRuns` as they are written: calls on the database, one
 after the other, with every other process free to run between any two of them (`Interfere`). Each
 procedure is a path of the state machine of `Runs`, and each promises what it is for.
 */
module Worker {
  import opened Common
  import opened Machine
  import Analyst
  import opened Runs
  import opened RunInvariants
  import opened RunGuarantees

  /** The step is taken by process p. */
  predicate By(st: Step, p: Id) {
    match st
    case Tick(_) => false
    case Store(_, _, _, _) => false
    case RevokeMessage(_) => false
    case RevokeRun(_) => false
    case _ => st.p == p
  }

  /** p stands in b where it stood in a. */
  ghost predicate SamePlace(a: World, b: World, p: Id) {
    (p in b.procs <==> p in a.procs) && (p in a.procs ==> b.procs[p] == a.procs[p])
  }

  ghost predicate Beside(a: World, b: World, p: Id) {
    Inv(a) ==> Inv(b) && Grows(a, b) && SamePlace(a, b, p)
  }

  lemma StepBeside(w: World, st: Step, p: Id)
    requires !By(st, p)
    ensures Beside(w, Next(w, st), p)
  {
    hide Moved, Begun, Alone, Sound, Grows, SameMoney, Inv;
    if Inv(w) { InvNext(w, st); }
  }

  lemma RunsBeside(a: World, b: World, p: Id)
    requires Reaches(Next, (st: Step) => !By(st, p), a, b)
    ensures Beside(a, b, p)
  {
    hide Next, Inv, Grows, By;
    var others := (st: Step) => !By(st, p);
    var rel := (x: World, y: World) => Beside(x, y, p);
    var steps: seq<Step> :| (forall st | st in steps :: others(st)) && b == After(Next, a, steps);
    GrowsByItself(a);
    forall x, y, z | rel(x, y) && rel(y, z) ensures rel(x, z) {
      if Inv(x) { GrowsOn(x, y, z); }
    }
    forall v, st | others(st) ensures rel(v, Next(v, st)) { StepBeside(v, st, p); }
    Related(Next, others, rel, a, steps);
  }

  /** w comes after start, with all that every step keeps. */
  ghost predicate Since(start: World, w: World) {
    Inv(w) && Grows(start, w)
  }

  lemma SinceItself(w: World)
    requires Inv(w)
    ensures Since(w, w)
  {
  }

  lemma SinceStep(start: World, w: World, st: Step)
    requires Since(start, w)
    ensures Since(start, Next(w, st))
  {
    hide Next, Inv;
    InvNext(w, st);
    GrowsOn(start, w, Next(w, st));
  }

  lemma SinceBeside(start: World, a: World, b: World, p: Id)
    requires Since(start, a) && Reaches(Next, (st: Step) => !By(st, p), a, b)
    ensures Since(start, b) && SamePlace(a, b, p) && Grows(a, b)
  {
    hide Inv, Next;
    RunsBeside(a, b, p);
    GrowsOn(start, a, b);
  }

  /** Every message of the set was sent by this user in this conversation. */
  predicate AllSent(messages: seq<Message>, user: Id, conversation: Id, todo: set<nat>) {
    forall m | m in todo :: m < |messages| && messages[m].sender == user && messages[m].conversation == conversation
  }

  predicate AllRunBy(runs: seq<Run>, user: Id, conversation: Id, todo: set<nat>) {
    forall r | r in todo :: r < |runs| && runs[r].user == user && runs[r].conversation == conversation
  }

  lemma SentStay(a: World, b: World, user: Id, conversation: Id, todo: set<nat>)
    requires Grows(a, b) && AllSent(a.messages, user, conversation, todo)
    ensures AllSent(b.messages, user, conversation, todo)
  {
  }

  lemma RunsStay(a: World, b: World, user: Id, conversation: Id, todo: set<nat>)
    requires Grows(a, b) && AllRunBy(a.runs, user, conversation, todo)
    ensures AllRunBy(b.runs, user, conversation, todo)
  {
  }

  /** What a cancel makes of a run that it finds at this phase. */
  function StoppedFrom(phase: Phase): Phase {
    if phase == Queued || phase == Running then Cancelled else phase
  }

  /** Each run this user had in the conversation at the start has been reached or is left; those reached stand as they were stopped. */
  ghost predicate AllReached(start: World, w: World, user: Id, conversation: Id, reached: map<nat, Phase>, left: set<nat>) {
    && (forall r: nat | r < |start.runs| && start.runs[r].user == user && start.runs[r].conversation == conversation :: r in reached || r in left)
    && (forall r | r in reached ::
          && r < |w.runs| && w.runs[r].phase == StoppedFrom(reached[r])
          && (r < |start.runs| ==> Moves(start.runs[r].phase, reached[r])))
  }

  lemma NoneReached(start: World, w: World, user: Id, conversation: Id, left: set<nat>)
    requires Grows(start, w)
    requires forall r: nat | r < |w.runs| && w.runs[r].user == user && w.runs[r].conversation == conversation :: r in left
    ensures AllReached(start, w, user, conversation, map[], left)
  {
    assert forall r: nat | r < |start.runs| :: SameRun(start.runs[r], w.runs[r]);
  }

  lemma ReachedStay(start: World, a: World, b: World, user: Id, conversation: Id, reached: map<nat, Phase>, left: set<nat>)
    requires Grows(a, b) && AllReached(start, a, user, conversation, reached, left)
    ensures AllReached(start, b, user, conversation, reached, left)
  {
    assert forall r: nat | r < |a.runs| :: SameRun(a.runs[r], b.runs[r]);
  }

  lemma SameRunsReached(start: World, a: World, b: World, user: Id, conversation: Id, reached: map<nat, Phase>)
    requires b.runs == a.runs && AllReached(start, a, user, conversation, reached, {})
    ensures AllReached(start, b, user, conversation, reached, {})
  {
  }

  lemma ReachedOne(start: World, a: World, b: World, user: Id, conversation: Id, reached: map<nat, Phase>, left: set<nat>, r: nat)
    requires Grows(start, a) && AllReached(start, a, user, conversation, reached, left) && r < |a.runs|
    requires b.runs == a.runs[r := a.runs[r].(phase := StoppedFrom(a.runs[r].phase))]
    ensures AllReached(start, b, user, conversation, reached[r := a.runs[r].phase], left - {r})
  {
    if r < |start.runs| { assert SameRun(start.runs[r], a.runs[r]); }
  }

  /** What a `cancelRuns` that is done covered is cancelled or over, and stays uncompleted for good. */
  lemma CancelledForGood(start: World, w: World, p: Id)
    requires Since(start, w) && p in w.procs && w.procs[p].Done? && |start.messages| <= w.procs[p].stored
    ensures forall m: nat, later | Covers(start, w.procs[p].user, w.procs[p].conversation, m) && IsCompleted(After(Next, w, later), m) ::
              IsCompleted(w, m)
    ensures forall m: nat | Covers(start, w.procs[p].user, w.procs[p].conversation, m) :: w.messages[m].cancelled || IsOver(w, m)
  {
    hide Next, Sealed, Orders, Balanced, AllKnow, Sound, NeverOvertaken;
    assert Sealing(w, w.procs[p]);
    forall m: nat | Covers(start, w.procs[p].user, w.procs[p].conversation, m)
      ensures w.messages[m].cancelled || IsOver(w, m)
    {
      assert SameQuestion(start.messages[m], w.messages[m]);
      assert Covered(w, w.procs[p].user, w.procs[p].conversation, w.procs[p].stored, m);
      SealedSays(w, m);
    }
    forall m: nat, later |
      Covers(start, w.procs[p].user, w.procs[p].conversation, m) && !IsCompleted(w, m)
      ensures !IsCompleted(After(Next, w, later), m)
    {
      assert SameQuestion(start.messages[m], w.messages[m]);
      assert Covered(w, w.procs[p].user, w.procs[p].conversation, w.procs[p].stored, m);
      SealedForGood(w, later, m);
    }
  }

  lemma SealedSays(w: World, m: nat)
    requires Sealed(w, m)
    ensures m < |w.messages| && (w.messages[m].cancelled || IsOver(w, m))
  {
  }

  lemma InOrderOfCreation(w: World)
    requires Sound(w)
    ensures forall q: nat, r: nat | q < r < |w.runs| :: w.runs[q].created <= w.runs[r].created
  {
  }

  lemma CandidatesExist(w: World, p: Id, candidates: seq<nat>)
    requires Inv(w) && p in w.procs
    requires (w.procs[p].Claiming? || w.procs[p].Holding? || w.procs[p].Releasing?) && w.procs[p].candidates == candidates
    ensures forall k | 0 <= k < |candidates| :: candidates[k] < |w.runs|
  {
  }

  /** Run r has been claimed once, and no older run of its conversation is still queued. */
  ghost predicate IsFirst(w: World, r: nat) {
    && r < |w.runs| && w.runs[r].phase == Running && w.runs[r].attempt == 1
    && forall q: nat | q < |w.runs| && Older(w.runs[q], w.runs[r]) :: w.runs[q].phase != Queued
  }

  lemma ClaimedFirst(w: World, r: nat)
    requires Inv(w) && r < |w.runs| && w.runs[r].attempt >= 1 && w.runs[r].phase == Running
    ensures IsFirst(w, r)
  {
  }

  /** All the queued runs, when there are fewer than a claim looks at; each once. */
  ghost predicate ListsQueued(w: World, candidates: seq<nat>) {
    && (|candidates| < 20 ==> forall r: nat | r < |w.runs| && w.runs[r].phase == Queued :: r in candidates)
    && (forall j, k | 0 <= j < k < |candidates| :: candidates[j] != candidates[k])
  }

  lemma SameRunsListed(a: World, b: World, candidates: seq<nat>)
    requires b.runs == a.runs
    ensures OldestQueued(a, candidates) ==> OldestQueued(b, candidates)
    ensures ListsQueued(a, candidates) ==> ListsQueued(b, candidates)
  {
  }

  /** Run r was not taken: its conversation had been tried or is locked, or it has left the queue. */
  predicate PassedOver(w: World, r: nat, skipped: set<Id>) {
    && r < |w.runs|
    && var c := w.runs[r].conversation;
      c in skipped || (c in w.locks && w.locks[c].until >= w.now) || w.runs[r].phase != Queued
  }

  /** The conversation was passed over when this was the database: it was locked, or a run of it that was listed had left the queue. */
  ghost predicate PassedAt(found: World, seen: World, listed: seq<nat>, c: Id) {
    || (c in seen.locks && seen.locks[c].until >= seen.now)
    || (exists k :: 0 <= k < |listed| && listed[k] < |found.runs| && found.runs[listed[k]].conversation == c
                    && listed[k] < |seen.runs| && seen.runs[listed[k]].phase != Queued)
  }

  /** The conversation of each of the first `at` runs listed was tried and passed over, at some time between. */
  ghost predicate AllTried(found: World, w: World, listed: seq<nat>, at: nat, tried: map<Id, World>) {
    && at <= |listed|
    && (forall k | 0 <= k < |listed| :: listed[k] < |found.runs|)
    && (forall k | 0 <= k < at :: found.runs[listed[k]].conversation in tried)
    && (forall c | c in tried :: Grows(found, tried[c]) && Grows(tried[c], w) && PassedAt(found, tried[c], listed, c))
  }

  lemma NoneTried(found: World, listed: seq<nat>)
    requires forall k | 0 <= k < |listed| :: listed[k] < |found.runs|
    ensures AllTried(found, found, listed, 0, map[])
  {
  }

  lemma TriedStay(found: World, a: World, b: World, listed: seq<nat>, at: nat, tried: map<Id, World>)
    requires AllTried(found, a, listed, at, tried) && Grows(a, b)
    ensures AllTried(found, b, listed, at, tried)
  {
    hide Grows;
    forall c | c in tried ensures Grows(tried[c], b) { GrowsOn(tried[c], a, b); }
  }

  lemma TriedOne(found: World, a: World, seen: World, b: World, listed: seq<nat>, at: nat, tried: map<Id, World>)
    requires AllTried(found, a, listed, at, tried) && at < |listed| && PassedOver(seen, listed[at], tried.Keys)
    requires Grows(found, seen) && Grows(a, b) && Grows(seen, b)
    ensures var c := seen.runs[listed[at]].conversation;
      AllTried(found, b, listed, at + 1, if c in tried then tried else tried[c := seen])
  {
    hide Grows;
    TriedStay(found, a, b, listed, at, tried);
    ConversationStays(found, seen, listed[at]);
    var c := seen.runs[listed[at]].conversation;
    if c !in tried { assert PassedAt(found, seen, listed, c); }
  }

  lemma ConversationStays(a: World, b: World, r: nat)
    requires Grows(a, b) && r < |a.runs|
    ensures r < |b.runs| && b.runs[r].conversation == a.runs[r].conversation
  {
  }

  lemma GrowsNext(w: World, st: Step)
    ensures Grows(w, Next(w, st))
  {
  }

  lemma RunExists(w: World, p: Id)
    requires Inv(w) && p in w.procs && w.procs[p].Executing?
    ensures w.procs[p].run < |w.runs| && w.runs[w.procs[p].run].phase != Queued
    ensures w.runs[w.procs[p].run].message < |w.messages|
    ensures Agrees(w.runs[w.procs[p].run], w.procs[p].stage) && Orderly(w.runs[w.procs[p].run])
  {
  }

  /** Run r is completed with these tokens and its charge is settled to them. */
  ghost predicate AnsweredWith(w: World, r: nat, input: nat, output: nat) {
    && r < |w.runs| && w.runs[r].phase == Completed && w.runs[r].input == input && w.runs[r].output == output
    && w.runs[r].settled
  }

  /** Run r is completed with the tokens of these turns up to the one that answered. */
  ghost predicate AnsweredFrom(w: World, r: nat, turns: seq<Analyst.Turn>, tools: set<string>) {
    exists k: nat ::
      Analyst.AnsweredIn(turns, k, tools) && AnsweredWith(w, r, Analyst.Input(turns[..k + 1]), Analyst.Output(turns[..k + 1]))
  }

  /** What may stop an execution that nothing outside it stops: its run is no longer running, its trigger is cancelled, or the day is full. */
  ghost predicate Stopped(w: World, r: nat, limit: int) {
    && r < |w.runs|
    && (|| w.runs[r].phase != Running
        || (w.runs[r].message < |w.messages| && w.messages[w.runs[r].message].cancelled)
        || exists day: nat :: Reserved(w, w.runs[r].user, day) + RESERVATION > limit)
  }

  lemma OverStays(a: World, b: World, r: nat)
    requires Grows(a, b) && r < |a.runs| && a.runs[r].Over()
    ensures r < |b.runs| && b.runs[r].Over() && b.runs[r].phase == a.runs[r].phase
    ensures b.runs[r].input == a.runs[r].input && b.runs[r].output == a.runs[r].output && (a.runs[r].settled ==> b.runs[r].settled)
  {
  }

  lemma PendingExists(w: World, p: Id, pending: seq<nat>)
    requires Inv(w) && p in w.procs && (w.procs[p] == Recovering(pending) || w.procs[p] == Unsetting(pending))
    ensures pending != [] ==> pending[0] < |w.messages|
    ensures w.procs[p].Unsetting? && pending != [] ==> HasRun(w, pending[0])
  {
    hide Sound, Orders, Balanced, NeverOvertaken, AllSealing;
    assert Knows(w, w.procs[p]);
    if pending != [] { assert pending[0] in pending; }
  }

  /** Message m asks nothing that could be queued, or it has a run and is out of the outbox, or it is cancelled. */
  predicate Served(w: World, m: nat) {
    && m < |w.messages|
    && (w.messages[m].asked && w.messages[m].complete ==> (HasRun(w, m) && !w.messages[m].request) || w.messages[m].cancelled)
  }

  /** Of the first `stored` messages, all but those pending are served. */
  ghost predicate AllServed(w: World, stored: nat, pending: seq<nat>) {
    forall m: nat | m < stored && m !in pending :: Served(w, m)
  }

  lemma ServedStays(a: World, b: World, stored: nat, pending: seq<nat>)
    requires Grows(a, b)
    ensures AllServed(a, stored, pending) ==> AllServed(b, stored, pending)
  {
  }

  lemma ServedNext(w: World, stored: nat, pending: seq<nat>)
    requires pending != [] && Served(w, pending[0])
    ensures AllServed(w, stored, pending) ==> AllServed(w, stored, pending[1..])
  {
  }

  /** Only what is in the outbox is still to be served. */
  lemma FoundServed(start: World, w: World, batch: seq<nat>)
    requires Inv(w) && Grows(start, w)
    requires forall m: nat | m < |w.messages| && w.messages[m].request && !w.messages[m].cancelled :: m in batch
    ensures AllServed(w, |start.messages|, batch)
  {
  }

  /** Of the runs that were past their lease at the start, all but those left are over. */
  ghost predicate AllOver(start: World, w: World, left: seq<nat>) {
    forall r: nat | r < |start.runs| && start.runs[r].phase == Running && start.runs[r].lease < start.now && r !in left ::
      r < |w.runs| && w.runs[r].Over()
  }

  lemma FoundExpired(start: World, w: World, found: seq<nat>)
    requires Grows(start, w)
    requires forall r: nat | r < |w.runs| && w.runs[r].phase == Running && w.runs[r].lease < w.now :: r in found
    ensures AllOver(start, w, found)
  {
    assert forall r: nat | r < |start.runs| :: SameRun(start.runs[r], w.runs[r]);
  }

  lemma AllOverStays(start: World, a: World, b: World, left: seq<nat>)
    requires Grows(a, b) && AllOver(start, a, left)
    ensures AllOver(start, b, left)
  {
    assert forall r: nat | r < |a.runs| :: SameRun(a.runs[r], b.runs[r]);
  }

  lemma OneLess(start: World, w: World, left: seq<nat>)
    requires AllOver(start, w, left) && left != [] && left[0] < |w.runs| && w.runs[left[0]].Over()
    ensures AllOver(start, w, left[1..])
  {
    assert left == [left[0]] + left[1..];
  }

  lemma NoneExpired(start: World, w: World)
    requires AllOver(start, w, [])
    ensures forall r: nat | r < |start.runs| && start.runs[r].phase == Running && start.runs[r].lease < start.now ::
              r < |w.runs| && w.runs[r].Over()
  {
  }

  lemma ExpiringExists(w: World, p: Id, found: seq<nat>)
    requires Inv(w) && p in w.procs && found != [] && (w.procs[p] == Expiring(found) || w.procs[p] == Clearing(found))
    ensures found[0] < |w.runs| && (w.procs[p] == Clearing(found) ==> w.runs[found[0]].Over())
  {
    hide Sound, Orders, Balanced, NeverOvertaken, AllSealing;
    assert Knows(w, w.procs[p]) && found[0] in found;
  }

  class ChatDatabase {
    var now: nat
    var messages: seq<Message>
    var runs: seq<Run>
    var locks: map<Id, Lock>
    var budgets: map<(Id, nat), Budget>
    ghost var procs: map<Id, Proc>

    ghost function View(): World
      reads this
    {
      World(now, messages, runs, locks, budgets, procs)
    }

    /** Any number of steps of processes other than p. */
    method Interfere(ghost p: Id)
      modifies this
      ensures Reaches(Next, (st: Step) => !By(st, p), old(View()), View())
    {
      ReachesItself(Next, (st: Step) => !By(st, p), View());
    }

    /** The others run between two calls of a procedure of p that began at `start`. */
    method Pause(ghost p: Id, ghost start: World)
      requires Since(start, View())
      modifies this
      ensures Since(start, View()) && SamePlace(old(View()), View(), p) && Grows(old(View()), View())
    {
      ghost var before := View();
      Interfere(p);
      SinceBeside(start, before, View(), p);
    }

    // ---------------------------------------------------------------- cancelRuns

    method FindOpenRuns(user: Id, conversation: Id, ghost p: Id, ghost start: World) returns (open: set<nat>, todo: set<nat>)
      requires Since(start, View()) && p !in procs
      modifies this
      ensures Since(start, View()) && View() == Next(old(View()), FindOpen(p, user, conversation))
      ensures p in procs && procs[p] == Marking(user, conversation, |messages|, open, todo)
      ensures |messages| == |old(messages)| && AllSent(messages, user, conversation, todo)
    {
      hide Since, Grows, SameMoney, OnlyProc, Sound;
      ghost var before := View();
      open := set r: nat | r < |runs| && runs[r].user == user && runs[r].conversation == conversation && runs[r].Open()
        :: runs[r].message;
      todo := set m: nat | m < |messages| && messages[m].sender == user && messages[m].conversation == conversation;
      procs := procs[p := Marking(user, conversation, |messages|, open, todo)];
      SinceStep(start, before, FindOpen(p, user, conversation));
    }

    method MarkOne(user: Id, conversation: Id, ghost stored: nat, open: set<nat>, todo: set<nat>, m: nat,
            ghost p: Id, ghost start: World)
      requires Since(start, View()) && p in procs && procs[p] == Marking(user, conversation, stored, open, todo)
      requires m < |messages| && messages[m].sender == user && messages[m].conversation == conversation
      modifies this
      ensures Since(start, View()) && View() == Next(old(View()), Mark(p, m))
      ensures messages == old(messages)[m := if old(messages)[m].request || m in open
                then old(messages)[m].(request := false, cancelled := true) else old(messages)[m]]
      ensures p in procs && procs[p] == Marking(user, conversation, stored, open, todo - {m})
    {
      hide Since, Grows, SameMoney, OnlyProc, Sound;
      ghost var before := View();
      if messages[m].request || m in open {
        messages := messages[m := messages[m].(request := false, cancelled := true)];
      }
      procs := procs[p := Marking(user, conversation, stored, open, todo - {m})];
      SinceStep(start, before, Mark(p, m));
    }

    /** The messages are all reached; the runs to stop are those there are now. */
    method FindRuns(user: Id, conversation: Id, ghost stored: nat, ghost open: set<nat>, ghost p: Id, ghost start: World)
      returns (todo: set<nat>)
      requires Since(start, View()) && p in procs && procs[p] == Marking(user, conversation, stored, open, {})
      modifies this
      ensures Since(start, View()) && View() == Next(old(View()), EndMarking(p))
      ensures p in procs && procs[p] == Stopping(user, conversation, stored, todo)
      ensures AllRunBy(runs, user, conversation, todo)
      ensures forall r: nat | r < |runs| && runs[r].user == user && runs[r].conversation == conversation :: r in todo
      ensures runs == old(runs)
    {
      hide Since, Grows, SameMoney, OnlyProc, Sound;
      ghost var before := View();
      todo := set r: nat | r < |runs| && runs[r].user == user && runs[r].conversation == conversation;
      procs := procs[p := Stopping(user, conversation, stored, todo)];
      SinceStep(start, before, EndMarking(p));
    }

    method StopOne(user: Id, conversation: Id, ghost stored: nat, todo: set<nat>, r: nat, ghost p: Id, ghost start: World)
      requires Since(start, View()) && p in procs && procs[p] == Stopping(user, conversation, stored, todo)
      requires r < |runs| && runs[r].user == user && runs[r].conversation == conversation
      modifies this
      ensures Since(start, View()) && View() == Next(old(View()), Stop(p, r))
      ensures p in procs && procs[p] == Stopping(user, conversation, stored, todo - {r})
      ensures runs == old(runs)[r := old(runs)[r].(phase := StoppedFrom(old(runs)[r].phase))]
    {
      hide Since, Grows, SameMoney, OnlyProc, Sound;
      ghost var before := View();
      if runs[r].Open() {
        runs := runs[r := runs[r].(phase := Cancelled)];
      }
      procs := procs[p := Stopping(user, conversation, stored, todo - {r})];
      SinceStep(start, before, Stop(p, r));
    }

    ghost method EndCancelling(user: Id, conversation: Id, stored: nat, p: Id, start: World)
      requires Since(start, View()) && p in procs && procs[p] == Stopping(user, conversation, stored, {})
      modifies this`procs
      ensures Since(start, View()) && runs == old(runs)
      ensures p in procs && procs[p] == Runs.Done(user, conversation, stored)
    {
      hide Since, Grows, SameMoney, OnlyProc, Sound;
      ghost var before := View();
      procs := procs[p := Runs.Done(user, conversation, stored)];
      SinceStep(start, before, EndStopping(p));
    }

    /**
     Cancel every question this user has waiting or under way in the conversation: find the open runs,
     mark their messages and every message still in the outbox, then stop the runs. No question the user
     had stored there is completed after this returns, whatever the others do meanwhile or later: each is
     cancelled or its run is over. `reached` is what the cancel found each run at; every run there was is
     among them, those still open are cancelled, and those over are as they ended.
     */
    method CancelRuns(user: Id, conversation: Id, ghost p: Id) returns (ghost reached: map<nat, Phase>)
      requires Inv(View()) && p !in procs
      modifies this
      ensures Inv(View()) && Grows(old(View()), View())
      ensures forall m: nat | Covers(old(View()), user, conversation, m) :: View().messages[m].cancelled || IsOver(View(), m)
      ensures AllReached(old(View()), View(), user, conversation, reached, {})
      ensures forall m: nat, later | Covers(old(View()), user, conversation, m) && IsCompleted(After(Next, View(), later), m) ::
                IsCompleted(View(), m)
    {
      hide Inv, Next, Grows, AllReached;
      ghost var start := View();
      SinceItself(start);
      Pause(p, start);
      var open, todo := FindOpenRuns(user, conversation, p, start);
      ghost var stored := |messages|;
      while todo != {}
        invariant Since(start, View()) && p in procs && procs[p] == Marking(user, conversation, stored, open, todo)
        invariant AllSent(messages, user, conversation, todo)
        decreases todo
      {
        ghost var before := View();
        Pause(p, start);
        SentStay(before, View(), user, conversation, todo);
        before := View();
        var m :| m in todo;
        MarkOne(user, conversation, stored, open, todo, m, p, start);
        todo := todo - {m};
        SentStay(before, View(), user, conversation, todo);
      }
      Pause(p, start);
      var left := FindRuns(user, conversation, stored, open, p, start);
      reached := map[];
      NoneReached(start, View(), user, conversation, left);
      while left != {}
        invariant Since(start, View()) && p in procs && procs[p] == Stopping(user, conversation, stored, left)
        invariant AllRunBy(runs, user, conversation, left) && AllReached(start, View(), user, conversation, reached, left)
        decreases left
      {
        ghost var before := View();
        Pause(p, start);
        RunsStay(before, View(), user, conversation, left);
        ReachedStay(start, before, View(), user, conversation, reached, left);
        before := View();
        var r :| r in left;
        StopOne(user, conversation, stored, left, r, p, start);
        ReachedOne(start, before, View(), user, conversation, reached, left, r);
        reached, left := reached[r := before.runs[r].phase], left - {r};
        RunsStay(before, View(), user, conversation, left);
      }
      ghost var last := View();
      Pause(p, start);
      ReachedStay(start, last, View(), user, conversation, reached, {});
      last := View();
      EndCancelling(user, conversation, stored, p, start);
      SameRunsReached(start, last, View(), user, conversation, reached);
      CancelledForGood(start, View(), p);
    }

    // ---------------------------------------------------------------- claim

    /** The oldest queued runs, oldest first, as the database sorts and limits them. */
    method FindQueued() returns (candidates: seq<nat>)
      requires Sound(View())
      ensures OldestQueued(View(), candidates) && ListsQueued(View(), candidates)
    {
      hide Sound;
      candidates := [];
      var r := 0;
      while r < |runs| && |candidates| < CLAIM_CANDIDATES
        invariant r <= |runs| && |candidates| <= CLAIM_CANDIDATES
        invariant forall k | 0 <= k < |candidates| :: candidates[k] < r && runs[candidates[k]].phase == Queued
        invariant forall j, k | 0 <= j < k < |candidates| :: candidates[j] < candidates[k]
        invariant forall q: nat | q < r && runs[q].phase == Queued :: q in candidates
      {
        if runs[r].phase == Queued { candidates := candidates + [r]; }
        r := r + 1;
      }
      InOrderOfCreation(View());
      forall q: nat, k | q < |runs| && 0 <= k < |candidates| && runs[q].phase == Queued && runs[q].created < runs[candidates[k]].created
        ensures q in candidates
      {
        assert q < r;
      }
    }

    method FindCandidates(ghost p: Id, ghost start: World) returns (candidates: seq<nat>)
      requires Since(start, View()) && p !in procs
      modifies this
      ensures Since(start, View()) && p in procs && procs[p] == Claiming(candidates, 0, {})
      ensures Knows(View(), procs[p]) && OldestQueued(View(), candidates) && ListsQueued(View(), candidates)
    {
      hide Grows, SameMoney, OnlyProc, Sound, Orders, Balanced, NeverOvertaken, AllSealing, OldestQueued, Knows;
      ghost var before := View();
      candidates := FindQueued();
      procs := procs[p := Claiming(candidates, 0, {})];
      SinceStep(start, before, BeginClaim(p, candidates));
      SameRunsListed(before, View(), candidates);
    }

    /** One turn of the loop over the candidates: skip the conversation, or try to lock it. */
    method LockConversation(candidates: seq<nat>, at: nat, skipped: set<Id>, ghost p: Id, ghost start: World)
      returns (held: bool, skipping: set<Id>)
      requires Since(start, View()) && p in procs && procs[p] == Claiming(candidates, at, skipped)
      requires at < |candidates| && candidates[at] < |runs|
      modifies this
      ensures Since(start, View()) && View() == Next(old(View()), TakeLock(p)) && p in procs && runs == old(runs)
      ensures var c := runs[candidates[at]].conversation;
        && skipping == skipped + {c} && (held <==> c !in skipped && (c in old(locks) ==> old(locks)[c].until < now))
        && (held ==> locks == old(locks)[c := Lock(now + LEASE_MS, candidates[at])])
      ensures procs[p] == if held then Holding(candidates, at, skipping) else Claiming(candidates, at + 1, skipping)
    {
      hide Since, Grows, SameMoney, OnlyProc, Sound;
      ghost var before := View();
      var conversation := runs[candidates[at]].conversation;
      held, skipping := false, skipped;
      if conversation !in skipped {
        skipping := skipped + {conversation};
        if conversation !in locks || locks[conversation].until < now {
          locks := locks[conversation := Lock(now + LEASE_MS, candidates[at])];
          held := true;
        }
      }
      procs := procs[p := if held then Holding(candidates, at, skipping) else Claiming(candidates, at + 1, skipping)];
      SinceStep(start, before, TakeLock(p));
    }

    /** `queued -> running` for the candidate whose conversation is held. */
    method StartRun(candidates: seq<nat>, at: nat, skipped: set<Id>, ghost p: Id, ghost start: World) returns (taken: bool)
      requires Since(start, View()) && p in procs && procs[p] == Holding(candidates, at, skipped)
      requires at < |candidates| && candidates[at] < |runs|
      modifies this
      ensures Since(start, View()) && View() == Next(old(View()), TakeRun(p)) && p in procs
      ensures procs[p] == if taken then Executing(candidates[at], Fresh) else Releasing(candidates, at, skipped)
      ensures |runs| == |old(runs)| && (taken <==> old(runs)[candidates[at]].phase == Queued)
      ensures taken ==> var run := runs[candidates[at]]; run.phase == Running && run.lease == now + LEASE_MS && run.attempt >= 1
    {
      hide Since, Grows, SameMoney, OnlyProc, Sound;
      ghost var before := View();
      var r := candidates[at];
      taken := runs[r].phase == Queued;
      if taken {
        runs := runs[r := runs[r].(phase := Running, lease := now + LEASE_MS, attempt := runs[r].attempt + 1)];
      }
      procs := procs[p := if taken then Executing(r, Fresh) else Releasing(candidates, at, skipped)];
      SinceStep(start, before, TakeRun(p));
    }

    /** Clear the lock of run r's conversation, if run r still holds it. */
    method Unlock(r: nat)
      requires r < |runs|
      modifies this`locks
      ensures View() == Unlocked(old(View()), r)
    {
      hide Sound, Grows, SameMoney;
      var conversation := runs[r].conversation;
      if conversation in locks && locks[conversation].run == r {
        locks := locks - {conversation};
      }
    }

    method ReleaseConversation(candidates: seq<nat>, at: nat, skipped: set<Id>, ghost p: Id, ghost start: World)
      requires Since(start, View()) && p in procs && procs[p] == Releasing(candidates, at, skipped)
      requires at < |candidates| && candidates[at] < |runs|
      modifies this
      ensures Since(start, View()) && View() == Next(old(View()), Release(p))
      ensures p in procs && procs[p] == Claiming(candidates, at + 1, skipped)
    {
      hide Since, Grows, SameMoney, OnlyProc, Sound;
      ghost var before := View();
      Unlock(candidates[at]);
      procs := procs[p := Claiming(candidates, at + 1, skipped)];
      SinceStep(start, before, Release(p));
    }

    ghost method GiveUpClaim(candidates: seq<nat>, at: nat, skipped: set<Id>, p: Id, start: World)
      requires Since(start, View()) && p in procs && procs[p] == Claiming(candidates, at, skipped) && at == |candidates|
      modifies this`procs
      ensures Since(start, View()) && p !in procs && View() == Next(old(View()), TakeLock(p))
    {
      hide Since, Grows, SameMoney, OnlyProc, Sound;
      ghost var before := View();
      procs := procs - {p};
      SinceStep(start, before, TakeLock(p));
    }

    /** One candidate: lock its conversation, start it, and let the conversation go again if it had left the queue. */
    method TryCandidate(candidates: seq<nat>, at: nat, skipped: set<Id>, ghost p: Id, ghost start: World)
      returns (taken: bool, skipping: set<Id>, ghost seen: World)
      requires Since(start, View()) && p in procs && procs[p] == Claiming(candidates, at, skipped) && at < |candidates|
      modifies this
      ensures Since(start, View()) && p in procs && Grows(old(View()), seen) && Grows(seen, View())
      ensures !taken ==> PassedOver(seen, candidates[at], skipped) && skipping == skipped + {seen.runs[candidates[at]].conversation}
      ensures taken ==> procs[p] == Executing(candidates[at], Fresh) && IsFirst(View(), candidates[at])
      ensures !taken ==> procs[p] == Claiming(candidates, at + 1, skipping)
    {
      hide Inv, Next, Grows, Knows, IsFirst;
      ghost var first := View();
      Pause(p, start);
      CandidatesExist(View(), p, candidates);
      var held;
      taken := false;
      seen := View();
      held, skipping := LockConversation(candidates, at, skipped, p, start);
      GrowsNext(seen, TakeLock(p));
      if held {
        ghost var before := View();
        Pause(p, start);
        CandidatesExist(View(), p, candidates);
        ConversationStays(before, View(), candidates[at]);
        GrowsOn(first, seen, before);
        GrowsOn(first, before, View());
        seen := View();
        taken := StartRun(candidates, at, skipping, p, start);
        GrowsNext(seen, TakeRun(p));
        if taken {
          ClaimedFirst(View(), candidates[at]);
        } else {
          before := View();
          Pause(p, start);
          CandidatesExist(View(), p, candidates);
          GrowsOn(seen, before, View());
          before := View();
          ReleaseConversation(candidates, at, skipping, p, start);
          GrowsNext(before, Release(p));
          GrowsOn(seen, before, View());
        }
      }
    }

    /**
     Claim a run: the oldest queued one whose conversation can be locked, passing over a conversation as
     a whole once one of its runs could not be taken. A claimed run is running for the first time, and
     every older run of its conversation has left the queue. Nothing is claimed only when each conversation of
     the runs found queued was tried and passed over: its lock was held, or its candidate had left the queue.
     */
    method Claim(ghost p: Id) returns (claimed: Option<nat>, ghost found: World, ghost listed: seq<nat>, ghost tried: map<Id, World>)
      requires Inv(View()) && p !in procs
      modifies this
      ensures Inv(View()) && Grows(old(View()), View())
      ensures Grows(old(View()), found) && OldestQueued(found, listed) && ListsQueued(found, listed)
      ensures claimed == None ==> p !in procs && AllTried(found, View(), listed, |listed|, tried)
      ensures claimed.Some? ==> p in procs && procs[p] == Executing(claimed.value, Fresh) && IsFirst(View(), claimed.value)
    {
      hide Inv, Next, Grows, Knows, IsFirst, OldestQueued, ListsQueued, AllTried;
      ghost var start := View();
      SinceItself(start);
      Pause(p, start);
      var candidates := FindCandidates(p, start);
      found, listed, tried := View(), candidates, map[];
      GrowsByItself(found);
      CandidatesExist(found, p, candidates);
      NoneTried(found, candidates);
      var at, skipped := 0, {};
      while at < |candidates|
        invariant at <= |candidates| && Grows(found, View())
        invariant Since(start, View()) && p in procs && procs[p] == Claiming(candidates, at, skipped)
        invariant AllTried(found, View(), candidates, at, tried) && tried.Keys == skipped
      {
        ghost var before := View();
        var taken, skipping, seen := TryCandidate(candidates, at, skipped, p, start);
        GrowsOn(before, seen, View());
        GrowsOn(found, before, seen);
        GrowsOn(found, before, View());
        if taken { return Some(candidates[at]), found, candidates, tried; }
        TriedOne(found, before, seen, View(), candidates, at, tried);
        if seen.runs[candidates[at]].conversation !in skipped { tried := tried[seen.runs[candidates[at]].conversation := seen]; }
        at, skipped := at + 1, skipping;
      }
      ghost var last := View();
      GiveUpClaim(candidates, at, skipped, p, start);
      GrowsNext(last, TakeLock(p));
      TriedStay(found, last, View(), candidates, at, tried);
      claimed := None;
    }

    // ---------------------------------------------------------------- execute

    method CheckRunning(r: nat, ghost p: Id, ghost start: World) returns (passed: bool)
      requires Since(start, View()) && p in procs && procs[p] == Executing(r, Fresh) && r < |runs|
      modifies this
      ensures Since(start, View()) && View() == Next(old(View()), Runs.Guard(p))
      ensures p in procs && procs[p] == Executing(r, if passed then Guarded else Failing)
      ensures passed <==> old(runs)[r].phase == Running
    {
      hide Since, Grows, SameMoney, OnlyProc, Sound;
      ghost var before := View();
      passed := runs[r].phase == Running;
      procs := procs[p := Executing(r, if passed then Guarded else Failing)];
      SinceStep(start, before, Runs.Guard(p));
    }

    method ReadCancelled(r: nat, ghost p: Id, ghost start: World) returns (cancelled: bool)
      requires Since(start, View()) && p in procs && procs[p] == Executing(r, Guarded) && r < |runs|
      requires runs[r].message < |messages|
      modifies this
      ensures Since(start, View()) && View() == Next(old(View()), ReadTrigger(p))
      ensures p in procs && procs[p] == Executing(r, if cancelled then Refusing else Triggered)
      ensures cancelled <==> old(messages)[old(runs)[r].message].cancelled
    {
      hide Since, Grows, SameMoney, OnlyProc, Sound;
      ghost var before := View();
      cancelled := messages[runs[r].message].cancelled;
      procs := procs[p := Executing(r, if cancelled then Refusing else Triggered)];
      SinceStep(start, before, ReadTrigger(p));
    }

    method CancelOwnRun(r: nat, ghost p: Id, ghost start: World)
      requires Since(start, View()) && p in procs && procs[p] == Executing(r, Refusing) && r < |runs|
      modifies this
      ensures Since(start, View()) && View() == Next(old(View()), CancelOwn(p))
      ensures p in procs && procs[p] == Executing(r, Failing)
      ensures |runs| == |old(runs)| && runs[r].phase == if old(runs)[r].phase == Running then Cancelled else old(runs)[r].phase
    {
      hide Since, Grows, SameMoney, OnlyProc, Sound;
      ghost var before := View();
      if runs[r].phase == Running {
        runs := runs[r := runs[r].(phase := Cancelled)];
      }
      procs := procs[p := Executing(r, Failing)];
      SinceStep(start, before, CancelOwn(p));
    }

    ghost method TakeSettings(r: nat, limit: int, p: Id, start: World)
      requires Since(start, View()) && p in procs && procs[p] == Executing(r, Triggered) && r < |runs|
      modifies this`procs
      ensures Since(start, View()) && View() == Next(old(View()), ReadSettings(p, limit))
      ensures p in procs && procs[p] == Executing(r, Limited(limit))
    {
      hide Since, Grows, SameMoney, OnlyProc, Sound;
      ghost var before := View();
      procs := procs[p := Executing(r, Limited(limit))];
      SinceStep(start, before, ReadSettings(p, limit));
    }

    method TakeDay(r: nat, ghost limit: int, ghost p: Id, ghost start: World) returns (day: nat)
      requires Since(start, View()) && p in procs && procs[p] == Executing(r, Limited(limit)) && r < |runs|
      modifies this
      ensures Since(start, View()) && View() == Next(old(View()), ReadDay(p))
      ensures p in procs && procs[p] == Executing(r, Priced(limit, day))
    {
      hide Since, Grows, SameMoney, OnlyProc, Sound;
      ghost var before := View();
      day := now / DAY_MS;
      procs := procs[p := Executing(r, Priced(limit, day))];
      SinceStep(start, before, ReadDay(p));
    }

    method ReserveTokens(r: nat, limit: int, day: nat, ghost p: Id, ghost start: World) returns (reserved: bool)
      requires Since(start, View()) && p in procs && procs[p] == Executing(r, Priced(limit, day)) && r < |runs|
      modifies this
      ensures Since(start, View()) && View() == Next(old(View()), Reserve(p))
      ensures p in procs && procs[p] == Executing(r, if reserved then Charged(day) else Failing)
      ensures var user, was := old(runs)[r].user, Reserved(old(View()), old(runs)[r].user, day);
        && (reserved <==> was + RESERVATION <= limit)
        && Reserved(View(), user, day) == if reserved then was + RESERVATION else was
    {
      hide Since, Grows, SameMoney, OnlyProc, Sound;
      ghost var before := View();
      var key := (runs[r].user, day);
      var budget := if key in budgets then budgets[key] else Budget(0, 0);
      reserved := budget.reserved <= limit - RESERVATION;
      if reserved {
        budgets := budgets[key := Budget(budget.reserved + RESERVATION, Max(budget.ceiling, limit))];
        runs := runs[r := runs[r].(charged := Some(day))];
      }
      procs := procs[p := Executing(r, if reserved then Charged(day) else Failing)];
      SinceStep(start, before, Reserve(p));
    }

    ghost method TakeAnswer(r: nat, day: nat, input: nat, output: nat, p: Id, start: World)
      requires Since(start, View()) && p in procs && procs[p] == Executing(r, Charged(day)) && r < |runs|
      requires input + output <= RESERVATION
      modifies this`procs
      ensures Since(start, View()) && View() == Next(old(View()), Answer(p, input, output))
      ensures p in procs && procs[p] == Executing(r, Answered(day, input, output))
    {
      hide Since, Grows, SameMoney, OnlyProc, Sound;
      ghost var before := View();
      procs := procs[p := Executing(r, Answered(day, input, output))];
      SinceStep(start, before, Answer(p, input, output));
    }

    method StoreAnswer(r: nat, ghost day: nat, input: nat, output: nat, ghost p: Id, ghost start: World) returns (stored: bool)
      requires Since(start, View()) && p in procs && procs[p] == Executing(r, Answered(day, input, output)) && r < |runs|
      modifies this
      ensures Since(start, View()) && View() == Next(old(View()), Complete(p))
      ensures p in procs && procs[p] == Executing(r, if stored then Finished(day, input, output) else Failing)
      ensures stored <==> old(runs)[r].phase == Running
      ensures r < |runs| && (stored ==> runs[r].phase == Completed && runs[r].input == input && runs[r].output == output)
    {
      hide Since, Grows, SameMoney, OnlyProc, Sound;
      ghost var before := View();
      stored := runs[r].phase == Running;
      if stored {
        runs := runs[r := runs[r].(phase := Completed, input := input, output := output)];
      }
      procs := procs[p := Executing(r, if stored then Finished(day, input, output) else Failing)];
      SinceStep(start, before, Complete(p));
    }

    method SettleAnswer(r: nat, day: nat, input: nat, output: nat, ghost p: Id, ghost start: World)
      requires Since(start, View()) && p in procs && procs[p] == Executing(r, Finished(day, input, output)) && r < |runs|
      modifies this
      ensures Since(start, View()) && View() == Next(old(View()), Settle(p))
      ensures p in procs && procs[p] == Executing(r, Leaving)
      ensures |runs| == |old(runs)| && runs[r] == old(runs)[r].(settled := true)
      ensures var user := runs[r].user;
        Reserved(View(), user, day) == Reserved(old(View()), user, day) - (RESERVATION - input - output)
    {
      hide Since, Grows, SameMoney, OnlyProc, Sound;
      ghost var before := View();
      var key := (runs[r].user, day);
      var budget := if key in budgets then budgets[key] else Budget(0, 0);
      budgets := budgets[key := budget.(reserved := budget.reserved - (RESERVATION - input - output))];
      runs := runs[r := runs[r].(settled := true)];
      procs := procs[p := Executing(r, Leaving)];
      SinceStep(start, before, Settle(p));
    }

    ghost method ThrowHere(r: nat, stage: Stage, p: Id, start: World)
      requires Since(start, View()) && p in procs && procs[p] == Executing(r, stage) && r < |runs|
      requires !stage.Leaving?
      modifies this`procs
      ensures Since(start, View()) && View() == Next(old(View()), Throw(p))
      ensures p in procs && procs[p] == Executing(r, Failing)
    {
      hide Since, Grows, SameMoney, OnlyProc, Sound;
      ghost var before := View();
      procs := procs[p := Executing(r, Failing)];
      SinceStep(start, before, Throw(p));
    }

    method FailRun(r: nat, ghost p: Id, ghost start: World)
      requires Since(start, View()) && p in procs && procs[p] == Executing(r, Failing) && r < |runs|
      modifies this
      ensures Since(start, View()) && View() == Next(old(View()), Fail(p))
      ensures p in procs && procs[p] == Executing(r, Leaving)
      ensures |runs| == |old(runs)| && runs[r].phase == if old(runs)[r].phase == Running then Failed else old(runs)[r].phase
    {
      hide Since, Grows, SameMoney, OnlyProc, Sound;
      ghost var before := View();
      if runs[r].phase == Running {
        runs := runs[r := runs[r].(phase := Failed)];
      }
      procs := procs[p := Executing(r, Leaving)];
      SinceStep(start, before, Fail(p));
    }

    method LeaveConversation(r: nat, ghost p: Id, ghost start: World)
      requires Since(start, View()) && p in procs && procs[p] == Executing(r, Leaving) && r < |runs|
      modifies this
      ensures Since(start, View()) && View() == Next(old(View()), Leave(p)) && p !in procs && runs == old(runs)
    {
      hide Since, Grows, SameMoney, OnlyProc, Sound;
      ghost var before := View();
      Unlock(r);
      procs := procs - {p};
      SinceStep(start, before, Leave(p));
    }

    /**
     The guarded part of an execution. `allowed` and `confirmed`: the assistant was available whenever
     the guards before and after the analysis asked; `configured`: a model and a key are set; `answer`:
     what the analysis used, `None` when it threw. False only when one of these, or `Stopped` as it was `seen` on
     the way, made it throw.
     */
    method Attempt(r: nat, allowed: bool, configured: bool, limit: int, answer: Option<(nat, nat)>, confirmed: bool,
            ghost p: Id, ghost start: World)
      returns (answered: bool, ghost seen: World)
      requires Since(start, View()) && p in procs && procs[p] == Executing(r, Fresh)
      requires answer.Some? ==> answer.value.0 + answer.value.1 <= RESERVATION
      modifies this
      ensures Since(start, View()) && p in procs && procs[p] == Executing(r, if answered then Leaving else Failing)
      ensures answered ==> answer.Some? && AnsweredWith(View(), r, answer.value.0, answer.value.1)
      ensures Grows(start, seen) && Grows(seen, View())
      ensures allowed && configured && answer.Some? && confirmed && !answered ==> Stopped(seen, r, limit)
    {
      hide Inv, Next, Grows, Knows;
      RunExists(View(), p);
      seen := View();
      if !allowed { ThrowHere(r, Fresh, p, start); GrowsNext(seen, Throw(p)); return false, seen; }
      var passed := CheckRunning(r, p, start);
      GrowsNext(seen, Runs.Guard(p));
      if !passed { return false, seen; }
      Pause(p, start);
      RunExists(View(), p);
      seen := View();
      var cancelled := ReadCancelled(r, p, start);
      GrowsNext(seen, ReadTrigger(p));
      ghost var before := View();
      Pause(p, start);
      GrowsOn(seen, before, View());
      RunExists(View(), p);
      if cancelled {
        before := View();
        CancelOwnRun(r, p, start);
        GrowsNext(before, CancelOwn(p));
        GrowsOn(seen, before, View());
        return false, seen;
      }
      TakeSettings(r, limit, p, start);
      Pause(p, start);
      RunExists(View(), p);
      seen := View();
      if !configured { ThrowHere(r, Limited(limit), p, start); GrowsNext(seen, Throw(p)); return false, seen; }
      var day := TakeDay(r, limit, p, start);
      Pause(p, start);
      RunExists(View(), p);
      seen := View();
      var reserved := ReserveTokens(r, limit, day, p, start);
      GrowsNext(seen, Reserve(p));
      if !reserved { return false, seen; }
      answered, seen := Finish(r, limit, day, answer, confirmed, p, start);
    }

    /** The part of an execution after its reservation: the analysis, the completion and the settlement. */
    method Finish(r: nat, ghost limit: int, day: nat, answer: Option<(nat, nat)>, confirmed: bool, ghost p: Id, ghost start: World)
      returns (answered: bool, ghost seen: World)
      requires Since(start, View()) && p in procs && procs[p] == Executing(r, Charged(day))
      requires answer.Some? ==> answer.value.0 + answer.value.1 <= RESERVATION
      modifies this
      ensures Since(start, View()) && p in procs && procs[p] == Executing(r, if answered then Leaving else Failing)
      ensures answered ==> answer.Some? && AnsweredWith(View(), r, answer.value.0, answer.value.1)
      ensures Grows(start, seen) && Grows(seen, View())
      ensures answer.Some? && confirmed && !answered ==> Stopped(seen, r, limit)
    {
      hide Inv, Next, Grows, Knows;
      Pause(p, start);
      RunExists(View(), p);
      seen := View();
      if answer == None { ThrowHere(r, Charged(day), p, start); GrowsNext(seen, Throw(p)); return false, seen; }
      var input, output := answer.value.0, answer.value.1;
      TakeAnswer(r, day, input, output, p, start);
      Pause(p, start);
      RunExists(View(), p);
      seen := View();
      if !confirmed { ThrowHere(r, Answered(day, input, output), p, start); GrowsNext(seen, Throw(p)); return false, seen; }
      var stored := StoreAnswer(r, day, input, output, p, start);
      GrowsNext(seen, Complete(p));
      if !stored { return false, seen; }
      ghost var before := View();
      Pause(p, start);
      OverStays(before, View(), r);
      RunExists(View(), p);
      seen := View();
      SettleAnswer(r, day, input, output, p, start);
      GrowsNext(seen, Settle(p));
      answered := true;
    }

    /**
     Execute a claimed run. Whatever happens on the way, the run is over when this returns; when an
     answer was stored, the run is completed with exactly the tokens the analysis used and its charge
     is settled to them. With every guard passed and an answer given, none is stored only if on the way, in
     `seen`, the run was no longer running, its trigger was cancelled or the day had no room.
     */
    method Execute(r: nat, allowed: bool, configured: bool, limit: int, answer: Option<(nat, nat)>, confirmed: bool, ghost p: Id)
      returns (answered: bool, ghost seen: World)
      requires Inv(View()) && p in procs && procs[p] == Executing(r, Fresh)
      requires answer.Some? ==> answer.value.0 + answer.value.1 <= RESERVATION
      modifies this
      ensures Inv(View()) && Grows(old(View()), View()) && p !in procs
      ensures r < |runs| && runs[r].Over()
      ensures answered ==> answer.Some? && AnsweredWith(View(), r, answer.value.0, answer.value.1)
      ensures Grows(old(View()), seen) && Grows(seen, View())
      ensures allowed && configured && answer.Some? && confirmed && !answered ==> Stopped(seen, r, limit)
    {
      hide Inv, Next, Grows, Knows;
      ghost var start := View();
      SinceItself(start);
      Pause(p, start);
      answered, seen := Attempt(r, allowed, configured, limit, answer, confirmed, p, start);
      ghost var before := View();
      Pause(p, start);
      GrowsOn(seen, before, View());
      RunExists(View(), p);
      if answered {
        OverStays(before, View(), r);
      } else {
        before := View();
        FailRun(r, p, start);
        GrowsNext(before, Fail(p));
        GrowsOn(seen, before, View());
        before := View();
        Pause(p, start);
        GrowsOn(seen, before, View());
        OverStays(before, View(), r);
      }
      RunExists(View(), p);
      before := View();
      LeaveConversation(r, p, start);
      GrowsNext(before, Leave(p));
      GrowsOn(seen, before, View());
    }

    /**
     Answer a question: the analysis, whose provider answers are `turns`, within an execution. An answer is
     stored with exactly the tokens of the turns up to the one that answered; it is stored whenever the guards pass,
     some turn answers and nothing stops the run on the way.
     */
    method AnswerQuestion(r: nat, allowed: bool, configured: bool, limit: int, turns: seq<Analyst.Turn>, tools: set<string>,
            succeeds: (nat, nat) -> bool, confirmed: bool, ghost p: Id)
      returns (answered: bool, ghost seen: World)
      requires Inv(View()) && p in procs && procs[p] == Executing(r, Fresh) && |turns| >= Analyst.ROUNDS
      modifies this
      ensures Inv(View()) && Grows(old(View()), View()) && p !in procs
      ensures r < |runs| && runs[r].Over()
      ensures answered ==> AnsweredFrom(View(), r, turns, tools)
      ensures Grows(old(View()), seen) && Grows(seen, View())
      ensures allowed && configured && confirmed && !answered && (exists k: nat :: Analyst.AnsweredIn(turns, k, tools)) ==>
        Stopped(seen, r, limit)
    {
      hide Inv, Next, Grows;
      var result := Analyst.Analyze(turns, tools, succeeds);
      answered, seen := Execute(r, allowed, configured, limit,
        if result.Answer? then Some((result.input, result.output)) else None, confirmed, p);
    }

    // ---------------------------------------------------------------- housekeeping

    /** The runs that are running past their lease. */
    method FindExpired(ghost p: Id, ghost start: World) returns (found: seq<nat>)
      requires Since(start, View()) && p !in procs
      modifies this`procs
      ensures Since(start, View()) && p in procs && procs[p] == Expiring(found)
      ensures forall r: nat | r < |runs| && runs[r].phase == Running && runs[r].lease < now :: r in found
    {
      hide Since, Grows, SameMoney, OnlyProc, Sound;
      ghost var before := View();
      found := [];
      var r := 0;
      while r < |runs|
        invariant r <= |runs|
        invariant forall k | k in found :: k < r && runs[k].phase == Running && runs[k].lease < now
        invariant forall k: nat | k < r && runs[k].phase == Running && runs[k].lease < now :: k in found
      {
        if runs[r].phase == Running && runs[r].lease < now {
          assert forall k | k in found + [r] :: k in found || k == r;
          found := found + [r];
        }
        r := r + 1;
      }
      procs := procs[p := Expiring(found)];
      SinceStep(start, before, BeginExpiry(p, found));
    }

    /** `running -> failed`, if the run is still running past its lease. */
    method ExpireOne(found: seq<nat>, ghost p: Id, ghost start: World)
      requires Since(start, View()) && p in procs && procs[p] == Expiring(found)
      requires found != [] && found[0] < |runs|
      modifies this
      ensures Since(start, View()) && View() == Next(old(View()), Runs.Expire(p)) && p in procs && procs[p] == Clearing(found)
      ensures runs == old(runs)[found[0] := old(runs)[found[0]].(phase :=
                if old(runs)[found[0]].phase == Running && old(runs)[found[0]].lease < now then Failed else old(runs)[found[0]].phase)]
    {
      hide Since, Grows, SameMoney, OnlyProc, Sound;
      ghost var before := View();
      var r := found[0];
      if runs[r].phase == Running && runs[r].lease < now {
        runs := runs[r := runs[r].(phase := Failed)];
      }
      procs := procs[p := Clearing(found)];
      SinceStep(start, before, Runs.Expire(p));
    }

    method ClearOne(found: seq<nat>, ghost p: Id, ghost start: World)
      requires Since(start, View()) && p in procs && procs[p] == Clearing(found)
      requires found != [] && found[0] < |runs|
      modifies this
      ensures Since(start, View()) && View() == Next(old(View()), Runs.ClearLock(p)) && p in procs && procs[p] == Expiring(found[1..])
      ensures runs == old(runs)
    {
      hide Since, Grows, SameMoney, OnlyProc, Sound;
      ghost var before := View();
      Unlock(found[0]);
      procs := procs[p := Expiring(found[1..])];
      SinceStep(start, before, Runs.ClearLock(p));
    }

    ghost method EndExpiring(p: Id, start: World)
      requires Since(start, View()) && p in procs && procs[p] == Expiring([])
      modifies this`procs
      ensures Since(start, View()) && View() == Next(old(View()), Runs.Expire(p)) && p !in procs
    {
      hide Since, Grows, SameMoney, OnlyProc, Sound;
      ghost var before := View();
      procs := procs - {p};
      SinceStep(start, before, Runs.Expire(p));
    }

    /** Fail the runs that have outlived their lease, and let their conversations go: all that had when this began are over. */
    method ExpireRuns(ghost p: Id)
      requires Inv(View()) && p !in procs
      modifies this
      ensures Inv(View()) && Grows(old(View()), View()) && p !in procs
      ensures forall r: nat | r < |old(runs)| && old(runs)[r].phase == Running && old(runs)[r].lease < old(now) ::
                r < |runs| && runs[r].Over()
    {
      hide Inv, Next, Grows, Knows, AllOver;
      ghost var start := View();
      SinceItself(start);
      Pause(p, start);
      var found := FindExpired(p, start);
      FoundExpired(start, View(), found);
      var left := found;
      while left != []
        invariant Since(start, View()) && p in procs && procs[p] == Expiring(left) && AllOver(start, View(), left)
      {
        ghost var before := View();
        Pause(p, start);
        ExpiringExists(View(), p, left);
        AllOverStays(start, before, View(), left);
        before := View();
        ExpireOne(left, p, start);
        AllOverStays(start, before, View(), left);
        before := View();
        Pause(p, start);
        AllOverStays(start, before, View(), left);
        ExpiringExists(View(), p, left);
        before := View();
        ClearOne(left, p, start);
        AllOverStays(start, before, View(), left);
        OneLess(start, View(), left);
        left := left[1..];
      }
      ghost var before := View();
      EndExpiring(p, start);
      AllOverStays(start, before, View(), []);
      NoneExpired(start, View());
    }

    /** Questions still in the outbox and not cancelled, oldest first, at most PENDING of them. */
    method FindPending(ghost p: Id, ghost start: World) returns (pending: seq<nat>)
      requires Since(start, View()) && p !in procs
      modifies this`procs
      ensures Since(start, View()) && p in procs && procs[p] == Recovering(pending)
      ensures |pending| <= PENDING && forall m | m in pending :: m < |messages| && messages[m].request && !messages[m].cancelled
      ensures |pending| < PENDING ==>
        forall m: nat | m < |messages| && messages[m].request && !messages[m].cancelled :: m in pending
    {
      hide Since, Grows, SameMoney, OnlyProc, Sound;
      ghost var before := View();
      pending := [];
      var m := 0;
      while m < |messages| && |pending| < PENDING
        invariant m <= |messages| && |pending| <= PENDING
        invariant forall k | k in pending :: k < m && messages[k].request && !messages[k].cancelled
        invariant forall k: nat | k < m && messages[k].request && !messages[k].cancelled :: k in pending
      {
        if messages[m].request && !messages[m].cancelled {
          assert forall k | k in pending + [m] :: k in pending || k == m;
          pending := pending + [m];
        }
        m := m + 1;
      }
      procs := procs[p := Recovering(pending)];
      SinceStep(start, before, BeginRecovery(p, pending));
    }

    /** The run of the first pending message, unless it has one. */
    method InsertRun(pending: seq<nat>, ghost p: Id, ghost start: World)
      requires Since(start, View()) && p in procs && procs[p] == Recovering(pending)
      requires pending != [] && pending[0] < |messages| && messages[pending[0]].complete
      modifies this
      ensures Since(start, View()) && View() == Next(old(View()), Runs.Queue(p))
      ensures p in procs && procs[p] == Unsetting(pending) && HasRun(View(), pending[0])
    {
      hide Since, Grows, SameMoney, OnlyProc, Sound;
      ghost var before := View();
      var m := pending[0];
      if messages[m].run == None {
        var run := Run(m, messages[m].conversation, messages[m].sender, now, Queued, 0, 0, 0, 0, None, false);
        messages := messages[m := messages[m].(run := Some(|runs|))];
        runs := runs + [run];
      }
      procs := procs[p := Unsetting(pending)];
      SinceStep(start, before, Runs.Queue(p));
    }

    method ClearRequest(pending: seq<nat>, ghost p: Id, ghost start: World)
      requires Since(start, View()) && p in procs && procs[p] == Unsetting(pending)
      requires pending != [] && pending[0] < |messages|
      modifies this
      ensures Since(start, View()) && View() == Next(old(View()), Unset(p))
      ensures p in procs && procs[p] == Recovering(pending[1..]) && !messages[pending[0]].request
      ensures HasRun(old(View()), pending[0]) ==> Served(View(), pending[0])
    {
      hide Since, Grows, SameMoney, OnlyProc, Sound;
      ghost var before := View();
      messages := messages[pending[0] := messages[pending[0]].(request := false)];
      procs := procs[p := Recovering(pending[1..])];
      SinceStep(start, before, Unset(p));
    }

    ghost method PassOver(pending: seq<nat>, p: Id, start: World)
      requires Since(start, View()) && p in procs && procs[p] == Recovering(pending)
      requires pending != [] ==> pending[0] < |messages| && !messages[pending[0]].complete
      modifies this`procs
      ensures Since(start, View()) && View() == Next(old(View()), Skip(p))
      ensures if pending == [] then p !in procs else p in procs && procs[p] == Recovering(pending[1..])
    {
      hide Since, Grows, SameMoney, OnlyProc, Sound;
      ghost var before := View();
      procs := if pending == [] then procs - {p} else procs[p := Recovering(pending[1..])];
      SinceStep(start, before, Skip(p));
    }

    /**
     Turn the questions in the outbox into runs. When the batch was not full, every complete question
     that was stored when this began has a run and is out of the outbox, or is cancelled, when it returns.
     */
    method RecoverOutbox(ghost p: Id) returns (batch: seq<nat>)
      requires Inv(View()) && p !in procs
      modifies this
      ensures Inv(View()) && Grows(old(View()), View()) && p !in procs
      ensures |batch| < PENDING ==> AllServed(View(), |old(messages)|, [])
    {
      hide Inv, Next, Grows, Knows, HasRun, AllServed;
      ghost var start := View();
      ghost var stored := |messages|;
      SinceItself(start);
      Pause(p, start);
      batch := FindPending(p, start);
      if |batch| < PENDING { FoundServed(start, View(), batch); }
      var pending := batch;
      while pending != []
        invariant Since(start, View()) && p in procs && procs[p] == Recovering(pending)
        invariant |batch| < PENDING ==> AllServed(View(), stored, pending)
      {
        ghost var before := View();
        Pause(p, start);
        ServedStays(before, View(), stored, pending);
        PendingExists(View(), p, pending);
        before := View();
        if !messages[pending[0]].complete {
          PassOver(pending, p, start);
          ServedStays(before, View(), stored, pending);
          ServedNext(View(), stored, pending);
        } else {
          InsertRun(pending, p, start);
          ServedStays(before, View(), stored, pending);
          before := View();
          Pause(p, start);
          ServedStays(before, View(), stored, pending);
          PendingExists(View(), p, pending);
          before := View();
          ClearRequest(pending, p, start);
          ServedStays(before, View(), stored, pending);
          ServedNext(View(), stored, pending);
        }
        pending := pending[1..];
      }
      ghost var last := View();
      PassOver(pending, p, start);
      ServedStays(last, View(), stored, []);
    }
  }
}
