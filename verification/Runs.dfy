/**
 Assistant runs of the chat service as a state machine over its database calls. Each step is one call
 on one document, by any of any number of worker replicas and requests; a process keeps between its
 steps only what it has read (`Proc`). Calls that update many documents take one step per document.
 */
module Runs {
  import opened Common
  import Analyst

  const RESERVATION: nat := Analyst.RESERVATION
  const LEASE_MS: nat := 300000
  const CLAIM_CANDIDATES: nat := 20
  const PENDING: nat := 200

  /**
   A stored message. `asked`: it was stored with a request to the assistant; `request`: that request is
   still in the outbox; `complete`: the request names a user, an email and a name. `run` is the entry of
   the unique index on `messageId`: the run of this message, if there is one.
   */
  datatype Message = Message(
    conversation: Id, sender: Id, asked: bool, complete: bool, request: bool, cancelled: bool, run: Option<nat>)

  datatype Phase = Queued | Running | Completed | Failed | Cancelled

  /** A run. `charged` and `settled` are history: the day it was charged to, and whether the rest was given back. */
  datatype Run = Run(
    message: nat, conversation: Id, user: Id, created: nat,
    phase: Phase, attempt: nat, lease: nat, input: nat, output: nat,
    charged: Option<nat>, settled: bool)
  {
    predicate Open() { phase == Queued || phase == Running }
    predicate Over() { !Open() }
    function Tokens(): nat { input + output }
  }

  /** `workerUntil` and `workerRunId` of a conversation. */
  datatype Lock = Lock(until: nat, run: nat)

  /** A user's budget of one day. `ceiling` is history: the largest limit a reservation was checked against. */
  datatype Budget = Budget(reserved: int, ceiling: int)

  datatype Stage =
    | Fresh                                       // claimed; nothing read yet
    | Guarded                                     // the guard was passed
    | Refusing                                    // the trigger was cancelled
    | Triggered                                   // the trigger was not cancelled when read
    | Limited(limit: int)                         // settings read
    | Priced(limit: int, day: nat)                // the day of the charge fixed
    | Charged(day: nat)                           // reservation made; the provider is asked
    | Answered(day: nat, input: nat, output: nat) // the provider answered
    | Finished(day: nat, input: nat, output: nat) // completion committed; settlement to do
    | Failing                                     // an error was thrown
    | Leaving                                     // the lock is still to be released

  datatype Proc =
    | Claiming(candidates: seq<nat>, at: nat, skipped: set<Id>)
    | Holding(candidates: seq<nat>, at: nat, skipped: set<Id>)
    | Releasing(candidates: seq<nat>, at: nat, skipped: set<Id>)
    | Executing(run: nat, stage: Stage)
    | Recovering(pending: seq<nat>)
    | Unsetting(pending: seq<nat>)
    | Expiring(found: seq<nat>)
    | Clearing(found: seq<nat>)
    | Marking(user: Id, conversation: Id, stored: nat, open: set<nat>, todo: set<nat>)
    | Stopping(user: Id, conversation: Id, stored: nat, todo: set<nat>)
    | Done(user: Id, conversation: Id, stored: nat)

  datatype World = World(
    now: nat, messages: seq<Message>, runs: seq<Run>,
    locks: map<Id, Lock>, budgets: map<(Id, nat), Budget>, procs: map<Id, Proc>)

  const START := World(0, [], [], map[], map[], map[])

  // ---------------------------------------------------------------- reading the database

  predicate HasRun(w: World, m: nat) {
    m < |w.messages| && w.messages[m].run.Some?
  }

  /** Questions a `cancelRuns` of this user in this conversation covers, of those stored so far. */
  predicate Covers(w: World, user: Id, conversation: Id, m: nat) {
    m < |w.messages| && w.messages[m].asked && w.messages[m].sender == user && w.messages[m].conversation == conversation
  }

  function OpenMessages(w: World, user: Id, conversation: Id): set<nat> {
    set r: nat | r < |w.runs| && w.runs[r].user == user && w.runs[r].conversation == conversation && w.runs[r].Open()
      :: w.runs[r].message
  }

  function SentBy(w: World, user: Id, conversation: Id): set<nat> {
    set m: nat | m < |w.messages| && w.messages[m].sender == user && w.messages[m].conversation == conversation
  }

  function RunsOf(w: World, user: Id, conversation: Id): set<nat> {
    set r: nat | r < |w.runs| && w.runs[r].user == user && w.runs[r].conversation == conversation
  }

  /** The oldest queued runs, at most CLAIM_CANDIDATES of them, oldest first; ties in any order. */
  ghost predicate OldestQueued(w: World, candidates: seq<nat>) {
    && |candidates| <= CLAIM_CANDIDATES
    && (forall k | 0 <= k < |candidates| :: candidates[k] < |w.runs| && w.runs[candidates[k]].phase == Queued)
    && (forall j, k | 0 <= j < k < |candidates| :: w.runs[candidates[j]].created <= w.runs[candidates[k]].created)
    && (forall r: nat, k | r < |w.runs| && 0 <= k < |candidates| && w.runs[r].phase == Queued
          && w.runs[r].created < w.runs[candidates[k]].created :: r in candidates)
  }

  function Reserved(w: World, user: Id, day: nat): int {
    if (user, day) in w.budgets then w.budgets[(user, day)].reserved else 0
  }

  function Ceiling(w: World, user: Id, day: nat): int {
    if (user, day) in w.budgets then w.budgets[(user, day)].ceiling else 0
  }

  // ---------------------------------------------------------------- moving forward

  /** A run never goes back, and a run that is over stays as it is. */
  predicate Moves(a: Phase, b: Phase) {
    a == b || a == Queued || (a == Running && b != Queued)
  }

  predicate SameQuestion(a: Message, b: Message) {
    a.conversation == b.conversation && a.sender == b.sender && a.asked == b.asked && a.complete == b.complete
      && (a.cancelled ==> b.cancelled) && (b.request ==> a.request) && (a.run.Some? ==> b.run == a.run)
  }

  predicate SameRun(a: Run, b: Run) {
    a.message == b.message && a.conversation == b.conversation && a.user == b.user && a.created == b.created
      && Moves(a.phase, b.phase) && a.attempt <= b.attempt
      && (a.Over() ==> a.input == b.input && a.output == b.output) && (a.settled ==> b.settled)
      && (a.phase != Queued ==> b.lease == a.lease)
  }

  ghost predicate Grows(a: World, b: World) {
    && a.now <= b.now
    && |a.messages| <= |b.messages| && (forall m: nat | m < |a.messages| :: SameQuestion(a.messages[m], b.messages[m]))
    && |a.runs| <= |b.runs| && (forall r: nat | r < |a.runs| :: SameRun(a.runs[r], b.runs[r]))
    && (forall r: nat | |a.runs| <= r < |b.runs| :: b.runs[r].created >= a.now)
  }

  /** No other process than p is touched. */
  ghost predicate OnlyProc(a: World, b: World, p: Id) {
    forall q | q != p :: (q in b.procs <==> q in a.procs) && (q in a.procs ==> b.procs[q] == a.procs[q])
  }

  /** Runs belong to questions, one each, in order of creation; a question out of the outbox has a run or is cancelled. */
  ghost predicate Sound(w: World) {
    && (forall r: nat | r < |w.runs| :: Belongs(w.messages, w.now, w.runs[r], r))
    && (forall q: nat, r: nat | q < r < |w.runs| :: w.runs[q].created <= w.runs[r].created)
    && (forall m: nat | m < |w.messages| :: Accounted(w.runs, w.messages[m], m))
  }

  predicate Belongs(messages: seq<Message>, now: nat, run: Run, r: nat) {
    && run.message < |messages| && run.created <= now
    && var m := messages[run.message];
      m.asked && m.run == Some(r) && m.conversation == run.conversation && m.sender == run.user
  }

  predicate Accounted(runs: seq<Run>, message: Message, m: nat) {
    && (message.request ==> message.asked)
    && (message.run.Some? ==> message.run.value < |runs| && runs[message.run.value].message == m)
    && (message.asked && !message.request && !message.cancelled ==> message.run.Some?)
  }

  // ---------------------------------------------------------------- what each process knows

  ghost predicate KnowsCandidates(w: World, c: seq<nat>, at: nat, skipped: set<Id>) {
    && at <= |c|
    && (forall k | 0 <= k < |c| :: c[k] < |w.runs|)
    && (forall j | 0 <= j < at :: w.runs[c[j]].conversation in skipped)
    && (forall k | at <= k < |c| :: OlderAreEarlier(w, c, k))
  }

  /** Every queued run of the same conversation older than candidate k stands before it in the list. */
  ghost predicate OlderAreEarlier(w: World, c: seq<nat>, k: nat)
    requires k < |c| && c[k] < |w.runs|
  {
    forall r: nat | r < |w.runs| && Older(w.runs[r], w.runs[c[k]]) && w.runs[r].phase == Queued :: r in c[..k]
  }

  predicate Older(a: Run, b: Run) {
    a.conversation == b.conversation && a.created < b.created
  }

  /** A run that was found running past its lease: it has ended since, or is still past it. */
  predicate RanOut(now: nat, run: Run) {
    run.phase != Queued && (run.phase == Running ==> run.lease < now)
  }

  ghost predicate Knows(w: World, proc: Proc) {
    match proc
    case Claiming(c, at, skipped) => KnowsCandidates(w, c, at, skipped)
    case Holding(c, at, skipped) =>
      && KnowsCandidates(w, c, at, skipped) && at < |c|
      && w.runs[c[at]].conversation in skipped
      && (forall j | 0 <= j < at :: w.runs[c[j]].conversation != w.runs[c[at]].conversation)
    case Releasing(c, at, skipped) => KnowsCandidates(w, c, at, skipped) && at < |c| && w.runs[c[at]].conversation in skipped
    case Executing(r, _) => r < |w.runs| && w.runs[r].phase != Queued
    case Recovering(pending) => forall m | m in pending :: m < |w.messages| && w.messages[m].asked
    case Unsetting(pending) =>
      pending != [] && HasRun(w, pending[0]) && forall m | m in pending :: m < |w.messages| && w.messages[m].asked
    case Expiring(found) => forall r | r in found :: r < |w.runs| && RanOut(w.now, w.runs[r])
    case Clearing(found) =>
      && found != [] && found[0] < |w.runs| && w.runs[found[0]].Over()
      && (forall r | r in found :: r < |w.runs| && RanOut(w.now, w.runs[r]))
    case Marking(user, conversation, stored, _, todo) =>
      stored <= |w.messages| &&
      forall m: nat | m < stored && Covers(w, user, conversation, m) && m !in todo :: w.messages[m].cancelled || HasRun(w, m)
    case Stopping(_, _, stored, _) => stored <= |w.messages|
    case Done(_, _, stored) => stored <= |w.messages|
  }

  ghost predicate AllKnow(w: World) {
    forall p | p in w.procs :: Knows(w, w.procs[p])
  }

  // ---------------------------------------------------------------- money

  /** What a run weighs on its user's budget of a day. */
  function Charge(run: Run, user: Id, day: nat): int {
    if run.user != user || run.charged != Some(day) then 0 else if run.settled then run.Tokens() else RESERVATION
  }

  function Charges(runs: seq<Run>, user: Id, day: nat): int {
    if runs == [] then 0 else Charges(runs[..|runs| - 1], user, day) + Charge(runs[|runs| - 1], user, day)
  }

  predicate MoneySame(a: Run, b: Run) {
    a.user == b.user && a.charged == b.charged && a.settled == b.settled && a.input == b.input && a.output == b.output
      && (a.phase == Completed <==> b.phase == Completed) && (b.phase == Queued ==> a.phase == Queued) && a.attempt == b.attempt
  }

  /** Neither a budget nor what any run weighs on one is touched. */
  ghost predicate SameMoney(a: World, b: World) {
    && a.budgets == b.budgets && |a.runs| == |b.runs|
    && forall r: nat | r < |a.runs| :: MoneySame(a.runs[r], b.runs[r])
  }

  /** A run is claimed at most once, charged before it completes, and settled only once completed. */
  predicate Orderly(run: Run) {
    && run.attempt <= 1 && (run.phase == Queued ==> run.attempt == 0 && run.charged == None)
    && (run.settled ==> run.phase == Completed)
    && (run.phase == Completed ==> run.charged.Some? && run.Tokens() <= RESERVATION)
  }

  /** Where an execution stands agrees with what has been charged to its run. */
  predicate Agrees(run: Run, stage: Stage) {
    match stage
    case Charged(day) => run.charged == Some(day) && !run.settled && run.phase != Completed
    case Answered(day, input, output) =>
      run.charged == Some(day) && !run.settled && run.phase != Completed && input + output <= RESERVATION
    case Finished(day, input, output) =>
      run.charged == Some(day) && !run.settled && run.phase == Completed && run.input == input && run.output == output
    case Failing => true
    case Leaving => true
    case _ => run.charged == None && run.phase != Completed
  }

  /** No run is executed by two processes, and every execution agrees with its run. */
  ghost predicate Orders(w: World) {
    && (forall r: nat | r < |w.runs| :: Orderly(w.runs[r]))
    && (forall p, q | p in w.procs && q in w.procs && p != q && w.procs[p].Executing? && w.procs[q].Executing? ::
          w.procs[p].run != w.procs[q].run)
    && (forall p | p in w.procs && w.procs[p].Executing? ::
          w.procs[p].run < |w.runs| && Agrees(w.runs[w.procs[p].run], w.procs[p].stage))
  }

  /** Each budget is exactly what its runs weigh on it, and never above the largest limit it was checked against. */
  ghost predicate Balanced(w: World) {
    forall user: Id, day: nat :: Reserved(w, user, day) == Charges(w.runs, user, day) <= Ceiling(w, user, day)
  }

  // ---------------------------------------------------------------- steps

  datatype Step =
    | Tick(ms: nat)
    | Store(conversation: Id, sender: Id, asked: bool, complete: bool)
    // a worker claiming
    | BeginClaim(p: Id, candidates: seq<nat>)
    | TakeLock(p: Id)
    | TakeRun(p: Id)
    | Release(p: Id)
    // a worker executing
    | Guard(p: Id)
    | ReadTrigger(p: Id)
    | CancelOwn(p: Id)
    | ReadSettings(p: Id, limit: int)
    | ReadDay(p: Id)
    | Reserve(p: Id)
    | Answer(p: Id, input: nat, output: nat)
    | Complete(p: Id)
    | Settle(p: Id)
    | Throw(p: Id)
    | Fail(p: Id)
    | Leave(p: Id)
    // housekeeping
    | BeginRecovery(p: Id, pending: seq<nat>)
    | Skip(p: Id)
    | Queue(p: Id)
    | Unset(p: Id)
    | BeginExpiry(p: Id, found: seq<nat>)
    | Expire(p: Id)
    | ClearLock(p: Id)
    // cancelRuns
    | FindOpen(p: Id, user: Id, conversation: Id)
    | Mark(p: Id, m: nat)
    | EndMarking(p: Id)
    | Stop(p: Id, r: nat)
    | EndStopping(p: Id)
    // pausing or removing an assistant
    | RevokeMessage(m: nat)
    | RevokeRun(r: nat)
    // a process dies where it stands
    | Crash(p: Id)

  function SetProc(w: World, p: Id, proc: Proc): (w': World)
    ensures Grows(w, w')
    ensures SameMoney(w, w')
    ensures OnlyProc(w, w', p)
    ensures Sound(w) ==> Sound(w')
  {
    w.(procs := w.procs[p := proc])
  }

  function EndProc(w: World, p: Id): (w': World)
    ensures Grows(w, w')
    ensures SameMoney(w, w')
    ensures OnlyProc(w, w', p)
    ensures Sound(w) ==> Sound(w')
  {
    w.(procs := w.procs - {p})
  }

  function SetRun(w: World, r: nat, run: Run): World
    requires r < |w.runs|
  {
    w.(runs := w.runs[r := run])
  }

  function Unlocked(w: World, r: nat): (w': World)
    requires r < |w.runs|
    ensures Grows(w, w')
    ensures SameMoney(w, w')
    ensures w'.procs == w.procs
    ensures Sound(w) ==> Sound(w')
  {
    var c := w.runs[r].conversation;
    if c in w.locks && w.locks[c].run == r then w.(locks := w.locks - {c}) else w
  }

  function StoreMessage(w: World, conversation: Id, sender: Id, asked: bool, complete: bool): (w': World)
    ensures Grows(w, w')
    ensures SameMoney(w, w')
    ensures w'.procs == w.procs
    ensures Sound(w) ==> Sound(w')
  {
    w.(messages := w.messages + [Message(conversation, sender, asked, complete, asked, false, None)])
  }

  /** One turn of the claim loop: skip a conversation tried before, or try its lock. */
  function TryLock(w: World, p: Id, c: seq<nat>, at: nat, skipped: set<Id>): (w': World)
    ensures Grows(w, w')
    ensures SameMoney(w, w')
    ensures OnlyProc(w, w', p)
    ensures Sound(w) ==> Sound(w')
  {
    if at >= |c| then EndProc(w, p)
    else if c[at] >= |w.runs| then w
    else
      var conversation := w.runs[c[at]].conversation;
      if conversation in skipped then SetProc(w, p, Claiming(c, at + 1, skipped))
      else if conversation in w.locks && w.locks[conversation].until >= w.now then
        SetProc(w, p, Claiming(c, at + 1, skipped + {conversation}))
      else
        SetProc(w.(locks := w.locks[conversation := Lock(w.now + LEASE_MS, c[at])]), p, Holding(c, at, skipped + {conversation}))
  }

  /** Claim the run whose conversation is locked, if it is still queued. */
  function ClaimRun(w: World, p: Id, c: seq<nat>, at: nat, skipped: set<Id>): (w': World)
    ensures Grows(w, w')
    ensures OnlyProc(w, w', p)
    ensures Sound(w) ==> Sound(w')
  {
    if at >= |c| || c[at] >= |w.runs| then w
    else
      var run := w.runs[c[at]];
      if run.phase == Queued then
        SetProc(
          SetRun(w, c[at], run.(phase := Running, lease := w.now + LEASE_MS, attempt := run.attempt + 1)),
          p, Executing(c[at], Fresh))
      else SetProc(w, p, Releasing(c, at, skipped))
  }

  function ReleaseLock(w: World, p: Id, c: seq<nat>, at: nat, skipped: set<Id>): (w': World)
    ensures Grows(w, w')
    ensures SameMoney(w, w')
    ensures OnlyProc(w, w', p)
    ensures Sound(w) ==> Sound(w')
  {
    if at >= |c| || c[at] >= |w.runs| then w
    else SetProc(Unlocked(w, c[at]), p, Claiming(c, at + 1, skipped))
  }

  /** The guard's own reading of the run; what else it asks about may throw at any point (`Throw`). */
  function Guarding(w: World, p: Id, r: nat): (w': World)
    ensures Grows(w, w')
    ensures SameMoney(w, w')
    ensures OnlyProc(w, w', p)
    ensures Sound(w) ==> Sound(w')
  {
    if r >= |w.runs| then w
    else SetProc(w, p, Executing(r, if w.runs[r].phase == Running then Guarded else Failing))
  }

  function TriggerRead(w: World, p: Id, r: nat): (w': World)
    ensures Grows(w, w')
    ensures SameMoney(w, w')
    ensures OnlyProc(w, w', p)
    ensures Sound(w) ==> Sound(w')
  {
    if r >= |w.runs| || w.runs[r].message >= |w.messages| then w
    else SetProc(w, p, Executing(r, if w.messages[w.runs[r].message].cancelled then Refusing else Triggered))
  }

  /** `running -> to`; nothing when the run has left `running`. */
  function EndRun(w: World, r: nat, to: Phase): (w': World)
    requires r < |w.runs| && (to == Failed || to == Cancelled)
    ensures Grows(w, w')
    ensures SameMoney(w, w')
    ensures w'.procs == w.procs
    ensures Sound(w) ==> Sound(w')
  {
    if w.runs[r].phase == Running then SetRun(w, r, w.runs[r].(phase := to)) else w
  }

  /** The run charged, and its reservation added to the day's budget. */
  function ChargeRun(w: World, r: nat, limit: int, day: nat): (w': World)
    requires r < |w.runs|
    ensures Grows(w, w') && w'.procs == w.procs
    ensures Sound(w) ==> Sound(w')
  {
    var key := (w.runs[r].user, day);
    SetRun(w, r, w.runs[r].(charged := Some(day))).(
      budgets := w.budgets[key := Budget(Reserved(w, key.0, day) + RESERVATION, Max(Ceiling(w, key.0, day), limit))])
  }

  /** The conditional reservation against the limit read before; an error when it does not fit. */
  function MakeReservation(w: World, p: Id, r: nat, limit: int, day: nat): (w': World)
    ensures Grows(w, w')
    ensures OnlyProc(w, w', p)
    ensures Sound(w) ==> Sound(w')
  {
    if r >= |w.runs| then w
    else if Reserved(w, w.runs[r].user, day) <= limit - RESERVATION then
      SetProc(ChargeRun(w, r, limit, day), p, Executing(r, Charged(day)))
    else
      SetProc(w, p, Executing(r, Failing))
  }

  /** `running -> completed`, with the tokens of the answer. */
  function AnswerRun(w: World, r: nat, input: nat, output: nat): (w': World)
    requires r < |w.runs| && w.runs[r].phase == Running
    ensures Grows(w, w') && w'.procs == w.procs
    ensures Sound(w) ==> Sound(w')
  {
    SetRun(w, r, w.runs[r].(phase := Completed, input := input, output := output))
  }

  /** The completion, conditional on the run still running. */
  function CompleteRun(w: World, p: Id, r: nat, day: nat, input: nat, output: nat): (w': World)
    ensures Grows(w, w')
    ensures OnlyProc(w, w', p)
    ensures Sound(w) ==> Sound(w')
  {
    if r >= |w.runs| then w
    else if w.runs[r].phase == Running then
      SetProc(AnswerRun(w, r, input, output), p, Executing(r, Finished(day, input, output)))
    else SetProc(w, p, Executing(r, Failing))
  }

  /** The run settled, and what its reservation had over given back. */
  function GiveBack(w: World, r: nat, day: nat, unused: int): (w': World)
    requires r < |w.runs|
    ensures Grows(w, w') && w'.procs == w.procs
    ensures Sound(w) ==> Sound(w')
  {
    var key := (w.runs[r].user, day);
    SetRun(w, r, w.runs[r].(settled := true)).(
      budgets := w.budgets[key := Budget(Reserved(w, key.0, day) - unused, Ceiling(w, key.0, day))])
  }

  /** Give back what the answer did not use. */
  function SettleRun(w: World, p: Id, r: nat, day: nat, input: nat, output: nat): (w': World)
    ensures Grows(w, w')
    ensures OnlyProc(w, w', p)
    ensures Sound(w) ==> Sound(w')
  {
    if r >= |w.runs| then w
    else SetProc(GiveBack(w, r, day, RESERVATION - input - output), p, Executing(r, Leaving))
  }

  /** An execution's calls that touch no money. */
  function ExecutedQuietly(w: World, st: Step, p: Id, r: nat, stage: Stage): (w': World)
    ensures Grows(w, w')
    ensures OnlyProc(w, w', p)
    ensures Sound(w) ==> Sound(w')
    ensures SameMoney(w, w')
  {
    if st.Guard? && stage.Fresh? then Guarding(w, p, r)
    else if st.ReadTrigger? && stage.Guarded? then TriggerRead(w, p, r)
    else if st.CancelOwn? && stage.Refusing? && r < |w.runs| then SetProc(EndRun(w, r, Cancelled), p, Executing(r, Failing))
    else if st.ReadSettings? && stage.Triggered? then SetProc(w, p, Executing(r, Limited(st.limit)))
    else if st.ReadDay? && stage.Limited? then SetProc(w, p, Executing(r, Priced(stage.limit, w.now / DAY_MS)))
    else if st.Answer? && stage.Charged? && st.input + st.output <= RESERVATION then
      SetProc(w, p, Executing(r, Answered(stage.day, st.input, st.output)))
    else if st.Fail? && stage.Failing? && r < |w.runs| then SetProc(EndRun(w, r, Failed), p, Executing(r, Leaving))
    else if st.Leave? && stage.Leaving? && r < |w.runs| then EndProc(Unlocked(w, r), p)
    // Settlement is the last call of the body: once completion has committed only settling can be lost.
    else if st.Throw? && !stage.Leaving? then SetProc(w, p, Executing(r, Failing))
    else w
  }

  function Executed(w: World, st: Step, p: Id, r: nat, stage: Stage): (w': World)
    ensures Grows(w, w')
    ensures OnlyProc(w, w', p)
    ensures Sound(w) ==> Sound(w')
  {
    if st.Reserve? && stage.Priced? then MakeReservation(w, p, r, stage.limit, stage.day)
    else if st.Complete? && stage.Answered? then CompleteRun(w, p, r, stage.day, stage.input, stage.output)
    else if st.Settle? && stage.Finished? then SettleRun(w, p, r, stage.day, stage.input, stage.output)
    else ExecutedQuietly(w, st, p, r, stage)
  }

  /** The run of message m enters the table and the unique index. */
  function AddRun(w: World, m: nat): (w': World)
    requires m < |w.messages| && w.messages[m].run == None
    ensures Grows(w, w') && w'.procs == w.procs
    ensures Sound(w) && w.messages[m].asked ==> Sound(w')
  {
    var message := w.messages[m];
    w.(runs := w.runs + [Run(m, message.conversation, message.sender, w.now, Queued, 0, 0, 0, 0, None, false)],
       messages := w.messages[m := message.(run := Some(|w.runs|))])
  }

  /** Insert the run of the first pending message unless it has one. */
  function QueueRun(w: World, p: Id, pending: seq<nat>): (w': World)
    ensures Grows(w, w')
    ensures OnlyProc(w, w', p)
    ensures Sound(w) && Knows(w, Recovering(pending)) ==> Sound(w')
  {
    if pending == [] || pending[0] >= |w.messages| || !w.messages[pending[0]].complete then w
    else SetProc(if w.messages[pending[0]].run.Some? then w else AddRun(w, pending[0]), p, Unsetting(pending))
  }

  function UnsetRequest(w: World, p: Id, pending: seq<nat>): (w': World)
    ensures Grows(w, w')
    ensures SameMoney(w, w')
    ensures OnlyProc(w, w', p)
    ensures Sound(w) && Knows(w, Unsetting(pending)) ==> Sound(w')
  {
    if pending == [] || pending[0] >= |w.messages| then w
    else
      SetProc(
        w.(messages := w.messages[pending[0] := w.messages[pending[0]].(request := false)]),
        p, Recovering(pending[1..]))
  }

  /** A request that names no user, email or name is passed over. */
  function SkipPending(w: World, p: Id, pending: seq<nat>): (w': World)
    ensures Grows(w, w')
    ensures SameMoney(w, w')
    ensures OnlyProc(w, w', p)
    ensures Sound(w) ==> Sound(w')
  {
    if pending == [] then EndProc(w, p)
    else if pending[0] < |w.messages| && !w.messages[pending[0]].complete then SetProc(w, p, Recovering(pending[1..]))
    else w
  }

  /** Housekeeping reaches an expired run: `running -> failed`, if it is still running past its lease. */
  function ExpireRun(w: World, p: Id, found: seq<nat>): (w': World)
    ensures Grows(w, w')
    ensures SameMoney(w, w')
    ensures OnlyProc(w, w', p)
    ensures Sound(w) ==> Sound(w')
  {
    if found == [] then EndProc(w, p)
    else if found[0] >= |w.runs| then w
    else SetProc(if w.runs[found[0]].lease < w.now then EndRun(w, found[0], Failed) else w, p, Clearing(found))
  }

  /** Then its conversation need not wait out the rest of the lock. */
  function ClearExpired(w: World, p: Id, found: seq<nat>): (w': World)
    ensures Grows(w, w')
    ensures SameMoney(w, w')
    ensures OnlyProc(w, w', p)
    ensures Sound(w) ==> Sound(w')
  {
    if found == [] || found[0] >= |w.runs| then w
    else SetProc(Unlocked(w, found[0]), p, Expiring(found[1..]))
  }

  function CancelMessage(w: World, m: nat): (w': World)
    requires m < |w.messages|
    ensures Grows(w, w')
    ensures SameMoney(w, w')
    ensures w'.procs == w.procs
    ensures Sound(w) ==> Sound(w')
  {
    w.(messages := w.messages[m := w.messages[m].(request := false, cancelled := true)])
  }

  function CancelRun(w: World, r: nat): (w': World)
    requires r < |w.runs|
    ensures Grows(w, w')
    ensures SameMoney(w, w')
    ensures w'.procs == w.procs
    ensures Sound(w) ==> Sound(w')
  {
    if w.runs[r].Open() then SetRun(w, r, w.runs[r].(phase := Cancelled)) else w
  }

  /** `cancelRuns` reaches message m: cancelled if its request is still there or its run was found open. */
  function MarkMessage(w: World, p: Id, user: Id, conversation: Id, stored: nat, open: set<nat>, todo: set<nat>, m: nat): (w': World)
    ensures Grows(w, w')
    ensures SameMoney(w, w')
    ensures OnlyProc(w, w', p)
    ensures Sound(w) ==> Sound(w')
  {
    if m >= |w.messages| || w.messages[m].sender != user || w.messages[m].conversation != conversation then w
    else
      var v := if w.messages[m].request || m in open then CancelMessage(w, m) else w;
      SetProc(v, p, Marking(user, conversation, stored, open, todo - {m}))
  }

  /** `cancelRuns` reaches run r: cancelled if it is queued or running. */
  function StopRun(w: World, p: Id, user: Id, conversation: Id, stored: nat, todo: set<nat>, r: nat): (w': World)
    ensures Grows(w, w')
    ensures SameMoney(w, w')
    ensures OnlyProc(w, w', p)
    ensures Sound(w) ==> Sound(w')
  {
    if r >= |w.runs| || w.runs[r].user != user || w.runs[r].conversation != conversation then w
    else SetProc(CancelRun(w, r), p, Stopping(user, conversation, stored, todo - {r}))
  }

  function Moved(w: World, st: Step, p: Id, proc: Proc): (w': World)
    ensures Grows(w, w')
    ensures OnlyProc(w, w', p)
    ensures Sound(w) && Knows(w, proc) ==> Sound(w')
  {
    match proc
    case Claiming(c, at, skipped) => if st.TakeLock? then TryLock(w, p, c, at, skipped) else w
    case Holding(c, at, skipped) => if st.TakeRun? then ClaimRun(w, p, c, at, skipped) else w
    case Releasing(c, at, skipped) => if st.Release? then ReleaseLock(w, p, c, at, skipped) else w
    case Executing(r, stage) => Executed(w, st, p, r, stage)
    case Recovering(pending) =>
      if st.Queue? then QueueRun(w, p, pending) else if st.Skip? then SkipPending(w, p, pending) else w
    case Unsetting(pending) => if st.Unset? then UnsetRequest(w, p, pending) else w
    case Expiring(found) => if st.Expire? then ExpireRun(w, p, found) else w
    case Clearing(found) => if st.ClearLock? then ClearExpired(w, p, found) else w
    case Marking(user, conversation, stored, open, todo) =>
      if st.Mark? then MarkMessage(w, p, user, conversation, stored, open, todo, st.m)
      else if st.EndMarking? && todo == {} then
        SetProc(w, p, Stopping(user, conversation, stored, RunsOf(w, user, conversation)))
      else w
    case Stopping(user, conversation, stored, todo) =>
      if st.Stop? then StopRun(w, p, user, conversation, stored, todo, st.r)
      else if st.EndStopping? && todo == {} then SetProc(w, p, Done(user, conversation, stored))
      else w
    case Done(_, _, _) => w
  }

  /** Steps that no process of this model carries between calls: time, sending, revocation. */
  function Alone(w: World, st: Step): (w': World)
    ensures Grows(w, w')
    ensures Sound(w) ==> Sound(w')
    ensures SameMoney(w, w') && w'.procs == w.procs
  {
    match st
    case Tick(ms) => w.(now := w.now + ms)
    case Store(conversation, sender, asked, complete) => StoreMessage(w, conversation, sender, asked, complete)
    case RevokeMessage(m) => if m < |w.messages| && w.messages[m].request then CancelMessage(w, m) else w
    case RevokeRun(r) => if r < |w.runs| then CancelRun(w, r) else w
    case _ => w
  }

  /** What a process that has just begun has read; `None` for steps that begin nothing. */
  ghost function Begun(w: World, st: Step): Option<Proc> {
    match st
    case BeginClaim(_, candidates) => if OldestQueued(w, candidates) then Some(Claiming(candidates, 0, {})) else None
    case BeginRecovery(_, pending) =>
      if forall m | m in pending :: m < |w.messages| && w.messages[m].request && !w.messages[m].cancelled
      then Some(Recovering(pending)) else None
    case BeginExpiry(_, found) =>
      if forall r | r in found :: r < |w.runs| && w.runs[r].phase == Running && w.runs[r].lease < w.now
      then Some(Expiring(found)) else None
    case FindOpen(_, user, conversation) =>
      Some(Marking(user, conversation, |w.messages|, OpenMessages(w, user, conversation), SentBy(w, user, conversation)))
    case _ => None
  }

  /** A step whose process is not at that point changes nothing. */
  ghost function Next(w: World, st: Step): (w': World)
    ensures Grows(w, w')
    ensures Sound(w) && AllKnow(w) ==> Sound(w')
  {
    if st.Tick? || st.Store? || st.RevokeMessage? || st.RevokeRun? then Alone(w, st)
    else if st.p !in w.procs then
      var begun := Begun(w, st);
      if begun.Some? then SetProc(w, st.p, begun.value) else w
    else if st.Crash? then if w.procs[st.p].Done? then w else EndProc(w, st.p)
    else Moved(w, st, st.p, w.procs[st.p])
  }
}
