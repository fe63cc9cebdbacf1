/**
 Refresh tokens of the OAuth server: one grant for each user and client, which alone gives authority,
 beside an append-only history of token digests. Every step is one call on one document, by any number
 of requests to issue, redeem and disconnect running at once (section 6 of RFC 6749, and the rotation
 advice of section 4.14.2 of RFC 9700).
 */
module RefreshTokens {
  import opened Common
  import opened Machine

  /** SHA-256 of a token, taken to be injective. Random tokens and generations are numbers not used before. */
  datatype Digest = Digest(token: nat)

  /** The grant's document id: the digest of the user and the client. */
  datatype GrantId = GrantId(user: Id, client: Id)

  /** What the user agreed to. */
  datatype Approval = Approval(grant: GrantId, scopes: set<string>, resource: string)

  /** A row of the history; `chain` is absent in rows older than grants. */
  datatype Row = Row(client: Id, chain: Option<(GrantId, nat)>)

  datatype Grant = Grant(approval: Approval, generation: nat, current: Digest, revoked: bool)

  /** History of a generation: what was approved, the token issued, and whether the grant was written. */
  datatype Generation = Generation(approval: Approval, first: Digest, committed: bool)

  /** A redemption that succeeded: which token was exchanged for which, and what it was told. */
  datatype Success = Success(generation: nat, from: Digest, to: Digest, user: Id, scopes: set<string>, resource: string)

  /** A token presented by a client. `since` is history: how many redemptions had succeeded by then. */
  datatype Request = Request(token: nat, client: Id, since: nat)

  datatype Outcome = Refused | Reused(generation: nat) | Redeemed(success: Success)

  datatype Proc =
    | Issuing(token: nat, generation: nat)
    | Issued(token: nat)
    | Presented(request: Request)
    | Found(request: Request, grant: GrantId, generation: nat)
    | Rotating(request: Request, grant: GrantId, generation: nat)
    | Prepared(request: Request, grant: GrantId, generation: nat, rotated: nat)
    | Replaying(request: Request, grant: GrantId, generation: nat)
    | Ended(request: Request, outcome: Outcome)

  /** `generations` and `log` are history: what was ever approved, and the successes in the order they committed. */
  datatype Database = Database(
    history: map<Digest, Row>, grants: map<GrantId, Grant>, tokens: nat, generations: seq<Generation>, log: seq<Success>)

  datatype World = World(db: Database, procs: map<Id, Proc>)

  /** An empty service, but for rows older than grants. */
  ghost predicate Initial(w: World) {
    && w.procs == map[] && w.db.grants == map[] && w.db.generations == [] && w.db.log == []
    && forall d | d in w.db.history :: d.token < w.db.tokens && w.db.history[d].chain == None
  }

  datatype Step =
    | BeginIssue(p: Id, approval: Approval)
    | CommitIssue(p: Id)
    | Present(p: Id, token: nat, client: Id)
    | FindRow(p: Id)
    | FindGrant(p: Id)
    | PrepareRow(p: Id)
    | Rotate(p: Id)
    | Revoke(p: Id)
    | Disconnect(p: Id, grant: GrantId)
    | Crash(p: Id)

  // ---------------------------------------------------------------- the calls

  /** The history row of a new generation, with its first token. */
  function Prepare(db: Database, approval: Approval): Database {
    var d, g := Digest(db.tokens), |db.generations|;
    db.(history := db.history[d := Row(approval.grant.client, Some((approval.grant, g)))],
        tokens := db.tokens + 1,
        generations := db.generations + [Generation(approval, d, false)])
  }

  /** The grant's one document, written whole. */
  function Write(db: Database, token: nat, g: nat): Database
    requires g < |db.generations|
  {
    var approval := db.generations[g].approval;
    db.(grants := db.grants[approval.grant := Grant(approval, g, Digest(token), false)],
        generations := db.generations[g := db.generations[g].(committed := true)])
  }

  /** The row of this token and client, if it belongs to a generation. */
  function Look(db: Database, request: Request): Proc {
    var d := Digest(request.token);
    if d in db.history && db.history[d].client == request.client && db.history[d].chain.Some? then
      Found(request, db.history[d].chain.value.0, db.history[d].chain.value.1)
    else Ended(request, Refused)
  }

  /** The grant has this generation and is not revoked. */
  predicate Live(db: Database, grant: GrantId, g: nat) {
    grant in db.grants && db.grants[grant].generation == g && !db.grants[grant].revoked
  }

  /** What the grant says of the token presented. */
  function Check(db: Database, request: Request, grant: GrantId, g: nat): Proc {
    if !Live(db, grant, g) then Ended(request, Refused)
    else if db.grants[grant].current != Digest(request.token) then Replaying(request, grant, g)
    else Rotating(request, grant, g)
  }

  function PrepareRotation(db: Database, client: Id, grant: GrantId, g: nat): Database {
    db.(history := db.history[Digest(db.tokens) := Row(client, Some((grant, g)))], tokens := db.tokens + 1)
  }

  /** The condition of the rotation: the token presented is still the current one of a live generation. */
  predicate Claimable(db: Database, request: Request, grant: GrantId, g: nat) {
    Live(db, grant, g) && db.grants[grant].current == Digest(request.token)
  }

  function Exchange(grant: Grant, rotated: nat): Success {
    Success(grant.generation, grant.current, Digest(rotated), grant.approval.grant.user, grant.approval.scopes, grant.approval.resource)
  }

  function Claim(db: Database, grant: GrantId, rotated: nat): Database
    requires grant in db.grants
  {
    db.(grants := db.grants[grant := db.grants[grant].(current := Digest(rotated))],
        log := db.log + [Exchange(db.grants[grant], rotated)])
  }

  /** Revoke this generation and no other. */
  function Kill(db: Database, grant: GrantId, g: nat): Database {
    if Live(db, grant, g) then db.(grants := db.grants[grant := db.grants[grant].(revoked := true)]) else db
  }

  function Cut(db: Database, grant: GrantId): Database {
    if grant in db.grants then Kill(db, grant, db.grants[grant].generation) else db
  }

  /** The step of the process at `proc`: the database and the process after it. */
  function Moved(db: Database, st: Step, proc: Proc): (Database, Proc) {
    match proc
    case Issuing(token, g) => if st.CommitIssue? && g < |db.generations| then (Write(db, token, g), Issued(token)) else (db, proc)
    case Presented(request) => (db, if st.FindRow? then Look(db, request) else proc)
    case Found(request, grant, g) => (db, if st.FindGrant? then Check(db, request, grant, g) else proc)
    case Rotating(request, grant, g) =>
      if st.PrepareRow? then (PrepareRotation(db, request.client, grant, g), Prepared(request, grant, g, db.tokens)) else (db, proc)
    case Prepared(request, grant, g, rotated) =>
      if !st.Rotate? then (db, proc)
      else if Claimable(db, request, grant, g) then
        (Claim(db, grant, rotated), Ended(request, Redeemed(Exchange(db.grants[grant], rotated))))
      else (db, Replaying(request, grant, g))
    case Replaying(request, grant, g) => if st.Revoke? then (Kill(db, grant, g), Ended(request, Reused(g))) else (db, proc)
    case _ => (db, proc)
  }

  /** A step whose process is not at that point changes nothing. */
  function Next(w: World, st: Step): World {
    match st
    case Disconnect(_, grant) => w.(db := Cut(w.db, grant))
    case BeginIssue(p, approval) =>
      if p in w.procs then w
      else World(Prepare(w.db, approval), w.procs[p := Issuing(w.db.tokens, |w.db.generations|)])
    case Present(p, token, client) =>
      if p in w.procs then w else w.(procs := w.procs[p := Presented(Request(token, client, |w.db.log|))])
    case Crash(p) => if p in w.procs && !w.procs[p].Ended? then w.(procs := w.procs - {p}) else w
    case _ =>
      if st.p in w.procs then
        var moved := Moved(w.db, st, w.procs[st.p]);
        World(moved.0, w.procs[st.p := moved.1])
      else w
  }

  // ---------------------------------------------------------------- chains

  /** The last token of a generation, after these successes. */
  function Tip(log: seq<Success>, first: Digest, g: nat): Digest {
    if log == [] then first
    else if log[|log| - 1].generation == g then log[|log| - 1].to
    else Tip(log[..|log| - 1], first, g)
  }

  /** The successes of one generation, in order. */
  function Of(log: seq<Success>, g: nat): seq<Success> {
    if log == [] then []
    else Of(log[..|log| - 1], g) + if log[|log| - 1].generation == g then [log[|log| - 1]] else []
  }

  /** Every token exchanged is the one before it gave out; the first is the one issued. */
  predicate Chain(s: seq<Success>, first: Digest) {
    (s != [] ==> s[0].from == first) && forall k | 1 <= k < |s| :: s[k].from == s[k - 1].to
  }

  lemma {:induction false} TipEndsChain(log: seq<Success>, first: Digest, g: nat)
    ensures var s := Of(log, g); Tip(log, first, g) == if s == [] then first else s[|s| - 1].to
    decreases |log|
  {
    if log != [] { TipEndsChain(log[..|log| - 1], first, g); }
  }

  // ---------------------------------------------------------------- what every step keeps

  predicate RowKnown(row: Row, generations: seq<Generation>) {
    row.chain.Some? ==>
      && row.chain.value.1 < |generations| && generations[row.chain.value.1].approval.grant == row.chain.value.0
      && row.client == row.chain.value.0.client
  }

  /** Digest d is in the history under generation g. */
  predicate InHistory(db: Database, d: Digest, g: nat) {
    && g < |db.generations| && d in db.history
    && db.history[d] == Row(db.generations[g].approval.grant.client, Some((db.generations[g].approval.grant, g)))
  }

  ghost predicate HistoryKnown(db: Database) {
    && (forall d | d in db.history :: d.token < db.tokens && RowKnown(db.history[d], db.generations))
    && (forall g: nat | g < |db.generations| :: InHistory(db, db.generations[g].first, g))
  }

  /** A grant is its generation's approval, and its current token is the last of that generation's chain. */
  predicate GrantKnown(db: Database, id: GrantId, grant: Grant) {
    && grant.generation < |db.generations| && grant.approval.grant == id
    && db.generations[grant.generation].committed && db.generations[grant.generation].approval == grant.approval
    && grant.current == Tip(db.log, db.generations[grant.generation].first, grant.generation)
    && InHistory(db, grant.current, grant.generation)
  }

  ghost predicate GrantsKnown(db: Database) {
    forall id | id in db.grants :: GrantKnown(db, id, db.grants[id])
  }

  /** A success says what was agreed to. */
  predicate Carries(s: Success, approval: Approval) {
    s.user == approval.grant.user && s.scopes == approval.scopes && s.resource == approval.resource
  }

  predicate SuccessKnown(db: Database, s: Success) {
    && s.generation < |db.generations| && db.generations[s.generation].committed
    && InHistory(db, s.from, s.generation) && InHistory(db, s.to, s.generation)
    && Carries(s, db.generations[s.generation].approval)
  }

  ghost predicate LogKnown(db: Database) {
    && (forall i | 0 <= i < |db.log| :: SuccessKnown(db, db.log[i]))
    && (forall i, j | 0 <= i < j < |db.log| :: db.log[i].from != db.log[j].from)
    && (forall g: nat | g < |db.generations| :: Chain(Of(db.log, g), db.generations[g].first))
  }

  /** No grant's current token has been exchanged. */
  ghost predicate CurrentUnspent(db: Database) {
    forall i, id | 0 <= i < |db.log| && id in db.grants :: db.log[i].from != db.grants[id].current
  }

  /** A token prepared by a process and not yet put into force. */
  function Pending(proc: Proc): Option<Digest> {
    if proc.Issuing? then Some(Digest(proc.token)) else if proc.Prepared? then Some(Digest(proc.rotated)) else None
  }

  predicate NeverUsed(db: Database, d: Digest) {
    && (forall i | 0 <= i < |db.log| :: db.log[i].from != d)
    && (forall id | id in db.grants :: db.grants[id].current != d)
  }

  /** Pending tokens are in the history, belong to one process each, and have never been in force. */
  ghost predicate PendingApart(w: World) {
    && (forall p | p in w.procs && Pending(w.procs[p]).Some? ::
          Pending(w.procs[p]).value in w.db.history && NeverUsed(w.db, Pending(w.procs[p]).value))
    && (forall p, q | p in w.procs && q in w.procs && p != q && Pending(w.procs[p]).Some? ::
          Pending(w.procs[p]) != Pending(w.procs[q]))
  }

  /** The token of this request had been exchanged, by this client, before it was presented. */
  predicate Exchanged(db: Database, request: Request, i: nat) {
    && i < request.since && i < |db.log| && db.log[i].from == Digest(request.token)
    && db.log[i].generation < |db.generations| && db.generations[db.log[i].generation].approval.grant.client == request.client
  }

  /** Generation g has been granted and is revoked or superseded. */
  predicate Dead(db: Database, g: nat) {
    && g < |db.generations| && db.generations[g].committed
    && !Live(db, db.generations[g].approval.grant, g)
  }

  predicate OfGrant(db: Database, grant: GrantId, g: nat) {
    g < |db.generations| && db.generations[g].approval.grant == grant
  }

  ghost predicate Knows(db: Database, proc: Proc) {
    match proc
    case Issuing(token, g) =>
      g < |db.generations| && !db.generations[g].committed && db.generations[g].first == Digest(token)
    case Issued(_) => true
    case Presented(request) => request.since <= |db.log|
    case Found(request, grant, g) =>
      request.since <= |db.log| && OfGrant(db, grant, g) && InHistory(db, Digest(request.token), g) && request.client == grant.client
    case Rotating(request, grant, g) =>
      && request.since <= |db.log| && OfGrant(db, grant, g) && InHistory(db, Digest(request.token), g) && request.client == grant.client
      && db.generations[g].committed && forall i: nat :: !Exchanged(db, request, i)
    case Prepared(request, grant, g, rotated) =>
      && request.since <= |db.log| && OfGrant(db, grant, g) && InHistory(db, Digest(request.token), g) && request.client == grant.client
      && db.generations[g].committed && InHistory(db, Digest(rotated), g) && forall i: nat :: !Exchanged(db, request, i)
    case Replaying(request, grant, g) =>
      request.since <= |db.log| && OfGrant(db, grant, g) && InHistory(db, Digest(request.token), g) && db.generations[g].committed
    case Ended(request, outcome) =>
      && request.since <= |db.log|
      && (outcome.Reused? ==> Dead(db, outcome.generation) && InHistory(db, Digest(request.token), outcome.generation))
      && (outcome.Redeemed? ==> outcome.success in db.log && outcome.success.from == Digest(request.token))
      && (outcome.Redeemed? ==> forall i: nat :: !Exchanged(db, request, i))
      && (forall i: nat | Exchanged(db, request, i) :: Dead(db, db.log[i].generation))
  }

  ghost predicate AllKnow(w: World) {
    && (forall p | p in w.procs :: Knows(w.db, w.procs[p]))
    && (forall p, q | p in w.procs && q in w.procs && p != q && w.procs[p].Issuing? && w.procs[q].Issuing? ::
          w.procs[p].generation != w.procs[q].generation)
  }

  ghost predicate Recorded(db: Database) {
    HistoryKnown(db) && GrantsKnown(db) && LogKnown(db) && CurrentUnspent(db)
  }

  ghost predicate Inv(w: World) {
    Recorded(w.db) && PendingApart(w) && AllKnow(w)
  }

  // ---------------------------------------------------------------- nothing is undone

  predicate SameGeneration(a: Generation, b: Generation) {
    a.approval == b.approval && a.first == b.first && (a.committed ==> b.committed)
  }

  /** History only grows. */
  ghost predicate Grows(a: Database, b: Database) {
    && (forall d | d in a.history :: d in b.history && b.history[d] == a.history[d])
    && |a.generations| <= |b.generations| && (forall g: nat | g < |a.generations| :: SameGeneration(a.generations[g], b.generations[g]))
    && |a.log| <= |b.log| && (forall i | 0 <= i < |a.log| :: b.log[i] == a.log[i])
  }

  /** What was dead stays dead. */
  ghost predicate DeadStay(a: Database, b: Database) {
    forall g: nat | Dead(a, g) :: Dead(b, g)
  }

  lemma HistoryStays(a: Database, b: Database, d: Digest, g: nat)
    requires Grows(a, b) && InHistory(a, d, g)
    ensures InHistory(b, d, g)
  {
  }

  lemma GenerationStays(a: Database, b: Database, g: nat)
    requires Grows(a, b) && g < |a.generations|
    ensures g < |b.generations| && SameGeneration(a.generations[g], b.generations[g])
  {
  }

  lemma LogStays(a: Database, b: Database)
    requires Grows(a, b)
    ensures |a.log| <= |b.log| && forall s | s in a.log :: s in b.log
  {
  }

  lemma ExchangedBefore(a: Database, b: Database, request: Request)
    requires Grows(a, b) && LogKnown(a) && request.since <= |a.log|
    ensures forall i: nat | Exchanged(b, request, i) :: Exchanged(a, request, i) && b.log[i] == a.log[i]
  {
  }

  /** What a process knows stays true whatever the others do. */
  lemma KnowsKept(a: Database, b: Database, proc: Proc)
    requires Grows(a, b) && DeadStay(a, b) && LogKnown(a) && Knows(a, proc)
    requires proc.Issuing? && proc.generation < |b.generations| ==> !b.generations[proc.generation].committed
    ensures Knows(b, proc)
  {
    hide Grows, LogKnown;
    match proc {
      case Issuing(token, g) => GenerationStays(a, b, g);
      case Issued(_) =>
      case Presented(request) => LogStays(a, b);
      case Found(request, grant, g) =>
        LogStays(a, b); GenerationStays(a, b, g); HistoryStays(a, b, Digest(request.token), g);
      case Rotating(request, grant, g) =>
        LogStays(a, b); GenerationStays(a, b, g); HistoryStays(a, b, Digest(request.token), g); ExchangedBefore(a, b, request);
      case Prepared(request, grant, g, rotated) =>
        LogStays(a, b); GenerationStays(a, b, g); HistoryStays(a, b, Digest(request.token), g);
        HistoryStays(a, b, Digest(rotated), g); ExchangedBefore(a, b, request);
      case Replaying(request, grant, g) =>
        LogStays(a, b); GenerationStays(a, b, g); HistoryStays(a, b, Digest(request.token), g);
      case Ended(request, outcome) =>
        LogStays(a, b); ExchangedBefore(a, b, request);
        if outcome.Reused? { HistoryStays(a, b, Digest(request.token), outcome.generation); }
    }
  }

  // ---------------------------------------------------------------- each write keeps the records

  lemma {:induction false} NoneOf(log: seq<Success>, first: Digest, g: nat)
    requires forall i | 0 <= i < |log| :: log[i].generation != g
    ensures Of(log, g) == [] && Tip(log, first, g) == first
    decreases |log|
  {
    if log != [] { NoneOf(log[..|log| - 1], first, g); }
  }

  lemma HistoryAdded(db: Database, row: Row, generations: seq<Generation>)
    requires HistoryKnown(db) && RowKnown(row, generations) && |db.generations| <= |generations|
    requires forall g: nat | g < |db.generations| :: SameGeneration(db.generations[g], generations[g])
    requires forall g: nat | |db.generations| <= g < |generations| ::
      generations[g].first == Digest(db.tokens) && row == Row(generations[g].approval.grant.client, Some((generations[g].approval.grant, g)))
    ensures var b := db.(history := db.history[Digest(db.tokens) := row], tokens := db.tokens + 1, generations := generations);
      HistoryKnown(b) && Grows(db, b)
  {
  }

  /** Neither a grant nor the log changes, and no generation known before. */
  lemma RecordsAdded(a: Database, b: Database)
    requires Recorded(a) && Grows(a, b) && HistoryKnown(b) && b.grants == a.grants && b.log == a.log
    requires forall g: nat | g < |a.generations| :: a.generations[g] == b.generations[g]
    ensures Recorded(b) && DeadStay(a, b)
  {
    forall id | id in b.grants ensures GrantKnown(b, id, b.grants[id]) {
      HistoryStays(a, b, a.grants[id].current, a.grants[id].generation);
    }
    forall i | 0 <= i < |b.log| ensures SuccessKnown(b, b.log[i]) {
      assert SuccessKnown(a, a.log[i]);
      HistoryStays(a, b, b.log[i].from, b.log[i].generation);
      HistoryStays(a, b, b.log[i].to, b.log[i].generation);
    }
    forall g: nat | g < |b.generations| ensures Chain(Of(b.log, g), b.generations[g].first) {
      if g >= |a.generations| {
        forall i | 0 <= i < |a.log| ensures a.log[i].generation != g { assert SuccessKnown(a, a.log[i]); }
        NoneOf(b.log, b.generations[g].first, g);
      }
    }
  }

  lemma PrepareKept(db: Database, approval: Approval)
    requires Recorded(db)
    ensures Recorded(Prepare(db, approval)) && Grows(db, Prepare(db, approval)) && DeadStay(db, Prepare(db, approval))
  {
    hide GrantsKnown, LogKnown, CurrentUnspent;
    var b := Prepare(db, approval);
    HistoryAdded(db, b.history[Digest(db.tokens)], b.generations);
    RecordsAdded(db, b);
  }

  lemma PrepareRotationKept(db: Database, client: Id, grant: GrantId, g: nat)
    requires Recorded(db) && OfGrant(db, grant, g) && client == grant.client
    ensures var b := PrepareRotation(db, client, grant, g); Recorded(b) && Grows(db, b) && DeadStay(db, b)
    ensures InHistory(PrepareRotation(db, client, grant, g), Digest(db.tokens), g)
  {
    hide GrantsKnown, LogKnown, CurrentUnspent;
    var b := PrepareRotation(db, client, grant, g);
    HistoryAdded(db, b.history[Digest(db.tokens)], db.generations);
    RecordsAdded(db, b);
  }

  lemma WriteGrows(db: Database, token: nat, g: nat)
    requires GrantsKnown(db) && g < |db.generations| && !db.generations[g].committed
    ensures Grows(db, Write(db, token, g)) && DeadStay(db, Write(db, token, g))
  {
  }

  lemma WriteKept(db: Database, token: nat, g: nat)
    requires Recorded(db) && g < |db.generations| && !db.generations[g].committed && db.generations[g].first == Digest(token)
    requires NeverUsed(db, Digest(token))
    ensures var b := Write(db, token, g); Recorded(b) && Grows(db, b) && DeadStay(db, b)
  {
    hide Of, Tip, Chain, InHistory, Grows, DeadStay;
    var b := Write(db, token, g);
    WriteGrows(db, token, g);
    forall i | 0 <= i < |db.log| ensures db.log[i].generation != g { assert SuccessKnown(db, db.log[i]); }
    NoneOf(db.log, db.generations[g].first, g);
    forall h: nat | h < |b.generations| ensures InHistory(b, b.generations[h].first, h) {
      HistoryStays(db, b, db.generations[h].first, h);
    }
    forall d | d in b.history ensures RowKnown(b.history[d], b.generations) {
      assert RowKnown(db.history[d], db.generations);
    }
    forall id | id in b.grants ensures GrantKnown(b, id, b.grants[id]) {
      if id != db.generations[g].approval.grant {
        assert GrantKnown(db, id, db.grants[id]);
        HistoryStays(db, b, db.grants[id].current, db.grants[id].generation);
      }
    }
    forall i | 0 <= i < |b.log| ensures SuccessKnown(b, b.log[i]) {
      assert SuccessKnown(db, db.log[i]);
      HistoryStays(db, b, b.log[i].from, b.log[i].generation);
      HistoryStays(db, b, b.log[i].to, b.log[i].generation);
    }
  }

  lemma KillKept(db: Database, grant: GrantId, g: nat)
    requires Recorded(db)
    ensures var b := Kill(db, grant, g); Recorded(b) && Grows(db, b) && DeadStay(db, b)
    ensures OfGrant(db, grant, g) && db.generations[g].committed ==> Dead(Kill(db, grant, g), g)
  {
    hide Of, Tip, Chain;
    var b := Kill(db, grant, g);
    forall id | id in b.grants ensures GrantKnown(b, id, b.grants[id]) {
      assert GrantKnown(db, id, db.grants[id]);
    }
    assert forall i | 0 <= i < |b.log| :: SuccessKnown(db, db.log[i]);
  }

  lemma ChainExtended(before: seq<Success>, s: Success, first: Digest)
    requires Chain(before, first) && s.from == if before == [] then first else before[|before| - 1].to
    ensures Chain(before + [s], first)
  {
  }

  /** One more success lengthens the chain of its generation and no other. */
  lemma ChainGrows(log: seq<Success>, s: Success, first: Digest, g: nat)
    requires Chain(Of(log, g), first) && (s.generation == g ==> s.from == Tip(log, first, g))
    ensures Chain(Of(log + [s], g), first)
    ensures Tip(log + [s], first, g) == if s.generation == g then s.to else Tip(log, first, g)
  {
    hide Chain;
    assert (log + [s])[..|log|] == log && (log + [s])[|log|] == s;
    TipEndsChain(log, first, g);
    assert Of(log + [s], g) == if s.generation == g then Of(log, g) + [s] else Of(log, g);
    if s.generation == g { ChainExtended(Of(log, g), s, first); }
  }

  lemma ClaimKept(db: Database, request: Request, grant: GrantId, g: nat, rotated: nat)
    requires Recorded(db) && Claimable(db, request, grant, g) && NeverUsed(db, Digest(rotated)) && InHistory(db, Digest(rotated), g)
    ensures var b := Claim(db, grant, rotated); Recorded(b) && Grows(db, b) && DeadStay(db, b)
  {
    hide Of, Tip, Chain;
    var b := Claim(db, grant, rotated);
    var s := Exchange(db.grants[grant], rotated);
    assert GrantKnown(db, grant, db.grants[grant]);
    forall h: nat | h < |db.generations|
      ensures Chain(Of(b.log, h), b.generations[h].first)
      ensures Tip(b.log, b.generations[h].first, h) == if h == g then s.to else Tip(db.log, db.generations[h].first, h)
    {
      ChainGrows(db.log, s, db.generations[h].first, h);
    }
    CurrentsApart(db, grant);
    assert Grows(db, b);
    forall id | id in b.grants ensures GrantKnown(b, id, b.grants[id]) {
      assert GrantKnown(db, id, db.grants[id]);
      if id != grant { assert db.grants[id].generation != g; }
    }
    forall i | 0 <= i < |b.log| ensures SuccessKnown(b, b.log[i]) {
      if i < |db.log| { assert SuccessKnown(db, db.log[i]); }
    }
    assert LogKnown(b) && CurrentUnspent(b);
  }

  lemma CurrentsApart(db: Database, grant: GrantId)
    requires GrantsKnown(db) && grant in db.grants
    ensures forall id | id in db.grants && id != grant ::
      db.grants[id].current != db.grants[grant].current && db.grants[id].generation != db.grants[grant].generation
  {
  }

  // ---------------------------------------------------------------- each process learns what its place requires

  lemma LookKnows(db: Database, request: Request)
    requires Recorded(db) && Knows(db, Presented(request))
    ensures Knows(db, Look(db, request))
  {
  }

  /** A token exchanged before it was presented belongs to the generation its row names. */
  lemma ExchangedUnder(db: Database, request: Request, g: nat)
    requires LogKnown(db) && InHistory(db, Digest(request.token), g)
    ensures forall i: nat | Exchanged(db, request, i) :: db.log[i].generation == g && db.generations[g].committed
  {
  }

  lemma CheckKnows(db: Database, request: Request, grant: GrantId, g: nat)
    requires Recorded(db) && Knows(db, Found(request, grant, g))
    ensures Knows(db, Check(db, request, grant, g))
  {
    hide HistoryKnown, LogKnown;
    ExchangedUnder(db, request, g);
    if Live(db, grant, g) { assert GrantKnown(db, grant, db.grants[grant]); }
  }

  lemma PreparedKnows(db: Database, request: Request, grant: GrantId, g: nat)
    requires Recorded(db) && Knows(db, Rotating(request, grant, g))
    ensures Knows(PrepareRotation(db, request.client, grant, g), Prepared(request, grant, g, db.tokens))
  {
    hide HistoryKnown, GrantsKnown, LogKnown, CurrentUnspent;
    var b := PrepareRotation(db, request.client, grant, g);
    PrepareRotationKept(db, request.client, grant, g);
    KnowsKept(db, b, Rotating(request, grant, g));
  }

  lemma ClaimKnows(db: Database, request: Request, grant: GrantId, g: nat, rotated: nat)
    requires Recorded(db) && Knows(db, Prepared(request, grant, g, rotated)) && NeverUsed(db, Digest(rotated))
    requires Claimable(db, request, grant, g)
    ensures Knows(Claim(db, grant, rotated), Ended(request, Redeemed(Exchange(db.grants[grant], rotated))))
  {
    hide HistoryKnown, GrantsKnown, LogKnown, CurrentUnspent, NeverUsed;
    var b := Claim(db, grant, rotated);
    ClaimKept(db, request, grant, g, rotated);
    ExchangedBefore(db, b, request);
    assert b.log[|db.log|] == Exchange(db.grants[grant], rotated);
  }

  lemma KillKnows(db: Database, request: Request, grant: GrantId, g: nat)
    requires Recorded(db) && Knows(db, Replaying(request, grant, g))
    ensures Knows(Kill(db, grant, g), Ended(request, Reused(g)))
  {
  }

  /** A process's own call: the records are kept, and it knows what its new place requires. */
  lemma MovedKnows(db: Database, st: Step, proc: Proc)
    requires Recorded(db) && Knows(db, proc) && (Pending(proc).Some? ==> NeverUsed(db, Pending(proc).value))
    ensures var moved := Moved(db, st, proc);
      Recorded(moved.0) && Grows(db, moved.0) && DeadStay(db, moved.0) && Knows(moved.0, moved.1)
  {
    hide Recorded, Grows, DeadStay, NeverUsed, Look, Check, Prepare, PrepareRotation, Write, Claim, Kill, Exchange, InHistory, Exchanged;
    UnchangedGrows(db);
    match proc {
      case Issuing(token, g) => if st.CommitIssue? { WriteKept(db, token, g); }
      case Presented(request) => if st.FindRow? { LookKnows(db, request); }
      case Found(request, grant, g) => if st.FindGrant? { CheckKnows(db, request, grant, g); }
      case Rotating(request, grant, g) =>
        if st.PrepareRow? { PrepareRotationKept(db, request.client, grant, g); PreparedKnows(db, request, grant, g); }
      case Prepared(request, grant, g, rotated) =>
        if st.Rotate? && Claimable(db, request, grant, g) {
          ClaimKept(db, request, grant, g, rotated);
          ClaimKnows(db, request, grant, g, rotated);
        }
      case Replaying(request, grant, g) => if st.Revoke? { KillKept(db, grant, g); KillKnows(db, request, grant, g); }
      case _ =>
    }
  }

  lemma UnchangedGrows(db: Database)
    ensures Grows(db, db) && DeadStay(db, db)
  {
  }

  // ---------------------------------------------------------------- pending tokens stay apart

  /** Nothing comes into force but the token that p had pending. */
  ghost predicate ForcesOnly(a: Database, b: Database, mine: Option<Digest>) {
    a.history.Keys <= b.history.Keys && forall d | NeverUsed(a, d) && mine != Some(d) :: NeverUsed(b, d)
  }

  /** What process p holds after its step: nothing pending, what it had, or a token just made. */
  predicate HoldsFreshOrSame(a: Database, b: Database, before: Option<Digest>, after: Option<Digest>) {
    || after == None
    || (after == before && b == a)
    || (after.value !in a.history && after.value in b.history && NeverUsed(b, after.value))
  }

  lemma PendingKept(a: World, b: World, p: Id, before: Option<Digest>)
    requires PendingApart(a) && ForcesOnly(a.db, b.db, before)
    requires forall q | q != p && q in b.procs :: q in a.procs && b.procs[q] == a.procs[q]
    requires before == if p in a.procs then Pending(a.procs[p]) else None
    requires p in b.procs ==> HoldsFreshOrSame(a.db, b.db, before, Pending(b.procs[p]))
    ensures PendingApart(b)
  {
  }

  lemma FreshIsUnused(db: Database)
    requires Recorded(db)
    ensures Digest(db.tokens) !in db.history && NeverUsed(db, Digest(db.tokens))
  {
  }

  lemma MovedForces(db: Database, st: Step, proc: Proc)
    requires Recorded(db) && Knows(db, proc)
    ensures var moved := Moved(db, st, proc);
      ForcesOnly(db, moved.0, Pending(proc)) && HoldsFreshOrSame(db, moved.0, Pending(proc), Pending(moved.1))
  {
    hide Recorded, InHistory, Exchanged;
    FreshIsUnused(db);
  }

  // ---------------------------------------------------------------- every step

  /** The processes other than p, when p moves and commits no generation but its own. */
  lemma OthersKnow(a: World, b: World, p: Id)
    requires AllKnow(a) && Grows(a.db, b.db) && DeadStay(a.db, b.db) && LogKnown(a.db)
    requires forall q | q != p && q in b.procs :: q in a.procs && b.procs[q] == a.procs[q]
    requires CommitsOnly(a.db, b.db, if p in a.procs && a.procs[p].Issuing? then Some(a.procs[p].generation) else None)
    requires p in b.procs ==> Knows(b.db, b.procs[p])
    requires p in b.procs && b.procs[p].Issuing? ==> b.procs[p].generation >= |a.db.generations| || (p in a.procs && b.procs[p] == a.procs[p])
    ensures AllKnow(b)
  {
    hide Grows, DeadStay, LogKnown, InHistory, Exchanged, Dead;
    forall q | q in b.procs && q != p ensures Knows(b.db, b.procs[q]) {
      assert Knows(a.db, a.procs[q]);
      KnowsKept(a.db, b.db, a.procs[q]);
    }
    forall q, r | q in b.procs && r in b.procs && q != r && b.procs[q].Issuing? && b.procs[r].Issuing?
      ensures b.procs[q].generation != b.procs[r].generation
    {
      if q in a.procs { assert Knows(a.db, a.procs[q]); }
      if r in a.procs { assert Knows(a.db, a.procs[r]); }
    }
  }

  ghost predicate CommitsOnly(a: Database, b: Database, mine: Option<nat>) {
    forall g: nat | g < |a.generations| && g < |b.generations| && !a.generations[g].committed && mine != Some(g) ::
      !b.generations[g].committed
  }

  lemma MovedCommits(db: Database, st: Step, proc: Proc)
    ensures var moved := Moved(db, st, proc);
      && CommitsOnly(db, moved.0, if proc.Issuing? then Some(proc.generation) else None)
      && (moved.1.Issuing? ==> moved.1 == proc)
  {
  }

  lemma MovedKeeps(w: World, st: Step, p: Id)
    requires Inv(w) && p in w.procs
    ensures var moved := Moved(w.db, st, w.procs[p]); var w' := World(moved.0, w.procs[p := moved.1]);
      Inv(w') && Grows(w.db, w'.db) && DeadStay(w.db, w'.db)
  {
    hide Grows, DeadStay, HistoryKnown, GrantsKnown, LogKnown, CurrentUnspent, Knows, Moved, NeverUsed, CommitsOnly, ForcesOnly, HoldsFreshOrSame;
    var moved := Moved(w.db, st, w.procs[p]);
    var w' := World(moved.0, w.procs[p := moved.1]);
    MovedKnows(w.db, st, w.procs[p]);
    MovedForces(w.db, st, w.procs[p]);
    MovedCommits(w.db, st, w.procs[p]);
    PendingKept(w, w', p, Pending(w.procs[p]));
    OthersKnow(w, w', p);
  }

  lemma BeginIssueKeeps(w: World, p: Id, approval: Approval)
    requires Inv(w) && p !in w.procs
    ensures var w' := Next(w, BeginIssue(p, approval)); Inv(w') && Grows(w.db, w'.db) && DeadStay(w.db, w'.db)
  {
    hide Grows, DeadStay, HistoryKnown, GrantsKnown, LogKnown, CurrentUnspent;
    var w' := Next(w, BeginIssue(p, approval));
    PrepareKept(w.db, approval);
    FreshIsUnused(w.db);
    PendingKept(w, w', p, None);
    OthersKnow(w, w', p);
  }

  lemma AloneKeeps(w: World, st: Step)
    requires Inv(w) && (st.Disconnect? || st.Crash? || (st.Present? && st.p !in w.procs))
    ensures var w' := Next(w, st); Inv(w') && Grows(w.db, w'.db) && DeadStay(w.db, w'.db)
  {
    hide Grows, DeadStay, HistoryKnown, GrantsKnown, LogKnown, CurrentUnspent, InHistory, Exchanged;
    var w' := Next(w, st);
    UnchangedGrows(w.db);
    if st.Disconnect? && st.grant in w.db.grants { KillKept(w.db, st.grant, w.db.grants[st.grant].generation); }
    if st.Disconnect? {
      NobodyMoves(w, w');
    } else {
      PendingKept(w, w', st.p, if st.p in w.procs then Pending(w.procs[st.p]) else None);
      OthersKnow(w, w', st.p);
    }
  }

  lemma NobodyMoves(a: World, b: World)
    requires PendingApart(a) && AllKnow(a) && b.procs == a.procs && Grows(a.db, b.db) && DeadStay(a.db, b.db) && LogKnown(a.db)
    requires ForcesOnly(a.db, b.db, None) && CommitsOnly(a.db, b.db, None)
    ensures PendingApart(b) && AllKnow(b)
  {
    hide Grows, DeadStay, LogKnown, InHistory, Exchanged, Dead, NeverUsed;
    forall q | q in b.procs ensures Knows(b.db, b.procs[q]) {
      assert Knows(a.db, a.procs[q]);
      KnowsKept(a.db, b.db, a.procs[q]);
    }
  }

  lemma InvNext(w: World, st: Step)
    requires Inv(w)
    ensures Inv(Next(w, st)) && Grows(w.db, Next(w, st).db) && DeadStay(w.db, Next(w, st).db)
  {
    hide Inv, Grows, DeadStay, Moved;
    UnchangedGrows(w.db);
    match st {
      case Disconnect(_, _) => AloneKeeps(w, st);
      case Crash(_) => AloneKeeps(w, st);
      case BeginIssue(p, approval) => if p !in w.procs { BeginIssueKeeps(w, p, approval); }
      case Present(p, _, _) => if p !in w.procs { AloneKeeps(w, st); }
      case _ => if st.p in w.procs { MovedKeeps(w, st, st.p); }
    }
  }

  lemma InvInitial(w: World)
    requires Initial(w)
    ensures Inv(w)
  {
  }

  /** The service after some run of steps from an empty one. */
  ghost predicate Reachable(w: World) {
    exists start, steps :: Initial(start) && w == After(Next, start, steps)
  }

  lemma InvAfter(w: World, steps: seq<Step>)
    requires Inv(w)
    ensures Inv(After(Next, w, steps))
  {
    hide Inv, Next;
    forall v, st | Inv(v) ensures Inv(Next(v, st)) { InvNext(v, st); }
    Kept(Next, Inv, w, steps);
  }

  lemma ReachableInv(w: World)
    requires Reachable(w)
    ensures Inv(w)
  {
    hide Inv, Next;
    var start, steps :| Initial(start) && w == After(Next, start, steps);
    InvInitial(start);
    InvAfter(start, steps);
  }

  // ---------------------------------------------------------------- the guarantees

  /** Each token is exchanged at most once, whoever presents it and however often. */
  lemma ExchangedOnce(w: World)
    requires Reachable(w)
    ensures forall i, j | 0 <= i < j < |w.db.log| :: w.db.log[i].from != w.db.log[j].from
  {
    ReachableInv(w);
  }

  /**
   Rotation never forks: the successes of a generation are one chain from the token issued, each giving
   out the token the next exchanges, and the grant's current token is the end of its generation's chain
   and is in the history under it.
   */
  lemma RotationNeverForks(w: World, g: nat)
    requires Reachable(w) && g < |w.db.generations|
    ensures Chain(Of(w.db.log, g), w.db.generations[g].first)
    ensures forall id | id in w.db.grants && w.db.grants[id].generation == g ::
      && InHistory(w.db, w.db.grants[id].current, g)
      && var s := Of(w.db.log, g); w.db.grants[id].current == if s == [] then w.db.generations[g].first else s[|s| - 1].to
  {
    hide Of, Tip, Chain, InHistory;
    ReachableInv(w);
    TipEndsChain(w.db.log, w.db.generations[g].first, g);
    forall id | id in w.db.grants && w.db.grants[id].generation == g
      ensures InHistory(w.db, w.db.grants[id].current, g) && w.db.grants[id].current == Tip(w.db.log, w.db.generations[g].first, g)
    {
      assert GrantKnown(w.db, id, w.db.grants[id]);
    }
  }

  /** Every success says what the user agreed to when its generation was issued, and nothing else. */
  lemma SuccessesCarryConsent(w: World, i: nat)
    requires Reachable(w) && i < |w.db.log|
    ensures w.db.log[i].generation < |w.db.generations| && Carries(w.db.log[i], w.db.generations[w.db.log[i].generation].approval)
  {
    ReachableInv(w);
    assert SuccessKnown(w.db, w.db.log[i]);
  }

  /**
   Replay is fatal. When a redemption of a token that its client had exchanged before is over, it has
   not succeeded, and the generation of that token is revoked or superseded.
   */
  lemma ReplayKills(w: World, p: Id, i: nat)
    requires Reachable(w) && p in w.procs && w.procs[p].Ended? && Exchanged(w.db, w.procs[p].request, i)
    ensures !w.procs[p].outcome.Redeemed? && Dead(w.db, w.db.log[i].generation)
  {
    ReachableInv(w);
    assert Knows(w.db, w.procs[p]);
  }

  /** A redemption that reports reuse leaves its generation revoked or superseded. */
  lemma ReportedReuseKills(w: World, p: Id)
    requires Reachable(w) && p in w.procs && w.procs[p].Ended? && w.procs[p].outcome.Reused?
    ensures Dead(w.db, w.procs[p].outcome.generation)
  {
    ReachableInv(w);
    assert Knows(w.db, w.procs[p]);
  }

  /** A dead generation stays dead and never yields another success. */
  lemma DeadForGood(w: World, later: seq<Step>, g: nat)
    requires Reachable(w) && Dead(w.db, g)
    ensures Dead(After(Next, w, later).db, g) && Of(After(Next, w, later).db.log, g) == Of(w.db.log, g)
  {
    hide Inv, Next, Of, Dead;
    ReachableInv(w);
    var inv := (v: World) => Inv(v) && Dead(v.db, g) && Of(v.db.log, g) == Of(w.db.log, g);
    forall v, st | inv(v) ensures inv(Next(v, st)) {
      InvNext(v, st);
      DeadYieldsNothing(v, st, g);
    }
    Kept(Next, inv, w, later);
  }

  lemma DeadYieldsNothing(w: World, st: Step, g: nat)
    requires Inv(w) && Dead(w.db, g)
    ensures Of(Next(w, st).db.log, g) == Of(w.db.log, g)
  {
    hide HistoryKnown, LogKnown, CurrentUnspent, PendingApart, Knows, InHistory, Tip;
    var log := Next(w, st).db.log;
    if log != w.db.log {
      var grant := w.procs[st.p].grant;
      assert log == w.db.log + [Exchange(w.db.grants[grant], w.procs[st.p].rotated)];
      assert log[..|w.db.log|] == w.db.log;
      assert GrantKnown(w.db, grant, w.db.grants[grant]);
    }
  }

  /** A redemption changes no grant but the one its token names, and that one only while it is of the token's generation. */
  lemma OlderNeverTouchesNewer(w: World, st: Step, p: Id, id: GrantId)
    requires p in w.procs && (w.procs[p].Found? || w.procs[p].Rotating? || w.procs[p].Prepared? || w.procs[p].Replaying?)
    requires !st.BeginIssue? && !st.Present? && !st.Disconnect? && st.p == p
    requires id in w.db.grants && (id != w.procs[p].grant || w.db.grants[id].generation != w.procs[p].generation)
    ensures id in Next(w, st).db.grants && Next(w, st).db.grants[id] == w.db.grants[id]
  {
  }

  /**
   The current token of a live generation is exchanged when nobody interferes: the client gets what was
   approved and a new token, which is then the current one.
   */
  lemma CurrentTokenRefreshes(w: World, p: Id, id: GrantId, token: nat)
    requires Reachable(w) && p !in w.procs && id in w.db.grants && !w.db.grants[id].revoked
    requires w.db.grants[id].current == Digest(token)
    ensures var grant := w.db.grants[id];
      var w' := After(Next, w, [Present(p, token, id.client), FindRow(p), FindGrant(p), PrepareRow(p), Rotate(p)]);
      && p in w'.procs && w'.procs[p].Ended? && w'.procs[p].outcome == Redeemed(Exchange(grant, w.db.tokens))
      && w'.db.grants == w.db.grants[id := grant.(current := Digest(w.db.tokens))]
  {
    hide Inv, Moved, Next;
    ReachableInv(w);
    CurrentInHistory(w, id);
    var a, b, c, d, e := Present(p, token, id.client), FindRow(p), FindGrant(p), PrepareRow(p), Rotate(p);
    AfterFive(w, a, b, c, d, e);
    PresentThenFind(w, p, id, token);
    var w3 := Next(Next(Next(w, a), b), c);
    RotateAlone(w3, p, id, w.db.grants[id].generation);
  }

  lemma AfterFive(w: World, a: Step, b: Step, c: Step, d: Step, e: Step)
    ensures After(Next, w, [a, b, c, d, e]) == Next(Next(Next(Next(Next(w, a), b), c), d), e)
  {
    hide Next;
    assert [a, b, c, d, e][..4] == [a, b, c, d] && [a, b, c, d][..3] == [a, b, c] && [a, b, c][..2] == [a, b] && [a, b][..1] == [a];
    assert [a][..0] == [];
    assert After(Next, w, [a]) == Next(w, a);
    assert After(Next, w, [a, b]) == Next(Next(w, a), b);
    assert After(Next, w, [a, b, c]) == Next(Next(Next(w, a), b), c);
    assert After(Next, w, [a, b, c, d]) == Next(Next(Next(Next(w, a), b), c), d);
  }

  lemma CurrentInHistory(w: World, id: GrantId)
    requires Inv(w) && id in w.db.grants
    ensures var grant := w.db.grants[id];
      grant.current in w.db.history && w.db.history[grant.current] == Row(id.client, Some((id, grant.generation)))
  {
    assert GrantKnown(w.db, id, w.db.grants[id]);
  }

  lemma PresentThenFind(w: World, p: Id, id: GrantId, token: nat)
    requires p !in w.procs && id in w.db.grants && !w.db.grants[id].revoked && w.db.grants[id].current == Digest(token)
    requires Digest(token) in w.db.history && w.db.history[Digest(token)] == Row(id.client, Some((id, w.db.grants[id].generation)))
    ensures var w3 := Next(Next(Next(w, Present(p, token, id.client)), FindRow(p)), FindGrant(p));
      w3.db == w.db && p in w3.procs
      && w3.procs[p] == Rotating(Request(token, id.client, |w.db.log|), id, w.db.grants[id].generation)
  {
  }

  lemma RotateAlone(w: World, p: Id, id: GrantId, g: nat)
    requires p in w.procs && w.procs[p].Rotating? && w.procs[p].grant == id && w.procs[p].generation == g
    requires Claimable(w.db, w.procs[p].request, id, g)
    ensures var w' := Next(Next(w, PrepareRow(p)), Rotate(p));
      && p in w'.procs && w'.procs[p].Ended? && w'.procs[p].outcome == Redeemed(Exchange(w.db.grants[id], w.db.tokens))
      && w'.db.grants == w.db.grants[id := w.db.grants[id].(current := Digest(w.db.tokens))]
  {
  }

  /** The token is the current one of a live grant, and this client's. */
  predicate MayRedeem(db: Database, token: nat, client: Id) {
    && Digest(token) in db.history && db.history[Digest(token)].client == client && db.history[Digest(token)].chain.Some?
    && var (id, g) := db.history[Digest(token)].chain.value;
      && id in db.grants && db.grants[id].generation == g && !db.grants[id].revoked && db.grants[id].current == Digest(token)
  }

  /**
   Undisturbed, a token of a live grant that is not its current one revokes the grant, whether or not it was ever
   exchanged, and nothing else is touched; the client is told that the token was used before.
   */
  lemma StaleTokenKills(w: World, p: Id, id: GrantId, token: nat)
    requires p !in w.procs && id in w.db.grants && !w.db.grants[id].revoked && w.db.grants[id].current != Digest(token)
    requires Digest(token) in w.db.history && w.db.history[Digest(token)] == Row(id.client, Some((id, w.db.grants[id].generation)))
    ensures var w' := After(Next, w, [Present(p, token, id.client), FindRow(p), FindGrant(p), Revoke(p)]);
      && w'.db == w.db.(grants := w.db.grants[id := w.db.grants[id].(revoked := true)])
      && p in w'.procs && w'.procs[p].Ended? && w'.procs[p].outcome == Reused(w.db.grants[id].generation)
  {
    hide Next;
    var a, b, c := Present(p, token, id.client), FindRow(p), FindGrant(p);
    AfterThree(Next, w, a, b, c);
    assert [a, b, c, Revoke(p)][..3] == [a, b, c];
    StaleFound(w, p, id, token);
  }

  lemma StaleFound(w: World, p: Id, id: GrantId, token: nat)
    requires p !in w.procs && id in w.db.grants && !w.db.grants[id].revoked && w.db.grants[id].current != Digest(token)
    requires Digest(token) in w.db.history && w.db.history[Digest(token)] == Row(id.client, Some((id, w.db.grants[id].generation)))
    ensures var w' := Next(Next(Next(Next(w, Present(p, token, id.client)), FindRow(p)), FindGrant(p)), Revoke(p));
      && w'.db == w.db.(grants := w.db.grants[id := w.db.grants[id].(revoked := true)])
      && p in w'.procs && w'.procs[p].Ended? && w'.procs[p].outcome == Reused(w.db.grants[id].generation)
  {
    var found := Next(Next(w, Present(p, token, id.client)), FindRow(p));
    assert found.db == w.db && found.procs[p] == Found(Request(token, id.client, |w.db.log|), id, w.db.grants[id].generation);
    var checked := Next(found, FindGrant(p));
    assert checked.db == w.db && checked.procs[p].Replaying?;
  }

  // ---------------------------------------------------------------- what turns a grant

  predicate Commits(w: World, st: Step, id: GrantId) {
    st.CommitIssue? && st.p in w.procs && w.procs[st.p].Issuing? && w.procs[st.p].generation < |w.db.generations|
      && w.db.generations[w.procs[st.p].generation].approval.grant == id
  }

  /** A prepared redemption finds its token still current in the live generation it was found under. */
  predicate Rotates(w: World, st: Step, id: GrantId)
    requires id in w.db.grants
  {
    var grant := w.db.grants[id];
    st.Rotate? && st.p in w.procs && w.procs[st.p].Prepared? && w.procs[st.p].grant == id && w.procs[st.p].generation == grant.generation
      && !grant.revoked && grant.current == Digest(w.procs[st.p].request.token)
  }

  /** The grant is disconnected, or a replay of a token of its present generation is answered. */
  predicate Revokes(w: World, st: Step, id: GrantId)
    requires id in w.db.grants
  {
    || (st.Disconnect? && st.grant == id)
    || (st.Revoke? && st.p in w.procs && w.procs[st.p].Replaying? && w.procs[st.p].grant == id
        && w.procs[st.p].generation == w.db.grants[id].generation)
  }

  /**
   Every step, grant by grant: a grant is written whole exactly by the issue that was begun for it, given another
   current token exactly by a rotation, and revoked exactly by a disconnection or by a replay in its generation.
   */
  lemma GrantTurns(w: World, st: Step, id: GrantId)
    ensures var b := Next(w, st).db.grants;
      if Commits(w, st, id) then
        var g := w.procs[st.p].generation;
        id in b && b[id] == Grant(w.db.generations[g].approval, g, Digest(w.procs[st.p].token), false)
      else
        && (id in b <==> id in w.db.grants)
        && (id in b ==>
              && b[id].approval == w.db.grants[id].approval && b[id].generation == w.db.grants[id].generation
              && b[id].current == (if Rotates(w, st, id) then Digest(w.procs[st.p].rotated) else w.db.grants[id].current)
              && b[id].revoked == (w.db.grants[id].revoked || Revokes(w, st, id)))
  {
  }

  function Disconnects(p: Id, ids: seq<GrantId>): seq<Step> {
    seq(|ids|, i requires 0 <= i < |ids| => Disconnect(p, ids[i]))
  }

  /** Undisturbed, disconnecting a user, or one client of theirs, revokes exactly their grants and leaves all else as it was. */
  lemma DisconnectedAlone(w: World, p: Id, user: Id, client: Option<Id>, ids: seq<GrantId>)
    requires forall id :: id in ids <==> id in w.db.grants && id.user == user && (client == None || client == Some(id.client))
    ensures var w' := After(Next, w, Disconnects(p, ids));
      && w' == w.(db := w.db.(grants := w'.db.grants)) && w'.db.grants.Keys == w.db.grants.Keys
      && forall id | id in w.db.grants :: w'.db.grants[id] ==
           if id.user == user && (client == None || client == Some(id.client)) then w.db.grants[id].(revoked := true) else w.db.grants[id]
  {
    hide Next;
    CutInTurn(w, p, ids);
  }

  lemma {:induction false} CutInTurn(w: World, p: Id, ids: seq<GrantId>)
    requires forall id | id in ids :: id in w.db.grants
    ensures var w' := After(Next, w, Disconnects(p, ids));
      && w' == w.(db := w.db.(grants := w'.db.grants)) && w'.db.grants.Keys == w.db.grants.Keys
      && forall id | id in w.db.grants :: w'.db.grants[id] == if id in ids then w.db.grants[id].(revoked := true) else w.db.grants[id]
    decreases |ids|
  {
    hide Next;
    if ids != [] {
      var before, last := ids[..|ids| - 1], ids[|ids| - 1];
      CutInTurn(w, p, before);
      assert Disconnects(p, ids)[..|ids| - 1] == Disconnects(p, before);
      CutLast(After(Next, w, Disconnects(p, before)), p, last);
    }
  }

  lemma CutLast(w: World, p: Id, id: GrantId)
    requires id in w.db.grants
    ensures Next(w, Disconnect(p, id)) == w.(db := w.db.(grants := w.db.grants[id := w.db.grants[id].(revoked := true)]))
  {
    if w.db.grants[id].revoked { assert w.db.grants == w.db.grants[id := w.db.grants[id].(revoked := true)]; }
  }
}
