/**
 Browser sessions: one document each, whose idle expiry slides under a hard cap, and tokens that name a
 session and the account's version. A token is only as good as both. Every step is one read or update, by
 any number of requests; a token's signature cannot be forged, so only tokens that were minted are presented.
 */
module Sessions {
  import opened Common
  import opened Machine

  const IDLE_MS: nat := 30 * DAY_MS
  const MAX_AGE_MS: nat := 90 * DAY_MS
  const TOUCH_MS: nat := 300000

  datatype Session = Session(user: Id, signedIn: nat, lastSeen: nat, expires: nat, cap: nat)

  datatype Token = Token(session: nat, user: Id, version: nat)

  /** History of a token accepted: when, what its session was then, and the account's version when the request arrived. */
  datatype Acceptance = Acceptance(token: Token, at: nat, session: Session, arrived: nat)

  datatype Proc =
    | SigningIn(user: Id, version: nat)                  // the account was read
    | Opened(user: Id, version: nat, session: nat)       // its session is there
    | Arriving(token: Token, arrived: nat)               // a request presents a token
    | Identified(token: Token, arrived: nat)             // the account is at the token's version
    | Accepted(token: Token, read: Session)              // so is the session: the request goes on
    | Touched(token: Token)                              // renewed, or too soon to be
    | Bumped(token: Token, version: nat)                 // the account's version was raised for this request
    | EndingOthers(token: Token, version: nat, todo: set<nat>)
    | EndingAll(todo: set<nat>)

  /**
   `accounts` are the token versions. Session ids are numbers not used before. History: `minted`, the tokens
   handed out; `birth`, the version a session was signed in at; `carried`, the versions it was continued at;
   `revoked`, the sessions ended by someone; `log`, the tokens accepted.
   */
  datatype Database = Database(
    now: nat, accounts: map<Id, nat>, sessions: map<nat, Session>, next: nat,
    minted: set<Token>, birth: map<nat, nat>, carried: set<(nat, nat)>, revoked: set<nat>, log: seq<Acceptance>)

  datatype World = World(db: Database, procs: map<Id, Proc>)

  const START := World(Database(0, map[], map[], 0, {}, map[], {}, {}, []), map[])

  datatype Step =
    | Tick(ms: nat)
    | Register(user: Id)
    | Sweep(session: nat)
    | BeginSignIn(p: Id, user: Id)
    | Open(p: Id)
    | MintFirst(p: Id)
    | Arrive(p: Id, token: Token)
    | ReadAccount(p: Id)
    | ReadSession(p: Id)
    | Touch(p: Id, at: nat)
    | MintAgain(p: Id)
    | Bump(p: Id)
    | FindOthers(p: Id)
    | EndOne(p: Id, session: nat)
    | MintContinued(p: Id)
    | SignOut(p: Id, session: nat)
    | BeginInvalidate(p: Id, user: Id)
    | Leave(p: Id)

  // ---------------------------------------------------------------- the calls

  /** The idle expiry of a session last seen then. */
  function Expiry(seen: nat, cap: nat): nat {
    if seen + IDLE_MS < cap then seen + IDLE_MS else cap
  }

  /** A session document of its own for every sign-in. */
  function Opening(db: Database, user: Id, version: nat): Database {
    db.(sessions := db.sessions[db.next := Session(user, db.now, db.now, db.now + IDLE_MS, db.now + MAX_AGE_MS)],
        next := db.next + 1, birth := db.birth[db.next := version])
  }

  function Minting(db: Database, token: Token): Database {
    db.(minted := db.minted + {token})
  }

  /** The session half of the check: there, this user's, and not expired. */
  predicate Stands(db: Database, token: Token) {
    token.session in db.sessions && db.sessions[token.session].user == token.user && db.now < db.sessions[token.session].expires
  }

  function Accepting(db: Database, token: Token, arrived: nat): Database
    requires token.session in db.sessions
  {
    db.(log := db.log + [Acceptance(token, db.now, db.sessions[token.session], arrived)])
  }

  /** The expiry slid on, never past the cap. */
  function Sliding(db: Database, session: nat, at: nat, cap: nat): Database
    requires session in db.sessions
  {
    db.(sessions := db.sessions[session := db.sessions[session].(lastSeen := at, expires := Expiry(at, cap))])
  }

  function Raising(db: Database, user: Id): Database
    requires user in db.accounts
  {
    db.(accounts := db.accounts[user := db.accounts[user] + 1])
  }

  /** A session deleted by someone. */
  function Ending(db: Database, session: nat): Database {
    if session in db.sessions then db.(sessions := db.sessions - {session}, revoked := db.revoked + {session}) else db
  }

  function Continuing(db: Database, token: Token, version: nat): Database {
    Minting(db.(carried := db.carried + {(token.session, version)}), token.(version := version))
  }

  function SessionsOf(db: Database, user: Id): set<nat> {
    set s | s in db.sessions && db.sessions[s].user == user
  }

  /** Whether the session was seen long enough ago to be slid on. */
  predicate Due(read: Session, at: nat) {
    read.lastSeen + TOUCH_MS <= at
  }

  /** The database after the step of a process that stands at `proc`, and where it stands then; `None` when it is over. */
  function Moved(db: Database, st: Step, proc: Proc): (Database, Option<Proc>) {
    match proc
    case SigningIn(user, version) =>
      if st.Open? then (Opening(db, user, version), Some(Opened(user, version, db.next))) else (db, Some(proc))
    case Opened(user, version, session) =>
      if st.MintFirst? then (Minting(db, Token(session, user, version)), None) else (db, Some(proc))
    case Arriving(token, arrived) =>
      if !st.ReadAccount? then (db, Some(proc))
      else (db, if token.user in db.accounts && db.accounts[token.user] == token.version then Some(Identified(token, arrived)) else None)
    case Identified(token, arrived) =>
      if !st.ReadSession? then (db, Some(proc))
      else if Stands(db, token) then (Accepting(db, token, arrived), Some(Accepted(token, db.sessions[token.session])))
      else (db, None)
    case Accepted(token, read) =>
      if st.Touch? && read.lastSeen <= st.at <= db.now then
        if !Due(read, st.at) then (db, Some(Touched(token)))
        else if token.session in db.sessions && db.sessions[token.session].user == read.user then
          (Sliding(db, token.session, st.at, read.cap), Some(Touched(token)))
        else (db, None)
      else if st.Bump? && token.user in db.accounts then (Raising(db, token.user), Some(Bumped(token, db.accounts[token.user] + 1)))
      else if st.SignOut? then (if st.session in SessionsOf(db, token.user) then Ending(db, st.session) else db, None)
      else (db, Some(proc))
    case Touched(token) => if st.MintAgain? then (Minting(db, token), None) else (db, Some(proc))
    case Bumped(token, version) =>
      (db, if st.FindOthers? then Some(EndingOthers(token, version, SessionsOf(db, token.user) - {token.session})) else Some(proc))
    case EndingOthers(token, version, todo) =>
      if st.EndOne? && st.session in todo then (Ending(db, st.session), Some(EndingOthers(token, version, todo - {st.session})))
      else if st.MintContinued? && todo == {} then (Continuing(db, token, version), None)
      else (db, Some(proc))
    case EndingAll(todo) =>
      if st.EndOne? && st.session in todo then (Ending(db, st.session), Some(EndingAll(todo - {st.session}))) else (db, Some(proc))
  }

  /** Steps of nobody's: time, registration, and the sweep of expired sessions. */
  function Alone(db: Database, st: Step): Database {
    match st
    case Tick(ms) => db.(now := db.now + ms)
    case Register(user) => if user in db.accounts then db else db.(accounts := db.accounts[user := 1])
    case Sweep(session) =>
      if session in db.sessions && db.sessions[session].expires <= db.now then db.(sessions := db.sessions - {session}) else db
    case _ => db
  }

  predicate IsAlone(st: Step) {
    st.Tick? || st.Register? || st.Sweep?
  }

  /** What a process that has just begun did and knows. */
  function Begun(db: Database, st: Step): (Database, Option<Proc>) {
    match st
    case BeginSignIn(_, user) => (db, if user in db.accounts then Some(SigningIn(user, db.accounts[user])) else None)
    case Arrive(_, token) =>
      (db, if token in db.minted then Some(Arriving(token, if token.user in db.accounts then db.accounts[token.user] else 0)) else None)
    case BeginInvalidate(_, user) =>
      if user in db.accounts then (Raising(db, user), Some(EndingAll(SessionsOf(db, user)))) else (db, None)
    case _ => (db, None)
  }

  function Placed(procs: map<Id, Proc>, p: Id, proc: Option<Proc>): map<Id, Proc> {
    if proc.Some? then procs[p := proc.value] else procs - {p}
  }

  /** A step whose process is not at that point changes nothing. */
  function Next(w: World, st: Step): World {
    if IsAlone(st) then w.(db := Alone(w.db, st))
    else if st.p !in w.procs then
      var begun := Begun(w.db, st);
      World(begun.0, Placed(w.procs, st.p, begun.1))
    else if st.Leave? then w.(procs := w.procs - {st.p})
    else
      var moved := Moved(w.db, st, w.procs[st.p]);
      World(moved.0, Placed(w.procs, st.p, moved.1))
  }

  // ---------------------------------------------------------------- what every step keeps

  /** The sliding expiry under the cap. */
  predicate Timed(s: Session, now: nat) {
    s.signedIn <= s.lastSeen <= now && s.cap == s.signedIn + MAX_AGE_MS && s.expires == Expiry(s.lastSeen, s.cap)
  }

  /** A token names a session there has been, at the version it was signed in at or was continued at. */
  predicate TokenKnown(db: Database, t: Token) {
    && t.session in db.birth && (db.birth[t.session] == t.version || (t.session, t.version) in db.carried)
    && AtMost(db, t.user, t.version)
  }

  predicate AtMost(db: Database, user: Id, version: nat) {
    user in db.accounts && version <= db.accounts[user]
  }

  /** The session as it was read: the one there is, if it still is, has the same cap. */
  predicate SessionIs(db: Database, session: nat, read: Session) {
    && session < db.next && Timed(read, db.now)
    && (session in db.sessions ==> db.sessions[session].cap == read.cap && db.sessions[session].signedIn == read.signedIn)
  }

  ghost predicate Knows(db: Database, proc: Proc) {
    match proc
    case SigningIn(user, version) => AtMost(db, user, version)
    case Opened(user, version, session) => session in db.birth && db.birth[session] == version && AtMost(db, user, version)
    case Arriving(token, arrived) => TokenKnown(db, token) && arrived <= db.accounts[token.user]
    case Identified(token, arrived) => TokenKnown(db, token) && arrived <= token.version
    case Accepted(token, read) => TokenKnown(db, token) && SessionIs(db, token.session, read)
    case Touched(token) => TokenKnown(db, token)
    case Bumped(token, version) => TokenKnown(db, token) && AtMost(db, token.user, version)
    case EndingOthers(token, version, _) => TokenKnown(db, token) && AtMost(db, token.user, version)
    case EndingAll(_) => true
  }

  /** An accepted token's session was neither idle nor past its cap, and its version no older than the account's on arrival. */
  predicate AcceptedRightly(a: Acceptance) {
    && Timed(a.session, a.at) && a.at < a.session.expires && a.session.user == a.token.user && a.arrived <= a.token.version
  }

  ghost predicate Sane(db: Database) {
    && (forall s | s in db.sessions :: s < db.next && Timed(db.sessions[s], db.now))
    && (forall s | s in db.birth :: s < db.next)
    && (forall s | s in db.revoked :: s < db.next && s !in db.sessions)
    && (forall t | t in db.minted :: TokenKnown(db, t))
    && (forall i | 0 <= i < |db.log| :: AcceptedRightly(db.log[i]))
  }

  ghost predicate Inv(w: World) {
    Sane(w.db) && forall p | p in w.procs :: Knows(w.db, w.procs[p])
  }

  predicate SameSession(a: Session, b: Session) {
    a.cap == b.cap && a.signedIn == b.signedIn && a.user == b.user
  }

  /** Time, versions and ids only rise, history only grows, and a session gone stays gone. */
  ghost predicate Grows(a: Database, b: Database) {
    && a.now <= b.now && a.next <= b.next && a.minted <= b.minted && a.carried <= b.carried && a.revoked <= b.revoked
    && (forall u | u in a.accounts :: u in b.accounts && a.accounts[u] <= b.accounts[u])
    && (forall s | s in a.birth :: s in b.birth && b.birth[s] == a.birth[s])
    && (forall s | s in b.sessions && s < a.next :: s in a.sessions && SameSession(a.sessions[s], b.sessions[s]))
    && |a.log| <= |b.log| && (forall i | 0 <= i < |a.log| :: b.log[i] == a.log[i])
  }

  lemma GrowsItself(db: Database)
    ensures Grows(db, db)
  {
  }

  lemma TokenStays(a: Database, b: Database, t: Token)
    requires Grows(a, b) && TokenKnown(a, t)
    ensures TokenKnown(b, t)
  {
  }

  lemma KnowsKept(a: Database, b: Database, proc: Proc)
    requires Grows(a, b) && Knows(a, proc)
    ensures Knows(b, proc)
  {
  }

  lemma OpeningKept(db: Database, user: Id, version: nat)
    requires Sane(db) && AtMost(db, user, version)
    ensures Sane(Opening(db, user, version)) && Grows(db, Opening(db, user, version))
  {
  }

  lemma MintingKept(db: Database, token: Token)
    requires Sane(db) && TokenKnown(db, token)
    ensures Sane(Minting(db, token)) && Grows(db, Minting(db, token))
  {
  }

  lemma AcceptingKept(db: Database, token: Token, arrived: nat)
    requires Sane(db) && TokenKnown(db, token) && Stands(db, token) && arrived <= token.version
    ensures Sane(Accepting(db, token, arrived)) && Grows(db, Accepting(db, token, arrived))
    ensures SessionIs(Accepting(db, token, arrived), token.session, db.sessions[token.session])
  {
  }

  lemma SlidingKept(db: Database, session: nat, at: nat, read: Session)
    requires Sane(db) && session in db.sessions && SessionIs(db, session, read) && read.lastSeen <= at <= db.now
    ensures Sane(Sliding(db, session, at, read.cap)) && Grows(db, Sliding(db, session, at, read.cap))
  {
  }

  lemma RaisingKept(db: Database, user: Id)
    requires Sane(db) && user in db.accounts
    ensures Sane(Raising(db, user)) && Grows(db, Raising(db, user)) && AtMost(Raising(db, user), user, db.accounts[user] + 1)
  {
  }

  lemma EndingKept(db: Database, session: nat)
    requires Sane(db)
    ensures Sane(Ending(db, session)) && Grows(db, Ending(db, session))
  {
  }

  lemma ContinuingKept(db: Database, token: Token, version: nat)
    requires Sane(db) && TokenKnown(db, token) && AtMost(db, token.user, version)
    ensures Sane(Continuing(db, token, version)) && Grows(db, Continuing(db, token, version))
  {
  }

  lemma AloneKept(db: Database, st: Step)
    requires Sane(db)
    ensures Sane(Alone(db, st)) && Grows(db, Alone(db, st))
  {
    var b := Alone(db, st);
    forall t | t in b.minted ensures TokenKnown(b, t) { TokenStays(db, b, t); }
  }

  /** A process's own call: the records are kept, and it knows what its new place requires. */
  lemma MovedKept(db: Database, st: Step, proc: Proc)
    requires Sane(db) && Knows(db, proc)
    ensures var moved := Moved(db, st, proc);
      Sane(moved.0) && Grows(db, moved.0) && (moved.1.Some? ==> Knows(moved.0, moved.1.value))
  {
    hide Sane, Grows, Opening, Minting, Accepting, Sliding, Raising, Ending, Continuing, TokenKnown, AtMost, SessionIs, Stands;
    GrowsItself(db);
    match proc {
      case SigningIn(user, version) =>
        if st.Open? { OpeningKept(db, user, version); KnowsKept(db, Opening(db, user, version), proc); OpeningBirth(db, user, version); }
      case Opened(user, version, session) => if st.MintFirst? { FirstToken(db, session, user, version); MintingKept(db, Token(session, user, version)); }
      case Arriving(token, arrived) =>
      case Identified(token, arrived) =>
        if st.ReadSession? && Stands(db, token) {
          AcceptingKept(db, token, arrived);
          StandsThere(db, token);
          TokenStays(db, Accepting(db, token, arrived), token);
        }
      case Accepted(token, read) => AcceptedKept(db, st, token, read);
      case Touched(token) => if st.MintAgain? { MintingKept(db, token); }
      case Bumped(_, _) =>
      case EndingOthers(token, version, todo) =>
        if st.EndOne? && st.session in todo { EndingKept(db, st.session); KnowsKept(db, Ending(db, st.session), proc); }
        else if st.MintContinued? && todo == {} { ContinuingKept(db, token, version); }
      case EndingAll(todo) => if st.EndOne? && st.session in todo { EndingKept(db, st.session); }
    }
  }

  lemma StandsThere(db: Database, token: Token)
    requires Stands(db, token)
    ensures token.session in db.sessions
  {
  }

  lemma OpeningBirth(db: Database, user: Id, version: nat)
    ensures db.next in Opening(db, user, version).birth && Opening(db, user, version).birth[db.next] == version
  {
  }

  lemma FirstToken(db: Database, session: nat, user: Id, version: nat)
    requires session in db.birth && db.birth[session] == version && AtMost(db, user, version)
    ensures TokenKnown(db, Token(session, user, version))
  {
  }

  lemma AcceptedKept(db: Database, st: Step, token: Token, read: Session)
    requires Sane(db) && Knows(db, Accepted(token, read))
    ensures var moved := Moved(db, st, Accepted(token, read));
      Sane(moved.0) && Grows(db, moved.0) && (moved.1.Some? ==> Knows(moved.0, moved.1.value))
  {
    hide Sane, Grows, Sliding, Raising, Ending, TokenKnown, AtMost, SessionIs, SessionsOf;
    GrowsItself(db);
    if st.Touch? && read.lastSeen <= st.at <= db.now {
      if Due(read, st.at) && token.session in db.sessions {
        SlidingKept(db, token.session, st.at, read);
        TokenStays(db, Sliding(db, token.session, st.at, read.cap), token);
      }
    } else if st.Bump? && token.user in db.accounts {
      RaisingKept(db, token.user);
      TokenStays(db, Raising(db, token.user), token);
    } else if st.SignOut? {
      EndingKept(db, st.session);
    }
  }

  lemma BegunKept(db: Database, st: Step)
    requires Sane(db)
    ensures var begun := Begun(db, st);
      Sane(begun.0) && Grows(db, begun.0) && (begun.1.Some? ==> Knows(begun.0, begun.1.value))
  {
    GrowsItself(db);
    if st.BeginInvalidate? && st.user in db.accounts { RaisingKept(db, st.user); }
  }

  lemma InvNext(w: World, st: Step)
    requires Inv(w)
    ensures Inv(Next(w, st)) && Grows(w.db, Next(w, st).db)
  {
    hide Moved, Sane, Grows, Knows, Alone, Begun;
    var b := Next(w, st);
    GrowsItself(w.db);
    if IsAlone(st) {
      AloneKept(w.db, st);
    } else if st.p !in w.procs {
      BegunKept(w.db, st);
    } else if !st.Leave? {
      MovedKept(w.db, st, w.procs[st.p]);
    }
    forall q | q in b.procs ensures Knows(b.db, b.procs[q]) {
      if q in w.procs && b.procs[q] == w.procs[q] { KnowsKept(w.db, b.db, w.procs[q]); }
    }
  }

  ghost predicate Reachable(w: World) {
    exists steps :: w == After(Next, START, steps)
  }

  lemma StartSane()
    ensures Inv(START)
  {
  }

  lemma ReachableInv(w: World)
    requires Reachable(w)
    ensures Inv(w)
  {
    hide Inv, Next;
    var steps :| w == After(Next, START, steps);
    StartSane();
    forall v, st | Inv(v) ensures Inv(Next(v, st)) { InvNext(v, st); }
    Kept(Next, Inv, START, steps);
  }

  // ---------------------------------------------------------------- the guarantees

  /** At all times a session's expiry is its last renewal plus the idle time, or its cap if that comes first. */
  lemma ExpirySlidesUnderCap(w: World, s: nat)
    requires Reachable(w) && s in w.db.sessions
    ensures var x := w.db.sessions[s];
      && x.expires == (if x.lastSeen + IDLE_MS < x.signedIn + MAX_AGE_MS then x.lastSeen + IDLE_MS else x.signedIn + MAX_AGE_MS)
      && x.signedIn <= x.lastSeen <= w.db.now
  {
    ReachableInv(w);
  }

  /** A token is accepted only within 90 days of its session's sign-in and 30 of its last renewal. */
  lemma AcceptedInTime(w: World, i: nat)
    requires Reachable(w) && i < |w.db.log|
    ensures var a := w.db.log[i]; a.at < a.session.signedIn + MAX_AGE_MS && a.at < a.session.lastSeen + IDLE_MS
    ensures w.db.log[i].session.user == w.db.log[i].token.user
  {
    ReachableInv(w);
    assert AcceptedRightly(w.db.log[i]);
  }

  /** Once a session is revoked, no token that names it is accepted again, by anyone, ever. */
  lemma RevokedForGood(w: World, later: seq<Step>, s: nat)
    requires Reachable(w) && s in w.db.revoked
    ensures var log := After(Next, w, later).db.log;
      |w.db.log| <= |log| && forall i | |w.db.log| <= i < |log| :: log[i].token.session != s
  {
    hide Inv, Next, Grows;
    ReachableInv(w);
    var inv := (v: World) => Inv(v) && s in v.db.revoked && |w.db.log| <= |v.db.log|
      && forall i | |w.db.log| <= i < |v.db.log| :: v.db.log[i].token.session != s;
    forall v, st | inv(v) ensures inv(Next(v, st)) {
      InvNext(v, st);
      LogGrowsBy(v, st, s);
    }
    Kept(Next, inv, w, later);
  }

  /** The log goes on, and nothing added to it names session s. */
  predicate LogWithout(a: seq<Acceptance>, b: seq<Acceptance>, s: nat) {
    && |a| <= |b| && (forall i | 0 <= i < |a| :: b[i] == a[i])
    && (forall i | |a| <= i < |b| :: b[i].token.session != s)
  }

  lemma LogGrowsBy(w: World, st: Step, s: nat)
    requires Inv(w) && Inv(Next(w, st)) && Grows(w.db, Next(w, st).db) && s in w.db.revoked
    ensures s in Next(w, st).db.revoked && LogWithout(w.db.log, Next(w, st).db.log, s)
  {
    hide Knows;
  }

  /**
   A token is never accepted for a request that arrives after the account has moved to a newer version than
   the token's: neither the tokens handed out before a password change nor any renewal of them.
   */
  lemma OldVersionsAreRefused(w: World, i: nat)
    requires Reachable(w) && i < |w.db.log|
    ensures w.db.log[i].arrived <= w.db.log[i].token.version
  {
    ReachableInv(w);
    assert AcceptedRightly(w.db.log[i]);
  }

  /** Only continuing a session carries it to another version: every token is of its session's first version or of one it was continued at. */
  lemma OnlyContinuingCarries(w: World, t: Token)
    requires Reachable(w) && t in w.db.minted
    ensures t.session in w.db.birth && (t.version == w.db.birth[t.session] || (t.session, t.version) in w.db.carried)
    ensures t.user in w.db.accounts && t.version <= w.db.accounts[t.user]
  {
    ReachableInv(w);
    assert TokenKnown(w.db, t);
  }

  /** Renewing hands out the version presented; continuing is the only step that hands out another, and ends it all elsewhere first. */
  lemma RenewalKeepsVersion(w: World, st: Step, t: Token)
    requires t in Next(w, st).db.minted && t !in w.db.minted
    ensures !IsAlone(st) && st.p in w.procs
    ensures var proc := w.procs[st.p];
      || (proc.Opened? && t == Token(proc.session, proc.user, proc.version))
      || (proc.Touched? && t == proc.token)
      || (proc.EndingOthers? && proc.todo == {} && t == proc.token.(version := proc.version) && (t.session, t.version) in Next(w, st).db.carried)
  {
  }

  // ---------------------------------------------------------------- what turns a session

  /** A sign-in writes its session document. */
  predicate Opens(w: World, st: Step, s: nat) {
    st.Open? && st.p in w.procs && w.procs[st.p].SigningIn? && s == w.db.next
  }

  /** Someone ends it: a request that ends the sessions it found, or its user signing it out. */
  predicate Ends(w: World, st: Step, s: nat) {
    && s in w.db.sessions
    && match st
       case EndOne(p, session) =>
         session == s && p in w.procs && ((w.procs[p].EndingOthers? && s in w.procs[p].todo) || (w.procs[p].EndingAll? && s in w.procs[p].todo))
       case SignOut(p, session) =>
         session == s && p in w.procs && w.procs[p].Accepted? && w.db.sessions[s].user == w.procs[p].token.user
       case _ => false
  }

  predicate Sweeps(w: World, st: Step, s: nat) {
    st == Sweep(s) && s in w.db.sessions && w.db.sessions[s].expires <= w.db.now
  }

  /** Its own request renews it, five minutes or more after it was last seen. */
  predicate Touches(w: World, st: Step, s: nat) {
    st.Touch? && st.p in w.procs && w.procs[st.p].Accepted? && w.procs[st.p].token.session == s && s in w.db.sessions
      && w.db.sessions[s].user == w.procs[st.p].read.user && w.procs[st.p].read.lastSeen + 300000 <= st.at <= w.db.now
  }

  /**
   Session s after the step: there from its sign-in, for 30 days, under a cap of 90, until it is ended or swept once
   expired; seen again and slid to 30 days from then, or its cap, exactly when it is renewed; revoked exactly when ended.
   */
  predicate SessionAfter(w: World, st: Step, s: nat, db: Database) {
    && (s in db.sessions <==> (s in w.db.sessions && !Ends(w, st, s) && !Sweeps(w, st, s)) || Opens(w, st, s))
    && (s in db.revoked <==> s in w.db.revoked || Ends(w, st, s))
    && (s in db.sessions ==>
          db.sessions[s] ==
            if Opens(w, st, s) then Session(w.procs[st.p].user, w.db.now, w.db.now, w.db.now + 2592000000, w.db.now + 7776000000)
            else if Touches(w, st, s) then
              var cap := w.procs[st.p].read.cap;
              w.db.sessions[s].(lastSeen := st.at, expires := if st.at + 2592000000 < cap then st.at + 2592000000 else cap)
            else w.db.sessions[s])
  }

  /** Every step turns every session as it says, and no other way. */
  lemma SessionTurns(w: World, st: Step, s: nat)
    ensures SessionAfter(w, st, s, Next(w, st).db)
  {
    hide SessionAfter, Moved, Begun, Alone;
    if IsAlone(st) {
      AloneTurns(w, st, s);
    } else if st.p !in w.procs || st.Leave? {
      BegunTurns(w, st, s);
    } else {
      MovedTurns(w, st, s);
    }
  }

  lemma AloneTurns(w: World, st: Step, s: nat)
    requires IsAlone(st)
    ensures SessionAfter(w, st, s, Alone(w.db, st))
  {
  }

  lemma BegunTurns(w: World, st: Step, s: nat)
    requires !IsAlone(st) && (st.p !in w.procs || st.Leave?)
    ensures SessionAfter(w, st, s, Next(w, st).db)
  {
    hide Moved, Alone;
  }

  lemma MovedTurns(w: World, st: Step, s: nat)
    requires !IsAlone(st) && st.p in w.procs && !st.Leave?
    ensures SessionAfter(w, st, s, Moved(w.db, st, w.procs[st.p]).0)
  {
    hide SessionAfter, Moved;
    if w.procs[st.p].Accepted? { AcceptedTurns(w, st, s); }
    else if w.procs[st.p].EndingOthers? || w.procs[st.p].EndingAll? { EndingTurns(w, st, s); }
    else { OtherTurns(w, st, s); }
  }

  lemma AcceptedTurns(w: World, st: Step, s: nat)
    requires !IsAlone(st) && st.p in w.procs && !st.Leave? && w.procs[st.p].Accepted?
    ensures SessionAfter(w, st, s, Moved(w.db, st, w.procs[st.p]).0)
  {
  }

  lemma EndingTurns(w: World, st: Step, s: nat)
    requires !IsAlone(st) && st.p in w.procs && !st.Leave? && (w.procs[st.p].EndingOthers? || w.procs[st.p].EndingAll?)
    ensures SessionAfter(w, st, s, Moved(w.db, st, w.procs[st.p]).0)
  {
  }

  lemma OtherTurns(w: World, st: Step, s: nat)
    requires !IsAlone(st) && st.p in w.procs && !st.Leave?
    requires !w.procs[st.p].Accepted? && !w.procs[st.p].EndingOthers? && !w.procs[st.p].EndingAll?
    ensures SessionAfter(w, st, s, Moved(w.db, st, w.procs[st.p]).0)
  {
  }

  /** The account's version goes up: its sessions are being ended everywhere, or everywhere but at this request. */
  predicate Bumps(w: World, st: Step, u: Id) {
    && u in w.db.accounts
    && match st
       case Bump(p) => p in w.procs && w.procs[p].Accepted? && w.procs[p].token.user == u
       case BeginInvalidate(p, user) => p !in w.procs && user == u
       case _ => false
  }

  /** An account starts at version 1, and its version goes up by one exactly when its sessions are to be ended. */
  lemma AccountTurns(w: World, st: Step, u: Id)
    ensures var accounts := Next(w, st).db.accounts;
      && (u in accounts <==> u in w.db.accounts || st == Register(u))
      && (u in accounts ==> accounts[u] == if u !in w.db.accounts then 1 else if Bumps(w, st, u) then w.db.accounts[u] + 1 else w.db.accounts[u])
  {
  }

  /** Those to be ended are its user's sessions, all of them or, for a request that goes on, all but its own. */
  lemma FindsToEnd(w: World, p: Id, user: Id, t: Token, version: nat)
    requires if p in w.procs then w.procs[p] == Bumped(t, version) else user in w.db.accounts
    ensures var w' := Next(w, if p in w.procs then FindOthers(p) else BeginInvalidate(p, user));
      && p in w'.procs && (w'.procs[p].EndingOthers? || w'.procs[p].EndingAll?)
      && forall s: nat :: s in w'.procs[p].todo <==>
           s in w.db.sessions && (if p in w.procs then w.db.sessions[s].user == t.user && s != t.session else w.db.sessions[s].user == user)
  {
  }

  // ---------------------------------------------------------------- undisturbed

  /** The token is of the account's version, and of a session of its user that is there and has not expired. */
  predicate Current(db: Database, t: Token) {
    && t.user in db.accounts && db.accounts[t.user] == t.version
    && t.session in db.sessions && db.sessions[t.session].user == t.user && db.now < db.sessions[t.session].expires
  }

  /** Undisturbed, a token that was handed out is accepted exactly when it is current, and nothing but the record of it changes. */
  lemma AcceptedExactly(w: World, p: Id, t: Token)
    requires p !in w.procs && t in w.db.minted
    ensures var w' := After(Next, w, [Arrive(p, t), ReadAccount(p), ReadSession(p)]);
      if Current(w.db, t) then
        && w'.db == w.db.(log := w.db.log + [Acceptance(t, w.db.now, w.db.sessions[t.session], t.version)])
        && w'.procs == w.procs[p := Accepted(t, w.db.sessions[t.session])]
      else w'.db == w.db && w'.procs == w.procs
  {
    hide Next;
    AfterThree(Next, w, Arrive(p, t), ReadAccount(p), ReadSession(p));
    ReadsAccount(w, p, t);
    ReadsSession(w, p, t);
  }

  lemma ReadsAccount(w: World, p: Id, t: Token)
    requires p !in w.procs && t in w.db.minted
    ensures var w' := Next(Next(w, Arrive(p, t)), ReadAccount(p));
      w'.db == w.db && w'.procs ==
        if t.user in w.db.accounts && w.db.accounts[t.user] == t.version then w.procs[p := Identified(t, t.version)] else w.procs
  {
    var arrived := if t.user in w.db.accounts then w.db.accounts[t.user] else 0;
    assert Next(w, Arrive(p, t)) == w.(procs := w.procs[p := Arriving(t, arrived)]);
  }

  lemma ReadsSession(w: World, p: Id, t: Token)
    requires p !in w.procs
    ensures Next(w, ReadSession(p)) == w
    ensures var w' := Next(w.(procs := w.procs[p := Identified(t, t.version)]), ReadSession(p));
      if Stands(w.db, t) then
        && w'.db == w.db.(log := w.db.log + [Acceptance(t, w.db.now, w.db.sessions[t.session], t.version)])
        && w'.procs == w.procs[p := Accepted(t, w.db.sessions[t.session])]
      else w'.db == w.db && w'.procs == w.procs
  {
    assert w.procs - {p} == w.procs;
  }

  /** Undisturbed, renewing hands the same token out again, and slides the session exactly when it was last seen five minutes ago or more. */
  lemma RenewedAlone(w: World, p: Id, t: Token, read: Session)
    requires p in w.procs && w.procs[p] == Accepted(t, read) && t.session in w.db.sessions && w.db.sessions[t.session] == read
    requires read.lastSeen <= w.db.now
    ensures var w' := After(Next, w, [Touch(p, w.db.now), MintAgain(p)]); var slid := w.db.now + 2592000000;
      && w'.procs == w.procs - {p} && w'.db.minted == w.db.minted + {t} && w'.db.accounts == w.db.accounts && w'.db.revoked == w.db.revoked
      && w'.db.sessions ==
           if w.db.now - read.lastSeen >= 300000 then
             w.db.sessions[t.session := read.(lastSeen := w.db.now, expires := if slid < read.cap then slid else read.cap)]
           else w.db.sessions
  {
    hide Next;
    AfterTwo(Next, w, Touch(p, w.db.now), MintAgain(p));
    Renews(w, p, t, read);
  }

  lemma Renews(w: World, p: Id, t: Token, read: Session)
    requires p in w.procs && w.procs[p] == Accepted(t, read) && t.session in w.db.sessions && w.db.sessions[t.session] == read
    requires read.lastSeen <= w.db.now
    ensures var w' := Next(Next(w, Touch(p, w.db.now)), MintAgain(p)); var slid := w.db.now + 2592000000;
      && w'.procs == w.procs - {p} && w'.db.minted == w.db.minted + {t} && w'.db.accounts == w.db.accounts && w'.db.revoked == w.db.revoked
      && w'.db.sessions ==
           if w.db.now - read.lastSeen >= 300000 then
             w.db.sessions[t.session := read.(lastSeen := w.db.now, expires := if slid < read.cap then slid else read.cap)]
           else w.db.sessions
  {
    var touched := Next(w, Touch(p, w.db.now));
    assert touched.procs == w.procs[p := Touched(t)];
  }

  /** Undisturbed, signing in opens a session at the account's version and hands out a token that is current. */
  lemma SignedInAlone(w: World, p: Id, user: Id)
    requires p !in w.procs && user in w.db.accounts
    ensures var w' := After(Next, w, [BeginSignIn(p, user), Open(p), MintFirst(p)]); var t := Token(w.db.next, user, w.db.accounts[user]);
      && w'.db.minted == w.db.minted + {t} && Current(w'.db, t) && w'.procs == w.procs
      && w'.db.sessions.Keys == w.db.sessions.Keys + {w.db.next}
  {
    hide Next;
    AfterThree(Next, w, BeginSignIn(p, user), Open(p), MintFirst(p));
    SignsIn(w, p, user);
  }

  lemma SignsIn(w: World, p: Id, user: Id)
    requires p !in w.procs && user in w.db.accounts
    ensures var w' := Next(Next(Next(w, BeginSignIn(p, user)), Open(p)), MintFirst(p)); var t := Token(w.db.next, user, w.db.accounts[user]);
      && w'.db.minted == w.db.minted + {t} && Current(w'.db, t) && w'.procs == w.procs
      && w'.db.sessions.Keys == w.db.sessions.Keys + {w.db.next}
  {
    var begun := Next(w, BeginSignIn(p, user));
    assert begun == w.(procs := w.procs[p := SigningIn(user, w.db.accounts[user])]);
    var there := Next(begun, Open(p));
    assert there.procs == w.procs[p := Opened(user, w.db.accounts[user], w.db.next)];
  }

  /** A session signed out by a request that was accepted is gone, and no token of it is accepted from then on. */
  lemma SignedOutForGood(w: World, p: Id, t: Token, read: Session, s: nat, later: seq<Step>)
    requires Reachable(w) && p in w.procs && w.procs[p] == Accepted(t, read)
    requires s in w.db.sessions && w.db.sessions[s].user == t.user
    ensures var v := Next(w, SignOut(p, s));
      && s !in v.db.sessions && p !in v.procs
      && var log := After(Next, v, later).db.log;
        |v.db.log| <= |log| && forall i | |v.db.log| <= i < |log| :: log[i].token.session != s
  {
    hide Next, Reachable, SessionAfter;
    var v := Next(w, SignOut(p, s));
    SessionTurns(w, SignOut(p, s), s);
    SignsOut(w, p, t, read, s);
    ReachableNext(w, SignOut(p, s));
    RevokedForGood(v, later, s);
  }

  lemma SignsOut(w: World, p: Id, t: Token, read: Session, s: nat)
    requires p in w.procs && w.procs[p] == Accepted(t, read) && s in w.db.sessions && w.db.sessions[s].user == t.user
    ensures var v := Next(w, SignOut(p, s)); s !in v.db.sessions && s in v.db.revoked && p !in v.procs
  {
  }

  lemma ReachableNext(w: World, st: Step)
    requires Reachable(w)
    ensures Reachable(Next(w, st))
  {
    hide Next;
    var steps :| w == After(Next, START, steps);
    assert (steps + [st])[..|steps|] == steps;
    assert Next(w, st) == After(Next, START, steps + [st]);
  }
}
