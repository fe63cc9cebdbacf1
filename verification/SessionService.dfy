/** Signing in, renewing, and continuing a session alone, as the auth service writes them. */
module SessionService {
  import opened Common
  import opened Machine
  import opened Sessions

  predicate By(st: Step, p: Id) {
    !IsAlone(st) && st.p == p
  }

  /** p stands in b where it stood in a, and what every step keeps was kept. */
  ghost predicate Beside(a: World, b: World, p: Id) {
    Inv(a) ==> Inv(b) && Grows(a.db, b.db) && (p in b.procs <==> p in a.procs) && (p in a.procs ==> b.procs[p] == a.procs[p])
  }

  lemma StepBeside(w: World, st: Step, p: Id)
    requires !By(st, p)
    ensures Beside(w, Next(w, st), p)
  {
    hide Inv, Moved, Grows, Begun, Alone;
    if Inv(w) { InvNext(w, st); }
  }

  lemma GrowsOn(a: Database, b: Database, c: Database)
    requires Grows(a, b) && Grows(b, c)
    ensures Grows(a, c)
  {
  }

  lemma RunsBeside(a: World, b: World, p: Id)
    requires Reaches(Next, (st: Step) => !By(st, p), a, b)
    ensures Beside(a, b, p)
  {
    hide Next, Inv, Grows, By;
    var others := (st: Step) => !By(st, p);
    var rel := (x: World, y: World) => Beside(x, y, p);
    var steps: seq<Step> :| (forall st | st in steps :: others(st)) && b == After(Next, a, steps);
    GrowsItself(a.db);
    forall x, y, z | rel(x, y) && rel(y, z) ensures rel(x, z) {
      if Inv(x) { GrowsOn(x.db, y.db, z.db); }
    }
    forall v, st | others(st) ensures rel(v, Next(v, st)) { StepBeside(v, st, p); }
    Related(Next, others, rel, a, steps);
  }

  class SessionStore {
    var now: nat
    var accounts: map<Id, nat>
    var sessions: map<nat, Session>
    var next: nat
    ghost var minted: set<Token>
    ghost var birth: map<nat, nat>
    ghost var carried: set<(nat, nat)>
    ghost var revoked: set<nat>
    ghost var log: seq<Acceptance>
    ghost var procs: map<Id, Proc>

    ghost function View(): World
      reads this
    {
      World(Database(now, accounts, sessions, next, minted, birth, carried, revoked, log), procs)
    }

    /** Any number of steps of other requests. */
    method Interfere(ghost p: Id)
      modifies this
      ensures Reaches(Next, (st: Step) => !By(st, p), old(View()), View())
    {
      ReachesItself(Next, (st: Step) => !By(st, p), View());
    }

    /** The others run between two calls of a request of p that began at `start`. */
    method Pause(ghost p: Id, ghost start: Database)
      requires Inv(View()) && Grows(start, View().db)
      modifies this
      ensures Inv(View()) && Grows(start, View().db) && Grows(old(View()).db, View().db)
      ensures (p in procs <==> p in old(procs)) && (p in procs ==> procs[p] == old(procs)[p])
    {
      hide Inv, Grows, Next;
      ghost var before := View();
      Interfere(p);
      RunsBeside(before, View(), p);
      GrowsOn(start, before.db, View().db);
    }

    ghost method Took(before: World, st: Step, start: Database)
      requires Inv(before) && Grows(start, before.db) && View() == Next(before, st)
      ensures Inv(View()) && Grows(start, View().db) && Grows(before.db, View().db)
    {
      hide Inv, Next, Grows;
      InvNext(before, st);
      GrowsOn(start, before.db, View().db);
    }

    // ---------------------------------------------------------------- authenticating

    ghost method Present(token: Token, p: Id, start: Database)
      requires Inv(View()) && Grows(start, View().db) && p !in procs && token in minted && token.user in accounts
      modifies this`procs
      ensures Inv(View()) && Grows(start, View().db) && p in procs && procs[p] == Arriving(token, accounts[token.user])
    {
      hide Inv, Grows;
      ghost var before := View();
      procs := procs[p := Arriving(token, accounts[token.user])];
      Took(before, Arrive(p, token), start);
    }

    method CheckAccount(token: Token, ghost arrived: nat, ghost p: Id, ghost start: Database) returns (current: bool)
      requires Inv(View()) && Grows(start, View().db) && p in procs && procs[p] == Arriving(token, arrived)
      modifies this`procs
      ensures Inv(View()) && Grows(start, View().db)
      ensures if current then p in procs && procs[p] == Identified(token, arrived) else p !in procs
      ensures current <==> token.user in accounts && accounts[token.user] == token.version
      ensures View().db == old(View()).db
    {
      hide Inv, Grows;
      ghost var before := View();
      current := token.user in accounts && accounts[token.user] == token.version;
      procs := if current then procs[p := Identified(token, arrived)] else procs - {p};
      Took(before, ReadAccount(p), start);
    }

    method CheckSession(token: Token, ghost arrived: nat, ghost p: Id, ghost start: Database) returns (session: Option<Session>)
      requires Inv(View()) && Grows(start, View().db) && p in procs && procs[p] == Identified(token, arrived)
      modifies this
      ensures Inv(View()) && Grows(start, View().db)
      ensures if session.Some? then p in procs && procs[p] == Accepted(token, session.value) else p !in procs
      ensures session.Some? ==> log == old(log) + [Acceptance(token, now, session.value, arrived)]
      ensures sessions == old(sessions) && now == old(now)
      ensures session == if token.session in sessions && sessions[token.session].user == token.user && now < sessions[token.session].expires
        then Some(sessions[token.session]) else None
      ensures Grows(old(View()).db, View().db)
    {
      hide Inv, Grows;
      ghost var before := View();
      if token.session in sessions && sessions[token.session].user == token.user && now < sessions[token.session].expires {
        session := Some(sessions[token.session]);
        log := log + [Acceptance(token, now, sessions[token.session], arrived)];
        procs := procs[p := Accepted(token, sessions[token.session])];
      } else {
        session := None;
        procs := procs - {p};
      }
      Took(before, ReadSession(p), start);
    }

    /**
     Whether the token presented still stands: the account at its version, then its session. It is refused only if on
     the way, in `seen`, it was not current.
     */
    method Authenticate(token: Token, ghost p: Id, ghost start: Database) returns (session: Option<Session>, ghost seen: Database)
      requires Inv(View()) && Grows(start, View().db) && p !in procs && token in minted && token.user in accounts
      modifies this
      ensures Inv(View()) && Grows(start, View().db)
      ensures if session.Some? then p in procs && procs[p] == Accepted(token, session.value) else p !in procs
      ensures session.Some? ==> session.value.user == token.user && now < session.value.signedIn + MAX_AGE_MS && now < session.value.lastSeen + IDLE_MS
      ensures token.version < old(accounts)[token.user] ==> session == None
      ensures Grows(start, seen) && Grows(seen, View().db)
      ensures session == None ==> !Current(seen, token)
    {
      hide Inv, Next, Grows;
      ghost var arrived := accounts[token.user];
      Present(token, p, start);
      Pause(p, start);
      ghost var before := View();
      seen := before.db;
      GrowsItself(seen);
      var current := CheckAccount(token, arrived, p, start);
      VersionsRise(View(), p, token, arrived);
      if !current { return None, seen; }
      Pause(p, start);
      seen := View().db;
      session := CheckSession(token, arrived, p, start);
      if session.Some? { LastAccepted(View(), token, session.value, arrived); }
    }

    // ---------------------------------------------------------------- renewSession

    method Slide(token: Token, read: Session, at: nat, ghost p: Id, ghost start: Database) returns (there: bool)
      requires Inv(View()) && Grows(start, View().db) && p in procs && procs[p] == Accepted(token, read)
      requires read.lastSeen <= at <= now
      modifies this
      ensures Inv(View()) && Grows(start, View().db)
      ensures if there then p in procs && procs[p] == Touched(token) else p !in procs
      ensures there <==> read.lastSeen + TOUCH_MS > at || (token.session in old(sessions) && old(sessions)[token.session].user == read.user)
      ensures Grows(old(View()).db, View().db)
      ensures !there || read.lastSeen + TOUCH_MS > at ==> sessions == old(sessions)
      ensures there && read.lastSeen + TOUCH_MS <= at ==>
        && token.session in old(sessions)
        && sessions == old(sessions)[token.session := old(sessions)[token.session].(lastSeen := at, expires := Expiry(at, read.cap))]
    {
      hide Inv, Grows;
      ghost var before := View();
      if read.lastSeen + TOUCH_MS > at {
        there := true;
      } else {
        there := token.session in sessions && sessions[token.session].user == read.user;
        if there {
          sessions := sessions[token.session := sessions[token.session].(lastSeen := at, expires := Expiry(at, read.cap))];
        }
      }
      procs := if there then procs[p := Touched(token)] else procs - {p};
      Took(before, Touch(p, at), start);
    }

    ghost method HandOut(token: Token, p: Id, start: Database)
      requires Inv(View()) && Grows(start, View().db) && p in procs && procs[p] == Touched(token)
      modifies this
      ensures Inv(View()) && Grows(start, View().db) && p !in procs && token in minted
      ensures sessions == old(sessions) && now == old(now) && next == old(next) && accounts == old(accounts)
    {
      hide Inv, Grows;
      ghost var before := View();
      minted := minted + {token};
      procs := procs - {p};
      Took(before, MintAgain(p), start);
    }

    /**
     Renew the session of a request whose token stands: the token handed back is of the same session and version. None
     is handed back only if on the way, in `seen`, the token was not current.
     */
    method Renew(token: Token, ghost p: Id) returns (renewed: Option<Token>, ghost seen: Database)
      requires Inv(View()) && p !in procs && token in minted && token.user in accounts
      modifies this
      ensures Inv(View()) && Grows(old(View()).db, View().db) && p !in procs
      ensures renewed.Some? ==> renewed == Some(token) && token in minted
      ensures token.version < old(accounts)[token.user] ==> renewed == None
      ensures renewed == None ==> Grows(old(View()).db, seen) && Grows(seen, View().db) && !Current(seen, token)
    {
      hide Inv, Next, Grows;
      ghost var start := View().db;
      GrowsItself(start);
      var session;
      session, seen := Authenticate(token, p, start);
      if session == None { return None, seen; }
      ReadBefore(View(), p, token, session.value);
      var at := now;
      ghost var before := View().db;
      Pause(p, start);
      TimeRises(before, View().db);
      seen := View().db;
      var there := Slide(token, session.value, at, p, start);
      if !there { return None, seen; }
      Pause(p, start);
      HandOut(token, p, start);
      renewed := Some(token);
    }

    // ---------------------------------------------------------------- continueSessionAlone

    method RaiseVersion(token: Token, read: Session, ghost p: Id, ghost start: Database) returns (version: Option<nat>)
      requires Inv(View()) && Grows(start, View().db) && p in procs && procs[p] == Accepted(token, read)
      modifies this
      ensures Inv(View()) && Grows(start, View().db)
      ensures version.Some? ==> p in procs && procs[p] == Bumped(token, version.value)
      ensures version.Some? ==> token.user in old(accounts) && version.value == old(accounts)[token.user] + 1
      ensures version == None ==> p !in procs
      ensures version.Some? <==> token.user in old(accounts)
    {
      hide Inv, Grows;
      ghost var before := View();
      if token.user in accounts {
        version := Some(accounts[token.user] + 1);
        accounts := accounts[token.user := accounts[token.user] + 1];
        procs := procs[p := Bumped(token, version.value)];
        Took(before, Sessions.Bump(p), start);
      } else {
        version := None;
        procs := procs - {p};
        Took(before, Leave(p), start);
      }
    }

    method FindOtherSessions(token: Token, version: nat, ghost p: Id, ghost start: Database) returns (todo: set<nat>)
      requires Inv(View()) && Grows(start, View().db) && p in procs && procs[p] == Bumped(token, version)
      modifies this`procs
      ensures Inv(View()) && Grows(start, View().db) && p in procs && procs[p] == EndingOthers(token, version, todo)
      ensures todo == SessionsOf(View().db, token.user) - {token.session}
    {
      hide Inv, Grows;
      ghost var before := View();
      todo := (set s | s in sessions && sessions[s].user == token.user) - {token.session};
      procs := procs[p := EndingOthers(token, version, todo)];
      Took(before, FindOthers(p), start);
    }

    method EndSession(token: Token, version: nat, todo: set<nat>, session: nat, ghost p: Id, ghost start: Database)
      requires Inv(View()) && Grows(start, View().db) && p in procs && procs[p] == EndingOthers(token, version, todo) && session in todo
      modifies this
      ensures Inv(View()) && Grows(start, View().db) && Grows(old(View()).db, View().db)
      ensures p in procs && procs[p] == EndingOthers(token, version, todo - {session}) && session !in sessions
    {
      hide Inv, Grows;
      ghost var before := View();
      if session in sessions {
        sessions := sessions - {session};
        revoked := revoked + {session};
      }
      procs := procs[p := EndingOthers(token, version, todo - {session})];
      Took(before, EndOne(p, session), start);
    }

    ghost method HandOutContinued(token: Token, version: nat, p: Id, start: Database)
      requires Inv(View()) && Grows(start, View().db) && p in procs && procs[p] == EndingOthers(token, version, {})
      modifies this
      ensures Inv(View()) && Grows(start, View().db) && p !in procs && token.(version := version) in minted
      ensures Grows(old(View()).db, View().db)
    {
      hide Inv, Grows;
      ghost var before := View();
      carried := carried + {(token.session, version)};
      minted := minted + {token.(version := version)};
      procs := procs - {p};
      Took(before, MintContinued(p), start);
    }

    /** Delete the sessions found, one after the other. */
    method EndOthers(token: Token, version: nat, found: set<nat>, ghost p: Id, ghost start: Database)
      requires Inv(View()) && Grows(start, View().db) && p in procs && procs[p] == EndingOthers(token, version, found)
      requires forall s | s in found :: s < next
      modifies this
      ensures Inv(View()) && Grows(start, View().db) && Grows(old(View()).db, View().db)
      ensures p in procs && procs[p] == EndingOthers(token, version, {}) && AllGone(View().db, found)
    {
      hide Inv, Next, Grows;
      ghost var first := View().db;
      GrowsItself(first);
      var todo := found;
      while todo != {}
        invariant Inv(View()) && Grows(start, View().db) && Grows(first, View().db) && todo <= found
        invariant p in procs && procs[p] == EndingOthers(token, version, todo) && AllGone(View().db, found - todo)
        decreases todo
      {
        ghost var before := View().db;
        Pause(p, start);
        GoneStay(before, View().db, found - todo);
        GrowsOn(first, before, View().db);
        before := View().db;
        var s :| s in todo;
        EndSession(token, version, todo, s, p, start);
        GoneStay(before, View().db, found - todo);
        GrowsOn(first, before, View().db);
        NextRises(first, View().db);
        assert found - (todo - {s}) == found - todo + {s};
        todo := todo - {s};
      }
      assert found - todo == found;
    }

    /**
     After a password change: raise the account's version, end every other session of the user, and hand
     this browser a token at the new version. No session the user had elsewhere when this began is left. It is
     refused only if on the way, in `seen`, the token was not current.
     */
    method ChangePassword(token: Token, ghost p: Id) returns (continued: Option<Token>, ghost seen: Database)
      requires Inv(View()) && p !in procs && token in minted && token.user in accounts
      modifies this
      ensures Inv(View()) && Grows(old(View()).db, View().db) && p !in procs
      ensures continued.Some? ==> continued.value.session == token.session && continued.value.version > old(accounts)[token.user]
      ensures continued.Some? ==> AllGone(View().db, SessionsOf(old(View()).db, token.user) - {token.session}) && continued.value in minted
      ensures continued == None ==> Grows(old(View()).db, seen) && Grows(seen, View().db) && !Current(seen, token)
    {
      hide Inv, Next, Grows, AllGone, SessionsOf;
      ghost var start := View().db;
      ghost var first := View();
      GrowsItself(start);
      var session;
      session, seen := Authenticate(token, p, start);
      if session == None { return None, seen; }
      Pause(p, start);
      AccountRises(start, View().db, token.user);
      var version := RaiseVersion(token, session.value, p, start);
      Pause(p, start);
      var todo := FindOtherSessions(token, version.value, p, start);
      ghost var found := View().db;
      KnownIds(View(), token.user);
      EndOthers(token, version.value, todo, p, start);
      NoneLeft(first, found, View().db, token);
      ghost var before := View().db;
      HandOutContinued(token, version.value, p, start);
      GoneStay(before, View().db, SessionsOf(first.db, token.user) - {token.session});
      continued := Some(token.(version := version.value));
    }
  }

  /** None of these sessions is there, and none can be again. */
  ghost predicate AllGone(db: Database, gone: set<nat>) {
    forall s | s in gone :: s < db.next && s !in db.sessions
  }

  lemma GoneStay(a: Database, b: Database, gone: set<nat>)
    requires Grows(a, b) && AllGone(a, gone)
    ensures AllGone(b, gone)
  {
  }

  lemma NextRises(a: Database, b: Database)
    requires Grows(a, b)
    ensures a.next <= b.next
  {
  }

  lemma KnownIds(w: World, user: Id)
    requires Inv(w)
    ensures forall s | s in SessionsOf(w.db, user) :: s < w.db.next
  {
  }

  lemma AccountRises(a: Database, b: Database, user: Id)
    requires Grows(a, b) && user in a.accounts
    ensures user in b.accounts && a.accounts[user] <= b.accounts[user]
  {
  }

  lemma TimeRises(a: Database, b: Database)
    requires Grows(a, b)
    ensures a.now <= b.now
  {
  }

  /** The version checked is no older than the account's on arrival. */
  lemma VersionsRise(w: World, p: Id, token: Token, arrived: nat)
    requires Inv(w)
    ensures p in w.procs && w.procs[p] == Identified(token, arrived) ==> arrived <= token.version
  {
  }

  lemma LastAccepted(w: World, token: Token, session: Session, arrived: nat)
    requires Inv(w) && |w.db.log| > 0 && w.db.log[|w.db.log| - 1] == Acceptance(token, w.db.now, session, arrived)
    ensures session.user == token.user && w.db.now < session.signedIn + MAX_AGE_MS && w.db.now < session.lastSeen + IDLE_MS
  {
  }

  lemma ReadBefore(w: World, p: Id, token: Token, read: Session)
    requires Inv(w) && p in w.procs && w.procs[p] == Accepted(token, read)
    ensures read.lastSeen <= w.db.now
  {
  }

  /** Those there were at the start are gone with those that were found, or were gone by then. */
  lemma NoneLeft(start: World, found: Database, w: Database, token: Token)
    requires Inv(start) && Grows(start.db, found) && Grows(found, w)
    requires AllGone(w, SessionsOf(found, token.user) - {token.session})
    ensures AllGone(w, SessionsOf(start.db, token.user) - {token.session})
  {
  }
}
