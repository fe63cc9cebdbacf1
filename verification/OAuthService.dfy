/**
 Issuing, redeeming and disconnecting as the OAuth service writes them: one call on one document after
 the other, with every other request free to run between any two of them (`Interfere`).
 */
module OAuthService {
  import opened Common
  import opened Machine
  import opened RefreshTokens

  predicate By(st: Step, p: Id) {
    st.p == p
  }

  /** A grant of this user, and of this client if one is named, is disconnected. */
  predicate Cuts(st: Step, user: Id, client: Option<Id>) {
    st.Disconnect? && st.grant.user == user && (client == None || client == Some(st.grant.client))
  }

  /** p stands in b where it stood in a, and what every step keeps was kept. */
  ghost predicate Beside(a: World, b: World, p: Id) {
    Inv(a) ==>
      && Inv(b) && Grows(a.db, b.db) && DeadStay(a.db, b.db)
      && (p in b.procs <==> p in a.procs) && (p in a.procs ==> b.procs[p] == a.procs[p])
  }

  lemma StepBeside(w: World, st: Step, p: Id)
    requires !By(st, p)
    ensures Beside(w, Next(w, st), p)
  {
    hide Inv, Moved, Grows, DeadStay;
    if Inv(w) { InvNext(w, st); }
  }

  lemma ForwardOn(a: Database, b: Database, c: Database)
    requires Grows(a, b) && DeadStay(a, b) && Grows(b, c) && DeadStay(b, c)
    ensures Grows(a, c) && DeadStay(a, c)
  {
  }

  lemma GrowsOn(a: Database, b: Database, c: Database)
    requires Grows(a, b) && Grows(b, c)
    ensures Grows(a, c)
  {
  }

  /** The row of a token stays as it is. */
  lemma RowStays(a: Database, b: Database, token: nat)
    requires Grows(a, b)
    ensures Digest(token) in a.history ==> Digest(token) in b.history && b.history[Digest(token)] == a.history[Digest(token)]
  {
  }

  lemma RunsBeside(a: World, b: World, p: Id)
    requires Reaches(Next, (st: Step) => !By(st, p), a, b)
    ensures Beside(a, b, p)
  {
    hide Next, Inv, Grows, DeadStay, By;
    var others := (st: Step) => !By(st, p);
    var rel := (x: World, y: World) => Beside(x, y, p);
    var steps: seq<Step> :| (forall st | st in steps :: others(st)) && b == After(Next, a, steps);
    UnchangedGrows(a.db);
    forall x, y, z | rel(x, y) && rel(y, z) ensures rel(x, z) {
      if Inv(x) { ForwardOn(x.db, y.db, z.db); }
    }
    forall v, st | others(st) ensures rel(v, Next(v, st)) { StepBeside(v, st, p); }
    Related(Next, others, rel, a, steps);
  }

  class GrantStore {
    var history: map<Digest, Row>
    var grants: map<GrantId, Grant>
    var tokens: nat
    var generations: seq<Generation>
    ghost var log: seq<Success>
    ghost var procs: map<Id, Proc>

    ghost function View(): World
      reads this
    {
      World(Database(history, grants, tokens, generations, log), procs)
    }

    /** Any number of steps of other requests. */
    method Interfere(ghost p: Id)
      modifies this
      ensures Reaches(Next, (st: Step) => !By(st, p), old(View()), View())
    {
      ReachesItself(Next, (st: Step) => !By(st, p), View());
    }

    /** The others run between two calls of p. */
    method Pause(ghost p: Id)
      requires Inv(View())
      modifies this
      ensures Inv(View()) && Grows(old(View()).db, View().db) && DeadStay(old(View()).db, View().db)
      ensures Reaches(Next, (st: Step) => !By(st, p), old(View()), View())
      ensures (p in procs <==> p in old(procs)) && (p in procs ==> procs[p] == old(procs)[p])
    {
      hide Inv, Grows, DeadStay, Next;
      ghost var before := View();
      Interfere(p);
      RunsBeside(before, View(), p);
    }

    // ---------------------------------------------------------------- issuing

    method InsertFirstRow(approval: Approval, ghost p: Id) returns (token: nat, g: nat)
      requires Inv(View()) && p !in procs
      modifies this
      ensures View() == Next(old(View()), BeginIssue(p, approval))
      ensures Inv(View()) && p in procs && procs[p] == Issuing(token, g) && token == old(tokens) && g == |old(generations)|
      ensures g < |generations| && generations[g].approval == approval
    {
      hide Inv;
      ghost var before := View();
      token, g := tokens, |generations|;
      history := history[Digest(token) := Row(approval.grant.client, Some((approval.grant, g)))];
      tokens := tokens + 1;
      generations := generations + [Generation(approval, Digest(token), false)];
      procs := procs[p := Issuing(token, g)];
      InvNext(before, BeginIssue(p, approval));
    }

    method WriteGrant(approval: Approval, token: nat, g: nat, ghost p: Id)
      requires Inv(View()) && p in procs && procs[p] == Issuing(token, g)
      requires g < |generations| && generations[g].approval == approval
      modifies this
      ensures View() == Next(old(View()), CommitIssue(p)) && Inv(View())
      ensures grants == old(grants)[approval.grant := Grant(approval, g, Digest(token), false)]
    {
      hide Inv;
      ghost var before := View();
      grants := grants[approval.grant := Grant(approval, g, Digest(token), false)];
      generations := generations[g := generations[g].(committed := true)];
      procs := procs[p := Issued(token)];
      InvNext(before, CommitIssue(p));
    }

    /**
     Issue a refresh token: its history row first, then the grant. When this returns the grant is
     exactly the new approval with the new token, which nobody held before; whatever generation the
     grant had is superseded.
     */
    method Issue(approval: Approval, ghost p: Id) returns (token: nat)
      requires Inv(View()) && p !in procs
      modifies this
      ensures Inv(View()) && Grows(old(View()).db, View().db) && DeadStay(old(View()).db, View().db)
      ensures Digest(token) !in old(history)
      ensures approval.grant in grants && grants[approval.grant].approval == approval
      ensures grants[approval.grant].current == Digest(token) && !grants[approval.grant].revoked
      ensures forall g: nat | g < |old(generations)| && OfGrant(old(View()).db, approval.grant, g) && old(generations)[g].committed ::
                Dead(View().db, g)
    {
      hide Inv, Next, Grows, DeadStay;
      ghost var start := View();
      Pause(p);
      ghost var first := View();
      FreshToken(start, first);
      var g;
      token, g := InsertFirstRow(approval, p);
      InvNext(first, BeginIssue(p, approval));
      ForwardOn(start.db, first.db, View().db);
      ghost var second := View();
      Pause(p);
      ForwardOn(start.db, second.db, View().db);
      GenerationStays(second.db, View().db, g);
      ghost var third := View();
      WriteGrant(approval, token, g, p);
      InvNext(third, CommitIssue(p));
      ForwardOn(start.db, third.db, View().db);
      Superseded(start, View(), approval, g);
    }

    // ---------------------------------------------------------------- redeeming

    ghost method Arrive(token: nat, client: Id, p: Id)
      requires Inv(View()) && p !in procs
      modifies this`procs
      ensures View() == Next(old(View()), Present(p, token, client)) && Inv(View())
      ensures p in procs && procs[p] == Presented(Request(token, client, |log|))
    {
      hide Inv;
      ghost var before := View();
      procs := procs[p := Presented(Request(token, client, |log|))];
      InvNext(before, Present(p, token, client));
    }

    method LookUp(ghost request: Request, token: nat, client: Id, ghost p: Id) returns (row: Option<(GrantId, nat)>)
      requires Inv(View()) && p in procs && procs[p] == Presented(request) && request.token == token && request.client == client
      modifies this`procs
      ensures View() == Next(old(View()), FindRow(p)) && Inv(View()) && p in procs
      ensures procs[p] == if row.Some? then Found(request, row.value.0, row.value.1) else Ended(request, Refused)
      ensures row == if Digest(token) in history && history[Digest(token)].client == client then history[Digest(token)].chain else None
    {
      hide Inv;
      ghost var before := View();
      row := if Digest(token) in history && history[Digest(token)].client == client then history[Digest(token)].chain else None;
      procs := procs[p := Look(View().db, request)];
      InvNext(before, FindRow(p));
    }

    method ReadGrant(ghost request: Request, token: nat, grant: GrantId, g: nat, ghost p: Id) returns (live: bool, current: bool)
      requires Inv(View()) && p in procs && procs[p] == Found(request, grant, g) && request.token == token
      modifies this`procs
      ensures View() == Next(old(View()), FindGrant(p)) && Inv(View()) && p in procs
      ensures procs[p] == if !live then Ended(request, Refused) else if current then Rotating(request, grant, g) else Replaying(request, grant, g)
      ensures live <==> grant in grants && grants[grant].generation == g && !grants[grant].revoked
      ensures current <==> live && grants[grant].current == Digest(token)
    {
      hide Inv;
      ghost var before := View();
      live := grant in grants && grants[grant].generation == g && !grants[grant].revoked;
      current := live && grants[grant].current == Digest(token);
      procs := procs[p := Check(View().db, request, grant, g)];
      InvNext(before, FindGrant(p));
    }

    method InsertRow(ghost request: Request, client: Id, grant: GrantId, g: nat, ghost p: Id) returns (rotated: nat)
      requires Inv(View()) && p in procs && procs[p] == Rotating(request, grant, g) && request.client == client
      modifies this
      ensures View() == Next(old(View()), PrepareRow(p)) && Inv(View())
      ensures p in procs && procs[p] == Prepared(request, grant, g, rotated)
    {
      hide Inv;
      ghost var before := View();
      rotated := tokens;
      history := history[Digest(rotated) := Row(client, Some((grant, g)))];
      tokens := tokens + 1;
      procs := procs[p := Prepared(request, grant, g, rotated)];
      InvNext(before, PrepareRow(p));
    }

    method RotateGrant(ghost request: Request, token: nat, grant: GrantId, g: nat, rotated: nat, ghost p: Id)
      returns (claimed: Option<Success>)
      requires Inv(View()) && p in procs && procs[p] == Prepared(request, grant, g, rotated) && request.token == token
      modifies this
      ensures View() == Next(old(View()), Rotate(p)) && Inv(View()) && p in procs
      ensures procs[p] == if claimed.Some? then Ended(request, Redeemed(claimed.value)) else Replaying(request, grant, g)
      ensures claimed.Some? <==>
        (grant in old(grants) && old(grants)[grant].generation == g && !old(grants)[grant].revoked
         && old(grants)[grant].current == Digest(token))
      ensures grants == if claimed.Some? then old(grants)[grant := old(grants)[grant].(current := Digest(rotated))] else old(grants)
    {
      hide Inv;
      ghost var before := View();
      if grant in grants && grants[grant].generation == g && grants[grant].current == Digest(token) && !grants[grant].revoked {
        var success := Exchange(grants[grant], rotated);
        grants := grants[grant := grants[grant].(current := Digest(rotated))];
        log := log + [success];
        claimed := Some(success);
        procs := procs[p := Ended(request, Redeemed(success))];
      } else {
        claimed := None;
        procs := procs[p := Replaying(request, grant, g)];
      }
      InvNext(before, Rotate(p));
    }

    method RevokeReplayed(ghost request: Request, grant: GrantId, g: nat, ghost p: Id)
      requires Inv(View()) && p in procs && procs[p] == Replaying(request, grant, g)
      modifies this
      ensures View() == Next(old(View()), Revoke(p)) && Inv(View())
      ensures p in procs && procs[p] == Ended(request, Reused(g))
    {
      hide Inv;
      ghost var before := View();
      if grant in grants && grants[grant].generation == g && !grants[grant].revoked {
        grants := grants[grant := grants[grant].(revoked := true)];
      }
      procs := procs[p := Ended(request, Reused(g))];
      InvNext(before, Revoke(p));
    }

    /**
     Exchange a token. A success carries what its generation was approved for, and the token had not
     been exchanged before. A token its client had exchanged before this began never succeeds, and
     leaves its generation revoked or superseded; so does every redemption that reports reuse. It fails only if
     on the way, in `seen`, the token was not the current one of a live grant of this client.
     */
    method Redeem(token: nat, client: Id, ghost p: Id) returns (outcome: Outcome, ghost seen: Database)
      requires Inv(View()) && p !in procs
      modifies this
      ensures Inv(View()) && p in procs && procs[p].Ended? && procs[p].outcome == outcome
      ensures procs[p].request.token == token && procs[p].request.client == client && procs[p].request.since >= |old(log)|
      ensures outcome.Redeemed? ==>
        && outcome.success in log && outcome.success.from == Digest(token) && outcome.success.generation < |generations|
        && Carries(outcome.success, generations[outcome.success.generation].approval)
      ensures outcome.Reused? ==> Dead(View().db, outcome.generation)
      ensures forall i: nat | Exchanged(View().db, procs[p].request, i) :: !outcome.Redeemed? && Dead(View().db, log[i].generation)
      ensures !outcome.Redeemed? ==> !MayRedeem(seen, token, client) && Grows(old(View()).db, seen) && Grows(seen, View().db)
    {
      hide Inv, Next, Grows, DeadStay, Knows;
      ghost var start := View();
      Pause(p);
      LogStays(start.db, View().db);
      Arrive(token, client, p);
      ghost var request := procs[p].request;
      seen := View().db;
      var row := LookUp(request, token, client, p);
      UnchangedGrows(seen);
      if row == None {
        outcome := Refused;
      } else {
        Pause(p);
        var grant, g := row.value.0, row.value.1;
        GrowsOn(start.db, seen, View().db);
        RowStays(seen, View().db, token);
        seen := View().db;
        var live, current := ReadGrant(request, token, grant, g, p);
        UnchangedGrows(seen);
        if !live {
          outcome := Refused;
        } else {
          Pause(p);
          var claimed := None;
          ghost var before := View();
          if current {
            var rotated := InsertRow(request, client, grant, g, p);
            InvNext(before, PrepareRow(p));
            GrowsOn(seen, before.db, View().db);
            before := View();
            Pause(p);
            GrowsOn(seen, before.db, View().db);
            GrowsOn(start.db, seen, View().db);
            RowStays(seen, View().db, token);
            before := View();
            seen := View().db;
            claimed := RotateGrant(request, token, grant, g, rotated, p);
            InvNext(before, Rotate(p));
            before := View();
            if claimed == None {
              Pause(p);
              GrowsOn(seen, before.db, View().db);
              before := View();
            }
          }
          if claimed == None {
            RevokeReplayed(request, grant, g, p);
            InvNext(before, Revoke(p));
            GrowsOn(seen, before.db, View().db);
            outcome := Reused(g);
          } else {
            outcome := Redeemed(claimed.value);
          }
        }
      }
      EndedSays(View(), p);
    }

    // ---------------------------------------------------------------- disconnecting

    method CutOne(id: GrantId, ghost p: Id)
      requires Inv(View()) && id in grants
      modifies this
      ensures View() == Next(old(View()), Disconnect(p, id)) && Inv(View())
      ensures grants == old(grants)[id := old(grants)[id].(revoked := true)]
    {
      hide Inv;
      ghost var before := View();
      if !grants[id].revoked {
        grants := grants[id := grants[id].(revoked := true)];
      }
      assert grants == before.db.grants[id := before.db.grants[id].(revoked := true)];
      InvNext(before, Disconnect(p, id));
    }

    /** One of the grants found: disconnected if it is still there. */
    method CutFound(id: GrantId, ghost user: Id, ghost client: Option<Id>, ghost p: Id, ghost found: World)
      requires Inv(View()) && Inv(found) && Grows(found.db, View().db) && id in found.db.grants
      requires id.user == user && (client == None || client == Some(id.client))
      modifies this
      ensures Inv(View()) && Grows(old(View()).db, View().db) && DeadStay(old(View()).db, View().db)
      ensures Dead(View().db, found.db.grants[id].generation)
      ensures Reaches(Next, (st: Step) => !By(st, p) || Cuts(st, user, client), old(View()), View())
    {
      hide Inv, Next, Grows, DeadStay;
      ghost var mine := (st: Step) => !By(st, p) || Cuts(st, user, client);
      ghost var first := View();
      Pause(p);
      ReachesWider(Next, (st: Step) => !By(st, p), mine, first, View());
      GrowsOn(found.db, first.db, View().db);
      ghost var before := View();
      if id in grants {
        CutOne(id, p);
        ReachesByOne(Next, mine, before, Disconnect(p, id));
        ReachesOn(Next, mine, first, before, View());
      }
      CutIsDead(found, before, View(), id, p);
      ForwardOn(first.db, before.db, View().db);
    }

    /**
     Cut off one client of this user, or all of them. Every generation their grants had when this began
     is revoked or superseded when it returns, and all that this call itself has done is to disconnect such grants.
     */
    method RevokeForUser(user: Id, client: Option<Id>, ghost p: Id)
      requires Inv(View())
      modifies this
      ensures Inv(View()) && Grows(old(View()).db, View().db) && DeadStay(old(View()).db, View().db)
      ensures forall id | id in old(grants) && id.user == user && (client == None || client == Some(id.client)) ::
                Dead(View().db, old(grants)[id].generation)
      ensures Reaches(Next, (st: Step) => !By(st, p) || Cuts(st, user, client), old(View()), View())
    {
      hide Inv, Next, Grows, DeadStay;
      ghost var start := View();
      ghost var mine := (st: Step) => !By(st, p) || Cuts(st, user, client);
      Pause(p);
      ReachesWider(Next, (st: Step) => !By(st, p), mine, start, View());
      ghost var found := View();
      var todo := set id | id in grants && id.user == user && (client == None || client == Some(id.client));
      UnchangedGrows(found.db);
      while todo != {}
        invariant Inv(View()) && Grows(found.db, View().db) && DeadStay(found.db, View().db)
        invariant todo <= found.db.grants.Keys && Reaches(Next, mine, start, View())
        invariant forall id | id in todo :: id.user == user && (client == None || client == Some(id.client))
        invariant forall id | id in found.db.grants && id.user == user && (client == None || client == Some(id.client)) && id !in todo ::
          Dead(View().db, found.db.grants[id].generation)
        decreases todo
      {
        ghost var before := View();
        var id :| id in todo;
        CutFound(id, user, client, p, found);
        ReachesOn(Next, mine, start, before, View());
        DeadStayAll(before.db, View().db);
        ForwardOn(found.db, before.db, View().db);
        todo := todo - {id};
      }
      ForwardOn(start.db, found.db, View().db);
      GrantsAtStart(start, found, View());
    }
  }

  lemma DeadStayAll(a: Database, b: Database)
    requires DeadStay(a, b)
    ensures forall g: nat | Dead(a, g) :: Dead(b, g)
  {
  }

  /** A token made now was in no history before. */
  lemma FreshToken(start: World, w: World)
    requires Inv(w) && Grows(start.db, w.db)
    ensures Digest(w.db.tokens) !in start.db.history && |start.db.generations| <= |w.db.generations|
  {
  }

  /** Once the grant is of a newer generation, all its generations from before are superseded. */
  lemma Superseded(start: World, w: World, approval: Approval, g: nat)
    requires Inv(start) && Grows(start.db, w.db) && g >= |start.db.generations|
    requires approval.grant in w.db.grants && w.db.grants[approval.grant].generation == g
    ensures forall h: nat | h < |start.db.generations| && OfGrant(start.db, approval.grant, h) && start.db.generations[h].committed ::
              Dead(w.db, h)
  {
  }

  lemma EndedSays(w: World, p: Id)
    requires Inv(w) && p in w.procs && w.procs[p].Ended?
    ensures var request, outcome := w.procs[p].request, w.procs[p].outcome;
      && (outcome.Redeemed? ==>
            && outcome.success in w.db.log && outcome.success.from == Digest(request.token)
            && outcome.success.generation < |w.db.generations|
            && Carries(outcome.success, w.db.generations[outcome.success.generation].approval))
      && (outcome.Reused? ==> Dead(w.db, outcome.generation))
      && forall i: nat | Exchanged(w.db, request, i) :: !outcome.Redeemed? && Dead(w.db, w.db.log[i].generation)
  {
    hide HistoryKnown, GrantsKnown, CurrentUnspent, PendingApart, Tip, Of, Chain;
    assert Knows(w.db, w.procs[p]);
    var outcome := w.procs[p].outcome;
    if outcome.Redeemed? {
      var i :| 0 <= i < |w.db.log| && w.db.log[i] == outcome.success;
      assert SuccessKnown(w.db, w.db.log[i]);
    }
  }

  /** Grant `id` cut: the generation it had when found is dead, cut now or superseded before. */
  lemma CutIsDead(found: World, before: World, w: World, id: GrantId, p: Id)
    requires Inv(found) && Inv(before) && Grows(found.db, before.db) && id in found.db.grants
    requires if id in before.db.grants then w == Next(before, Disconnect(p, id)) else w == before
    ensures Dead(w.db, found.db.grants[id].generation) && Grows(before.db, w.db) && DeadStay(before.db, w.db)
  {
    hide Inv, Grows, DeadStay;
    GrantCommitted(found, id);
    GenerationStays(found.db, before.db, found.db.grants[id].generation);
    InvNext(before, Disconnect(p, id));
    UnchangedGrows(before.db);
  }

  lemma GrantCommitted(w: World, id: GrantId)
    requires Inv(w) && id in w.db.grants
    ensures var g := w.db.grants[id].generation;
      g < |w.db.generations| && w.db.generations[g].committed && w.db.generations[g].approval.grant == id
  {
  }

  /** Whatever a grant's generation was at the start, by the end it is dead: superseded before it was found, or cut. */
  lemma GrantsAtStart(start: World, found: World, w: World)
    requires Inv(start) && Grows(start.db, found.db) && DeadStay(found.db, w.db)
    ensures forall id | id in start.db.grants ::
      (id in found.db.grants && found.db.grants[id].generation == start.db.grants[id].generation)
      || Dead(w.db, start.db.grants[id].generation)
  {
  }
}
