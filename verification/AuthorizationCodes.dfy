/**
 Authorization codes: issued with everything the user agreed to, stamped as used by the same call that
 fetches them, and swept once expired. The verifier is checked as section 4.6 of RFC 7636 says.
 */
module AuthorizationCodes {
  import opened Common
  import opened Machine

  const CODE_TTL_MS: nat := 60000

  /** base64url of the SHA-256 of a verifier, taken to be injective. */
  datatype Challenge = S256(verifier: string)

  datatype Consent = Consent(client: Id, user: Id, redirect: string, scopes: set<string>, resource: string, challenge: Challenge)

  datatype Code = Code(consent: Consent, expires: nat, used: bool)

  datatype Request = Request(code: nat, client: Id, redirect: string, verifier: string)

  datatype Rejection = Unknown | Expired | AlreadyUsed | ClientMismatch | RedirectMismatch | PkceFailed

  datatype Answer = Ok(consent: Consent) | Rejected(why: Rejection)

  datatype Proc =
    | Asking(request: Request)
    | Taken(request: Request, record: Code)
    | Missing(request: Request)
    | Ended(request: Request, answer: Answer)

  /** History of a code: what was agreed to, when, and whether anyone ever took it. */
  datatype Issue = Issue(consent: Consent, at: nat, taken: bool)

  /** A successful exchange. */
  datatype Success = Success(request: Request, consent: Consent, at: nat)

  /** Codes are random and never used twice: the next one is the number of those issued. `issues` and `log` are history. */
  datatype World = World(now: nat, codes: map<nat, Code>, procs: map<Id, Proc>, issues: seq<Issue>, log: seq<Success>)

  const START := World(0, map[], map[], [], [])

  datatype Step =
    | Tick(ms: nat)
    | IssueCode(consent: Consent)
    | Sweep(code: nat)
    | Ask(p: Id, request: Request)
    | Take(p: Id)
    | Judge(p: Id)
    | Exists(p: Id)
    | Crash(p: Id)

  /** What the code that was taken says to the request, at this time. */
  function Judgement(now: nat, request: Request, record: Code): Answer {
    if record.expires <= now then Rejected(Expired)
    else if record.consent.client != request.client then Rejected(ClientMismatch)
    else if record.consent.redirect != request.redirect then Rejected(RedirectMismatch)
    else if S256(request.verifier) != record.consent.challenge then Rejected(PkceFailed)
    else Ok(record.consent)
  }

  /** The one call that fetches an unused code and stamps it. */
  function Stamp(w: World, p: Id, request: Request): World {
    var c := request.code;
    if c in w.codes && !w.codes[c].used && c < |w.issues| then
      var record := w.codes[c].(used := true);
      w.(codes := w.codes[c := record], issues := w.issues[c := w.issues[c].(taken := true)], procs := w.procs[p := Taken(request, record)])
    else w.(procs := w.procs[p := Missing(request)])
  }

  function Decide(w: World, p: Id, request: Request, record: Code): World {
    var answer := Judgement(w.now, request, record);
    var v := w.(procs := w.procs[p := Ended(request, answer)]);
    if answer.Ok? then v.(log := w.log + [Success(request, answer.consent, w.now)]) else v
  }

  function Moved(w: World, st: Step, p: Id, proc: Proc): World {
    match proc
    case Asking(request) => if st.Take? then Stamp(w, p, request) else w
    case Taken(request, record) => if st.Judge? then Decide(w, p, request, record) else w
    case Missing(request) =>
      if st.Exists? then w.(procs := w.procs[p := Ended(request, Rejected(if request.code in w.codes then AlreadyUsed else Unknown))]) else w
    case Ended(_, _) => w
  }

  function Next(w: World, st: Step): World {
    match st
    case Tick(ms) => w.(now := w.now + ms)
    case IssueCode(consent) =>
      w.(codes := w.codes[|w.issues| := Code(consent, w.now + CODE_TTL_MS, false)], issues := w.issues + [Issue(consent, w.now, false)])
    case Sweep(code) => if code in w.codes && w.codes[code].expires <= w.now then w.(codes := w.codes - {code}) else w
    case Ask(p, request) => if p in w.procs then w else w.(procs := w.procs[p := Asking(request)])
    case Crash(p) => w.(procs := w.procs - {p})
    case _ => if st.p in w.procs then Moved(w, st, st.p, w.procs[st.p]) else w
  }

  // ---------------------------------------------------------------- what every step keeps

  predicate CodeKnown(c: nat, code: Code, issues: seq<Issue>) {
    && c < |issues| && code.consent == issues[c].consent && code.expires == issues[c].at + CODE_TTL_MS
    && (issues[c].taken <==> code.used)
  }

  predicate SuccessKnown(s: Success, issues: seq<Issue>) {
    && s.request.code < |issues| && issues[s.request.code].taken && s.consent == issues[s.request.code].consent
    && s.at < issues[s.request.code].at + CODE_TTL_MS
    && s.request.client == s.consent.client && s.request.redirect == s.consent.redirect && S256(s.request.verifier) == s.consent.challenge
  }

  /** The code was taken by p, who has not succeeded with it. */
  ghost predicate HoldsAlone(w: World, p: Id, request: Request, record: Code) {
    && CodeKnown(request.code, record, w.issues) && record.used
    && (forall i | 0 <= i < |w.log| :: w.log[i].request.code != request.code)
    && (forall q | q in w.procs && q != p && w.procs[q].Taken? :: w.procs[q].request.code != request.code)
  }

  ghost predicate Inv(w: World) {
    && (forall c | c in w.codes :: CodeKnown(c, w.codes[c], w.issues))
    && (forall i | 0 <= i < |w.log| :: SuccessKnown(w.log[i], w.issues))
    && (forall i, j | 0 <= i < j < |w.log| :: w.log[i].request.code != w.log[j].request.code)
    && (forall p | p in w.procs && w.procs[p].Taken? :: HoldsAlone(w, p, w.procs[p].request, w.procs[p].record))
  }

  lemma StampKept(w: World, p: Id, request: Request)
    requires Inv(w) && p in w.procs && w.procs[p] == Asking(request)
    ensures Inv(Stamp(w, p, request))
  {
    var w' := Stamp(w, p, request);
    if request.code in w.codes && !w.codes[request.code].used {
      assert CodeKnown(request.code, w.codes[request.code], w.issues);
      forall i | 0 <= i < |w.log| ensures w.log[i].request.code != request.code && SuccessKnown(w.log[i], w'.issues) {
        assert SuccessKnown(w.log[i], w.issues);
      }
      forall q | q in w'.procs && q != p && w'.procs[q].Taken? ensures HoldsAlone(w', q, w'.procs[q].request, w'.procs[q].record) {
        assert HoldsAlone(w, q, w.procs[q].request, w.procs[q].record);
      }
    }
  }

  lemma DecideKept(w: World, p: Id, request: Request, record: Code)
    requires Inv(w) && p in w.procs && w.procs[p] == Taken(request, record)
    ensures Inv(Decide(w, p, request, record))
  {
  }

  lemma InvNext(w: World, st: Step)
    requires Inv(w)
    ensures Inv(Next(w, st))
  {
    hide Stamp, Decide;
    var w' := Next(w, st);
    if st.Take? && st.p in w.procs && w.procs[st.p].Asking? {
      StampKept(w, st.p, w.procs[st.p].request);
    } else if st.Judge? && st.p in w.procs && w.procs[st.p].Taken? {
      DecideKept(w, st.p, w.procs[st.p].request, w.procs[st.p].record);
    } else {
      assert forall i | 0 <= i < |w.log| :: SuccessKnown(w.log[i], w.issues);
      assert forall c | c in w.codes :: CodeKnown(c, w.codes[c], w.issues);
      forall q | q in w'.procs && w'.procs[q].Taken? ensures HoldsAlone(w', q, w'.procs[q].request, w'.procs[q].record) {
        assert HoldsAlone(w, q, w.procs[q].request, w.procs[q].record);
      }
    }
  }

  ghost predicate Reachable(w: World) {
    exists steps :: w == After(Next, START, steps)
  }

  lemma ReachableInv(w: World)
    requires Reachable(w)
    ensures Inv(w)
  {
    hide Next, Inv;
    var steps :| w == After(Next, START, steps);
    forall v, st | Inv(v) ensures Inv(Next(v, st)) { InvNext(v, st); }
    assert Inv(START) by { StartKept(); }
    Kept(Next, Inv, START, steps);
  }

  lemma StartKept()
    ensures Inv(START)
  {
  }

  // ---------------------------------------------------------------- the guarantees

  /**
   A code is exchanged at most once, within its minute, by the client and for the redirect it was issued
   to, and by whoever holds the verifier of its challenge; the exchange says what was agreed to.
   */
  lemma CodeExchangedOnce(w: World, i: nat)
    requires Reachable(w) && i < |w.log|
    ensures var s := w.log[i]; var c := s.request.code;
      && c < |w.issues| && s.consent == w.issues[c].consent && s.at < w.issues[c].at + 60000
      && s.request.client == s.consent.client && s.request.redirect == s.consent.redirect
      && S256(s.request.verifier) == s.consent.challenge
    ensures forall j | 0 <= j < |w.log| && j != i :: w.log[j].request.code != w.log[i].request.code
  {
    ReachableInv(w);
    assert SuccessKnown(w.log[i], w.issues);
  }

  /** Nobody is on the way to exchanging this code, and nobody will be. */
  ghost predicate Burnt(w: World, c: nat) {
    && c < |w.issues| && w.issues[c].taken
    && forall p | p in w.procs && w.procs[p].Taken? :: w.procs[p].request.code != c
  }

  /** Any request that took a code and was refused has burnt it: no later one succeeds with it, not even the right client. */
  lemma RefusalBurns(w: World, p: Id, request: Request, record: Code, later: seq<Step>)
    requires Reachable(w) && p in w.procs && w.procs[p] == Taken(request, record) && Judgement(w.now, request, record).Rejected?
    ensures forall i | 0 <= i < |After(Next, Next(w, Judge(p)), later).log| ::
              After(Next, Next(w, Judge(p)), later).log[i].request.code != request.code
  {
    hide Inv, Next;
    ReachableInv(w);
    var v := Next(w, Judge(p));
    RefusedIsBurnt(w, p, request, record);
    InvNext(w, Judge(p));
    var inv := (x: World) => Inv(x) && Burnt(x, request.code) && forall i | 0 <= i < |x.log| :: x.log[i].request.code != request.code;
    forall x, st | inv(x) ensures inv(Next(x, st)) {
      InvNext(x, st);
      BurntStays(x, st, request.code);
    }
    Kept(Next, inv, v, later);
  }

  lemma RefusedIsBurnt(w: World, p: Id, request: Request, record: Code)
    requires Inv(w) && p in w.procs && w.procs[p] == Taken(request, record) && Judgement(w.now, request, record).Rejected?
    ensures Burnt(Next(w, Judge(p)), request.code) && Next(w, Judge(p)).log == w.log
    ensures forall i | 0 <= i < |w.log| :: w.log[i].request.code != request.code
  {
  }

  lemma BurntStays(w: World, st: Step, c: nat)
    requires Inv(w) && Burnt(w, c) && forall i | 0 <= i < |w.log| :: w.log[i].request.code != c
    ensures Burnt(Next(w, st), c) && forall i | 0 <= i < |Next(w, st).log| :: Next(w, st).log[i].request.code != c
  {
  }

  /**
   Alone, a request succeeds exactly when its code is there, unused and unexpired, was issued to this
   client and redirect, and the verifier is that of its challenge. A code that is there and used is
   reported as such, one that is not as unknown.
   */
  lemma SucceedsExactlyWhen(w: World, p: Id, request: Request)
    requires Reachable(w) && p !in w.procs
    ensures var unused := request.code in w.codes && !w.codes[request.code].used;
      var w' := Next(Next(Next(w, Ask(p, request)), Take(p)), if unused then Judge(p) else Exists(p));
      && p in w'.procs && w'.procs[p].Ended?
      && (w'.procs[p].answer.Ok? <==>
            && unused && w.now < w.codes[request.code].expires
            && w.codes[request.code].consent.client == request.client && w.codes[request.code].consent.redirect == request.redirect
            && w.codes[request.code].consent.challenge == S256(request.verifier))
      && (w'.procs[p].answer == Rejected(AlreadyUsed) <==> request.code in w.codes && w.codes[request.code].used)
      && (w'.procs[p].answer == Rejected(Unknown) <==> request.code !in w.codes)
  {
    ReachableInv(w);
    if request.code in w.codes { assert CodeKnown(request.code, w.codes[request.code], w.issues); }
  }

  // ---------------------------------------------------------------- redeeming, as it is written

  predicate By(st: Step, p: Id) {
    !st.Tick? && !st.IssueCode? && !st.Sweep? && st.p == p
  }

  ghost predicate Beside(a: World, b: World, p: Id) {
    Inv(a) ==> Inv(b) && Grows(a, b) && (p in b.procs <==> p in a.procs) && (p in a.procs ==> b.procs[p] == a.procs[p])
  }

  /** Time moves on, codes once issued are as they were agreed to, a code taken stays so, and a code gone stays gone. */
  ghost predicate Grows(a: World, b: World) {
    && a.now <= b.now && |a.issues| <= |b.issues|
    && (forall c: nat | c < |a.issues| ::
          && b.issues[c].consent == a.issues[c].consent && b.issues[c].at == a.issues[c].at
          && (a.issues[c].taken ==> b.issues[c].taken) && (c in b.codes ==> c in a.codes))
  }

  lemma GrowsOn(a: World, b: World, c: World)
    requires Grows(a, b) && Grows(b, c)
    ensures Grows(a, c)
  {
  }

  lemma GrowsNext(w: World, st: Step)
    ensures Grows(w, w) && Grows(w, Next(w, st))
  {
  }

  /** The reason given is one there is. `issued` is how many codes there had been when the request came. */
  predicate Deserved(w: World, request: Request, why: Rejection, issued: nat) {
    var c := request.code;
    match why
    case Unknown => c !in w.codes
    case AlreadyUsed => c in w.codes && (c < issued ==> c < |w.issues| && w.issues[c].taken)
    case Expired => c < |w.issues| && w.issues[c].at + 60000 <= w.now
    case ClientMismatch => c < |w.issues| && w.issues[c].consent.client != request.client
    case RedirectMismatch => c < |w.issues| && w.issues[c].consent.redirect != request.redirect
    case PkceFailed => c < |w.issues| && w.issues[c].consent.challenge != S256(request.verifier)
  }

  lemma RefusedRightly(w: World, p: Id, request: Request, record: Code, issued: nat)
    requires Inv(w) && p in w.procs && w.procs[p] == Taken(request, record) && Judgement(w.now, request, record).Rejected?
    ensures Deserved(w, request, Judgement(w.now, request, record).why, issued)
  {
    assert HoldsAlone(w, p, request, record);
  }

  /** A code found missing or used, and there when asked about again, was used, unless it was issued since. */
  lemma MissingMeans(fetched: World, w: World, request: Request, issued: nat)
    requires Inv(fetched) && Grows(fetched, w) && issued <= |fetched.issues|
    requires request.code in fetched.codes ==> fetched.codes[request.code].used
    ensures Deserved(w, request, if request.code in w.codes then AlreadyUsed else Unknown, issued)
  {
    if request.code in fetched.codes { assert CodeKnown(request.code, fetched.codes[request.code], fetched.issues); }
  }

  lemma SameDeserved(a: World, b: World, request: Request, why: Rejection, issued: nat)
    requires a.codes == b.codes && a.issues == b.issues && a.now == b.now && Deserved(a, request, why, issued)
    ensures Deserved(b, request, why, issued)
  {
  }

  lemma RunsBeside(a: World, b: World, p: Id)
    requires Reaches(Next, (st: Step) => !By(st, p), a, b)
    ensures Beside(a, b, p)
  {
    hide Next, Inv, By, Grows;
    var others := (st: Step) => !By(st, p);
    var rel := (x: World, y: World) => Beside(x, y, p);
    var steps: seq<Step> :| (forall st | st in steps :: others(st)) && b == After(Next, a, steps);
    GrowsNext(a, Tick(0));
    forall x, y, z | rel(x, y) && rel(y, z) ensures rel(x, z) {
      if Inv(x) { GrowsOn(x, y, z); }
    }
    forall v, st | others(st) ensures rel(v, Next(v, st)) { StepBeside(v, st, p); }
    Related(Next, others, rel, a, steps);
  }

  lemma StepBeside(w: World, st: Step, p: Id)
    requires !By(st, p)
    ensures Beside(w, Next(w, st), p)
  {
    hide Inv;
    if Inv(w) { InvNext(w, st); GrowsNext(w, st); }
  }

  class CodeStore {
    var now: nat
    var codes: map<nat, Code>
    ghost var procs: map<Id, Proc>
    ghost var issues: seq<Issue>
    ghost var log: seq<Success>

    ghost function View(): World
      reads this
    {
      World(now, codes, procs, issues, log)
    }

    /** Any number of steps of other requests. */
    method Interfere(ghost p: Id)
      modifies this
      ensures Reaches(Next, (st: Step) => !By(st, p), old(View()), View())
    {
      ReachesItself(Next, (st: Step) => !By(st, p), View());
    }

    method Pause(ghost p: Id)
      requires Inv(View())
      modifies this
      ensures Inv(View()) && (p in procs <==> p in old(procs)) && (p in procs ==> procs[p] == old(procs)[p])
      ensures Grows(old(View()), View())
    {
      hide Inv, Next, Grows;
      ghost var before := View();
      Interfere(p);
      RunsBeside(before, View(), p);
    }

    method FetchAndStamp(request: Request, ghost p: Id) returns (record: Option<Code>)
      requires Inv(View()) && p in procs && procs[p] == Asking(request)
      modifies this
      ensures View() == Next(old(View()), Take(p)) && Inv(View()) && p in procs
      ensures procs[p] == if record.Some? then Taken(request, record.value) else Missing(request)
      ensures record.Some? <==> request.code in old(codes) && !old(codes)[request.code].used
      ensures |issues| == |old(issues)| && (record == None ==> codes == old(codes))
    {
      ghost var before := View();
      var c := request.code;
      assert c in codes ==> CodeKnown(c, codes[c], issues);
      if c in codes && !codes[c].used {
        record := Some(codes[c].(used := true));
        codes := codes[c := record.value];
        issues := issues[c := issues[c].(taken := true)];
        procs := procs[p := Taken(request, record.value)];
      } else {
        record := None;
        procs := procs[p := Missing(request)];
      }
      hide Inv;
      InvNext(before, Take(p));
    }

    /**
     Exchange a code, once. A success is the only one this code will have; a code that was fetched and
     refused is burnt. Each refusal is for the reason it gives.
     */
    method Redeem(request: Request, ghost p: Id) returns (answer: Answer)
      requires Inv(View()) && p !in procs
      modifies this
      ensures Inv(View()) && p in procs && procs[p] == Ended(request, answer)
      ensures answer.Ok? ==> |log| > 0 && log[|log| - 1] == Success(request, answer.consent, now)
      ensures !answer.Ok? && answer != Rejected(Unknown) && answer != Rejected(AlreadyUsed) ==>
        Burnt(View(), request.code) && forall i | 0 <= i < |log| :: log[i].request.code != request.code
      ensures answer.Rejected? ==> Deserved(View(), request, answer.why, |old(issues)|)
    {
      hide Inv, Stamp, Burnt, HoldsAlone, Deserved, Grows;
      ghost var start := View();
      Pause(p);
      ghost var before := View();
      procs := procs[p := Asking(request)];
      InvNext(before, Ask(p, request));
      IssuesGrow(start, before);
      before := View();
      Pause(p);
      IssuesGrow(before, View());
      var record := FetchAndStamp(request, p);
      ghost var fetched := View();
      Pause(p);
      before := View();
      if record == None {
        answer := Rejected(if request.code in codes then AlreadyUsed else Unknown);
        MissingMeans(fetched, before, request, |start.issues|);
        procs := procs[p := Ended(request, answer)];
        InvNext(before, Exists(p));
      } else {
        answer := Judgement(now, request, record.value);
        if answer.Ok? {
          log := log + [Success(request, answer.consent, now)];
        } else {
          RefusedIsBurnt(before, p, request, record.value);
          RefusedRightly(before, p, request, record.value, |start.issues|);
        }
        procs := procs[p := Ended(request, answer)];
        InvNext(before, Judge(p));
      }
      if answer.Rejected? { SameDeserved(before, View(), request, answer.why, |start.issues|); }
    }
  }

  lemma IssuesGrow(a: World, b: World)
    requires Grows(a, b)
    ensures |a.issues| <= |b.issues|
  {
  }

  /**
   Undisturbed, a code just issued is exchanged exactly when it is asked for within a minute, by its client, for its
   redirect and with the verifier of its challenge; what is answered then is what was agreed to.
   */
  lemma FreshCodeExchanges(w: World, consent: Consent, ms: nat, p: Id, request: Request)
    requires p !in w.procs && request.code == |w.issues|
    ensures var w' := Next(Next(Next(After(Next, w, [IssueCode(consent), Tick(ms)]), Ask(p, request)), Take(p)), Judge(p));
      && p in w'.procs && w'.procs[p].Ended?
      && (w'.procs[p].answer.Ok? <==>
            && ms < 60000 && request.client == consent.client && request.redirect == consent.redirect
            && consent.challenge == S256(request.verifier))
      && (w'.procs[p].answer.Ok? ==> w'.procs[p].answer == Ok(consent))
  {
    hide Next;
    AfterTwo(Next, w, IssueCode(consent), Tick(ms));
    FreshCode(w, consent, ms, p, request);
  }

  lemma FreshCode(w: World, consent: Consent, ms: nat, p: Id, request: Request)
    requires p !in w.procs && request.code == |w.issues|
    ensures var w' := Next(Next(Next(Next(Next(w, IssueCode(consent)), Tick(ms)), Ask(p, request)), Take(p)), Judge(p));
      && p in w'.procs && w'.procs[p].Ended?
      && (w'.procs[p].answer.Ok? <==>
            && ms < 60000 && request.client == consent.client && request.redirect == consent.redirect
            && consent.challenge == S256(request.verifier))
      && (w'.procs[p].answer.Ok? ==> w'.procs[p].answer == Ok(consent))
  {
  }
}
