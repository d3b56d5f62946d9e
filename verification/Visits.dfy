/** What the web layer guarantees over any sequence of requests to one site, whatever fails on the way. */
module Visits {
  import opened Datastore
  import opened Encoding
  import opened Argon2id
  import opened Effects
  import opened Operations
  import opened Changes
  import opened History
  import opened Accounts
  import opened System
  import opened Sessions
  import opened UserService
  import opened Web

  /** A transaction only ever offered the cache names and emails that were committed before it began, however it
      ends. */
  lemma {:induction false} CachedRowsAreCommitted(argon: Argon2idHash, op: Op, s: Store, inputs: seq<Input>)
    requires Invariant(s)
    ensures forall user :: user in Exec(argon, op, s, inputs).local.cached ==>
              Mentions(s, Account(user.name, user.email))
    decreases |inputs|
  {
    hide Program, Invariant, Mentions;
    if inputs == [] {
    } else {
      var n := |inputs| - 1;
      assert inputs == inputs[..n] + [inputs[n]];
      CachedRowsAreCommitted(argon, op, s, inputs[..n]);
      RunAppend(Program(argon, op), Local(s, [], []), inputs[..n], inputs[n], 0);
      var p := Exec(argon, op, s, inputs[..n]);
      if p.rest.Do? && p.rest.effect.CacheUser? {
        OfferedRowIsCommitted(argon, op, s, inputs[..n]);
      }
    }
  }

  lemma {:induction false} OffersKeepCache(s: Store, cache: map<string, Account>, offers: seq<User>)
    requires CacheHolds(s, cache)
    requires forall user :: user in offers ==> Mentions(s, Account(user.name, user.email))
    ensures CacheHolds(s, FillAll(cache, offers))
    decreases |offers|
  {
    if offers == [] {
    } else {
      OffersKeepCache(s, cache, offers[..|offers| - 1]);
    }
  }

  /** The joint invariant, the cache's agreement with the committed rows, and a verified user behind every session. */
  ghost predicate Trustworthy(site: Site) {
    && Invariant(site.world.store)
    && CacheHolds(site.world.store, site.world.cache)
    && forall k :: k in site.sessions ==> IsVerified(site.world.store, site.sessions[k])
  }

  ghost predicate Healthy(w: World) { Invariant(w.store) && CacheHolds(w.store, w.cache) }

  /** The store a successful body would commit keeps the invariant and extends the old one. */
  lemma CommittedStore(argon: Argon2idHash, op: Op, s: Store, inputs: seq<Input>)
    requires Invariant(s) && Timely(inputs)
    ensures var p := Exec(argon, op, s, inputs);
            p.rest.Done? && p.rest.outcome.Ok? ==> Invariant(p.local.view) && Extends(s, p.local.view)
  {
    ServeSucceeds(argon, op, s, inputs);
    var p := Exec(argon, op, s, inputs);
    if p.rest.Done? && p.rest.outcome.Ok? {
      if ChangeOf(argon, op, s, inputs).Some? {
        CommitsArePermitted(argon, op, s, inputs);
        ApplyKeepsInvariant(argon, s, ChangeOf(argon, op, s, inputs).value, p.local.view);
        ApplyExtends(argon, s, ChangeOf(argon, op, s, inputs).value, p.local.view);
      } else {
        ExtendsIsReflexive(s);
      }
    }
  }

  lemma CalledStaysHealthy(argon: Argon2idHash, op: Op, w: World, inputs: seq<Input>, begins: bool, commits: bool)
    requires Healthy(w) && Timely(inputs)
    ensures var (out, w') := Called(argon, op, w, inputs, begins, commits);
            && Healthy(w') && Extends(w.store, w'.store)
            && (out.Ok? && Answers(op) ==>
                  && out.user.Some?
                  && Mentions(w'.store, Account(out.user.value.name, out.user.value.email))
                  && (SignsIn(op) ==> IsVerified(w'.store, out.user.value.email)))
  {
    var (out, w') := Called(argon, op, w, inputs, begins, commits);
    CommittedStore(argon, op, w.store, inputs);
    ExtendsIsReflexive(w.store);
    CachedRowsAreCommitted(argon, op, w.store, inputs);
    OffersKeepCache(w.store, w.cache, Exec(argon, op, w.store, inputs).local.cached);
    CacheKeepsHolding(w.store, w'.store, FillAll(w.cache, Exec(argon, op, w.store, inputs).local.cached));
    CacheKeepsHolding(w.store, w'.store, w.cache);
    if out.Ok? && Answers(op) {
      AnsweredUserIsCommitted(argon, op, w.store, inputs);
    }
  }

  lemma LookedStaysHealthy(argon: Argon2idHash, op: Op, w: World, inputs: seq<Input>, begins: bool, commits: bool)
    requires Healthy(w) && Timely(inputs) && (op.GetUser? || op.Signin?)
    ensures var (r, w') := Looked(argon, op, w, inputs, begins, commits);
            && Healthy(w') && Extends(w.store, w'.store)
            && (r.Found? ==> Mentions(w'.store, r.account))
            && (r.Found? && op.Signin? ==> IsVerified(w'.store, r.account.email))
  {
    CalledStaysHealthy(argon, op, w, inputs, begins, commits);
    ExtendsIsReflexive(w.store);
    hide Called, Invariant, Extends;
  }

  /** What the environment of a request may do: anything, but its clock is positive. */
  predicate Sane(c: Conditions) { Timely(c.inputs) }

  lemma SessionsPersist(site: Site, t: Store)
    requires Trustworthy(site) && Extends(site.world.store, t)
    ensures forall k :: k in site.sessions ==> IsVerified(t, site.sessions[k])
  {
    forall k | k in site.sessions ensures IsVerified(t, site.sessions[k]) {
      VerifiedPersists(site.world.store, t, site.sessions[k]);
    }
  }

  lemma HandledKeepsTrust(argon: Argon2idHash, text: Text, baseURL: string, site: Site, session: string, r: Request,
                          call: Conditions, destroys: bool)
    requires Trustworthy(site) && Sane(call)
    ensures Trustworthy(Handled(argon, text, baseURL, site, session, r, call, destroys).1)
  {
    var checked := CallOf(text, baseURL, EmailOf(site.sessions, session), r);
    hide CallOf, Invariant, CacheHolds, Extends, IsVerified, Looked, Called, Timely;
    if checked.Good? {
      var (op, w) := (checked.op, site.world);
      if op.Signin? {
        LookedStaysHealthy(argon, op, w, call.inputs, call.begins, call.commits);
        SessionsPersist(site, Looked(argon, op, w, call.inputs, call.begins, call.commits).1.store);
      } else {
        CalledStaysHealthy(argon, op, w, call.inputs, call.begins, call.commits);
        SessionsPersist(site, Called(argon, op, w, call.inputs, call.begins, call.commits).1.store);
      }
    }
  }

  /** Every request, refused, failed or served, keeps the site trustworthy. */
  lemma ServedKeepsTrust(argon: Argon2idHash, text: Text, baseURL: string, site: Site, session: string, r: Request,
                         look: Conditions, call: Conditions, destroys: bool)
    requires Trustworthy(site) && Sane(look) && Sane(call)
    ensures Trustworthy(Served(argon, text, baseURL, site, session, r, look, call, destroys).1)
  {
    var email := EmailOf(site.sessions, session);
    var w := Visited(argon, email, site.world, look).1;
    hide EmailOf, Invariant, CacheHolds, Extends, IsVerified, Looked, Handled, Timely;
    if email != "" {
      LookedStaysHealthy(argon, Op.GetUser(email), site.world, look.inputs, look.begins, look.commits);
      SessionsPersist(site, w.store);
    }
    HandledKeepsTrust(argon, text, baseURL, Site(w, site.sessions), session, r, call, destroys);
  }

  /** The look-up reaches the database and one of its three steps fails. */
  predicate LookupFails(site: Site, email: string, look: Conditions) {
    && email != "" && email !in site.world.cache
    && (!look.begins || !look.commits || look.inputs == [] || look.inputs[0].fail)
  }

  /** On a trustworthy site the middleware panics exactly when its database look-up fails; a signed-in visitor whose
      look-up does not fail is shown under the email of the session. */
  lemma PanicNeedsFailure(argon: Argon2idHash, site: Site, session: string, look: Conditions)
    requires Trustworthy(site)
    ensures var email := EmailOf(site.sessions, session);
            var data := Visited(argon, email, site.world, look).0;
            && (data.None? <==> LookupFails(site, email, look))
            && (data.Some? ==> data.value.email == email)
  {
    var email := EmailOf(site.sessions, session);
    if email != "" && email !in site.world.cache {
      ServeSucceeds(argon, Op.GetUser(email), site.world.store, look.inputs);
      var p := Exec(argon, Op.GetUser(email), site.world.store, look.inputs);
      if look.inputs != [] {
        var b, l := Unroll(Program(argon, Op.GetUser(email)), Local(site.world.store, [], []), look.inputs, 0);
      }
    }
  }

  // ---- Sequences of requests and restarts

  datatype Visit =
    | Visit(session: string, request: Request, look: Conditions, call: Conditions, destroys: bool)
    | Restart
  {
    ghost predicate Timed() { Visit? ==> Sane(look) && Sane(call) }
  }

  const OPENING := Site(World(EMPTY, [], map[]), map[])

  /** A restart empties the cache; the sessions and the store are in databases. */
  function Restarted(site: Site): Site { site.(world := site.world.(cache := map[])) }

  function ServedTo(argon: Argon2idHash, text: Text, baseURL: string, site: Site, v: Visit): (Page, Site)
    requires v.Visit?
  {
    Served(argon, text, baseURL, site, v.session, v.request, v.look, v.call, v.destroys)
  }

  function SiteAfter(argon: Argon2idHash, text: Text, baseURL: string, visits: seq<Visit>, n: nat): Site
    requires n <= |visits|
  {
    if n == 0 then OPENING
    else
      var site := SiteAfter(argon, text, baseURL, visits, n - 1);
      if visits[n - 1].Restart? then Restarted(site) else ServedTo(argon, text, baseURL, site, visits[n - 1]).1
  }

  lemma OpeningIsTrustworthy()
    ensures Trustworthy(OPENING)
  {
  }

  lemma RestartKeepsTrust(site: Site)
    requires Trustworthy(site)
    ensures Trustworthy(Restarted(site))
  {
  }

  lemma {:induction false} EverySiteIsTrustworthy(argon: Argon2idHash, text: Text, baseURL: string, visits: seq<Visit>,
                                                  n: nat)
    requires n <= |visits| && forall v :: v in visits ==> v.Timed()
    ensures Trustworthy(SiteAfter(argon, text, baseURL, visits, n))
  {
    hide Served, Trustworthy, Sane;
    if n == 0 {
      OpeningIsTrustworthy();
    } else {
      var site, v := SiteAfter(argon, text, baseURL, visits, n - 1), visits[n - 1];
      assert v in visits;
      EverySiteIsTrustworthy(argon, text, baseURL, visits, n - 1);
      if v.Restart? {
        RestartKeepsTrust(site);
      } else {
        ServedKeepsTrust(argon, text, baseURL, site, v.session, v.request, v.look, v.call, v.destroys);
      }
    }
  }

  lemma PanicsOnlyInMiddleware(argon: Argon2idHash, text: Text, baseURL: string, site: Site, session: string,
                               r: Request,
                               look: Conditions, call: Conditions, destroys: bool)
    ensures Served(argon, text, baseURL, site, session, r, look, call, destroys).0 == Panicked
       <==> Visited(argon, EmailOf(site.sessions, session), site.world, look).0.None?
  {
    hide CallOf, Looked, Called, Visited, EmailOf;
  }

  ghost predicate SignedInAreCached(site: Site) {
    forall k :: k in site.sessions ==> site.sessions[k] in site.world.cache
  }

  lemma {:induction false} FillingGrows(cache: map<string, Account>, offers: seq<User>)
    ensures cache.Keys <= FillAll(cache, offers).Keys
    ensures forall user :: user in offers ==> user.email in FillAll(cache, offers)
    decreases |offers|
  {
    if offers == [] {
    } else {
      var n := |offers| - 1;
      FillingGrows(cache, offers[..n]);
      assert offers == offers[..n] + [offers[n]];
    }
  }

  /** A call only adds to the cache, and whoever it signs in is in it. */
  lemma CalledCaches(argon: Argon2idHash, op: Op, w: World, c: Conditions)
    ensures var (out, there) := Called(argon, op, w, c.inputs, c.begins, c.commits);
            && w.cache.Keys <= there.cache.Keys
            && (out.Ok? && SignsIn(op) && !op.Signin? && out.user.Some? ==> out.user.value.email in there.cache)
  {
    Meaning(argon, op, w.store, c.inputs);
    var p := Exec(argon, op, w.store, c.inputs);
    FillingGrows(w.cache, p.local.cached);
    hide Exec, After, Target, FillAll;
    if p.rest.Done? && p.rest.outcome.Ok? && SignsIn(op) && !op.Signin? && p.rest.outcome.user.Some? {
      assert p.local.cached[0] == p.rest.outcome.user.value;
    }
  }

  lemma HandledCaches(argon: Argon2idHash, text: Text, baseURL: string, site: Site, session: string, r: Request,
                      call: Conditions, destroys: bool)
    requires SignedInAreCached(site)
    ensures SignedInAreCached(Handled(argon, text, baseURL, site, session, r, call, destroys).1)
  {
    var checked := CallOf(text, baseURL, EmailOf(site.sessions, session), r);
    hide CallOf, Exec, FillAll;
    if checked.Good? {
      CalledCaches(argon, checked.op, site.world, call);
    }
  }

  lemma ServedCaches(argon: Argon2idHash, text: Text, baseURL: string, site: Site, session: string, r: Request,
                     look: Conditions, call: Conditions, destroys: bool)
    requires SignedInAreCached(site)
    ensures SignedInAreCached(Served(argon, text, baseURL, site, session, r, look, call, destroys).1)
  {
    hide Handled, Called;
    var email := EmailOf(site.sessions, session);
    CalledCaches(argon, Op.GetUser(email), site.world, look);
    var w := Visited(argon, email, site.world, look).1;
    HandledCaches(argon, text, baseURL, Site(w, site.sessions), session, r, call, destroys);
  }

  lemma OpeningIsCached()
    ensures SignedInAreCached(OPENING)
  {
  }

  lemma CachedLookupsDoNotFail(site: Site, session: string, look: Conditions)
    requires SignedInAreCached(site)
    ensures !LookupFails(site, EmailOf(site.sessions, session), look)
  {
  }

  /** Without a restart everyone signed in is cached. */
  lemma {:induction false} CachedUntilRestart(argon: Argon2idHash, text: Text, baseURL: string, visits: seq<Visit>,
                                              n: nat)
    requires n <= |visits| && forall i :: 0 <= i < n ==> visits[i].Visit?
    ensures SignedInAreCached(SiteAfter(argon, text, baseURL, visits, n))
  {
    hide Served, SignedInAreCached;
    if n == 0 {
      OpeningIsCached();
    } else {
      var site, v := SiteAfter(argon, text, baseURL, visits, n - 1), visits[n - 1];
      CachedUntilRestart(argon, text, baseURL, visits, n - 1);
      ServedCaches(argon, text, baseURL, site, v.session, v.request, v.look, v.call, v.destroys);
    }
  }

  /** Whatever was requested before and however often the server restarted, a page is a panic exactly when this
      request's look-up reaches the database and fails there; and that takes an earlier restart. */
  lemma OnlyFailuresPanic(argon: Argon2idHash, text: Text, baseURL: string, visits: seq<Visit>, n: nat)
    requires n < |visits| && visits[n].Visit? && forall v :: v in visits ==> v.Timed()
    ensures var site, v := SiteAfter(argon, text, baseURL, visits, n), visits[n];
            ServedTo(argon, text, baseURL, site, v).0 == Panicked
            <==> LookupFails(site, EmailOf(site.sessions, v.session), v.look)
    ensures ServedTo(argon, text, baseURL, SiteAfter(argon, text, baseURL, visits, n), visits[n]).0 == Panicked ==>
              exists i :: 0 <= i < n && visits[i].Restart?
  {
    hide Served, Trustworthy, Visited, SiteAfter, LookupFails, EmailOf;
    var site, v := SiteAfter(argon, text, baseURL, visits, n), visits[n];
    EverySiteIsTrustworthy(argon, text, baseURL, visits, n);
    PanicNeedsFailure(argon, site, v.session, v.look);
    PanicsOnlyInMiddleware(argon, text, baseURL, site, v.session, v.request, v.look, v.call, v.destroys);
    if forall i :: 0 <= i < n ==> visits[i].Visit? {
      CachedUntilRestart(argon, text, baseURL, visits, n);
      CachedLookupsDoNotFail(site, v.session, v.look);
    }
  }

  /** Right after a restart nothing is cached, so whoever is signed in gets a panic exactly when the look-up fails. */
  lemma RestartExposesFailures(argon: Argon2idHash, text: Text, baseURL: string, visits: seq<Visit>, n: nat)
    requires 0 < n < |visits| && visits[n - 1].Restart? && visits[n].Visit? && forall v :: v in visits ==> v.Timed()
    ensures var site, v := SiteAfter(argon, text, baseURL, visits, n), visits[n];
            && site.sessions == SiteAfter(argon, text, baseURL, visits, n - 1).sessions
            && (ServedTo(argon, text, baseURL, site, v).0 == Panicked
                <==> EmailOf(site.sessions, v.session) != ""
                     && (!v.look.begins || !v.look.commits || v.look.inputs == [] || v.look.inputs[0].fail))
  {
    hide Served, Timely;
    OnlyFailuresPanic(argon, text, baseURL, visits, n);
  }

  // ---- Who is signed in

  /** What a sign-in or a redeemed link answers the web layer, in terms of the call served alone. */
  lemma SigningInIsServed(argon: Argon2idHash, op: Op, w: World, c: Conditions)
    requires SignsIn(op) && Invariant(w.store) && Timely(c.inputs)
    ensures var r := if op.Signin? then Looked(argon, op, w, c.inputs, c.begins, c.commits).0
                     else ToResponse(Called(argon, op, w, c.inputs, c.begins, c.commits).0);
            && (r.Found? <==> c.begins && c.commits && Serve(argon, op, w.store, c.inputs).0.Ok?)
            && (r.Found? ==> r.account.email == Target(op, w.store))
            && (!r.Found? ==> r.Refused?)
  {
    var p := Exec(argon, op, w.store, c.inputs);
    if p.rest.Done? && p.rest.outcome.Ok? {
      AnsweredUserIsCommitted(argon, op, w.store, c.inputs);
    }
    hide Exec, Target, Mentions, IsVerified;
  }

  /** Behind its middlewares a handler signs a session in exactly when its form is valid and its sign-in, or the
      token of its link, is accepted by the committed store and committed; it then holds the email of that account,
      and every other session is as before. */
  lemma SessionsFollowCredentials(argon: Argon2idHash, text: Text, baseURL: string, site: Site, session: string,
                                  r: Request,
                                  call: Conditions, destroys: bool)
    requires Invariant(site.world.store) && Timely(call.inputs)
    ensures var (page, there) := Handled(argon, text, baseURL, site, session, r, call, destroys);
            var checked := CallOf(text, baseURL, EmailOf(site.sessions, session), r);
            && (page == Redirect("/") <==>
                  && checked.Good? && SignsIn(checked.op) && call.begins && call.commits
                  && Serve(argon, checked.op, site.world.store, call.inputs).0.Ok?)
            && there.sessions ==
               (if page == Redirect("/") then site.sessions[session := Target(checked.op, site.world.store)]
                else if r.GetSignout? && destroys then site.sessions - {session}
                else site.sessions)
  {
    hide Looked, Called, Serve, Target, EmailOf, Invariant, Timely;
    var checked := CallOf(text, baseURL, EmailOf(site.sessions, session), r);
    if checked.Good? && SignsIn(checked.op) {
      SigningInIsServed(argon, checked.op, site.world, call);
    }
  }

  // ---- Witnesses

  /** A small key derivation and eight inputs without a failure. */
  const TINY := Argon2idHash(1, 1, 1, 1, 1, (p: Bytes, s: Bytes, t: nat, m: nat, l: nat, k: nat) => [0])

  const CALM: seq<Input> := seq(8, (i: nat) => Input(false, 1, "t", (j: nat) => 0))

  /** A mail.ParseAddress that knows one address with a comment, and leaves every other string. */
  const LITERAL := Text((s: string) => s, (s: string) => s,
                        (s: string) => if s == "a@x (A)" then Some("a@x") else Some(s))

  lemma SignupLeaves(argon: Argon2idHash, op: Op, s: Store, up: seq<Input>)
    requires op.Signup? && Serve(argon, op, s, up).0.Ok?
    ensures |up| >= 8 && op.email !in s.users
    ensures var t := Serve(argon, op, s, up).1;
            && t.users.Keys == s.users.Keys + {op.email} && t.users[op.email].deletedAt == 0
            && up[3].uuid in t.tokens && t.tokens[up[3].uuid] == IssueOf(SIGNUP, op.email, up, 3)
            && Hashes(argon, op.password, t.users[op.email].password, t.users[op.email].salt)
  {
    ServeSucceeds(argon, op, s, up);
    hide Exec;
  }

  lemma CalmSignup(op: Op)
    requires op.Signup? && op.password != []
    ensures Serve(TINY, op, EMPTY, CALM).0.Ok?
    ensures var t := Serve(TINY, op, EMPTY, CALM).1;
            && "t" in t.tokens && t.tokens["t"] == TokenRow("t", SIGNUP, op.email, 1 + Duration(SIGNUP), 0)
            && op.email in t.users
    ensures Called(TINY, op, World(EMPTY, [], map[]), CALM, true, true).0.Ok?
    ensures Called(TINY, op, World(EMPTY, [], map[]), CALM, true, true).1.store == Serve(TINY, op, EMPTY, CALM).1
  {
    ServeSucceeds(TINY, op, EMPTY, CALM);
    SignupLeaves(TINY, op, EMPTY, CALM);
    hide Exec;
  }

  lemma CalmLink(site: Site)
    requires Trustworthy(site) && site.sessions == map[]
    requires Redeemable(site.world.store, SIGNUP, "t", 1) && site.world.store.tokens["t"].email == "a@x"
    ensures var calm := Conditions(CALM, true, true);
            Served(TINY, LITERAL, "", site, "k", GetSignupToken("t"), calm, calm, true).1.sessions == map["k" := "a@x"]
  {
    var calm := Conditions(CALM, true, true);
    assert Live(site.world.store, "t");
    ServeSucceeds(TINY, ValidateSignupToken("t"), site.world.store, CALM);
    SessionsFollowCredentials(TINY, LITERAL, "", site, "k", GetSignupToken("t"), calm, true);
    hide Handled, Serve;
    assert EmailOf(site.sessions, "k") == "";
  }

  lemma CalmForm()
    ensures var (calm, op) := (Conditions(CALM, true, true), Signup("", "a@x", "A", Utf8Bytes("p")));
            var there := Served(TINY, LITERAL, "", OPENING, "k", PostSignup("a@x", "A", "p", "p"), calm, calm, true).1;
            && there.sessions == map[]
            && there.world.store == Serve(TINY, op, EMPTY, CALM).1
            && Redeemable(there.world.store, SIGNUP, "t", 1) && there.world.store.tokens["t"].email == "a@x"
  {
    var op := Signup("", "a@x", "A", Utf8Bytes("p"));
    CalmSignup(op);
    hide Called, Serve;
    assert CallOf(LITERAL, "", "", PostSignup("a@x", "A", "p", "p")) == Good(op);
  }

  /** The panic is reachable: sign up, follow the link, restart, and the first page with a failing look-up. */
  lemma PanicIsReachable() returns (visits: seq<Visit>)
    ensures |visits| == 4 && visits[3].Visit? && forall v :: v in visits ==> v.Timed()
    ensures ServedTo(TINY, LITERAL, "", SiteAfter(TINY, LITERAL, "", visits, 3), visits[3]).0 == Panicked
  {
    var calm := Conditions(CALM, true, true);
    visits := [Visit("k", PostSignup("a@x", "A", "p", "p"), calm, calm, true),
               Visit("k", GetSignupToken("t"), calm, calm, true),
               Restart,
               Visit("k", GetPage("index"), calm.(begins := false), calm, true)];
    CalmForm();
    hide Served, Serve;
    var site := SiteAfter(TINY, LITERAL, "", visits, 1);
    assert site == ServedTo(TINY, LITERAL, "", SiteAfter(TINY, LITERAL, "", visits, 0), visits[0]).1;
    EverySiteIsTrustworthy(TINY, LITERAL, "", visits, 1);
    CalmLink(site);
    assert SiteAfter(TINY, LITERAL, "", visits, 2) == ServedTo(TINY, LITERAL, "", site, visits[1]).1;
    RestartExposesFailures(TINY, LITERAL, "", visits, 3);
  }

  // ---- A signed-in password change

  lemma LookupsLeaveTheStore(argon: Argon2idHash, email: string, w: World, look: Conditions)
    ensures Visited(argon, email, w, look).1.store == w.store
  {
    ServeSucceeds(argon, Op.GetUser(email), w.store, look.inputs);
  }

  lemma ChangesOwnPassword(argon: Argon2idHash, email: string, password: Bytes, w: World, call: Conditions,
                           signin: seq<Input>)
    requires Invariant(w.store) && IsVerified(w.store, email) && Usable(argon) && password != []
    requires Undisturbed(Signin(email, password), signin)
    ensures var op := Op.ChangePassword(email, password);
            var (out, w') := Called(argon, op, w, call.inputs, call.begins, call.commits);
            && (out.Ok? <==> call.begins && call.commits && Undisturbed(op, call.inputs))
            && (out.Err? ==> out.error == Fault && w'.store == w.store)
            && (out.Ok? ==>
                  && w'.store.tokens == w.store.tokens
                  && w'.store.users.Keys == w.store.users.Keys
                  && (forall e :: e in w.store.users && e != email ==> w'.store.users[e] == w.store.users[e])
                  && Serve(argon, Signin(email, password), w'.store, signin).0.Ok?)
  {
    var op := Op.ChangePassword(email, password);
    var w' := Called(argon, op, w, call.inputs, call.begins, call.commits).1;
    Meaning(argon, op, w.store, call.inputs);
    ServeSucceeds(argon, Signin(email, password), w'.store, signin);
    if w'.store != w.store {
      assert |argon.kdf(password, w'.store.users[email].salt,
                       argon.time, argon.memory, argon.threads, argon.keyLen)| == argon.keyLen;
    }
  }

  lemma SignedInIsVerified(site: Site, session: string)
    requires Trustworthy(site) && EmailOf(site.sessions, session) != ""
    ensures Invariant(site.world.store) && IsVerified(site.world.store, EmailOf(site.sessions, session))
  {
  }

  /** From the form to the next sign-in. A signed-in visitor's valid password form succeeds exactly when nothing
      fails, and is otherwise refused for that failure alone, never for an unknown email. Success changes that
      visitor's row only, and then the new password signs in; anything else changes no row. */
  lemma SignedInChangesPassword(argon: Argon2idHash, text: Text, baseURL: string, site: Site, session: string,
                                password: string, confirm: string,
                                look: Conditions, call: Conditions, destroys: bool, signin: seq<Input>)
    requires Trustworthy(site) && EmailOf(site.sessions, session) != ""
    requires Usable(argon) && PasswordError(text, password, confirm).None?
    requires Undisturbed(Signin(EmailOf(site.sessions, session), Utf8Bytes(text.trim(password))), signin)
    ensures var email, bytes := EmailOf(site.sessions, session), Utf8Bytes(text.trim(password));
            var form := PostChangePassword(password, confirm);
            var (page, there) := Served(argon, text, baseURL, site, session, form, look, call, destroys);
            var s, t := site.world.store, there.world.store;
            && there.sessions == site.sessions
            && (page == Panicked <==> LookupFails(site, email, look))
            && (page == View("index", "password updated") <==>
                  && !LookupFails(site, email, look) && call.begins && call.commits
                  && Undisturbed(Op.ChangePassword(email, bytes), call.inputs))
            && (page.View? ==>
                  && t.tokens == s.tokens && t.users.Keys == s.users.Keys
                  && (forall e :: e in s.users && e != email ==> t.users[e] == s.users[e])
                  && Serve(argon, Signin(email, bytes), t, signin).0.Ok?)
            && (!page.View? ==> t == s && (page == Panicked || page == Rejected("change-password", Fault)))
  {
    hide Invariant, CacheHolds, Called, Looked, LookupFails, Serve, Undisturbed;
    var email, bytes := EmailOf(site.sessions, session), Utf8Bytes(text.trim(password));
    var w := Visited(argon, email, site.world, look).1;
    SignedInIsVerified(site, session);
    PanicNeedsFailure(argon, site, session, look);
    LookupsLeaveTheStore(argon, email, site.world, look);
    ChangesOwnPassword(argon, email, bytes, w, call, signin);
    var out := Called(argon, Op.ChangePassword(email, bytes), w, call.inputs, call.begins, call.commits).0;
    assert out.Ok? || out.Err?;
  }

  lemma UnknownCannotSignIn(argon: Argon2idHash, s: Store, email: string, password: Bytes, signin: seq<Input>)
    requires email !in s.users
    ensures Serve(argon, Signin(email, password), s, signin).0.Err?
    ensures Undisturbed(Signin(email, password), signin) ==>
              Serve(argon, Signin(email, password), s, signin).0 == Err(InvalidCredentials)
  {
    Meaning(argon, Signin(email, password), s, signin);
    hide Exec;
  }

  // ---- The address as typed and the address as parsed

  /** The account a sign-in found. */
  ghost predicate SignsInAs(argon: Argon2idHash, op: Op, s: Store, signin: seq<Input>, email: string) {
    var out := Serve(argon, op, s, signin).0;
    out.Ok? && out.user.Some? && out.user.value.email == email
  }

  /** A sign-in finds the account of the email it names, or none. */
  lemma SigninFindsNamed(argon: Argon2idHash, s: Store, typed: string, password: Bytes, signin: seq<Input>)
    requires Invariant(s) && Serve(argon, Signin(typed, password), s, signin).0.Ok?
    ensures typed in s.users && SignsInAs(argon, Signin(typed, password), s, signin, typed)
  {
    ServeSucceeds(argon, Signin(typed, password), s, signin);
    hide Exec;
  }

  /** After sign-up and validation, an undisturbed sign-in with the same password reaches the new account exactly by its
      stored address; by any address unknown before the sign-up it reaches no account at all. */
  lemma RegisteredSignsIn(argon: Argon2idHash, s: Store, op: Op, up: seq<Input>, validate: seq<Input>, typed: string,
                          signin: seq<Input>)
    requires Usable(argon) && Invariant(s) && op.Signup? && Serve(argon, op, s, up).0.Ok? && |up| >= 8 && Timely(up)
    requires Undisturbed(ValidateSignupToken(up[3].uuid), validate) && Timely(validate)
    requires validate[0].now <= up[5].now + Duration(SIGNUP)
    requires Undisturbed(Signin(typed, op.password), signin)
    ensures var s1 := Serve(argon, op, s, up).1;
            var (out, s2) := Serve(argon, ValidateSignupToken(up[3].uuid), s1, validate);
            && out.Ok?
            && (SignsInAs(argon, Signin(typed, op.password), s2, signin, op.email) <==> typed == op.email)
            && (typed !in s.users ==>
                  (Serve(argon, Signin(typed, op.password), s2, signin).0.Ok? <==> typed == op.email))
  {
    SignupLeaves(argon, op, s, up);
    hide Serve, Hashes, Exec;
    var s1, validates := Serve(argon, op, s, up).1, ValidateSignupToken(up[3].uuid);
    ValidationLeaves(argon, validates, s1, validate);
    ServeKeepsInvariant(argon, op, s, up);
    ServeKeepsInvariant(argon, validates, s1, validate);
    var s2 := Serve(argon, validates, s1, validate).1;
    if typed == op.email {
      HashedPasswordSignsIn(argon, s2, typed, op.password, signin);
    } else if typed !in s.users {
      UnknownCannotSignIn(argon, s2, typed, op.password, signin);
    }
    if Serve(argon, Signin(typed, op.password), s2, signin).0.Ok? {
      SigninFindsNamed(argon, s2, typed, op.password, signin);
    }
  }

  /** Whoever signs up and follows the mailed link reaches the account just registered with the very entries of the
      sign-up form exactly when the typed address, cleaned, is already the address it parses to: sign-up keeps the
      parsed one, sign-in the typed one. If the typed one had no account either, they otherwise do not sign in. */
  lemma SignupEntriesSignIn(argon: Argon2idHash, text: Text, baseURL: string, s: Store, r: Request,
                            up: seq<Input>, validate: seq<Input>, signin: seq<Input>)
    requires r.PostSignup? && CallOf(text, baseURL, "", r).Good?
    requires var op, typed := CallOf(text, baseURL, "", r).op, text.Clean(r.email);
             && Usable(argon) && Invariant(s) && Serve(argon, op, s, up).0.Ok? && |up| >= 8 && Timely(up)
             && Undisturbed(ValidateSignupToken(up[3].uuid), validate) && Timely(validate)
             && validate[0].now <= up[5].now + Duration(SIGNUP)
             && Undisturbed(Signin(typed, op.password), signin)
    ensures var op, typed := CallOf(text, baseURL, "", r).op, text.Clean(r.email);
            var s1 := Serve(argon, op, s, up).1;
            var s2 := Serve(argon, ValidateSignupToken(up[3].uuid), s1, validate).1;
            var again := CallOf(text, baseURL, "", PostSignin(r.email, r.password));
            && again.Good?
            && (SignsInAs(argon, again.op, s2, signin, op.email) <==> text.address(typed) == Some(typed))
            && (typed !in s.users ==>
                  (Serve(argon, again.op, s2, signin).0.Ok? <==> text.address(typed) == Some(typed)))
  {
    hide Serve, Invariant, SignsInAs;
    RegisteredSignsIn(argon, s, CallOf(text, baseURL, "", r).op, up, validate, text.Clean(r.email), signin);
  }

  lemma TypedForms()
    ensures CallOf(LITERAL, "", "", PostSignup("a@x (A)", "A", "p", "p"))
         == Good(Signup("", "a@x", "A", Utf8Bytes("p")))
    ensures CallOf(LITERAL, "", "", PostSignin("a@x (A)", "p")) == Good(Signin("a@x (A)", Utf8Bytes("p")))
  {
    hide Utf8Bytes;
  }

  lemma TypedIsUnknown()
    ensures var bytes := Utf8Bytes("p");
            var (registered, s1) := Serve(TINY, Signup("", "a@x", "A", bytes), EMPTY, CALM);
            var (verified, s2) := Serve(TINY, ValidateSignupToken("t"), s1, CALM);
            && registered.Ok? && verified.Ok?
            && Serve(TINY, Signin("a@x (A)", bytes), s2, CALM).0 == Err(InvalidCredentials)
            && Serve(TINY, Signin("a@x", bytes), s2, CALM).0.Ok?
  {
    hide Utf8Bytes, Serve, Hashes;
    var op := Signup("", "a@x", "A", Utf8Bytes("p"));
    CalmSignup(op);
    RegisteredSignsIn(TINY, EMPTY, op, CALM, CALM, "a@x", CALM);
    SignupLeaves(TINY, op, EMPTY, CALM);
    var s1 := Serve(TINY, op, EMPTY, CALM).1;
    ValidationLeaves(TINY, ValidateSignupToken("t"), s1, CALM);
    UnknownCannotSignIn(TINY, Serve(TINY, ValidateSignupToken("t"), s1, CALM).1, "a@x (A)", Utf8Bytes("p"), CALM);
  }

  /** And some do not: a form whose address is typed with a comment is accepted (the sanitiser leaves it and the parser
      drops it), its link is followed, and then the same entries are refused although the parsed address signs in. */
  lemma SomeEntriesDoNotSignIn()
    ensures var r := PostSignup("a@x (A)", "A", "p", "p");
            var (up, again) := (CallOf(LITERAL, "", "", r), CallOf(LITERAL, "", "", PostSignin(r.email, r.password)));
            && up.Good? && again.Good?
            && var (registered, s1) := Serve(TINY, up.op, EMPTY, CALM);
               var (verified, s2) := Serve(TINY, ValidateSignupToken("t"), s1, CALM);
               && registered.Ok? && verified.Ok?
               && Serve(TINY, again.op, s2, CALM).0 == Err(InvalidCredentials)
               && Serve(TINY, Signin("a@x", Utf8Bytes("p")), s2, CALM).0.Ok?
  {
    hide *;
    TypedForms();
    TypedIsUnknown();
  }
}
