/** Whole requests: which of them reach their handler, signed in or out, and where the mailed links lead. */
module Routes {
  import opened Datastore
  import opened Encoding
  import opened Argon2id
  import opened Effects
  import opened Operations
  import opened Changes
  import opened History
  import opened Accounts
  import opened UserService
  import opened Web
  import opened Visits

  // ---- The guards

  predicate SignedOut(site: Site, session: string) {
    session in site.sessions ==> site.sessions[session] == ""
  }

  /** Signed out, the five sign-in forms and both mailed links reach their handlers without any look-up; what belongs to
      an account leads to the sign-in page and changes nothing. */
  lemma SignedOutRequests(argon: Argon2idHash, text: Text, baseURL: string, site: Site, session: string, r: Request,
                          look: Conditions, call: Conditions, destroys: bool)
    requires SignedOut(site, session)
    ensures var whole := Served(argon, text, baseURL, site, session, r, look, call, destroys);
            match r
            case GetSignout(_) => whole == (Redirect("/auth/signin"), site)
            case PostChangePassword(_, _) => whole == (Redirect("/auth/signin"), site)
            case GetPage(view) =>
              whole == (if view == "index" || view == "change-password" then Redirect("/auth/signin")
                        else View(view, ""), site)
            case Malformed(view) =>
              whole == (if view == "index" || view == "change-password" then Redirect("/auth/signin")
                        else Invalid(view, BadForm), site)
            case GetUnknown => whole == (NotFound, site)
            case _ => whole == Handled(argon, text, baseURL, site, session, r, call, destroys)
  {
    hide Looked, Called;
  }

  lemma PagesRender(argon: Argon2idHash, text: Text, baseURL: string, site: Site, session: string, r: Request,
                    call: Conditions, destroys: bool)
    ensures var handled := Handled(argon, text, baseURL, site, session, r, call, destroys);
            && (r.GetPage? ==> handled == (View(r.view, ""), site))
            && (r.Malformed? ==> handled == (Invalid(r.view, BadForm), site))
            && (r.GetUnknown? ==> handled == (NotFound, site))
  {
    hide Looked, Called;
  }

  lemma LookupLeavesWorld(argon: Argon2idHash, site: Site, email: string, look: Conditions)
    ensures var w := Visited(argon, email, site.world, look).1;
            w.store == site.world.store && w.outbox == site.world.outbox
  {
    LookupsLeaveTheStore(argon, email, site.world, look);
    if look.inputs != [] {
      var b, l := Unroll(Program(argon, Op.GetUser(email)), Local(site.world.store, [], []), look.inputs, 0);
    }
  }

  /** Signed in, with a look-up that does not fail, the five sign-in forms lead to the index page and change nothing but
      perhaps the cache; what belongs to an account, and both mailed links, reach their handlers. */
  lemma SignedInRequests(argon: Argon2idHash, text: Text, baseURL: string, site: Site, session: string, r: Request,
                         look: Conditions, call: Conditions, destroys: bool)
    requires Trustworthy(site) && session in site.sessions && site.sessions[session] != ""
    requires !LookupFails(site, site.sessions[session], look)
    ensures var (page, there) := Served(argon, text, baseURL, site, session, r, look, call, destroys);
            var w := Visited(argon, site.sessions[session], site.world, look).1;
            && w.store == site.world.store && w.outbox == site.world.outbox
            && match r
               case PostSignin(_, _) => (page, there) == (Redirect("/"), Site(w, site.sessions))
               case PostSignup(_, _, _, _) => (page, there) == (Redirect("/"), Site(w, site.sessions))
               case PostResend(_) => (page, there) == (Redirect("/"), Site(w, site.sessions))
               case PostReset(_) => (page, there) == (Redirect("/"), Site(w, site.sessions))
               case PostResetToken(_, _, _) => (page, there) == (Redirect("/"), Site(w, site.sessions))
               case GetPage(view) =>
                 (page, there) == (if view == "index" || view == "change-password" then View(view, "")
                                   else Redirect("/"), Site(w, site.sessions))
               case Malformed(view) =>
                 (page, there) == (if view == "index" || view == "change-password" then Invalid(view, BadForm)
                                   else Redirect("/"), Site(w, site.sessions))
               case GetUnknown => (page, there) == (NotFound, Site(w, site.sessions))
               case _ =>
                 (page, there) ==
                   Handled(argon, text, baseURL, Site(w, site.sessions), session, r, call, destroys)
  {
    hide Looked, Called, Trustworthy, LookupFails, Visited, CallOf, Handled;
    PanicNeedsFailure(argon, site, session, look);
    LookupLeavesWorld(argon, site, site.sessions[session], look);
    PagesRender(argon, text, baseURL, Site(Visited(argon, site.sessions[session], site.world, look).1, site.sessions),
                session, r, call, destroys);
  }

  /** The whole request of a signed-out visitor signs the session in exactly when it is a valid sign-in form, link or
      reset form whose password or token is accepted and committed, and as that account. */
  lemma VisitorsSignIn(argon: Argon2idHash, text: Text, baseURL: string, site: Site, session: string, r: Request,
                       look: Conditions, call: Conditions, destroys: bool)
    requires SignedOut(site, session) && Invariant(site.world.store) && Timely(call.inputs)
    ensures var (page, there) := Served(argon, text, baseURL, site, session, r, look, call, destroys);
            var checked := CallOf(text, baseURL, "", r);
            && (page == Redirect("/") <==>
                  && (r.PostSignin? || r.GetSignupToken? || r.PostResetToken?)
                  && checked.Good? && call.begins && call.commits
                  && Serve(argon, checked.op, site.world.store, call.inputs).0.Ok?)
            && there.sessions == (if page == Redirect("/")
                                  then site.sessions[session := Target(checked.op, site.world.store)]
                                  else site.sessions)
  {
    SignedOutRequests(argon, text, baseURL, site, session, r, look, call, destroys);
    SessionsFollowCredentials(argon, text, baseURL, site, session, r, call, destroys);
    hide Served, Handled, Serve, Invariant, Timely, Target;
  }

  // ---- Paths

  /** The pages of a signed-out visitor, by path. */
  lemma SignedOutPaths(argon: Argon2idHash, text: Text, baseURL: string, site: Site, session: string, cookie: bool,
                       look: Conditions, call: Conditions, destroys: bool)
    requires SignedOut(site, session)
    ensures forall path | path in ["/", "/auth/change-password", "/auth/signout"] ::
              Served(argon, text, baseURL, site, session, GetRoute(path, cookie), look, call, destroys)
              == (Redirect("/auth/signin"), site)
    ensures forall path, view | (path, view) in
              [("/auth/signin", "signin"), ("/auth/signup", "signup"), ("/auth/reset-password", "reset-password"),
               ("/auth/resend-confirmation-email", "resend-signup-token")] ::
              Served(argon, text, baseURL, site, session, GetRoute(path, cookie), look, call, destroys)
              == (View(view, ""), site)
  {
    hide Looked, Called;
  }

  /** The pages of a signed-in visitor, by path. */
  lemma SignedInPaths(argon: Argon2idHash, text: Text, baseURL: string, site: Site, session: string, cookie: bool,
                      look: Conditions, call: Conditions, destroys: bool)
    requires Trustworthy(site) && session in site.sessions && site.sessions[session] != ""
    requires !LookupFails(site, site.sessions[session], look)
    ensures var there := Site(Visited(argon, site.sessions[session], site.world, look).1, site.sessions);
            && (forall path, view | (path, view) in [("/", "index"), ("/auth/change-password", "change-password")] ::
                  Served(argon, text, baseURL, site, session, GetRoute(path, cookie), look, call, destroys)
                  == (View(view, ""), there))
            && (forall path | path in ["/auth/signin", "/auth/signup", "/auth/reset-password",
                                       "/auth/resend-confirmation-email"] ::
                  Served(argon, text, baseURL, site, session, GetRoute(path, cookie), look, call, destroys)
                  == (Redirect("/"), there))
            && Served(argon, text, baseURL, site, session, GetRoute("/auth/signout", cookie), look, call, destroys)
               == (if destroys then (Redirect("/auth/signin"), there.(sessions := site.sessions - {session}))
                   else (SignoutFailed(cookie), there))
  {
    hide Looked, Called, Trustworthy, LookupFails, Visited, Served;
    forall path {
      SignedInRequests(argon, text, baseURL, site, session, GetRoute(path, cookie), look, call, destroys);
    }
  }

  lemma HandledRedirects(argon: Argon2idHash, text: Text, baseURL: string, site: Site, session: string, r: Request,
                         call: Conditions, destroys: bool)
    ensures var (page, there) := Handled(argon, text, baseURL, site, session, r, call, destroys);
            page.Redirect? ==> (page.path == "/" && session in there.sessions)
                               || (page.path == "/auth/signin" && session !in there.sessions)
  {
    hide Looked, Called, CallOf;
  }

  lemma RedirectLands(argon: Argon2idHash, text: Text, baseURL: string, site: Site, session: string, r: Request,
                      look: Conditions, call: Conditions, destroys: bool)
    requires Trustworthy(site)
    ensures var (page, there) := Served(argon, text, baseURL, site, session, r, look, call, destroys);
            page.Redirect? ==> (page.path == "/" && session in there.sessions)
                               || (page.path == "/auth/signin" && SignedOut(there, session))
  {
    var there := Site(Visited(argon, EmailOf(site.sessions, session), site.world, look).1, site.sessions);
    PanicNeedsFailure(argon, site, session, look);
    HandledRedirects(argon, text, baseURL, there, session, r, call, destroys);
    hide Looked, Handled, Visited, Trustworthy, LookupFails;
  }

  /** No redirect leads to another one, unless the session belongs to the empty address. */
  lemma RedirectsSettle(argon: Argon2idHash, text: Text, baseURL: string, site: Site, session: string, r: Request,
                        look: Conditions, call: Conditions, destroys: bool,
                        cookie: bool, look': Conditions, call': Conditions)
    requires Trustworthy(site) && Sane(look) && Sane(call)
    requires var (page, there) := Served(argon, text, baseURL, site, session, r, look, call, destroys);
             && page.Redirect? && "" !in there.world.store.users
             && !LookupFails(there, EmailOf(there.sessions, session), look')
    ensures var (page, there) := Served(argon, text, baseURL, site, session, r, look, call, destroys);
            && (page.path == "/" || page.path == "/auth/signin")
            && Served(argon, text, baseURL, there, session, GetRoute(page.path, cookie), look', call', true).0
               == View(if page.path == "/" then "index" else "signin", "")
  {
    RedirectLands(argon, text, baseURL, site, session, r, look, call, destroys);
    ServedKeepsTrust(argon, text, baseURL, site, session, r, look, call, destroys);
    var (page, there) := Served(argon, text, baseURL, site, session, r, look, call, destroys);
    hide Served, Visited, LookupFails, Invariant, GetRoute;
    if page.path == "/" {
      SignedInPaths(argon, text, baseURL, there, session, cookie, look', call', true);
      assert ("/", "index") in [("/", "index"), ("/auth/change-password", "change-password")];
    } else {
      SignedOutPaths(argon, text, baseURL, there, session, cookie, look', call', true);
    }
  }

  // ---- The mailed links

  /** The mail of a successful call, letter by letter. */
  lemma MailSays(argon: Argon2idHash, op: Op, w: World, inputs: seq<Input>)
    requires op.Signup? || op.ResendSignupToken? || op.ResetPassword?
    requires Called(argon, op, w, inputs, true, true).0.Ok?
    ensures |inputs| >= Cost(op)
    ensures var (out, there) := Called(argon, op, w, inputs, true, true);
            match op
            case Signup(baseURL, email, name, _) =>
              there.outbox == w.outbox + [Mail("Confirm your email address", email, name,
                                               baseURL + "/auth/signup/" + QueryEscape(inputs[3].uuid))]
            case ResendSignupToken(baseURL, email) =>
              email in w.store.users &&
              there.outbox == w.outbox + [Mail("Confirm your email address", email, w.store.users[email].name,
                                               baseURL + "/auth/signup/" + QueryEscape(inputs[1].uuid))]
            case _ =>
              op.email in w.store.users &&
              there.outbox == w.outbox + [Mail("Change your password", op.email, w.store.users[op.email].name,
                                               op.baseURL + "/auth/reset-password/" + QueryEscape(inputs[1].uuid))]
  {
    Meaning(argon, op, w.store, inputs);
    hide Exec, After;
  }

  lemma SignupRoute(token: string, cookie: bool)
    requires OneSegment(token)
    ensures GetRoute("/auth/signup/" + token, cookie) == GetSignupToken(token)
  {
    var path := "/auth/signup/" + token;
    assert path[|SIGNUP_LINKS|..] == token && path[6] == 's' && path[8] == 'g' && path[12] == '/';
  }

  lemma ResetRoute(token: string, cookie: bool)
    requires OneSegment(token)
    ensures GetRoute("/auth/reset-password/" + token, cookie) == GetResetToken(token)
  {
    var path := "/auth/reset-password/" + token;
    assert path[|RESET_LINKS|..] == token && path[6] == 'r' && path[20] == '/';
  }

  lemma LinkRoutes(token: string, cookie: bool)
    requires IsUuid(token)
    ensures GetRoute("/auth/signup/" + QueryEscape(token), cookie) == GetSignupToken(token)
    ensures GetRoute("/auth/reset-password/" + QueryEscape(token), cookie) == GetResetToken(token)
  {
    hide QueryEscape, GetRoute;
    UuidsStayPlain(token);
    SignupRoute(token, cookie);
    ResetRoute(token, cookie);
  }

  /** The UUID a form's call draws, and the clock reading its token's life starts from. */
  function TokenOf(op: Op, inputs: seq<Input>): string { At(inputs, if op.Signup? then 3 else 1).uuid }

  function IssuedAt(op: Op, inputs: seq<Input>): int { At(inputs, if op.Signup? then 5 else 3).now }

  lemma FormCalls(text: Text, baseURL: string, form: Request)
    requires CallOf(text, baseURL, "", form).Good?
    ensures var op := CallOf(text, baseURL, "", form).op;
            && (form.PostSignup? ==> op.Signup? && op.baseURL == baseURL)
            && (form.PostResend? ==> op.ResendSignupToken? && op.baseURL == baseURL)
            && (form.PostReset? ==> op.ResetPassword? && op.baseURL == baseURL)
    ensures form.PostSignup? || form.PostResend? || form.PostReset? ==>
              forall e :: CallOf(text, baseURL, e, form) == CallOf(text, baseURL, "", form)
  {
  }

  lemma LinkCalls(text: Text, baseURL: string, token: string)
    ensures forall e :: CallOf(text, baseURL, e, GetSignupToken(token)) == Good(ValidateSignupToken(token))
    ensures forall e :: CallOf(text, baseURL, e, GetResetToken(token)) == Good(ResetPasswordToken(token))
  {
  }

  lemma CalledIsServed(argon: Argon2idHash, op: Op, w: World, inputs: seq<Input>)
    requires !op.Signin?
    ensures var (out, there) := Called(argon, op, w, inputs, true, true);
            (out, there.store) == Serve(argon, op, w.store, inputs) && (out.Ok? || out.Err?)
  {
    hide FillAll;
  }

  lemma RowIssued(argon: Argon2idHash, op: Op, s: Store, inputs: seq<Input>)
    requires op.Signup? || op.ResendSignupToken? || op.ResetPassword?
    requires Serve(argon, op, s, inputs).0.Ok?
    ensures var t := Serve(argon, op, s, inputs).1;
            && TokenOf(op, inputs) in t.tokens
            && t.tokens[TokenOf(op, inputs)]
               == TokenRow(TokenOf(op, inputs), if op.ResetPassword? then PASSWORD else SIGNUP, op.email,
                           IssuedAt(op, inputs) + (if op.ResetPassword? then 3_600_000 else 43_200_000), 0)
  {
    ServeSucceeds(argon, op, s, inputs);
    hide Exec;
  }

  lemma PathOfLink(baseURL: string, path: string, token: string)
    ensures baseURL <= baseURL + path + token && (baseURL + path + token)[|baseURL|..] == path + token
  {
  }

  lemma FreshLinkValidates(argon: Argon2idHash, site: Site, token: string, follow: seq<Input>)
    requires Trustworthy(site) && Undisturbed(ValidateSignupToken(token), follow)
    requires Redeemable(site.world.store, SIGNUP, token, follow[0].now)
    ensures Invariant(site.world.store) && Serve(argon, ValidateSignupToken(token), site.world.store, follow).0.Ok?
  {
    assert Live(site.world.store, token);
    ServeSucceeds(argon, ValidateSignupToken(token), site.world.store, follow);
    hide Exec;
  }

  lemma FreshResetIsAccepted(argon: Argon2idHash, site: Site, token: string, follow: seq<Input>)
    requires Trustworthy(site) && Undisturbed(ResetPasswordToken(token), follow)
    requires Redeemable(site.world.store, PASSWORD, token, follow[0].now)
    ensures Serve(argon, ResetPasswordToken(token), site.world.store, follow).0.Ok?
  {
    assert Live(site.world.store, token);
    ServeSucceeds(argon, ResetPasswordToken(token), site.world.store, follow);
    hide Exec;
  }

  /** What a served issuing form leaves: the page, the mail with its link, and a token its kind of link accepts. */
  lemma FormIsServed(argon: Argon2idHash, text: Text, baseURL: string, site: Site, session: string, form: Request,
                     look: Conditions, call: Conditions)
    requires Trustworthy(site) && SignedOut(site, session) && Timely(call.inputs) && call.begins && call.commits
    requires form.PostSignup? || form.PostResend? || form.PostReset?
    requires CallOf(text, baseURL, "", form).Good?
    requires Serve(argon, CallOf(text, baseURL, "", form).op, site.world.store, call.inputs).0.Ok?
    ensures var op := CallOf(text, baseURL, "", form).op;
            var (page, there) := Served(argon, text, baseURL, site, session, form, look, call, true);
            var kind := if form.PostReset? then PASSWORD else SIGNUP;
            && (op.Signup? || op.ResendSignupToken? || op.ResetPassword?) && op.baseURL == baseURL
            && page == View("signin", "check your mailbox")
            && there.sessions == site.sessions && Trustworthy(there)
            && |there.world.outbox| == |site.world.outbox| + 1
            && there.world.outbox[|site.world.outbox|].to == op.email
            && there.world.outbox[|site.world.outbox|].url
               == baseURL + (if form.PostReset? then "/auth/reset-password/" else "/auth/signup/")
                  + QueryEscape(TokenOf(op, call.inputs))
            && TokenOf(op, call.inputs) in there.world.store.tokens
            && there.world.store.tokens[TokenOf(op, call.inputs)]
               == TokenRow(TokenOf(op, call.inputs), kind, op.email, IssuedAt(op, call.inputs)
                           + (if form.PostReset? then 3_600_000 else 43_200_000), 0)
  {
    var op := CallOf(text, baseURL, "", form).op;
    FormCalls(text, baseURL, form);
    SignedOutRequests(argon, text, baseURL, site, session, form, look, call, true);
    HandledKeepsTrust(argon, text, baseURL, site, session, form, call, true);
    CalledIsServed(argon, op, site.world, call.inputs);
    MailSays(argon, op, site.world, call.inputs);
    RowIssued(argon, op, site.world.store, call.inputs);
    hide Trustworthy, Served, Called, Serve, CallOf, QueryEscape;
  }

  /** Both links work. Whoever signs up, or asks for the link again, gets a mail whose link, followed within twelve
      hours by any visitor, signs that visitor in as the account it was sent to. */
  lemma MailedLinkSignsIn(argon: Argon2idHash, text: Text, baseURL: string, site: Site, session: string, form: Request,
                          look: Conditions, call: Conditions, browser: string, cookie: bool,
                          look': Conditions, follow: Conditions)
    requires Trustworthy(site) && SignedOut(site, session) && SignedOut(site, browser)
    requires Timely(call.inputs) && call.begins && call.commits && (form.PostSignup? || form.PostResend?)
    requires CallOf(text, baseURL, "", form).Good?
    requires var op := CallOf(text, baseURL, "", form).op;
             && Serve(argon, op, site.world.store, call.inputs).0.Ok?
             && IsUuid(TokenOf(op, call.inputs))
             && follow.begins && follow.commits && Timely(follow.inputs)
             && Undisturbed(ValidateSignupToken(TokenOf(op, call.inputs)), follow.inputs)
             && follow.inputs[0].now <= IssuedAt(op, call.inputs) + 43_200_000
    ensures var op := CallOf(text, baseURL, "", form).op;
            var there := Served(argon, text, baseURL, site, session, form, look, call, true).1;
            && |there.world.outbox| == |site.world.outbox| + 1
            && var mail := there.world.outbox[|site.world.outbox|];
               && mail.to == op.email && baseURL <= mail.url
               && var (page, home) := Served(argon, text, baseURL, there, browser,
                                             GetRoute(mail.url[|baseURL|..], cookie), look', follow, true);
                  && page == Redirect("/")
                  && browser in home.sessions && home.sessions[browser] == op.email
  {
    hide Trustworthy, Served, Serve, CallOf, Undisturbed;
    var op := CallOf(text, baseURL, "", form).op;
    var token := TokenOf(op, call.inputs);
    FormIsServed(argon, text, baseURL, site, session, form, look, call);
    var there := Served(argon, text, baseURL, site, session, form, look, call, true).1;
    LinkRoutes(token, cookie);
    PathOfLink(baseURL, "/auth/signup/", QueryEscape(token));
    hide QueryEscape, GetRoute;
    FreshLinkValidates(argon, there, token, follow.inputs);
    LinkCalls(text, baseURL, token);
    VisitorsSignIn(argon, text, baseURL, there, browser, GetSignupToken(token), look', follow, true);
  }

  /** The same for a password reset, within one hour: the link opens the form for the new password. */
  lemma MailedResetIsAccepted(argon: Argon2idHash, text: Text, baseURL: string, site: Site, session: string,
                              form: Request, look: Conditions, call: Conditions, browser: string, cookie: bool,
                              look': Conditions, follow: Conditions)
    requires Trustworthy(site) && SignedOut(site, session) && SignedOut(site, browser)
    requires Timely(call.inputs) && call.begins && call.commits && form.PostReset?
    requires CallOf(text, baseURL, "", form).Good?
    requires var op := CallOf(text, baseURL, "", form).op;
             && Serve(argon, op, site.world.store, call.inputs).0.Ok?
             && IsUuid(TokenOf(op, call.inputs))
             && follow.begins && follow.commits
             && Undisturbed(ResetPasswordToken(TokenOf(op, call.inputs)), follow.inputs)
             && follow.inputs[0].now <= IssuedAt(op, call.inputs) + 3_600_000
    ensures var op := CallOf(text, baseURL, "", form).op;
            var there := Served(argon, text, baseURL, site, session, form, look, call, true).1;
            && |there.world.outbox| == |site.world.outbox| + 1
            && var mail := there.world.outbox[|site.world.outbox|];
               && mail.to == op.email && baseURL <= mail.url
               && Served(argon, text, baseURL, there, browser, GetRoute(mail.url[|baseURL|..], cookie), look', follow,
                         true).0 == View("reset-password-token", "")
  {
    hide Trustworthy, Served, Serve, CallOf, Undisturbed, Called;
    var op := CallOf(text, baseURL, "", form).op;
    var token := TokenOf(op, call.inputs);
    FormIsServed(argon, text, baseURL, site, session, form, look, call);
    var there := Served(argon, text, baseURL, site, session, form, look, call, true).1;
    LinkRoutes(token, cookie);
    PathOfLink(baseURL, "/auth/reset-password/", QueryEscape(token));
    hide QueryEscape, GetRoute;
    FreshResetIsAccepted(argon, there, token, follow.inputs);
    LinkCalls(text, baseURL, token);
    CalledIsServed(argon, ResetPasswordToken(token), there.world, follow.inputs);
    SignedOutRequests(argon, text, baseURL, there, browser, GetResetToken(token), look', follow, true);
  }
}
