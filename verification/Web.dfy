/** The web layer: form validation, the handlers, their routes and the session middlewares, over one site that serves
    request by request. A session is the email it holds. */
module Web {
  import opened Datastore
  import opened Encoding
  import opened Argon2id
  import opened Effects
  import opened Operations
  import opened Changes
  import opened System
  import opened UserService

  // ---- Forms

  /** The text libraries: strings.TrimSpace, the sanitising policy and mail.ParseAddress. */
  datatype Text = Text(trim: string -> string, sanitize: string -> string, address: string -> Option<string>) {
    function Clean(s: string): string { sanitize(trim(s)) }
  }

  datatype FormError = BadEmail | BadPassword | BadName | NotMatchingPasswords | BadToken | BadForm

  const MIN_PASSWORD_LENGTH := 1

  /** The fields of the request structs; each validate method overwrites those of its own request. */
  class Form {
    var email: string
    var name: string
    var password: string
    var confirm: string
    var token: string

    constructor (email: string, name: string, password: string, confirm: string, token: string)
      ensures this.email == email && this.name == name && this.token == token
      ensures this.password == password && this.confirm == confirm
    {
      this.email, this.name, this.password, this.confirm, this.token := email, name, password, confirm, token;
    }

    /** Sign-in checks that the address parses and keeps it as typed. */
    method ValidateSignin(text: Text) returns (err: Option<FormError>)
      modifies `email, `password
      ensures email == text.sanitize(text.trim(old(email)))
      ensures err.None? <==> text.address(email).Some? && text.trim(old(password)) != ""
      ensures err.None? ==> password == text.trim(old(password))
      ensures err.Some? ==> err.value == if text.address(email).None? then BadEmail else BadPassword
    {
      email := text.Clean(email);
      if text.address(email).None? {
        return Some(BadEmail);
      }
      password := text.trim(password);
      err := if |password| < MIN_PASSWORD_LENGTH then Some(BadPassword) else None;
    }

    /** The other forms replace the address by the parsed one. */
    method ValidateAddress(text: Text) returns (err: Option<FormError>)
      modifies `email
      ensures var parsed := text.address(text.sanitize(text.trim(old(email))));
              && email == (if parsed.Some? then parsed.value else text.sanitize(text.trim(old(email))))
              && err == if parsed.Some? then None else Some(BadEmail)
    {
      email := text.Clean(email);
      var parsed := text.address(email);
      if parsed.None? {
        return Some(BadEmail);
      }
      email := parsed.value;
      return None;
    }

    method ValidatePasswords(text: Text) returns (err: Option<FormError>)
      modifies `password, `confirm
      ensures password == text.trim(old(password)) && confirm == text.trim(old(confirm))
      ensures err.None? <==> password != "" && password == confirm
      ensures err.Some? ==> err.value == if password == "" then BadPassword else NotMatchingPasswords
    {
      password, confirm := text.trim(password), text.trim(confirm);
      if |password| < MIN_PASSWORD_LENGTH {
        return Some(BadPassword);
      }
      err := if password != confirm then Some(NotMatchingPasswords) else None;
    }

    method ValidateSignup(text: Text) returns (err: Option<FormError>)
      modifies `email, `name, `password, `confirm
      ensures name == text.sanitize(text.trim(old(name)))
      ensures err.None? <==> (name != "" && text.address(text.sanitize(text.trim(old(email)))).Some?
                              && text.trim(old(password)) != "" && text.trim(old(password)) == text.trim(old(confirm)))
      ensures err.None? ==> Some(email) == text.address(text.sanitize(text.trim(old(email))))
      ensures err.None? ==> password == text.trim(old(password))
      ensures err.Some? ==> err.value == (if name == "" then BadName
                                          else if text.address(text.sanitize(text.trim(old(email)))).None? then BadEmail
                                          else if text.trim(old(password)) == "" then BadPassword
                                          else NotMatchingPasswords)
    {
      name := text.Clean(name);
      if name == "" {
        return Some(BadName);
      }
      err := ValidateAddress(text);
      if err.None? {
        err := ValidatePasswords(text);
      }
    }

    method ValidateReset(text: Text) returns (err: Option<FormError>)
      modifies `token, `password, `confirm
      ensures token == text.trim(old(token))
      ensures err.None? <==> (token != "" && text.trim(old(password)) != ""
                              && text.trim(old(password)) == text.trim(old(confirm)))
      ensures err.None? ==> password == text.trim(old(password))
      ensures err.Some? ==> err.value == (if token == "" then BadToken
                                          else if text.trim(old(password)) == "" then BadPassword
                                          else NotMatchingPasswords)
    {
      token := text.trim(token);
      if token == "" {
        return Some(BadToken);
      }
      err := ValidatePasswords(text);
    }
  }

  // ---- Requests

  datatype Guard = SignedInOnly | SignedOutOnly | Anyone

  datatype Request =
    | GetPage(view: string)
    | GetUnknown  // no route
    | GetSignout(cookie: bool)  // whether the CSRF cookie came with it
    | Malformed(view: string)  // a form that could not be bound to its request struct
    | GetSignupToken(token: string)
    | GetResetToken(token: string)
    | PostSignin(email: string, password: string)
    | PostSignup(email: string, name: string, password: string, confirm: string)
    | PostResend(email: string)
    | PostReset(email: string)
    | PostResetToken(token: string, password: string, confirm: string)
    | PostChangePassword(password: string, confirm: string)

  predicate ForSignedIn(view: string) { view == "index" || view == "change-password" }

  /** The middleware of each route; the two links sent by mail work signed in or out. */
  function GuardOf(r: Request): Guard {
    match r
    case GetPage(view) => if ForSignedIn(view) then SignedInOnly else SignedOutOnly
    case GetSignout(_) => SignedInOnly
    case Malformed(view) => if ForSignedIn(view) then SignedInOnly else SignedOutOnly
    case PostChangePassword(_, _) => SignedInOnly
    case GetUnknown => Anyone
    case GetSignupToken(_) => Anyone
    case GetResetToken(_) => Anyone
    case _ => SignedOutOnly
  }

  const SIGNUP_LINKS := "/auth/signup/"

  const RESET_LINKS := "/auth/reset-password/"

  /** A path parameter is one segment. */
  predicate OneSegment(s: string) { s != "" && '/' !in s }

  /** The GET routes. */
  function GetRoute(path: string, cookie: bool): Request {
    if path == "/" then GetPage("index")
    else if path == "/auth/signin" then GetPage("signin")
    else if path == "/auth/reset-password" then GetPage("reset-password")
    else if path == "/auth/signup" then GetPage("signup")
    else if path == "/auth/resend-confirmation-email" then GetPage("resend-signup-token")
    else if path == "/auth/change-password" then GetPage("change-password")
    else if path == "/auth/signout" then GetSignout(cookie)
    else if SIGNUP_LINKS <= path && OneSegment(path[|SIGNUP_LINKS|..]) then GetSignupToken(path[|SIGNUP_LINKS|..])
    else if RESET_LINKS <= path && OneSegment(path[|RESET_LINKS|..]) then GetResetToken(path[|RESET_LINKS|..])
    else GetUnknown
  }

  datatype Page =
    | Redirect(path: string)
    | View(view: string, flash: string)
    | Invalid(view: string, reason: FormError)
    | Rejected(view: string, error: Effects.Error)
    | SignoutFailed(dropsCookie: bool)
    | NotFound
    | Panicked

  datatype SessionData = SessionData(email: string, name: string) {
    predicate SignedIn() { email != "" }
  }

  function EmailOf(sessions: map<string, string>, session: string): string {
    if session in sessions then sessions[session] else ""
  }

  /** What the environment decides about one service call. */
  datatype Conditions = Conditions(inputs: seq<Input>, begins: bool, commits: bool)

  datatype Site = Site(world: World, sessions: map<string, string>)

  datatype Checked = Bad(reason: FormError) | Good(op: Op) | NoCall

  function PasswordError(text: Text, password: string, confirm: string): Option<FormError> {
    if text.trim(password) == "" then Some(BadPassword)
    else if text.trim(password) != text.trim(confirm) then Some(NotMatchingPasswords)
    else None
  }

  function AddressCall(text: Text, email: string, call: string -> Op): Checked {
    var parsed := text.address(text.Clean(email));
    if parsed.None? then Bad(BadEmail) else Good(call(parsed.value))
  }

  function PasswordCall(text: Text, password: string, confirm: string, call: Bytes -> Op): Checked {
    var err := PasswordError(text, password, confirm);
    if err.Some? then Bad(err.value) else Good(call(Utf8Bytes(text.trim(password))))
  }

  /** The service call a request comes to, after validation, in a session holding this email. */
  function CallOf(text: Text, baseURL: string, email: string, r: Request): Checked {
    match r
    case GetPage(_) => NoCall
    case GetUnknown => NoCall
    case GetSignout(_) => NoCall
    case Malformed(_) => Bad(BadForm)
    case GetSignupToken(token) => Good(ValidateSignupToken(token))
    case GetResetToken(token) => Good(ResetPasswordToken(token))
    case PostSignin(typed, password) =>
      if text.address(text.Clean(typed)).None? then Bad(BadEmail)
      else if text.trim(password) == "" then Bad(BadPassword)
      else Good(Signin(text.Clean(typed), Utf8Bytes(text.trim(password))))
    case PostSignup(typed, name, password, confirm) =>
      var parsed := text.address(text.Clean(typed));
      if text.Clean(name) == "" then Bad(BadName)
      else if parsed.None? then Bad(BadEmail)
      else PasswordCall(text, password, confirm, p => Signup(baseURL, parsed.value, text.Clean(name), p))
    case PostResend(typed) => AddressCall(text, typed, e => ResendSignupToken(baseURL, e))
    case PostReset(typed) => AddressCall(text, typed, e => ResetPassword(baseURL, e))
    case PostResetToken(token, password, confirm) =>
      if text.trim(token) == "" then Bad(BadToken)
      else PasswordCall(text, password, confirm, p => ChangePasswordWithToken(text.trim(token), p))
    case PostChangePassword(password, confirm) => PasswordCall(text, password, confirm, p => ChangePassword(email, p))
  }

  /** The page that shows a form again. */
  function FormView(r: Request): string {
    match r
    case Malformed(view) => view
    case PostSignin(_, _) => "signin"
    case PostSignup(_, _, _, _) => "signup"
    case PostResend(_) => "resend-signup-token"
    case GetSignupToken(_) => "resend-signup-token"
    case PostReset(_) => "reset-password"
    case GetResetToken(_) => "reset-password"
    case PostResetToken(_, _, _) => "reset-password-token"
    case PostChangePassword(_, _) => "change-password"
    case _ => "index"
  }

  function RejectedView(r: Request, error: Effects.Error): string {
    if r.PostResend? && error == UserAlreadyVerified then "signin" else FormView(r)
  }

  /** The page after a success that does not sign in. */
  function DonePage(r: Request): Page {
    match r
    case GetResetToken(_) => View("reset-password-token", "")
    case PostChangePassword(_, _) => View("index", "password updated")
    case _ => View("signin", "check your mailbox")
  }

  /** The session-data middleware: who is signed in, or a panic when the session's email has no user. */
  function Visited(argon: Argon2idHash, email: string, w: World, look: Conditions): (Option<SessionData>, World) {
    if email == "" then (Some(SessionData("", "")), w)
    else
      var (r, w') := Looked(argon, Op.GetUser(email), w, look.inputs, look.begins, look.commits);
      (if r.Found? then Some(SessionData(r.account.email, r.account.name)) else None, w')
  }

  /** A handler, behind its middlewares. */
  function Handled(argon: Argon2idHash, text: Text, baseURL: string, site: Site, session: string, r: Request,
                   call: Conditions, destroys: bool): (Page, Site) {
    match CallOf(text, baseURL, EmailOf(site.sessions, session), r)
    case Bad(reason) => (Invalid(FormView(r), reason), site)
    case NoCall =>
      if r.GetPage? then (View(r.view, ""), site)
      else if r.GetUnknown? then (NotFound, site)
      else if destroys then (Redirect("/auth/signin"), site.(sessions := site.sessions - {session}))
      else (SignoutFailed(r.GetSignout? && r.cookie), site)
    case Good(op) =>
      if op.Signin? then
        var (res, w) := Looked(argon, op, site.world, call.inputs, call.begins, call.commits);
        if res.Found? then (Redirect("/"), Site(w, site.sessions[session := res.account.email]))
        else (Rejected("signin", if res.Refused? then res.error else Fault), Site(w, site.sessions))
      else
        var (out, w) := Called(argon, op, site.world, call.inputs, call.begins, call.commits);
        if out.Err? then (Rejected(RejectedView(r, out.error), out.error), Site(w, site.sessions))
        else if SignsIn(op) && out.user.Some? then
          (Redirect("/"), Site(w, site.sessions[session := out.user.value.email]))
        else (DonePage(r), Site(w, site.sessions))
  }

  /** One request, from the session-data middleware to the page. */
  function Served(argon: Argon2idHash, text: Text, baseURL: string, site: Site, session: string, r: Request,
                  look: Conditions, call: Conditions, destroys: bool): (Page, Site) {
    var (data, w) := Visited(argon, EmailOf(site.sessions, session), site.world, look);
    var there := Site(w, site.sessions);
    if data.None? then (Panicked, there)
    else if GuardOf(r) == SignedInOnly && !data.value.SignedIn() then (Redirect("/auth/signin"), there)
    else if GuardOf(r) == SignedOutOnly && data.value.SignedIn() then (Redirect("/"), there)
    else Handled(argon, text, baseURL, there, session, r, call, destroys)
  }

  // ---- The handlers as they are written

  lemma SigningInAnswersUser(argon: Argon2idHash, op: Op, w: World, inputs: seq<Input>, begins: bool, commits: bool)
    requires SignsIn(op) && Called(argon, op, w, inputs, begins, commits).0.Ok?
    ensures Called(argon, op, w, inputs, begins, commits).0.user.Some?
  {
    Meaning(argon, op, w.store, inputs);
  }

  /** Only a sign-out asks the session store to destroy anything. */
  lemma SignoutAloneDestroys(argon: Argon2idHash, text: Text, baseURL: string, site: Site, session: string, r: Request,
                             call: Conditions, destroys: bool)
    requires !r.GetSignout?
    ensures Handled(argon, text, baseURL, site, session, r, call, destroys)
         == Handled(argon, text, baseURL, site, session, r, call, true)
  {
    hide Looked, Called, EmailOf;
  }

  class Handler {
    const baseURL: string
    const text: Text
    const service: Service
    var sess: map<string, string>

    constructor (baseURL: string, text: Text, service: Service)
      ensures this.baseURL == baseURL && this.text == text && this.service == service && sess == map[]
    {
      this.baseURL, this.text, this.service, sess := baseURL, text, service, map[];
    }

    ghost function State(): Site reads this, service, service.mailer, service.db { Site(service.State(), sess) }

    /** The session manager's GetString. */
    method GetString(session: string) returns (email: string)
      ensures email == if session in sess then sess[session] else ""
    {
      email := if session in sess then sess[session] else "";
    }

    method SessionDataMiddleware(session: string, look: Conditions) returns (data: Option<SessionData>)
      requires |look.inputs| >= 1
      modifies service`userCache, service.db`store, service.db`pools
      ensures (data, service.State()) == Visited(service.argon, EmailOf(sess, session), old(service.State()), look)
    {
      var email := GetString(session);
      data := Some(SessionData("", ""));
      if email != "" {
        var user := service.GetUser(email, look.inputs, look.begins, look.commits);
        data := if user.Found? then Some(SessionData(user.account.email, user.account.name)) else None;
      }
    }

    method Signin(session: string, r: Request, call: Conditions) returns (page: Page)
      requires r.PostSignin? && |call.inputs| >= 1
      modifies this`sess, service`userCache, service.db`store, service.db`pools
      ensures (page, State()) == Handled(service.argon, text, baseURL, old(State()), session, r, call, true)
    {
      var form := new Form(r.email, "", r.password, "", "");
      var err := form.ValidateSignin(text);
      if err.Some? {
        return Invalid("signin", err.value);
      }
      var user := service.Signin(form.email, Utf8Bytes(form.password), call.inputs, call.begins, call.commits);
      if !user.Found? {
        return Rejected("signin", if user.Refused? then user.error else Fault);
      }
      sess := sess[session := user.account.email];
      return Redirect("/");
    }

    method Signup(session: string, r: Request, call: Conditions) returns (page: Page)
      requires r.PostSignup? && |call.inputs| >= 8 && !service.db.mu
      modifies service`userCache, service.mailer, service.db
      ensures !service.db.mu
      ensures (page, State()) == Handled(service.argon, text, baseURL, old(State()), session, r, call, true)
    {
      var form := new Form(r.email, r.name, r.password, r.confirm, "");
      var err := form.ValidateSignup(text);
      if err.Some? {
        return Invalid("signup", err.value);
      }
      var res := service.Signup(baseURL, form.email, form.name, Utf8Bytes(form.password), call.inputs, call.begins,
                                call.commits);
      page := if res.Err? then Rejected("signup", res.error) else View("signin", "check your mailbox");
    }

    method SignupToken(session: string, token: string, call: Conditions) returns (page: Page)
      requires |call.inputs| >= 5 && !service.db.mu
      modifies this`sess, service`userCache, service.mailer, service.db
      ensures !service.db.mu
      ensures (page, State()) ==
              Handled(service.argon, text, baseURL, old(State()), session, GetSignupToken(token), call, true)
    {
      ghost var w := service.State();
      var res := service.ValidateSignupToken(token, call.inputs, call.begins, call.commits);
      if res.Err? {
        return Rejected("resend-signup-token", res.error);
      }
      SigningInAnswersUser(service.argon, Op.ValidateSignupToken(token), w, call.inputs, call.begins, call.commits);
      sess := sess[session := res.user.value.email];
      return Redirect("/");
    }

    method Render(session: string, r: Request, ghost call: Conditions) returns (page: Page)
      requires r.GetPage? || r.GetUnknown?
      ensures (page, State()) == Handled(service.argon, text, baseURL, State(), session, r, call, true)
    {
      return if r.GetPage? then View(r.view, "") else NotFound;
    }

    /** A sign-out that the session store refuses drops the CSRF cookie instead. */
    method Signout(session: string, cookie: bool, destroys: bool, ghost call: Conditions) returns (page: Page)
      modifies this`sess
      ensures sess == if destroys then old(sess) - {session} else old(sess)
      ensures page == if destroys then Redirect("/auth/signin") else SignoutFailed(cookie)
      ensures (page, State()) ==
              Handled(service.argon, text, baseURL, old(State()), session, GetSignout(cookie), call, destroys)
    {
      if !destroys {
        return SignoutFailed(cookie);
      }
      sess := sess - {session};
      return Redirect("/auth/signin");
    }

    method Reject(session: string, r: Request, ghost call: Conditions) returns (page: Page)
      requires r.Malformed?
      ensures (page, State()) == Handled(service.argon, text, baseURL, State(), session, r, call, true)
    {
      return Invalid(r.view, BadForm);
    }

    method ResendSignupToken(session: string, r: Request, call: Conditions) returns (page: Page)
      requires r.PostResend? && |call.inputs| >= 6 && !service.db.mu
      modifies service`userCache, service.mailer, service.db
      ensures !service.db.mu
      ensures (page, State()) == Handled(service.argon, text, baseURL, old(State()), session, r, call, true)
    {
      var form := new Form(r.email, "", "", "", "");
      var err := form.ValidateAddress(text);
      if err.Some? {
        return Invalid("resend-signup-token", err.value);
      }
      var res := service.ResendSignupToken(baseURL, form.email, call.inputs, call.begins, call.commits);
      if res.Err? {
        return Rejected(if res.error == UserAlreadyVerified then "signin" else "resend-signup-token", res.error);
      }
      return View("signin", "check your mailbox");
    }

    method ResetPassword(session: string, r: Request, call: Conditions) returns (page: Page)
      requires r.PostReset? && |call.inputs| >= 6 && !service.db.mu
      modifies service`userCache, service.mailer, service.db
      ensures !service.db.mu
      ensures (page, State()) == Handled(service.argon, text, baseURL, old(State()), session, r, call, true)
    {
      var form := new Form(r.email, "", "", "", "");
      var err := form.ValidateAddress(text);
      if err.Some? {
        return Invalid("reset-password", err.value);
      }
      var res := service.ResetPassword(baseURL, form.email, call.inputs, call.begins, call.commits);
      page := if res.Err? then Rejected("reset-password", res.error) else View("signin", "check your mailbox");
    }

    method ResetPasswordToken(session: string, token: string, call: Conditions) returns (page: Page)
      requires |call.inputs| >= 3 && !service.db.mu
      modifies service`userCache, service.mailer, service.db
      ensures !service.db.mu
      ensures (page, State()) ==
              Handled(service.argon, text, baseURL, old(State()), session, GetResetToken(token), call, true)
    {
      var res := service.ResetPasswordToken(token, call.inputs, call.begins, call.commits);
      page := if res.Err? then Rejected("reset-password", res.error) else View("reset-password-token", "");
    }

    method ChangePassword(session: string, r: Request, call: Conditions) returns (page: Page)
      requires r.PostChangePassword? && |call.inputs| >= 3 && !service.db.mu
      modifies service`userCache, service.mailer, service.db
      ensures !service.db.mu
      ensures (page, State()) == Handled(service.argon, text, baseURL, old(State()), session, r, call, true)
    {
      var form := new Form("", "", r.password, r.confirm, "");
      var err := form.ValidatePasswords(text);
      if err.Some? {
        return Invalid("change-password", err.value);
      }
      var email := GetString(session);
      var res := service.ChangePassword(email, Utf8Bytes(form.password), call.inputs, call.begins, call.commits);
      page := if res.Err? then Rejected("change-password", res.error) else View("index", "password updated");
    }

    method ChangePasswordWithToken(session: string, r: Request, call: Conditions) returns (page: Page)
      requires r.PostResetToken? && |call.inputs| >= 6 && !service.db.mu
      modifies this`sess, service`userCache, service.mailer, service.db
      ensures !service.db.mu
      ensures (page, State()) == Handled(service.argon, text, baseURL, old(State()), session, r, call, true)
    {
      var form := new Form("", "", r.password, r.confirm, r.token);
      var err := form.ValidateReset(text);
      if err.Some? {
        return Invalid("reset-password-token", err.value);
      }
      ghost var w := service.State();
      var password := Utf8Bytes(form.password);
      var res := service.ChangePasswordWithToken(form.token, password, call.inputs, call.begins, call.commits);
      if res.Err? {
        return Rejected("reset-password-token", res.error);
      }
      SigningInAnswersUser(service.argon, Op.ChangePasswordWithToken(form.token, password), w, call.inputs,
                           call.begins, call.commits);
      sess := sess[session := res.user.value.email];
      return Redirect("/");
    }

    /** The route table. */
    method Serve(session: string, r: Request, look: Conditions, call: Conditions, destroys: bool) returns (page: Page)
      requires !service.db.mu && |look.inputs| >= 1 && |call.inputs| >= 8
      modifies this`sess, service`userCache, service.mailer, service.db
      ensures !service.db.mu
      ensures (page, State()) == Served(service.argon, text, baseURL, old(State()), session, r, look, call, destroys)
    {
      hide Visited, Handled;
      var data := SessionDataMiddleware(session, look);
      if data.None? {
        return Panicked;
      }
      var signedInRoute := match r
        case GetPage(view) => view == "index" || view == "change-password"
        case Malformed(view) => view == "index" || view == "change-password"
        case _ => r.GetSignout? || r.PostChangePassword?;
      if signedInRoute && data.value.email == "" {
        return Redirect("/auth/signin");
      }
      if !signedInRoute && !r.GetUnknown? && !r.GetSignupToken? && !r.GetResetToken? && data.value.email != "" {
        return Redirect("/");
      }
      if !r.GetSignout? {
        SignoutAloneDestroys(service.argon, text, baseURL, State(), session, r, call, destroys);
      }
      match r
      case GetPage(_) => page := Render(session, r, call);
      case GetUnknown => page := Render(session, r, call);
      case GetSignout(cookie) => page := Signout(session, cookie, destroys, call);
      case Malformed(_) => page := Reject(session, r, call);
      case GetSignupToken(token) => page := SignupToken(session, token, call);
      case GetResetToken(token) => page := ResetPasswordToken(session, token, call);
      case PostSignin(_, _) => page := Signin(session, r, call);
      case PostSignup(_, _, _, _) => page := Signup(session, r, call);
      case PostResend(_) => page := ResendSignupToken(session, r, call);
      case PostReset(_) => page := ResetPassword(session, r, call);
      case PostResetToken(_, _, _) => page := ChangePasswordWithToken(session, r, call);
      case PostChangePassword(_, _) => page := ChangePassword(session, r, call);
    }

    /** A GET by its path. */
    method Get(session: string, path: string, cookie: bool, look: Conditions, call: Conditions, destroys: bool)
      returns (page: Page)
      requires !service.db.mu && |look.inputs| >= 1 && |call.inputs| >= 8
      modifies this`sess, service`userCache, service.mailer, service.db
      ensures !service.db.mu
      ensures (page, State()) ==
              Served(service.argon, text, baseURL, old(State()), session, GetRoute(path, cookie), look, call, destroys)
    {
      page := Serve(session, GetRoute(path, cookie), look, call, destroys);
    }
  }
}
