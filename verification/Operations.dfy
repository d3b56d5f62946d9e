/** The transaction bodies of the user service, effect by effect in the order of the code. */
module Operations {
  import opened Datastore
  import opened Encoding
  import opened Argon2id
  import opened Effects

  /** tokenDurationSignup and tokenDurationPassword, in milliseconds. */
  function Duration(kind: TokenType): int {
    if kind == SIGNUP then 12 * 60 * 60 * 1000 else 60 * 60 * 1000
  }

  function Endpoint(kind: TokenType): string {
    if kind == SIGNUP then "/auth/signup/" else "/auth/reset-password/"
  }

  function NewMail(kind: TokenType, baseURL: string, email: string, name: string, token: string): Mail {
    Mail(if kind == SIGNUP then "Confirm your email address" else "Change your password",
         email, name, baseURL + Endpoint(kind) + QueryEscape(token))
  }

  datatype Op =
    | GetUser(email: string)
    | Signin(email: string, password: Bytes)
    | Signup(baseURL: string, email: string, name: string, password: Bytes)
    | ResendSignupToken(baseURL: string, email: string)
    | ValidateSignupToken(token: string)
    | ResetPassword(baseURL: string, email: string)
    | ResetPasswordToken(token: string)
    | ChangePassword(email: string, password: Bytes)
    | ChangePasswordWithToken(token: string, password: Bytes)

  /** Only the three issuing operations go through the mutex and the write connection. */
  function PoolOf(op: Op): Pool {
    if op.Signup? || op.ResendSignupToken? || op.ResetPassword? then Write else Read
  }

  const FAULT := Done(Err(Fault))

  function RecordToken(kind: TokenType, baseURL: string, email: string, name: string, token: string): Body {
    Do(Now, (t: Reply) => if !t.Clock? then FAULT else
      Do(Sql(InsertToken(token, kind, email, t.now + Duration(kind))), (c: Reply) =>
        if c != Answered(Executed) then FAULT else
        Do(Send(NewMail(kind, baseURL, email, name, token)), (s: Reply) =>
          if s.Sent? then Done(Ok(None)) else FAULT)))
  }

  /** The tail the three issuing operations share: replace the live token of this type and mail the new one. */
  function IssueToken(kind: TokenType, baseURL: string, email: string, name: string): Body {
    Do(NewToken, (m: Reply) => if !m.Minted? then FAULT else
      Do(Sql(DeleteTokensByEmail(kind, email)), (d: Reply) => if d != Answered(Executed) then FAULT else
        RecordToken(kind, baseURL, email, name, m.token)))
  }

  function CreateAccount(argon: Argon2idHash, baseURL: string, email: string, name: string, password: Bytes): Body {
    Do(Hash(argon, password), (h: Reply) => if !h.Hashed? then FAULT else
      Do(Sql(InsertUser(email, name, h.hash, h.salt)), (r: Reply) =>
        if r == Answered(Executed) then IssueToken(SIGNUP, baseURL, email, name) else FAULT))
  }

  function DropTokens(kind: TokenType, email: string, user: User): Body {
    Do(Sql(DeleteTokensByEmail(kind, email)), (d: Reply) => if d != Answered(Executed) then FAULT else
      Do(CacheUser(user), (_: Reply) => Done(Ok(Some(user)))))
  }

  function Verify(email: string): Body {
    Do(Sql(MarkVerified(email)), (r: Reply) =>
      match r
      case Answered(OneUser(user)) => DropTokens(SIGNUP, email, user)
      case Answered(NoRows) => Done(Err(RowNotFound))
      case _ => FAULT)
  }

  function SetPassword(argon: Argon2idHash, email: string, password: Bytes, andThen: User -> Body): Body {
    Do(Hash(argon, password), (h: Reply) => if !h.Hashed? then FAULT else
      Do(Sql(UpdatePassword(email, h.hash, h.salt)), (r: Reply) =>
        match r
        case Answered(OneUser(user)) => andThen(user)
        case Answered(NoRows) => Done(Err(EmailNotFound))
        case _ => FAULT))
  }

  function Redeem(argon: Argon2idHash, email: string, password: Bytes): Body {
    SetPassword(argon, email, password, (user: User) => DropTokens(PASSWORD, email, user))
  }

  function Program(argon: Argon2idHash, op: Op): Body {
    match op
    case GetUser(email) =>
      Do(Sql(SelectUser(email)), (r: Reply) =>
        match r
        case Answered(OneUser(user)) => Done(Ok(Some(user)))
        case Answered(NoRows) => Done(Err(RowNotFound))
        case _ => FAULT)
    case Signin(email, password) =>
      Do(Sql(SelectUser(email)), (r: Reply) =>
        match r
        case Answered(OneUser(user)) =>
          if user.verifiedAt == 0 then Done(Err(UserNotVerified)) else Done(Ok(Some(user)))
        case Answered(NoRows) => Done(Err(InvalidCredentials))
        case _ => FAULT)
    case Signup(baseURL, email, name, password) =>
      Do(Sql(SelectUser(email)), (r: Reply) =>
        match r
        case Answered(OneUser(_)) => Done(Err(EmailInUse))
        case Answered(NoRows) => CreateAccount(argon, baseURL, email, name, password)
        case _ => FAULT)
    case ResendSignupToken(baseURL, email) =>
      Do(Sql(SelectUser(email)), (r: Reply) =>
        match r
        case Answered(OneUser(user)) =>
          if user.verifiedAt > 0 then Done(Err(UserAlreadyVerified)) else IssueToken(SIGNUP, baseURL, email, user.name)
        case Answered(NoRows) => Done(Err(UserNotVerified))
        case _ => FAULT)
    case ValidateSignupToken(token) =>
      Do(Now, (t: Reply) => if !t.Clock? then FAULT else
        Do(Sql(SelectToken(SIGNUP, token, t.now)), (r: Reply) =>
          match r
          case Answered(OneToken(row)) => Verify(row.email)
          case Answered(NoRows) => Done(Err(InvalidToken))
          case _ => FAULT))
    case ResetPassword(baseURL, email) =>
      Do(Sql(SelectUser(email)), (r: Reply) =>
        match r
        case Answered(OneUser(user)) =>
          if user.verifiedAt == 0 then Done(Err(UserNotVerified)) else IssueToken(PASSWORD, baseURL, email, user.name)
        case Answered(NoRows) => Done(Err(EmailNotFound))
        case _ => FAULT)
    case ResetPasswordToken(token) =>
      Do(Now, (t: Reply) => if !t.Clock? then FAULT else
        Do(Sql(SelectToken(PASSWORD, token, t.now)), (r: Reply) =>
          match r
          case Answered(OneToken(row)) =>
            Do(Sql(SelectUser(row.email)), (u: Reply) =>
              match u
              case Answered(OneUser(_)) => Done(Ok(None))
              case Answered(NoRows) => Done(Err(EmailNotFound))
              case _ => FAULT)
          case Answered(NoRows) => Done(Err(InvalidToken))
          case _ => FAULT))
    case ChangePassword(email, password) =>
      SetPassword(argon, email, password, (user: User) => Do(CacheUser(user), (_: Reply) => Done(Ok(None))))
    case ChangePasswordWithToken(token, password) =>
      Do(Now, (t: Reply) => if !t.Clock? then FAULT else
        Do(Sql(SelectToken(PASSWORD, token, t.now)), (r: Reply) =>
          match r
          case Answered(OneToken(row)) => Redeem(argon, row.email, password)
          case Answered(NoRows) => Done(Err(InvalidToken))
          case _ => FAULT))
  }

  /** What a call answers once its transaction committed: Signin still compares the password. */
  function Settle(argon: Argon2idHash, op: Op, out: Outcome): Outcome {
    if op.Signin? && out.Ok? && out.user.Some? &&
       argon.Compared(out.user.value.password, out.user.value.salt, op.password).Some?
    then Err(InvalidCredentials)
    else out
  }
}
