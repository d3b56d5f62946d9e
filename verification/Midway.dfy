/** Where an unfinished body can be: which effects may come next, and what it has let out so far. */
module Midway {
  import opened Datastore
  import opened Argon2id
  import opened Effects
  import opened Operations
  import opened Changes

  predicate Issuing(op: Op) { op.Signup? || op.ResendSignupToken? || op.ResetPassword? }

  /** The position of the UUID among the effects of an issuing operation; the mail is four effects later. */
  function MintAt(op: Op): nat { if op.Signup? then 3 else 1 }

  function KindOf(op: Op): TokenType { if op.ResetPassword? then PASSWORD else SIGNUP }

  /** In the tail that issues a token from effect i on: the UUID comes first, the mail with that UUID last, and
      nothing is mailed before a success. */
  ghost predicate Tail(kind: TokenType, baseURL: string, email: string, name: string, l: Local, inputs: seq<Input>,
                       i: nat, p: Progress)
  {
    && (p.rest.Do? ==>
          && i <= |inputs| <= i + 4
          && (p.rest.effect.NewToken? <==> |inputs| == i)
          && (p.rest.effect.Send? ==>
                |inputs| == i + 4 && p.rest.effect.mail == NewMail(kind, baseURL, email, name, inputs[i].uuid))
          && !p.rest.effect.CacheUser?)
    && (p.rest.Do? || p.rest.outcome.Err? ==> p.local.sent == l.sent)
  }

  lemma RecordTokenTail(kind: TokenType, baseURL: string, email: string, name: string, l: Local, inputs: seq<Input>,
                        i: nat)
    requires i + 2 <= |inputs|
    ensures Tail(kind, baseURL, email, name, l, inputs, i,
                 Run(RecordToken(kind, baseURL, email, name, inputs[i].uuid), l, inputs, i + 2))
  {
    if i + 2 >= |inputs| { return; }
    var b1, l1 := Unroll(RecordToken(kind, baseURL, email, name, inputs[i].uuid), l, inputs, i + 2);
    if i + 3 >= |inputs| { return; }
    var b2, l2 := Unroll(b1, l1, inputs, i + 3);
    if i + 4 >= |inputs| || b2.Done? { return; }
    var b3, l3 := Unroll(b2, l2, inputs, i + 4);
  }

  lemma IssueTokenTail(kind: TokenType, baseURL: string, email: string, name: string, l: Local, inputs: seq<Input>,
                       i: nat)
    requires i <= |inputs|
    ensures Tail(kind, baseURL, email, name, l, inputs, i, Run(IssueToken(kind, baseURL, email, name), l, inputs, i))
  {
    if i >= |inputs| { return; }
    var b1, l1 := Unroll(IssueToken(kind, baseURL, email, name), l, inputs, i);
    if i + 1 >= |inputs| { return; }
    var b2, l2 := Unroll(b1, l1, inputs, i + 1);
    if b2.Done? { return; }
    RecordTokenTail(kind, baseURL, email, name, l2, inputs, i);
  }

  /** An issuing operation draws its UUID at a fixed effect, mails it once and last, and succeeds only after mailing. */
  ghost predicate IssuesAt(op: Op, inputs: seq<Input>, p: Progress)
    requires Issuing(op)
  {
    && (p.rest.Do? ==>
          && |inputs| <= MintAt(op) + 4
          && (p.rest.effect.NewToken? <==> |inputs| == MintAt(op))
          && (p.rest.effect.Send? ==>
                |inputs| == MintAt(op) + 4 && exists name ::
                  p.rest.effect.mail == NewMail(KindOf(op), op.baseURL, op.email, name, inputs[MintAt(op)].uuid))
          && !p.rest.effect.CacheUser?)
    && (p.rest.Do? || p.rest.outcome.Err? ==> p.local.sent == [])
  }

  lemma TailIssues(op: Op, name: string, l: Local, inputs: seq<Input>, p: Progress)
    requires Issuing(op) && l.sent == []
    requires Tail(KindOf(op), op.baseURL, op.email, name, l, inputs, MintAt(op), p)
    ensures IssuesAt(op, inputs, p)
  {
  }

  lemma SignupIssuesAt(argon: Argon2idHash, op: Op, s: Store, inputs: seq<Input>)
    requires op.Signup?
    ensures IssuesAt(op, inputs, Exec(argon, op, s, inputs))
  {
    if |inputs| == 0 { return; }
    var b1, l1 := Unroll(Program(argon, op), Local(s, [], []), inputs, 0);
    if |inputs| == 1 || b1.Done? { return; }
    var b2, l2 := Unroll(b1, l1, inputs, 1);
    if |inputs| == 2 || b2.Done? { return; }
    var b3, l3 := Unroll(b2, l2, inputs, 2);
    if b3.Done? { return; }
    IssueTokenTail(SIGNUP, op.baseURL, op.email, op.name, l3, inputs, 3);
    TailIssues(op, op.name, l3, inputs, Run(b3, l3, inputs, 3));
  }

  lemma ReissueIssuesAt(argon: Argon2idHash, op: Op, s: Store, inputs: seq<Input>)
    requires op.ResendSignupToken? || op.ResetPassword?
    ensures IssuesAt(op, inputs, Exec(argon, op, s, inputs))
  {
    if |inputs| == 0 { return; }
    var b1, l1 := Unroll(Program(argon, op), Local(s, [], []), inputs, 0);
    if b1.Done? { return; }
    IssueTokenTail(KindOf(op), op.baseURL, op.email, s.users[op.email].name, l1, inputs, 1);
    TailIssues(op, s.users[op.email].name, l1, inputs, Run(b1, l1, inputs, 1));
  }

  lemma IssuingProgress(argon: Argon2idHash, op: Op, s: Store, inputs: seq<Input>)
    requires Issuing(op)
    ensures IssuesAt(op, inputs, Exec(argon, op, s, inputs))
    ensures (Exec(argon, op, s, inputs).rest.Do? ==> |inputs| < Cost(op))
  {
    if op.Signup? { SignupIssuesAt(argon, op, s, inputs); } else { ReissueIssuesAt(argon, op, s, inputs); }
  }

  /** The other operations mint and mail nothing, and offer the cache only the row they updated. */
  ghost predicate OffersAt(s: Store, p: Progress) {
    p.rest.Do? ==>
      && !p.rest.effect.NewToken? && !p.rest.effect.Send?
      && (p.rest.effect.CacheUser? ==>
            exists e ::
              && e in s.users
              && p.rest.effect.user.email == s.users[e].email && p.rest.effect.user.name == s.users[e].name)
  }

  lemma DropTokensOffers(kind: TokenType, email: string, user: User, e: string, s: Store, l: Local, inputs: seq<Input>,
                         i: nat)
    requires e in s.users && user.email == s.users[e].email && user.name == s.users[e].name
    ensures var p := Run(DropTokens(kind, email, user), l, inputs, i);
            OffersAt(s, p) && (p.rest.Do? ==> |inputs| < i + 2)
  {
    if i >= |inputs| { return; }
    var b1, l1 := Unroll(DropTokens(kind, email, user), l, inputs, i);
    if i + 1 >= |inputs| || b1.Done? { return; }
    var b2, l2 := Unroll(b1, l1, inputs, i + 1);
  }

  lemma ReadsOffer(argon: Argon2idHash, op: Op, s: Store, inputs: seq<Input>)
    requires op.GetUser? || op.Signin? || op.ResetPasswordToken?
    ensures OffersAt(s, Exec(argon, op, s, inputs)) && (Exec(argon, op, s, inputs).rest.Do? ==> |inputs| < Cost(op))
    ensures var p := Exec(argon, op, s, inputs); p.rest.Do? && p.rest.effect.Sql? ==> !p.rest.effect.query.Writes()
  {
    if |inputs| == 0 { return; }
    var b1, l1 := Unroll(Program(argon, op), Local(s, [], []), inputs, 0);
    if |inputs| == 1 || b1.Done? { return; }
    var b2, l2 := Unroll(b1, l1, inputs, 1);
    if |inputs| == 2 || b2.Done? { return; }
    var b3, l3 := Unroll(b2, l2, inputs, 2);
  }

  lemma ChangePasswordOffers(argon: Argon2idHash, op: Op, s: Store, inputs: seq<Input>)
    requires op.ChangePassword?
    ensures OffersAt(s, Exec(argon, op, s, inputs)) && (Exec(argon, op, s, inputs).rest.Do? ==> |inputs| < Cost(op))
  {
    if |inputs| == 0 { return; }
    var b1, l1 := Unroll(Program(argon, op), Local(s, [], []), inputs, 0);
    if |inputs| == 1 || b1.Done? { return; }
    var b2, l2 := Unroll(b1, l1, inputs, 1);
    if |inputs| == 2 || b2.Done? { return; }
    var b3, l3 := Unroll(b2, l2, inputs, 2);
  }

  lemma ValidateOffers(argon: Argon2idHash, op: Op, s: Store, inputs: seq<Input>)
    requires op.ValidateSignupToken?
    ensures OffersAt(s, Exec(argon, op, s, inputs)) && (Exec(argon, op, s, inputs).rest.Do? ==> |inputs| < Cost(op))
  {
    if |inputs| == 0 { return; }
    var b1, l1 := Unroll(Program(argon, op), Local(s, [], []), inputs, 0);
    if |inputs| == 1 { return; }
    var b2, l2 := Unroll(b1, l1, inputs, 1);
    if |inputs| == 2 || b2.Done? { return; }
    var b3, l3 := Unroll(b2, l2, inputs, 2);
    if b3.Done? { return; }
    var e := Target(op, s);
    DropTokensOffers(SIGNUP, e, l3.view.users[e], e, s, l3, inputs, 3);
  }

  lemma RedeemOffers(argon: Argon2idHash, email: string, password: Bytes, s: Store, inputs: seq<Input>)
    requires |inputs| >= 2
    ensures var p := Run(Redeem(argon, email, password), Local(s, [], []), inputs, 2);
            OffersAt(s, p) && (p.rest.Do? ==> |inputs| < 6)
  {
    if |inputs| == 2 { return; }
    var b3, l3 := Unroll(Redeem(argon, email, password), Local(s, [], []), inputs, 2);
    if |inputs| == 3 || b3.Done? { return; }
    var b4, l4 := Unroll(b3, l3, inputs, 3);
    if b4.Done? { return; }
    DropTokensOffers(PASSWORD, email, l4.view.users[email], email, s, l4, inputs, 4);
  }

  lemma ChangeWithTokenOffers(argon: Argon2idHash, op: Op, s: Store, inputs: seq<Input>)
    requires op.ChangePasswordWithToken?
    ensures OffersAt(s, Exec(argon, op, s, inputs)) && (Exec(argon, op, s, inputs).rest.Do? ==> |inputs| < Cost(op))
  {
    if |inputs| == 0 { return; }
    var b1, l1 := Unroll(Program(argon, op), Local(s, [], []), inputs, 0);
    if |inputs| == 1 { return; }
    var b2, l2 := Unroll(b1, l1, inputs, 1);
    if b2.Done? { return; }
    RedeemOffers(argon, Target(op, s), op.password, s, inputs);
  }

  lemma OtherProgress(argon: Argon2idHash, op: Op, s: Store, inputs: seq<Input>)
    requires !Issuing(op)
    ensures OffersAt(s, Exec(argon, op, s, inputs)) && (Exec(argon, op, s, inputs).rest.Do? ==> |inputs| < Cost(op))
  {
    match op
    case ValidateSignupToken(_) => ValidateOffers(argon, op, s, inputs);
    case ChangePassword(_, _) => ChangePasswordOffers(argon, op, s, inputs);
    case ChangePasswordWithToken(_, _) => ChangeWithTokenOffers(argon, op, s, inputs);
    case _ => ReadsOffer(argon, op, s, inputs);
  }
}
