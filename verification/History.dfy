/** Committed histories: what any sequence of permitted changes, starting from the empty store, guarantees. */
module History {
  import opened Datastore
  import opened Argon2id
  import opened Changes

  // ---- The joint invariant of users and tokens

  predicate Live(s: Store, token: string) { token in s.tokens && s.tokens[token].deletedAt == 0 }

  predicate SameSlot(a: TokenRow, b: TokenRow) { a.email == b.email && a.kind == b.kind }

  /** At most one live token per email and type; a live sign-up token belongs to an existing unverified user
      and a live password token to an existing verified one. */
  ghost predicate Invariant(s: Store) {
    && (forall e :: e in s.users ==> s.users[e].email == e && s.users[e].deletedAt == 0 && s.users[e].verifiedAt >= 0)
    && (forall k :: k in s.tokens ==> s.tokens[k].token == k)
    && (forall k, k' :: Live(s, k) && Live(s, k') && SameSlot(s.tokens[k], s.tokens[k']) ==> k == k')
    && (forall k :: Live(s, k) ==>
          && s.tokens[k].email in s.users
          && (s.tokens[k].kind == SIGNUP <==> s.users[s.tokens[k].email].verifiedAt == 0))
  }

  ghost predicate Hashes(argon: Argon2idHash, password: Bytes, hash: Bytes, salt: Bytes) {
    && password != [] && |salt| == argon.saltLen
    && hash == argon.kdf(password, salt, argon.time, argon.memory, argon.threads, argon.keyLen)
  }

  ghost predicate PermittedIssue(s: Store, issue: TokenRow, stamp: int) {
    issue.deletedAt == 0 && issue.token !in s.tokens && stamp > 0
  }

  /** When the service makes a change: the checks its transaction passed. */
  ghost predicate Permitted(argon: Argon2idHash, s: Store, c: Change) {
    match c
    case Registered(account, password, issue, stamp) =>
      && account.email !in s.users
      && account.verifiedAt == account.deletedAt == 0
      && Hashes(argon, password, account.password, account.salt)
      && issue.kind == SIGNUP && issue.email == account.email
      && PermittedIssue(s, issue, stamp)
    case Issued(issue, stamp) =>
      && HasUser(s, issue.email)
      && (if issue.kind == SIGNUP then s.users[issue.email].verifiedAt <= 0 else s.users[issue.email].verifiedAt != 0)
      && PermittedIssue(s, issue, stamp)
    case Verified(email, token, now, at, stamp) =>
      && email in s.users && Redeemable(s, SIGNUP, token, now) && s.tokens[token].email == email
      && at > 0 && stamp > 0
    case PasswordSet(email, password, hash, salt, at) =>
      email in s.users && Hashes(argon, password, hash, salt)
    case Redeemed(email, token, now, password, hash, salt, at, stamp) =>
      && email in s.users && Redeemable(s, PASSWORD, token, now) && s.tokens[token].email == email
      && Hashes(argon, password, hash, salt) && stamp > 0
  }

  /** The store after a permitted change; no store when it is not permitted. */
  ghost function Transition(argon: Argon2idHash, s: Store, c: Change): Option<Store> {
    if Permitted(argon, s, c) then Some(Apply(s, c)) else None
  }

  ghost predicate Makes(argon: Argon2idHash, s: Store, c: Change, t: Store) {
    Transition(argon, s, c) == Some(t)
  }

  lemma IssueKeepsInvariant(s: Store, issue: TokenRow, stamp: int)
    requires Invariant(s) && PermittedIssue(s, issue, stamp)
    requires issue.email in s.users && (issue.kind == SIGNUP <==> s.users[issue.email].verifiedAt == 0)
    ensures Invariant(Issue(s, issue, stamp))
  {
  }

  lemma UserChangeKeepsInvariant(argon: Argon2idHash, s: Store, c: Change)
    requires Invariant(s) && Permitted(argon, s, c) && !c.Verified?
    ensures Invariant(s.(users := UsersAfter(s.users, c)))
  {
  }

  lemma VerifyKeepsInvariant(argon: Argon2idHash, s: Store, c: Change)
    requires Invariant(s) && Permitted(argon, s, c) && c.Verified?
    ensures Invariant(Apply(s, c))
  {
  }

  lemma ApplyKeepsInvariant(argon: Argon2idHash, s: Store, c: Change, t: Store)
    requires Invariant(s) && Makes(argon, s, c, t)
    ensures Invariant(t)
  {
    if c.Verified? {
      VerifyKeepsInvariant(argon, s, c);
    } else {
      var u := s.(users := UsersAfter(s.users, c));
      UserChangeKeepsInvariant(argon, s, c);
      if c.Registered? || c.Issued? {
        IssueKeepsInvariant(u, c.issue, c.stamp);
        assert t == Issue(u, c.issue, c.stamp);
      }
    }
  }

  /** v lists the committed stores from the empty one on, h the changes between them, each permitted where it was
      made. */
  ghost predicate Legal(argon: Argon2idHash, v: seq<Store>, h: seq<Change>) {
    && |v| == |h| + 1
    && v[0] == EMPTY
    && forall n {:trigger h[n]} :: 0 <= n < |h| ==> Makes(argon, v[n], h[n], v[n + 1])
  }

  lemma MadeAt(argon: Argon2idHash, v: seq<Store>, h: seq<Change>, n: nat)
    requires Legal(argon, v, h) && n < |h|
    ensures Makes(argon, v[n], h[n], v[n + 1])
  {
  }

  lemma {:induction false} EveryStoreIsInvariant(argon: Argon2idHash, v: seq<Store>, h: seq<Change>, n: nat)
    requires Legal(argon, v, h) && n <= |h|
    ensures Invariant(v[n])
  {
    if n == 0 {
    } else {
      EveryStoreIsInvariant(argon, v, h, n - 1);
      MadeAt(argon, v, h, n - 1);
      ApplyKeepsInvariant(argon, v[n - 1], h[n - 1], v[n]);
    }
  }

  // ---- The token table is a map from (email, type) to one token

  datatype Slot = Slot(token: string, expiresAt: int)

  type Book = map<(string, TokenType), Slot>

  predicate Grants(c: Change, kind: TokenType, email: string) {
    (c.Registered? || c.Issued?) && c.issue.kind == kind && c.issue.email == email
  }

  predicate Spends(c: Change, kind: TokenType, email: string) {
    (if kind == SIGNUP then c.Verified? else c.Redeemed?) && c.email == email
  }

  /** The map a reader has in mind: an issue overwrites, a consumption removes, nothing else touches it. */
  function Enter(b: Book, c: Change): Book {
    match c
    case Registered(_, _, issue, _) => b[(issue.email, issue.kind) := Slot(issue.token, issue.expiresAt)]
    case Issued(issue, _) => b[(issue.email, issue.kind) := Slot(issue.token, issue.expiresAt)]
    case Verified(email, _, _, _, _) => b - {(email, SIGNUP)}
    case Redeemed(email, _, _, _, _, _, _, _) => b - {(email, PASSWORD)}
    case PasswordSet(_, _, _, _, _) => b
  }

  function BookOf(h: seq<Change>, n: nat): Book
    requires n <= |h|
  {
    if n == 0 then map[] else Enter(BookOf(h, n - 1), h[n - 1])
  }

  ghost predicate Backed(tokens: map<string, TokenRow>, b: Book) {
    forall slot :: slot in b ==>
      b[slot].token in tokens &&
      tokens[b[slot].token] == TokenRow(b[slot].token, slot.1, slot.0, b[slot].expiresAt, 0)
  }

  ghost predicate Listed(tokens: map<string, TokenRow>, b: Book) {
    forall k :: k in tokens && tokens[k].deletedAt == 0 ==>
      (tokens[k].email, tokens[k].kind) in b &&
      b[(tokens[k].email, tokens[k].kind)] == Slot(k, tokens[k].expiresAt)
  }

  ghost predicate Matches(tokens: map<string, TokenRow>, b: Book) { Backed(tokens, b) && Listed(tokens, b) }

  lemma IssueMatches(s: Store, b: Book, issue: TokenRow, stamp: int)
    requires Matches(s.tokens, b) && PermittedIssue(s, issue, stamp)
    ensures Matches(Issue(s, issue, stamp).tokens, b[(issue.email, issue.kind) := Slot(issue.token, issue.expiresAt)])
  {
  }

  lemma ConsumeMatches(s: Store, b: Book, kind: TokenType, email: string, stamp: int)
    requires Matches(s.tokens, b) && stamp > 0
    ensures Matches(Consume(s, kind, email, stamp).tokens, b - {(email, kind)})
  {
  }

  lemma ChangeMatches(argon: Argon2idHash, v: seq<Store>, h: seq<Change>, n: nat, b: Book)
    requires Legal(argon, v, h) && n < |h| && Matches(v[n].tokens, b)
    ensures Matches(v[n + 1].tokens, Enter(b, h[n]))
  {
    MadeAt(argon, v, h, n);
    match h[n]
    case Registered(_, _, issue, stamp) => IssueMatches(v[n], b, issue, stamp);
    case Issued(issue, stamp) => IssueMatches(v[n], b, issue, stamp);
    case Verified(email, _, _, _, stamp) => ConsumeMatches(v[n], b, SIGNUP, email, stamp);
    case Redeemed(email, _, _, _, _, _, _, stamp) => ConsumeMatches(v[n], b, PASSWORD, email, stamp);
    case PasswordSet(_, _, _, _, _) =>
  }

  lemma {:induction false} TableMatchesBook(argon: Argon2idHash, v: seq<Store>, h: seq<Change>, n: nat)
    requires Legal(argon, v, h) && n <= |h|
    ensures Matches(v[n].tokens, BookOf(h, n))
  {
    hide Transition, Enter;
    if n == 0 {
    } else {
      TableMatchesBook(argon, v, h, n - 1);
      ChangeMatches(argon, v, h, n - 1, BookOf(h, n - 1));
    }
  }

  /** The latest change before n that touches the slot issues its token. */
  ghost predicate LatestGrant(h: seq<Change>, n: nat, kind: TokenType, email: string, i: nat)
    requires n <= |h|
  {
    && i < n
    && Grants(h[i], kind, email)
    && forall j :: i < j < n ==> !Grants(h[j], kind, email) && !Spends(h[j], kind, email)
  }

  lemma {:induction false} BookHoldsLatest(h: seq<Change>, n: nat, kind: TokenType, email: string)
    requires n <= |h|
    ensures (email, kind) in BookOf(h, n) <==> exists i: nat :: LatestGrant(h, n, kind, email, i)
    ensures forall i: nat :: LatestGrant(h, n, kind, email, i) ==>
              && (email, kind) in BookOf(h, n)
              && BookOf(h, n)[(email, kind)] == Slot(h[i].issue.token, h[i].issue.expiresAt)
  {
    if n == 0 {
    } else {
      BookHoldsLatest(h, n - 1, kind, email);
      var c := h[n - 1];
      if Grants(c, kind, email) {
        assert LatestGrant(h, n, kind, email, n - 1);
      } else if !Spends(c, kind, email) {
        var m := n - 1;
        assert (email, kind) in BookOf(h, n) <==> (email, kind) in BookOf(h, m);
        forall i: nat ensures LatestGrant(h, n, kind, email, i) <==> LatestGrant(h, m, kind, email, i) {
        }
        if exists i: nat :: LatestGrant(h, m, kind, email, i) {
          var i: nat :| LatestGrant(h, m, kind, email, i);
          assert LatestGrant(h, n, kind, email, i);
        }
      }
    }
  }

  /** Token-table refinement. After any legal history a lookup accepts a token at a time exactly when some commit
      issued it for that type, no later commit issued or consumed one for the same email and type,
      and the time is at most the expiry its issuer computed. */
  lemma TokenAccepted(argon: Argon2idHash, v: seq<Store>, h: seq<Change>, n: nat, kind: TokenType, token: string,
                      now: int)
    requires Legal(argon, v, h) && n <= |h|
    ensures Redeemable(v[n], kind, token, now) <==>
              exists i: nat, email ::
                LatestGrant(h, n, kind, email, i) && h[i].issue.token == token && now <= h[i].issue.expiresAt
    ensures Redeemable(v[n], kind, token, now) ==>
              exists i: nat :: LatestGrant(h, n, kind, v[n].tokens[token].email, i) && h[i].issue.token == token
  {
    var s, b := v[n], BookOf(h, n);
    TableMatchesBook(argon, v, h, n);
    if Redeemable(s, kind, token, now) {
      var e := s.tokens[token].email;
      assert Live(s, token);
      BookHoldsLatest(h, n, kind, e);
      var i: nat :| LatestGrant(h, n, kind, e, i);
      assert h[i].issue.token == token && now <= h[i].issue.expiresAt;
    }
    if i: nat, e :| LatestGrant(h, n, kind, e, i) && h[i].issue.token == token && now <= h[i].issue.expiresAt {
      BookHoldsLatest(h, n, kind, e);
    }
  }

  /** A slot nobody touches keeps its token acceptable until its expiry. */
  lemma TokenSurvives(argon: Argon2idHash, v: seq<Store>, h: seq<Change>, m: nat, n: nat,
                      kind: TokenType, token: string, now: int, later: int)
    requires Legal(argon, v, h) && m <= n <= |h|
    requires Redeemable(v[m], kind, token, now)
    requires var row := v[m].tokens[token];
             && later <= row.expiresAt
             && forall j :: m <= j < n ==> !Grants(h[j], kind, row.email) && !Spends(h[j], kind, row.email)
    ensures Redeemable(v[n], kind, token, later)
    ensures v[n].tokens[token] == v[m].tokens[token]
  {
    var row := v[m].tokens[token];
    TokenAccepted(argon, v, h, m, kind, token, now);
    var i: nat :| LatestGrant(h, m, kind, row.email, i) && h[i].issue.token == token;
    TableMatchesBook(argon, v, h, m);
    BookHoldsLatest(h, m, kind, row.email);
    assert LatestGrant(h, n, kind, row.email, i);
    TableMatchesBook(argon, v, h, n);
    BookHoldsLatest(h, n, kind, row.email);
  }

  // ---- What no history undoes

  /** Rows stay, keep their identity and expiry, and stay deleted; users stay, keep their name and stay verified. */
  ghost predicate Extends(s: Store, t: Store) {
    && (forall k :: k in s.tokens ==>
          && k in t.tokens
          && t.tokens[k] == s.tokens[k].(deletedAt := t.tokens[k].deletedAt)
          && (s.tokens[k].deletedAt != 0 ==> t.tokens[k].deletedAt != 0))
    && (forall e :: e in s.users ==>
          && e in t.users
          && t.users[e].name == s.users[e].name && t.users[e].email == s.users[e].email
          && t.users[e].createdAt == s.users[e].createdAt && t.users[e].deletedAt == s.users[e].deletedAt
          && (s.users[e].verifiedAt != 0 ==> t.users[e].verifiedAt != 0))
  }

  lemma StrikeExtends(s: Store, x: Strike)
    requires x.stamp > 0 && (x.issue.Some? ==> x.issue.value.token !in s.tokens)
    ensures Extends(s, s.(tokens := Struck(s.tokens, x)))
  {
  }

  lemma ApplyExtends(argon: Argon2idHash, s: Store, c: Change, t: Store)
    requires Makes(argon, s, c, t)
    ensures Extends(s, t)
  {
    if StrikeOf(c).Some? {
      StrikeExtends(s, StrikeOf(c).value);
    }
    hide Struck, Hashes, Redeemable;
  }

  lemma ExtendsIsTransitive(s: Store, t: Store, u: Store)
    requires Extends(s, t) && Extends(t, u)
    ensures Extends(s, u)
  {
  }

  lemma ExtendsIsReflexive(s: Store)
    ensures Extends(s, s)
  {
  }

  lemma {:induction false} HistoryExtends(argon: Argon2idHash, v: seq<Store>, h: seq<Change>, m: nat, n: nat)
    requires Legal(argon, v, h) && m <= n <= |h|
    ensures Extends(v[m], v[n])
  {
    if m == n {
      ExtendsIsReflexive(v[m]);
    } else {
      HistoryExtends(argon, v, h, m, n - 1);
      MadeAt(argon, v, h, n - 1);
      ApplyExtends(argon, v[n - 1], h[n - 1], v[n]);
      ExtendsIsTransitive(v[m], v[n - 1], v[n]);
    }
  }

  lemma NewRowIsIssued(argon: Argon2idHash, s: Store, c: Change, token: string)
    requires Permitted(argon, s, c) && token !in s.tokens && token in Apply(s, c).tokens
    ensures (c.Registered? || c.Issued?) && c.issue.token == token
    ensures Grants(c, Apply(s, c).tokens[token].kind, Apply(s, c).tokens[token].email)
  {
  }

  /** Every token row was issued by some commit for its own email and type. */
  lemma {:induction false} TokensAreIssued(argon: Argon2idHash, v: seq<Store>, h: seq<Change>, n: nat, token: string)
    requires Legal(argon, v, h) && n <= |h| && token in v[n].tokens
    ensures exists i :: 0 <= i < n && (h[i].Registered? || h[i].Issued?) && h[i].issue.token == token
              && Grants(h[i], v[n].tokens[token].kind, v[n].tokens[token].email)
  {
    var m := n - 1;
    if n > 0 && token in v[m].tokens {
      TokensAreIssued(argon, v, h, m, token);
      HistoryExtends(argon, v, h, m, n);
    } else if n > 0 {
      MadeAt(argon, v, h, m);
      NewRowIsIssued(argon, v[m], h[m], token);
    }
  }

  predicate Consumes(c: Change) { c.Verified? || c.Redeemed? }

  /** No token is consumed by two commits. */
  lemma TokenConsumedOnce(argon: Argon2idHash, v: seq<Store>, h: seq<Change>, i: nat, j: nat)
    requires Legal(argon, v, h) && i < |h| && j < |h|
    requires Consumes(h[i]) && Consumes(h[j]) && h[i].token == h[j].token
    ensures i == j
  {
    if i != j {
      var m, n := if i < j then i else j, if i < j then j else i;
      MadeAt(argon, v, h, m);
      MadeAt(argon, v, h, n);
      assert v[m + 1].tokens[h[m].token].deletedAt != 0;
      HistoryExtends(argon, v, h, m + 1, n);
      assert false;
    }
  }

  // ---- Credentials

  function Remember(p: map<string, Bytes>, c: Change): map<string, Bytes> {
    match c
    case Registered(account, password, _, _) => p[account.email := password]
    case PasswordSet(email, password, _, _, _) => p[email := password]
    case Redeemed(email, _, _, password, _, _, _, _) => p[email := password]
    case _ => p
  }

  /** The password last committed for each email. */
  function PasswordsOf(h: seq<Change>, n: nat): map<string, Bytes>
    requires n <= |h|
  {
    if n == 0 then map[] else Remember(PasswordsOf(h, n - 1), h[n - 1])
  }

  ghost predicate Holds(argon: Argon2idHash, users: map<string, User>, p: map<string, Bytes>) {
    && users.Keys == p.Keys
    && forall e :: e in p ==> Hashes(argon, p[e], users[e].password, users[e].salt)
  }

  lemma ApplyHolds(argon: Argon2idHash, s: Store, p: map<string, Bytes>, c: Change, t: Store)
    requires Makes(argon, s, c, t) && Holds(argon, s.users, p)
    ensures Holds(argon, t.users, Remember(p, c))
  {
  }

  /** Every stored pair is the hash of the last committed password under the salt stored with it. */
  lemma {:induction false} StoredPairsHashLastPassword(argon: Argon2idHash, v: seq<Store>, h: seq<Change>, n: nat)
    requires Legal(argon, v, h) && n <= |h|
    ensures Holds(argon, v[n].users, PasswordsOf(h, n))
  {
    if n == 0 {
    } else {
      StoredPairsHashLastPassword(argon, v, h, n - 1);
      MadeAt(argon, v, h, n - 1);
      ApplyHolds(argon, v[n - 1], PasswordsOf(h, n - 1), h[n - 1], v[n]);
    }
  }

  ghost predicate VerifiedBefore(h: seq<Change>, n: nat, email: string)
    requires n <= |h|
  {
    exists i :: 0 <= i < n && h[i].Verified? && h[i].email == email
  }

  predicate IsVerified(s: Store, email: string) { email in s.users && s.users[email].verifiedAt != 0 }

  lemma ApplyVerifies(argon: Argon2idHash, s: Store, c: Change, t: Store, email: string)
    requires Makes(argon, s, c, t)
    ensures IsVerified(t, email) <==> IsVerified(s, email) || (c.Verified? && c.email == email)
  {
  }

  lemma {:induction false} VerifiedMeansConsumedToken(argon: Argon2idHash, v: seq<Store>, h: seq<Change>, n: nat,
                                                      email: string)
    requires Legal(argon, v, h) && n <= |h|
    ensures IsVerified(v[n], email) <==> VerifiedBefore(h, n, email)
  {
    if n == 0 {
    } else {
      VerifiedMeansConsumedToken(argon, v, h, n - 1, email);
      MadeAt(argon, v, h, n - 1);
      ApplyVerifies(argon, v[n - 1], h[n - 1], v[n], email);
    }
  }

  /** Verification provenance. A user is verified exactly when an earlier commit consumed, in time, the sign-up token
      that was at that moment the latest issued for that same email and not yet consumed. */
  lemma VerificationProvenance(argon: Argon2idHash, v: seq<Store>, h: seq<Change>, n: nat, email: string)
    requires Legal(argon, v, h) && n <= |h|
    ensures IsVerified(v[n], email) <==>
              exists i, j: nat ::
                && 0 <= i < n && h[i].Verified? && h[i].email == email
                && LatestGrant(h, i, SIGNUP, email, j)
                && h[j].issue.token == h[i].token && h[i].now <= h[j].issue.expiresAt
  {
    VerifiedMeansConsumedToken(argon, v, h, n, email);
    if VerifiedBefore(h, n, email) {
      var i: nat :| i < n && h[i].Verified? && h[i].email == email;
      MadeAt(argon, v, h, i);
      TokenAccepted(argon, v, h, i, SIGNUP, h[i].token, h[i].now);
      var j: nat :| LatestGrant(h, i, SIGNUP, email, j) && h[j].issue.token == h[i].token;
      TableMatchesBook(argon, v, h, i);
      BookHoldsLatest(h, i, SIGNUP, email);
      assert h[i].now <= h[j].issue.expiresAt;
    }
  }
}
