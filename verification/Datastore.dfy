/** The users and tokens tables, the statements the service runs on them, and the
    in-place form of those statements.

    Both tables are keyed maps (their primary keys are the email and the token). Rows are
    never removed: a delete stamps deleted_at, and 0 means the row is live. */
module Datastore {
  newtype byte = x: int | 0 <= x < 256
  type Bytes = seq<byte>

  datatype Option<+T> = None | Some(value: T)

  datatype TokenType = SIGNUP | PASSWORD

  datatype User = User(
    email: string, name: string, password: Bytes, salt: Bytes,
    createdAt: int, updatedAt: int, verifiedAt: int, deletedAt: int)

  datatype TokenRow = TokenRow(token: string, kind: TokenType, email: string, expiresAt: int, deletedAt: int)

  datatype Store = Store(users: map<string, User>, tokens: map<string, TokenRow>)

  const EMPTY := Store(map[], map[])

  datatype Statement =
    | SelectUser(email: string)
    | InsertUser(email: string, name: string, password: Bytes, salt: Bytes)
    | MarkVerified(email: string)
    | UpdatePassword(email: string, password: Bytes, salt: Bytes)
    | SelectToken(kind: TokenType, token: string, expiresAt: int)
    | InsertToken(token: string, kind: TokenType, email: string, expiresAt: int)
    | DeleteTokensByEmail(kind: TokenType, email: string)
  {
    /** SELECTs run on a snapshot; every other statement needs the write lock. */
    predicate Writes() { !SelectUser? && !SelectToken? }
  }

  datatype Answer = NoRows | OneUser(user: User) | OneToken(row: TokenRow) | Executed | Conflict

  predicate HasUser(s: Store, email: string) { email in s.users && s.users[email].deletedAt == 0 }

  /** The row both not-expired lookups select, for their own type. */
  predicate Redeemable(s: Store, kind: TokenType, token: string, now: int) {
    && token in s.tokens
    && s.tokens[token].kind == kind
    && now <= s.tokens[token].expiresAt
    && s.tokens[token].deletedAt == 0
  }

  /** A soft delete re-stamps every matching row, also those deleted before. */
  function Tombstone(tokens: map<string, TokenRow>, kind: TokenType, email: string, at: int): map<string, TokenRow> {
    map k | k in tokens ::
      if tokens[k].email == email && tokens[k].kind == kind then tokens[k].(deletedAt := at) else tokens[k]
  }

  function Expire(s: Store, expiresAt: int, at: int): Store {
    s.(tokens := map k | k in s.tokens ::
      if s.tokens[k].expiresAt <= expiresAt then s.tokens[k].(deletedAt := at) else s.tokens[k])
  }

  /** One statement: the store it leaves and its answer; now is SQLite's clock. */
  function Execute(q: Statement, now: int, s: Store): (Store, Answer) {
    match q
    case SelectUser(email) =>
      (s, if HasUser(s, email) then OneUser(s.users[email]) else NoRows)
    case InsertUser(email, name, password, salt) =>
      if email in s.users then (s, Conflict)
      else (s.(users := s.users[email := User(email, name, password, salt, now, now, 0, 0)]), Executed)
    case MarkVerified(email) =>
      if email !in s.users then (s, NoRows)
      else
        var row := s.users[email].(verifiedAt := now, updatedAt := now);
        (s.(users := s.users[email := row]), OneUser(row))
    case UpdatePassword(email, password, salt) =>
      if email !in s.users then (s, NoRows)
      else
        var row := s.users[email].(password := password, salt := salt, updatedAt := now);
        (s.(users := s.users[email := row]), OneUser(row))
    case SelectToken(kind, token, expiresAt) =>
      (s, if Redeemable(s, kind, token, expiresAt) then OneToken(s.tokens[token]) else NoRows)
    case InsertToken(token, kind, email, expiresAt) =>
      if token in s.tokens then (s, Conflict)
      else (s.(tokens := s.tokens[token := TokenRow(token, kind, email, expiresAt, 0)]), Executed)
    case DeleteTokensByEmail(kind, email) =>
      (s.(tokens := Tombstone(s.tokens, kind, email, now)), Executed)
  }

  lemma SelectsChangeNothing(q: Statement, now: int, s: Store)
    requires !q.Writes()
    ensures Execute(q, now, s).0 == s
  {
  }

  /** The queries of one transaction, updating its two tables in place; now is SQLite's clock at the statement. */
  class Queries {
    var users: map<string, User>
    var tokens: map<string, TokenRow>

    ghost function Contents(): Store reads this { Store(users, tokens) }

    constructor (s: Store)
      ensures Contents() == s
    {
      users, tokens := s.users, s.tokens;
    }

    method GetUser(email: string) returns (row: Option<User>)
      ensures row.Some? <==> email in users && users[email].deletedAt == 0
      ensures row.Some? ==> row.value == users[email]
    {
      row := None;
      if email in users && users[email].deletedAt == 0 {
        row := Some(users[email]);
      }
    }

    method CreateUser(email: string, name: string, password: Bytes, salt: Bytes, now: int) returns (ok: bool)
      modifies this`users
      ensures ok <==> email !in old(users)
      ensures users == if ok then old(users)[email := User(email, name, password, salt, now, now, 0, 0)] else old(users)
    {
      ok := email !in users;
      if ok {
        users := users[email := User(email, name, password, salt, now, now, 0, 0)];
      }
    }

    method SetUserIsVerified(email: string, now: int) returns (row: Option<User>)
      modifies this`users
      ensures row.Some? <==> email in old(users)
      ensures row.Some? ==> row.value == old(users)[email].(verifiedAt := now, updatedAt := now)
      ensures users == if row.Some? then old(users)[email := row.value] else old(users)
    {
      row := None;
      if email in users {
        row := Some(users[email].(verifiedAt := now, updatedAt := now));
        users := users[email := row.value];
      }
    }

    method UpdateUserPassword(email: string, password: Bytes, salt: Bytes, now: int) returns (row: Option<User>)
      modifies this`users
      ensures row.Some? <==> email in old(users)
      ensures row.Some? ==> row.value == old(users)[email].(password := password, salt := salt, updatedAt := now)
      ensures users == if row.Some? then old(users)[email := row.value] else old(users)
    {
      row := None;
      if email in users {
        row := Some(users[email].(password := password, salt := salt, updatedAt := now));
        users := users[email := row.value];
      }
    }

    method CreateToken(token: string, kind: TokenType, email: string, expiresAt: int) returns (ok: bool)
      modifies this`tokens
      ensures ok <==> token !in old(tokens)
      ensures tokens == if ok then old(tokens)[token := TokenRow(token, kind, email, expiresAt, 0)] else old(tokens)
    {
      ok := token !in tokens;
      if ok {
        tokens := tokens[token := TokenRow(token, kind, email, expiresAt, 0)];
      }
    }

    method DeleteTokensByEmail(kind: TokenType, email: string, now: int)
      modifies this`tokens
      ensures tokens.Keys == old(tokens).Keys
      ensures forall k :: k in tokens && old(tokens)[k].email == email && old(tokens)[k].kind == kind ==>
                tokens[k] == old(tokens)[k].(deletedAt := now)
      ensures forall k :: k in tokens && !(old(tokens)[k].email == email && old(tokens)[k].kind == kind) ==>
                tokens[k] == old(tokens)[k]
    {
      tokens := map k | k in tokens ::
        if tokens[k].email == email && tokens[k].kind == kind then tokens[k].(deletedAt := now) else tokens[k];
    }

    method DeleteExpiredTokens(expiresAt: int, now: int)
      modifies this`tokens
      ensures Contents() == Expire(old(Contents()), expiresAt, now)
    {
      tokens := map k | k in tokens ::
        if tokens[k].expiresAt <= expiresAt then tokens[k].(deletedAt := now) else tokens[k];
    }

    method GetTokenNotExpired(kind: TokenType, token: string, expiresAt: int) returns (row: Option<TokenRow>)
      ensures row.Some? <==> Redeemable(Contents(), kind, token, expiresAt)
      ensures row.Some? ==> row.value == tokens[token]
    {
      row := None;
      if token in tokens {
        var found := tokens[token];
        if found.kind == kind && expiresAt <= found.expiresAt && found.deletedAt == 0 {
          row := Some(found);
        }
      }
    }

    /** The statement as a whole: what every query does is what Execute says. */
    method Run(q: Statement, now: int) returns (answer: Answer)
      modifies this
      ensures (Contents(), answer) == Execute(q, now, old(Contents()))
    {
      match q
      case SelectUser(email) =>
        var row := GetUser(email);
        answer := if row.Some? then OneUser(row.value) else NoRows;
      case InsertUser(email, name, password, salt) =>
        var ok := CreateUser(email, name, password, salt, now);
        answer := if ok then Executed else Conflict;
      case MarkVerified(email) =>
        var row := SetUserIsVerified(email, now);
        answer := if row.Some? then OneUser(row.value) else NoRows;
      case UpdatePassword(email, password, salt) =>
        var row := UpdateUserPassword(email, password, salt, now);
        answer := if row.Some? then OneUser(row.value) else NoRows;
      case SelectToken(kind, token, expiresAt) =>
        var row := GetTokenNotExpired(kind, token, expiresAt);
        answer := if row.Some? then OneToken(row.value) else NoRows;
      case InsertToken(token, kind, email, expiresAt) =>
        var ok := CreateToken(token, kind, email, expiresAt);
        answer := if ok then Executed else Conflict;
      case DeleteTokensByEmail(kind, email) =>
        DeleteTokensByEmail(kind, email, now);
        assert tokens == Tombstone(old(tokens), kind, email, now);
        answer := Executed;
    }
  }
}
