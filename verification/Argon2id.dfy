/** Password hashing. The key derivation is an uninterpreted function of its inputs;
    everything around it (defaults of the salt, the error order, the comparison) is modelled. */
module Argon2id {
  import opened Datastore

  /** An endless source of random bytes. */
  type Entropy = nat -> byte

  type Kdf = (Bytes, Bytes, nat, nat, nat, nat) -> Bytes

  datatype Error = InvalidPassword | InvalidHash | InvalidSalt | PasswordNotMatch | NoEntropy | Panic

  datatype HashSalt = HashSalt(hash: Bytes, salt: Bytes)

  datatype Result<+T> = Success(value: T) | Failure(error: Error)

  function Secret(length: nat, random: Entropy): (secret: Bytes)
    ensures |secret| == length
    ensures forall i :: 0 <= i < length ==> secret[i] == random(i)
  {
    seq(length, i requires 0 <= i => random(i))
  }

  /** Fills a fresh buffer from the random source. */
  method RandomSecret(length: nat, random: Option<Entropy>) returns (r: Result<Bytes>)
    ensures r == if random.None? then Failure(NoEntropy) else Success(Secret(length, random.value))
  {
    var secret := new byte[length];
    if random.None? {
      return Failure(NoEntropy);
    }
    forall i | 0 <= i < length {
      secret[i] := random.value(i);
    }
    assert secret[..] == Secret(length, random.value);
    return Success(secret[..]);
  }

  datatype Argon2idHash = Argon2idHash(time: nat, memory: nat, threads: nat, keyLen: nat, saltLen: nat, kdf: Kdf) {

    function IDKey(password: Bytes, salt: Bytes): Bytes {
      kdf(password, salt, time, memory, threads, keyLen)
    }

    /** The derivation returns as many bytes as it is asked for (RFC 9106, section 3.1). */
    ghost predicate FillsKey() {
      forall password, salt :: |kdf(password, salt, time, memory, threads, keyLen)| == keyLen
    }

    /** The library panics on zero passes, zero lanes and a key of no bytes. */
    predicate Runs() { time > 0 && threads > 0 && keyLen > 0 }

    /** What GenerateHash returns; random is None when the random source fails. */
    function Generated(password: Bytes, salt: Bytes, random: Option<Entropy>): Result<HashSalt> {
      if password == [] then Failure(InvalidPassword)
      else if salt == [] && random.None? then Failure(NoEntropy)
      else if !Runs() then Failure(Panic)
      else
        var used := if salt == [] then Secret(saltLen, random.value) else salt;
        Success(HashSalt(IDKey(password, used), used))
    }

    /** What Compare returns: None when the password matches. */
    function Compared(hash: Bytes, salt: Bytes, password: Bytes): Option<Error> {
      if hash == [] then Some(InvalidHash)
      else if salt == [] then Some(InvalidSalt)
      else if password == [] then Some(InvalidPassword)
      else if !Runs() then Some(Panic)
      else if IDKey(password, salt) != hash then Some(PasswordNotMatch)
      else None
    }

    method GenerateHash(password: Bytes, salt: Bytes, random: Option<Entropy>) returns (r: Result<HashSalt>)
      ensures r == Generated(password, salt, random)
    {
      if |password| == 0 {
        return Failure(InvalidPassword);
      }
      var used := salt;
      if |used| == 0 {
        var secret := RandomSecret(saltLen, random);
        if secret.Failure? {
          return Failure(secret.error);
        }
        used := secret.value;
      }
      if !Runs() {
        return Failure(Panic);
      }
      var hash := IDKey(password, used);
      return Success(HashSalt(hash, used));
    }

    method Compare(hash: Bytes, salt: Bytes, password: Bytes) returns (r: Option<Error>)
      ensures r == Compared(hash, salt, password)
    {
      if |hash| == 0 {
        return Some(InvalidHash);
      }
      if |salt| == 0 {
        return Some(InvalidSalt);
      }
      if |password| == 0 {
        return Some(InvalidPassword);
      }
      var again := GenerateHash(password, salt, None);
      if again.Failure? {
        return Some(again.error);
      }
      if hash != again.value.hash {
        return Some(PasswordNotMatch);
      }
      return None;
    }
  }

  /** What is stored and compared: the derivation of this very password under this salt and the configured parameters. A
      comparison succeeds exactly when hash, salt and password are not empty, the parameters are positive and the
      password derives the hash. */
  lemma KeysAreDerived(a: Argon2idHash, hash: Bytes, salt: Bytes, password: Bytes, random: Option<Entropy>)
    ensures a.Generated(password, salt, random).Success? <==>
              password != [] && (salt != [] || random.Some?) && a.time > 0 && a.threads > 0 && a.keyLen > 0
    ensures a.Generated(password, salt, random).Success? ==>
              var pair := a.Generated(password, salt, random).value;
              && pair.hash == a.kdf(password, pair.salt, a.time, a.memory, a.threads, a.keyLen)
              && (if salt != [] then pair.salt == salt
                  else |pair.salt| == a.saltLen && forall i :: 0 <= i < a.saltLen ==> pair.salt[i] == random.value(i))
    ensures a.Compared(hash, salt, password).None? <==>
              && hash != [] && salt != [] && password != [] && a.time > 0 && a.threads > 0 && a.keyLen > 0
              && a.kdf(password, salt, a.time, a.memory, a.threads, a.keyLen) == hash
  {
  }

  /** Round trip. A pair generated without a given salt is accepted for its own password exactly
      when the configured salt and key lengths are positive, its salt reproduces it, and it is
      accepted for exactly the passwords that derive the same key. */
  lemma GeneratedPairsCompare(a: Argon2idHash, password: Bytes, random: Option<Entropy>)
    requires a.FillsKey()
    requires a.Generated(password, [], random).Success?
    ensures var pair := a.Generated(password, [], random).value;
            && (a.Compared(pair.hash, pair.salt, password).None? <==> a.saltLen > 0 && a.keyLen > 0)
            && (a.saltLen > 0 ==> forall random' ::
                  a.Generated(password, pair.salt, random') == Success(pair))
            && (forall other :: a.Compared(pair.hash, pair.salt, other).None? <==>
                  a.saltLen > 0 && a.keyLen > 0 && other != [] &&
                  a.kdf(other, pair.salt, a.time, a.memory, a.threads, a.keyLen)
                  == a.kdf(password, pair.salt, a.time, a.memory, a.threads, a.keyLen))
  {
    var pair := a.Generated(password, [], random).value;
    assert |a.IDKey(password, pair.salt)| == a.keyLen;
    assert |pair.salt| == a.saltLen;
  }

  /** Compare accepts a pair exactly when GenerateHash, whatever its random source, makes that very pair again from
      its salt; and every non-empty password has a pair, which Compare accepts unless its salt is empty. */
  lemma AcceptedPairsAreRegenerated(a: Argon2idHash, hash: Bytes, salt: Bytes, password: Bytes, random: Entropy)
    requires a.FillsKey()
    ensures a.Compared(hash, salt, password).None? <==>
              salt != [] && forall r :: a.Generated(password, salt, r) == Success(HashSalt(hash, salt))
    ensures a.Runs() ==> (a.Generated(password, salt, Some(random)).Success? <==> password != [])
    ensures a.Runs() && password != [] ==>
              var pair := a.Generated(password, salt, Some(random)).value;
              a.Compared(pair.hash, pair.salt, password).None? <==> salt != [] || a.saltLen > 0
  {
    var made := a.Generated(password, salt, Some(random));
    assert |a.IDKey(password, salt)| == a.keyLen;
    if made.Success? {
      assert |a.IDKey(password, made.value.salt)| == a.keyLen;
      assert salt == [] ==> |made.value.salt| == a.saltLen;
    }
  }
}
