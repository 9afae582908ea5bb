/** The credential directory of the token sync: a token file and a metadata file replaced by
    renames, metadata first, with the token rename as the commit point and a rollback when it
    fails. Every intermediate directory state is a possible crash point. */
module TokenPair {
  import opened Basics

  /** A token is known by its bytes, here a number; `sha` and `claims` read them. */
  type Token = nat

  datatype Identity = Identity(api: string, space: string, account: string)

  datatype Grant = Grant(space: string, account: string, expires: Time)

  /** The metadata file: unreadable text, an object of another shape, or the fields it holds. */
  datatype Metadata =
    | Garbage(text: nat)
    | Foreign(text: nat)
    | Fields(id: Identity, expires: Time, installed: Time, digest: nat)

  datatype Pair = Pair(token: Option<Token>, metadata: Option<Metadata>)

  datatype Bundle = Bundle(token: Token, id: Identity, expires: Time)

  /** The hash and the claims inside a token. */
  datatype Reader = Reader(sha: Token -> nat, claims: Token -> Option<Grant>)

  datatype State = Missing | Incomplete | Mismatch | Invalid | Valid | Expired

  /** The metadata describes the token: its hash, and the identity and expiry the token carries. */
  predicate Describes(r: Reader, m: Metadata, t: Token) {
    m.Fields? && m.digest == r.sha(t) && r.claims(t) == Some(Grant(m.id.space, m.id.account, m.expires))
  }

  /** `inspect_pair`. */
  function Inspect(r: Reader, p: Pair, now: Time): State {
    if p.token.None? && p.metadata.None? then Missing
    else if p.token.None? || p.metadata.None? then Incomplete
    else
      var t, m := p.token.value, p.metadata.value;
      if m.Garbage? then Invalid
      else if m.Foreign? || m.digest != r.sha(t) then Mismatch
      else if r.claims(t) != Some(Grant(m.id.space, m.id.account, m.expires)) then Invalid
      else if m.expires - now > 0 then Valid else Expired
  }

  function NewMetadata(r: Reader, b: Bundle, now: Time): Metadata {
    Fields(b.id, b.expires, now, r.sha(b.token))
  }

  function NewPair(r: Reader, b: Bundle, now: Time): Pair {
    Pair(Some(b.token), Some(NewMetadata(r, b, now)))
  }

  /** A bundle of the same identity must not expire before a valid pair does. */
  predicate Regresses(r: Reader, p: Pair, b: Bundle, now: Time) {
    Inspect(r, p, now).Valid? && p.metadata.value.id == b.id && p.metadata.value.expires > b.expires
  }

  /** Where a crash may leave the directory: each file is as it was or as it is to be. */
  predicate CrashPoint(r: Reader, old0: Pair, b: Bundle, now: Time, p: Pair) {
    && (p.token == old0.token || p.token == Some(b.token))
    && (p.metadata == old0.metadata || p.metadata == Some(NewMetadata(r, b, now)))
  }

  datatype Outcome =
    | Installed | Regressed | StageFailed | MetadataFailed | TokenReplaceFailed | RecoveryFailed | DurabilityUnknown

  class CredentialStore {
    var files: Pair
    ghost var crashes: seq<Pair>   // every directory state so far, in order

    constructor (p: Pair)
      ensures files == p && crashes == [p]
    {
      files, crashes := p, [p];
    }

    ghost predicate Logged()
      reads this
    {
      crashes != [] && crashes[|crashes| - 1] == files
    }

    /** One rename or removal of the metadata file: atomic, or refused by the system. */
    method PutMetadata(m: Option<Metadata>, ok: bool)
      requires Logged()
      modifies this
      ensures Logged() && files == (if ok then old(files).(metadata := m) else old(files))
      ensures crashes == (if ok then old(crashes) + [files] else old(crashes))
    {
      if ok {
        files := files.(metadata := m);
        crashes := crashes + [files];
      }
    }

    method PutToken(t: Token, ok: bool)
      requires Logged()
      modifies this
      ensures Logged() && files == (if ok then old(files).(token := Some(t)) else old(files))
      ensures crashes == (if ok then old(crashes) + [files] else old(crashes))
    {
      if ok {
        files := files.(token := Some(t));
        crashes := crashes + [files];
      }
    }

    /** `install`, when the system lets the operations succeed that `luck` names. Every state it
        passes through is a crash point between the old pair and the new one; metadata is replaced
        before the token; a failed token rename with a successful recovery restores the old pair. */
    method Install(r: Reader, b: Bundle, now: Time, luck: Luck) returns (out: Outcome)
      requires Logged() && crashes == [files]
      modifies this
      ensures Logged()
      ensures forall i | 0 <= i < |crashes| :: CrashPoint(r, old(files), b, now, crashes[i])
      ensures out.Regressed? <==> Worse(r, old(files), b, now)
      ensures !out.Regressed? ==> out == Expected(luck)
      ensures out.Installed? || out.DurabilityUnknown? ==> files == NewPair(r, b, now) && crashes == [old(files), old(files).(metadata := files.metadata), files]
      ensures out.TokenReplaceFailed? || out.MetadataFailed? || out.StageFailed? || out.Regressed? ==> files == old(files)
      ensures out.RecoveryFailed? ==> files == if luck.restored then old(files) else old(files).(metadata := Some(NewMetadata(r, b, now)))
    {
      var before := files;
      RegressesIsWorse(r, before, b, now);
      if Regresses(r, before, b, now) {
        return Regressed;
      }
      if !luck.staged {
        return StageFailed;
      }
      PutMetadata(Some(NewMetadata(r, b, now)), luck.metadata);
      if !luck.metadata {
        return MetadataFailed;
      }
      PutToken(b.token, luck.token);
      if !luck.token {
        PutMetadata(before.metadata, luck.restored);
        if !luck.restored {
          return RecoveryFailed;
        }
        return if luck.synced then TokenReplaceFailed else RecoveryFailed;
      }
      return if luck.synced then Installed else DurabilityUnknown;
    }
  }

  /** Which operations the system lets succeed. */
  datatype Luck = Luck(staged: bool, metadata: bool, token: bool, restored: bool, synced: bool)

  function Expected(l: Luck): Outcome {
    if !l.staged then StageFailed
    else if !l.metadata then MetadataFailed
    else if l.token && l.synced then Installed
    else if l.token then DurabilityUnknown
    else if l.restored && l.synced then TokenReplaceFailed
    else RecoveryFailed
  }

  /** The installed pair is sound and unexpired, for the same identity, and outlives the bundle. */
  predicate Worse(r: Reader, p: Pair, b: Bundle, now: Time) {
    && p.token.Some? && p.metadata.Some? && p.metadata.value.Fields?
    && p.metadata.value.digest == r.sha(p.token.value)
    && r.claims(p.token.value) == Some(Grant(p.metadata.value.id.space, p.metadata.value.id.account, p.metadata.value.expires))
    && now < p.metadata.value.expires && p.metadata.value.id == b.id && b.expires < p.metadata.value.expires
  }

  lemma RegressesIsWorse(r: Reader, p: Pair, b: Bundle, now: Time)
    ensures Regresses(r, p, b, now) <==> Worse(r, p, b, now)
  {
  }

  // ---- What every crash point guarantees ---------------------------------------------------------

  /** The pair is called valid only when the metadata describes the token. */
  lemma ValidMeansDescribed(r: Reader, p: Pair, now: Time)
    ensures Inspect(r, p, now).Valid? <==>
            p.token.Some? && p.metadata.Some? && Describes(r, p.metadata.value, p.token.value) && p.metadata.value.expires > now
    ensures Inspect(r, p, now).Valid? ==>
              && p.metadata.value.digest == r.sha(p.token.value)
              && r.claims(p.token.value) == Some(Grant(p.metadata.value.id.space, p.metadata.value.id.account, p.metadata.value.expires))
    ensures Inspect(r, p, now) == Missing <==> p == Pair(None, None)
    ensures Inspect(r, p, now) == Incomplete <==> (p.token == None) != (p.metadata == None)
  {
  }

  /** Renames that reach the disk in any order still leave a crash point. */
  lemma ReorderedRenames(r: Reader, old0: Pair, b: Bundle, now: Time, p: Pair, q: Pair)
    requires CrashPoint(r, old0, b, now, p) && CrashPoint(r, old0, b, now, q)
    ensures CrashPoint(r, old0, b, now, Pair(p.token, q.metadata))
  {
  }

  /** What a successful install leaves is called valid until it expires, when the token carries what
      the bundle says. */
  lemma InstalledIsValid(r: Reader, b: Bundle, now: Time, at: Time)
    requires r.claims(b.token) == Some(Grant(b.id.space, b.id.account, b.expires))
    ensures Inspect(r, NewPair(r, b, now), at) == if at < b.expires then Valid else Expired
  {
  }

  /** No mixture of two different tokens' files is ever valid: what is called valid at a crash
      point is the old pair or the new one, unless the old files already named the new token. */
  lemma NoMixtureIsValid(r: Reader, old0: Pair, b: Bundle, now: Time, p: Pair, at: Time)
    requires CrashPoint(r, old0, b, now, p) && Inspect(r, p, at).Valid?
    requires forall x, y :: r.sha(x) == r.sha(y) ==> x == y
    ensures p == old0 || p == NewPair(r, b, now) || Names(r, old0, b)
  {
    ValidMeansDescribed(r, p, at);
  }

  /** The old token is the new one, or the old metadata carries its hash. */
  predicate Names(r: Reader, p: Pair, b: Bundle) {
    p.token == Some(b.token) || (p.metadata.Some? && p.metadata.value.Fields? && p.metadata.value.digest == r.sha(b.token))
  }

  /** From a valid pair of the same identity the expiry never goes back, wherever a crash falls. */
  lemma ExpiryNeverGoesBack(r: Reader, old0: Pair, b: Bundle, now: Time, p: Pair, at: Time)
    requires CrashPoint(r, old0, b, now, p) && !Regresses(r, old0, b, now)
    requires Inspect(r, old0, now).Valid? && old0.metadata.value.id == b.id && Inspect(r, p, at).Valid?
    ensures p.metadata.value.id == b.id && p.metadata.value.expires >= old0.metadata.value.expires
  {
    ValidMeansDescribed(r, p, at);
    ValidMeansDescribed(r, old0, now);
  }
}
