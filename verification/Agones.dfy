/** The Agones client against a faulty API server: requests are lost before or after they take
    effect, answered with server errors, or answered with garbage, while others create and
    delete objects of the same name in between. */
module Agones {
  import opened Basics

  /** A GameServer under the worker's name. `config` stands for everything `sameGame` compares. */
  datatype Game = Game(uid: Id, config: nat, deleting: bool)

  /** The credential Secret; `content` stands for its data, labels and annotations. */
  datatype Secret = Secret(uid: Id, version: nat, content: nat, owners: seq<Id>)

  datatype Error = Error(status: int, unknown: bool)

  datatype Reply<+T> = Got(value: T) | Err(error: Error)

  /** What may happen to one request. */
  datatype Fault =
    | NotSent                  // the context ended or the token file is unusable
    | LostRequest              // transport error, nothing happened
    | LostAnswer               // transport error, the request took effect
    | Refused(status: int)     // a definite refusal
    | Broken(status: int)      // 5xx or 408 without effect
    | BrokenAfter(status: int) // 5xx or 408 after the effect
    | Garbled                  // 2xx with a body that cannot be read
    | Clear

  /** A definite refusal is neither a conflict nor, for a read or delete, an absence: those are
      the server's own answers. */
  predicate ValidFault(f: Fault, post: bool) {
    match f
    case Refused(status) => 300 <= status < 500 && status != 408 && status != 409 && (status == 404 ==> post)
    case Broken(status) => status >= 500 || status == 408
    case BrokenAfter(status) => status >= 500 || status == 408
    case _ => true
  }

  /** The request reached the server and was carried out. */
  predicate Effective(f: Fault) {
    f.LostAnswer? || f.BrokenAfter? || f.Garbled? || f.Clear?
  }

  /** How `request` classifies a failure; only a POST can leave the outcome open. */
  function Classify(f: Fault, post: bool): Error
    requires !f.Clear?
  {
    match f
    case NotSent => Error(0, false)
    case LostRequest => Error(0, post)
    case LostAnswer => Error(0, post)
    case Refused(status) => Error(status, false)
    case Broken(status) => Error(status, post)
    case BrokenAfter(status) => Error(status, post)
    case Garbled => Error(200, post)
  }

  function Uncertain(e: Error): Error {
    e.(unknown := true)
  }

  predicate SameGame(g: Game, config: nat) {
    g.config == config && !g.deleting
  }

  /** The API server. Ghost fields remember every object ever stored and what this client did. On
      a calm server nobody interferes and every request is answered clearly. */
  class Server {
    const calm: bool
    var game: Option<Game>
    var secret: Option<Secret>
    var drawn: set<Id>
    ghost var games: map<Id, nat>          // the configuration of every GameServer ever stored
    ghost var ownersOf: map<Id, seq<Id>>   // the owners of every Secret ever stored
    ghost var contentOf: map<Id, nat>
    ghost var posted: set<Id>              // GameServers this client's POST created
    ghost var deleted: set<Id>             // GameServers this client deleted
    ghost var dropped: set<Id>             // Secrets this client deleted

    ghost predicate Valid()
      reads this
    {
      && (game.Some? ==> game.value.uid in games && games[game.value.uid] == game.value.config)
      && (secret.Some? ==> secret.value.uid in ownersOf && ownersOf[secret.value.uid] == secret.value.owners
                           && secret.value.uid in contentOf && contentOf[secret.value.uid] == secret.value.content)
      && games.Keys <= drawn && ownersOf.Keys <= drawn && contentOf.Keys == ownersOf.Keys
    }

    /** History only grows, and the owners of a Secret are written once. */
    twostate predicate Later()
      reads this
    {
      && (forall u | u in old(games) :: u in games && games[u] == old(games)[u])
      && (forall u | u in old(ownersOf) :: u in ownersOf && (old(ownersOf)[u] != [] ==> ownersOf[u] == old(ownersOf)[u]))
      && (forall u | u in old(contentOf) :: u in contentOf && contentOf[u] == old(contentOf)[u])
      && (forall u | u in old(games) && (old(game).None? || old(game).value.uid != u || old(game).value.deleting) :: Ended(u))
      && (forall u | u in old(ownersOf) && (old(secret).None? || old(secret).value.uid != u) :: secret.None? || secret.value.uid != u)
    }

    /** A GameServer that is not stored any more, or is being deleted. */
    predicate Ended(uid: Id)
      reads this
    {
      game.None? || game.value.uid != uid || game.value.deleting
    }

    /** This request changed neither object. */
    twostate predicate Untouched()
      reads this
    {
      game == old(game) && secret == old(secret)
    }

    constructor (calm: bool)
      ensures Valid() && game.None? && secret.None? && posted == {} && this.calm == calm
    {
      this.calm := calm;
      game, secret, drawn := None, None, {};
      games, ownersOf, contentOf, posted, deleted, dropped := map[], map[], map[], {}, {}, {};
    }

    method NewId() returns (id: Id)
      requires Valid()
      modifies this`drawn
      ensures Valid() && id !in old(drawn) && drawn == old(drawn) + {id} && id !in games && id !in ownersOf
    {
      FreshExists(drawn);
      id :| id !in drawn;
      drawn := drawn + {id};
    }

    /** Other actors: delete or replace objects, or give an unowned Secret an owner. */
    method Others()
      requires Valid()
      modifies this
      ensures Valid() && Later() && posted == old(posted) && deleted == old(deleted) && dropped == old(dropped)
      ensures calm ==> Untouched()
    {
      if calm {
        return;
      }
      var other: bool := *;
      if other {
        MeddleGame();
      } else {
        MeddleSecret();
      }
    }

    method MeddleGame()
      requires Valid()
      modifies this
      ensures Valid() && Later() && posted == old(posted) && deleted == old(deleted) && dropped == old(dropped)
    {
      var act: nat := *;
      if act == 0 {
        game := None;
      } else if act == 1 && game.Some? {
        game := Some(game.value.(deleting := true));
      } else if act == 2 && game.None? {
        var config: nat := *;
        var ignored := AddGame(config);
      }
    }

    method MeddleSecret()
      requires Valid()
      modifies this
      ensures Valid() && Later() && posted == old(posted) && deleted == old(deleted) && dropped == old(dropped)
    {
      var act: nat := *;
      var value: nat := *;
      if act == 0 {
        secret := None;
      } else if act == 1 && secret.None? {
        var ignored := AddSecret(value);
      } else if act == 2 && secret.Some? && secret.value.owners == [] {
        var s := secret.value;
        secret := Some(s.(owners := [value], version := s.version + 1));
        ownersOf := ownersOf[s.uid := [value]];
      }
    }

    /** A GameServer under a UID that was never used. */
    method AddGame(config: nat) returns (g: Game)
      requires Valid() && game.None?
      modifies this
      ensures Valid() && Later() && game == Some(g) && g == Game(g.uid, config, false) && secret == old(secret)
      ensures posted == old(posted) && deleted == old(deleted) && dropped == old(dropped)
    {
      var id := NewId();
      g := Game(id, config, false);
      game, games := Some(g), games[id := config];
    }

    method AddSecret(content: nat) returns (s: Secret)
      requires Valid() && secret.None?
      modifies this
      ensures Valid() && Later() && secret == Some(s) && s.content == content && s.owners == [] && game == old(game)
      ensures posted == old(posted) && deleted == old(deleted) && dropped == old(dropped)
    {
      var id := NewId();
      s := Secret(id, 0, content, []);
      secret, ownersOf, contentOf := Some(s), ownersOf[id := []], contentOf[id := content];
    }

    /** What happens to the next request. */
    method Fate(post: bool) returns (f: Fault)
      ensures ValidFault(f, post) && (calm ==> f.Clear?)
    {
      f := *;
      if calm {
        f := Clear;
      } else if !ValidFault(f, post) {
        f := LostRequest;
      }
    }

    /** POST of the GameServer. A definite error means that it created nothing. */
    method PostGame(config: nat) returns (r: Reply<Game>)
      requires Valid()
      modifies this
      ensures Valid() && Later() && deleted == old(deleted) && dropped == old(dropped)
      ensures r.Got? ==> game == Some(r.value) && r.value.uid in games && games[r.value.uid] == r.value.config
      ensures r.Err? && !r.error.unknown ==> posted == old(posted)
      ensures calm && old(game).None? ==> r.Got? && r.value == Game(r.value.uid, config, false) && posted == old(posted) + {r.value.uid} && secret == old(secret)
      ensures calm && old(game).Some? ==> r == Err(Error(409, false)) && Untouched() && posted == old(posted)
    {
      Others();
      var f := Fate(true);
      if Effective(f) && game.None? {
        var g := AddGame(config);
        posted := posted + {g.uid};
        r := if f.Clear? then Got(g) else Err(Classify(f, true));
      } else if f.Clear? {
        r := Err(Error(409, false));
      } else {
        r := Err(Classify(f, true));
      }
    }

    method GetGame() returns (r: Reply<Game>)
      requires Valid()
      modifies this
      ensures Valid() && Later() && posted == old(posted) && deleted == old(deleted) && dropped == old(dropped)
      ensures r.Got? ==> game == Some(r.value) && r.value.uid in games && games[r.value.uid] == r.value.config
      ensures r.Err? ==> !r.error.unknown && (r.error.status == 404 ==> game.None?)
      ensures calm ==> Untouched() && r == if game.Some? then Got(game.value) else Err(Error(404, false))
    {
      Others();
      var f := Fate(false);
      if !f.Clear? {
        r := Err(Classify(f, false));
      } else if game.None? {
        r := Err(Error(404, false));
      } else {
        r := Got(game.value);
      }
    }

    method PostSecret(content: nat) returns (r: Reply<Secret>)
      requires Valid()
      modifies this
      ensures Valid() && Later() && posted == old(posted) && deleted == old(deleted) && dropped == old(dropped)
      ensures r.Got? ==> Known(r.value)
      ensures calm && old(secret).None? ==> r.Got? && r.value.content == content && r.value.owners == [] && secret == Some(r.value) && game == old(game)
      ensures calm && old(secret).Some? ==> r == Err(Error(409, false)) && Untouched()
    {
      Others();
      var f := Fate(true);
      if Effective(f) && secret.None? {
        var s := AddSecret(content);
        r := if f.Clear? then Got(s) else Err(Classify(f, true));
      } else if f.Clear? {
        r := Err(Error(409, false));
      } else {
        r := Err(Classify(f, true));
      }
    }

    /** A Secret that was stored with these owners at some time; owners are written once. */
    ghost predicate Known(s: Secret)
      reads this
    {
      && s.uid in ownersOf && s.uid in contentOf && contentOf[s.uid] == s.content
      && (s.owners != [] ==> ownersOf[s.uid] == s.owners)
    }

    method GetSecret() returns (r: Reply<Secret>)
      requires Valid()
      modifies this
      ensures Valid() && Later() && posted == old(posted) && deleted == old(deleted) && dropped == old(dropped)
      ensures r.Got? ==> Known(r.value) && secret == Some(r.value)
      ensures r.Err? ==> !r.error.unknown && (r.error.status == 404 ==> secret.None?)
      ensures calm ==> Untouched() && r == if secret.Some? then Got(secret.value) else Err(Error(404, false))
    {
      Others();
      var f := Fate(false);
      if !f.Clear? {
        r := Err(Classify(f, false));
      } else if secret.None? {
        r := Err(Error(404, false));
      } else {
        r := Got(secret.value);
      }
    }

    /** PUT of the Secret with its resourceVersion. */
    method PutOwner(s: Secret, owner: Id) returns (r: Reply<Secret>)
      requires Valid() && Known(s) && s.owners == []
      modifies this
      ensures Valid() && Later() && posted == old(posted) && deleted == old(deleted) && dropped == old(dropped)
      ensures r.Got? ==> Known(r.value) && secret == Some(r.value)
      ensures calm ==> game == old(game)
      ensures calm && old(secret) == Some(s) ==> r.Got? && r.value.uid == s.uid && r.value.owners == [owner]
    {
      Others();
      var f := Fate(false);
      var matches := secret.Some? && secret.value.uid == s.uid && secret.value.version == s.version && secret.value.owners == [];
      if Effective(f) && matches {
        secret := Some(s.(owners := [owner], version := s.version + 1));
        ownersOf := ownersOf[s.uid := [owner]];
        r := if f.Clear? then Got(secret.value) else Err(Classify(f, false));
      } else if f.Clear? {
        r := Err(Error(if secret.None? then 404 else 409, false));
      } else {
        r := Err(Classify(f, false));
      }
    }

    method DeleteGame(uid: Id) returns (r: Reply<()>)
      requires Valid()
      modifies this
      ensures Valid() && Later() && posted == old(posted) && dropped == old(dropped)
      ensures old(deleted) <= deleted <= old(deleted) + {uid}
      ensures r.Err? && r.error.status == 404 ==> game.None?
      ensures r.Got? ==> Ended(uid)
      ensures calm && old(game).Some? && old(game).value.uid == uid ==> r.Got? && uid in deleted && secret == old(secret)
    {
      Others();
      var f := Fate(false);
      if Effective(f) && game.Some? && game.value.uid == uid {
        var lingers: bool := *;
        game, deleted := if lingers then Some(game.value.(deleting := true)) else None, deleted + {uid};
        r := if f.Clear? then Got(()) else Err(Classify(f, false));
      } else if f.Clear? {
        r := Err(Error(if game.None? then 404 else 409, false));
      } else {
        r := Err(Classify(f, false));
      }
    }

    method DeleteSecret(uid: Id) returns (r: Reply<()>)
      requires Valid()
      modifies this
      ensures Valid() && Later() && posted == old(posted) && deleted == old(deleted)
      ensures old(dropped) <= dropped <= old(dropped) + {uid}
      ensures r.Got? ==> secret.None? || secret.value.uid != uid
      ensures calm && old(secret).Some? && old(secret).value.uid == uid ==> r.Got? && secret.None? && game == old(game)
    {
      Others();
      var f := Fate(false);
      if Effective(f) && secret.Some? && secret.value.uid == uid {
        secret, dropped := None, dropped + {uid};
        r := if f.Clear? then Got(()) else Err(Classify(f, false));
      } else if f.Clear? {
        r := if secret.None? then Got(()) else Err(Error(409, false));
      } else {
        r := Err(Classify(f, false));
      }
    }
  }

  // ---- Client.Start ---------------------------------------------------------------------------

  datatype Desired = Desired(config: nat, content: nat)

  /** The Secret of this start, created or found. */
  method EnsureSecret(api: Server, want: Desired) returns (r: Reply<Secret>)
    requires api.Valid()
    modifies api
    ensures api.Valid() && api.Later() && api.posted == old(api.posted)
    ensures r.Got? ==> api.Known(r.value) && r.value.content == want.content
    ensures api.calm ==> api.game == old(api.game)
    ensures api.calm && old(api.secret).None? ==> r.Got? && r.value.owners == [] && api.secret == Some(r.value)
    ensures api.calm && old(api.secret).Some? ==>
              api.secret == old(api.secret) && r == if api.secret.value.content == want.content then Got(api.secret.value) else Err(Error(409, false))
  {
    r := api.PostSecret(want.content);
    if r.Err? && (r.error.status == 409 || r.error.unknown) {
      var original := r.error;
      r := api.GetSecret();
      if r.Err? && original.unknown {
        return Err(Uncertain(original));
      }
    }
    if r.Err? {
      return;
    }
    if r.value.content != want.content {
      return Err(Error(409, false));
    }
  }

  /** An owned Secret must belong to a matching GameServer that exists. */
  method CheckOwner(api: Server, want: Desired, s: Secret) returns (r: Reply<()>)
    requires api.Valid() && api.Known(s)
    modifies api
    ensures api.Valid() && api.Later() && api.posted == old(api.posted) && api.Known(s)
    ensures r.Got? && s.owners != [] ==> |s.owners| == 1 && s.owners[0] in api.games && api.games[s.owners[0]] == want.config
    ensures api.calm ==> api.game == old(api.game) && api.secret == old(api.secret)
    ensures api.calm && (s.owners == [] || (api.game.Some? && s.owners == [api.game.value.uid] && SameGame(api.game.value, want.config))) ==> r.Got?
    ensures api.calm && api.game.Some? && r.Err? ==> r.error == Error(409, false)
  {
    if s.owners == [] {
      return Got(());
    }
    if |s.owners| != 1 {
      return Err(Error(409, false));
    }
    var owner := api.GetGame();
    if owner.Err? {
      return Err(if owner.error.status == 404 then Error(409, false) else owner.error);
    }
    if owner.value.uid != s.owners[0] || !SameGame(owner.value, want.config) {
      return Err(Error(409, false));
    }
    r := Got(());
  }

  /** Give the Secret its one owner, or find it there. */
  method EnsureSecretOwner(api: Server, g: Game, s: Secret) returns (r: Reply<()>)
    requires api.Valid() && api.Known(s)
    modifies api
    ensures api.Valid() && api.Later() && api.posted == old(api.posted)
    ensures r.Got? ==> s.uid in api.ownersOf && api.ownersOf[s.uid] == [g.uid]
    ensures api.calm ==> api.game == old(api.game)
    ensures api.calm && old(api.secret) == Some(s) && (s.owners == [] || s.owners == [g.uid]) ==> r.Got? && api.secret.Some? && api.secret.value.owners == [g.uid]
  {
    if s.owners != [] {
      return if s.owners == [g.uid] then Got(()) else Err(Error(409, false));
    }
    var updated := api.PutOwner(s, g.uid);
    if updated.Err? {
      return Err(updated.error);
    }
    if updated.value.uid != s.uid || updated.value.owners != [g.uid] {
      return Err(Error(0, false));
    }
    r := Got(());
  }

  /** POST, and on a conflict or an open outcome look at what is there. */
  method CreateGame(api: Server, want: Desired, s: Secret) returns (r: Reply<Game>)
    requires api.Valid() && api.Known(s)
    modifies api
    ensures api.Valid() && api.Later() && api.Known(s)
    ensures r.Err? && !r.error.unknown ==> api.posted == old(api.posted)
    ensures r.Got? ==> r.value.uid in api.games && api.games[r.value.uid] == r.value.config
    ensures api.calm ==> api.secret == old(api.secret) && r.Got? && api.game == Some(r.value)
    ensures api.calm && old(api.game).None? ==> r.value == Game(r.value.uid, want.config, false) && api.posted == old(api.posted) + {r.value.uid}
    ensures api.calm && old(api.game).Some? ==> api.game == old(api.game) && api.posted == old(api.posted)
  {
    r := PostOrFind(api, want);
    if r.Err? && !r.error.unknown && (r.error.status == 400 || r.error.status == 403 || r.error.status == 422) {
      DropUnused(api, s);
    }
  }

  method PostOrFind(api: Server, want: Desired) returns (r: Reply<Game>)
    requires api.Valid()
    modifies api
    ensures api.Valid() && api.Later()
    ensures r.Err? && !r.error.unknown ==> api.posted == old(api.posted)
    ensures r.Got? ==> r.value.uid in api.games && api.games[r.value.uid] == r.value.config
    ensures api.calm ==> api.secret == old(api.secret) && r.Got? && api.game == Some(r.value)
    ensures api.calm && old(api.game).None? ==> r.value == Game(r.value.uid, want.config, false) && api.posted == old(api.posted) + {r.value.uid}
    ensures api.calm && old(api.game).Some? ==> api.game == old(api.game) && api.posted == old(api.posted)
  {
    r := api.PostGame(want.config);
    if r.Err? && (r.error.status == 409 || r.error.unknown) {
      var original := r.error;
      r := api.GetGame();
      if r.Err? && original.unknown {
        r := Err(Uncertain(original));
      }
    }
  }

  /** After a definite refusal: the credentials of a GameServer that does not exist. */
  method DropUnused(api: Server, s: Secret)
    requires api.Valid() && api.Known(s)
    modifies api
    ensures api.Valid() && api.Later() && api.Known(s) && api.posted == old(api.posted)
  {
    var check := api.GetGame();
    if check.Err? && check.error.status == 404 {
      var ignored := api.DeleteSecret(s.uid);
    }
  }

  /** Outcomes are sound under any pattern of lost answers: a definite error other than 409 means
      that this call created no GameServer; success means that the GameServer of the returned UID
      was stored with the desired configuration and that the Secret with the desired content has
      exactly this one owner. */
  method Start(api: Server, want: Desired) returns (r: Reply<Id>, ghost secret: Id)
    requires api.Valid()
    modifies api
    ensures api.Valid() && api.Later()
    ensures r.Err? && !r.error.unknown && r.error.status != 409 ==> api.posted == old(api.posted)
    ensures r.Got? ==> r.value in api.games && api.games[r.value] == want.config
    ensures r.Got? ==> secret in api.ownersOf && api.ownersOf[secret] == [r.value] && api.contentOf[secret] == want.content
    ensures r.Got? && api.game.Some? && api.game.value.uid == r.value ==> api.game.value.config == want.config
    ensures r.Got? && api.secret.Some? && api.secret.value.uid == secret ==> api.secret.value.owners == [r.value]
    ensures api.calm && old(api.game).None? && old(api.secret).None? ==>
              && r.Got? && api.game == Some(Game(r.value, want.config, false)) && api.posted == old(api.posted) + {r.value}
              && api.secret.Some? && api.secret.value.owners == [r.value]
    ensures api.calm && old(api.game).Some? && SameGame(old(api.game).value, want.config) && old(api.secret).Some? && old(api.secret).value.content == want.content &&
            (old(api.secret).value.owners == [] || old(api.secret).value.owners == [old(api.game).value.uid]) ==>
              r == Got(old(api.game).value.uid) && api.posted == old(api.posted) && api.game == old(api.game)
    ensures api.calm && old(api.game).Some? && !SameGame(old(api.game).value, want.config) ==> r.Err? && r.error.status == 409 && api.game == old(api.game)
  {
    secret := 0;
    var s := PrepareSecret(api, want);
    if s.Err? {
      return Err(s.error), secret;
    }
    secret := s.value.uid;
    r := Launch(api, want, s.value);
  }

  /** The Secret, and no conflict about its owner. */
  method PrepareSecret(api: Server, want: Desired) returns (r: Reply<Secret>)
    requires api.Valid()
    modifies api
    ensures api.Valid() && api.Later() && api.posted == old(api.posted)
    ensures r.Got? ==> api.Known(r.value) && r.value.content == want.content
    ensures api.calm ==> api.game == old(api.game)
    ensures api.calm && old(api.secret).None? ==> r.Got? && r.value.owners == [] && api.secret == Some(r.value)
    ensures api.calm && old(api.secret).Some? && old(api.secret).value.content == want.content &&
            (old(api.secret).value.owners == [] || (api.game.Some? && SameGame(api.game.value, want.config) && old(api.secret).value.owners == [api.game.value.uid])) ==>
              r == Got(old(api.secret).value) && api.secret == old(api.secret)
    ensures api.calm && api.game.Some? && r.Err? ==> r.error == Error(409, false)
  {
    r := EnsureSecret(api, want);
    if r.Err? {
      return;
    }
    var checked := CheckOwner(api, want, r.value);
    if checked.Err? {
      r := Err(checked.error);
    }
  }

  /** The GameServer, found or created, and its ownership of the Secret. */
  method Launch(api: Server, want: Desired, s: Secret) returns (r: Reply<Id>)
    requires api.Valid() && api.Known(s)
    modifies api
    ensures api.Valid() && api.Later() && api.Known(s)
    ensures r.Err? && !r.error.unknown && r.error.status != 409 ==> api.posted == old(api.posted)
    ensures r.Got? ==> r.value in api.games && api.games[r.value] == want.config && api.ownersOf[s.uid] == [r.value]
    ensures api.calm && old(api.game).None? && old(api.secret) == Some(s) && s.owners == [] ==>
              && r.Got? && api.game == Some(Game(r.value, want.config, false)) && api.posted == old(api.posted) + {r.value}
              && api.secret.Some? && api.secret.value.owners == [r.value]
    ensures api.calm && old(api.game).Some? ==> api.game == old(api.game) && api.posted == old(api.posted)
    ensures api.calm && old(api.game).Some? && SameGame(old(api.game).value, want.config) && old(api.secret) == Some(s) && (s.owners == [] || s.owners == [old(api.game).value.uid]) ==>
              r == Got(old(api.game).value.uid)
    ensures api.calm && old(api.game).Some? && !SameGame(old(api.game).value, want.config) ==> r == Err(Error(409, false))
  {
    var g := CreateGame(api, want, s);
    if g.Err? {
      return Err(g.error);
    }
    if !SameGame(g.value, want.config) {
      return Err(Error(409, false));
    }
    var owner := EnsureSecretOwner(api, g.value, s);
    if owner.Err? {
      return Err(Uncertain(owner.error));
    }
    r := Got(g.value.uid);
  }

  // ---- Client.Stop ----------------------------------------------------------------------------

  /** Removes the Secret of a GameServer that is gone, and no other. */
  method CleanupAbsentSecret(api: Server, uid: Id) returns (r: Reply<()>)
    requires api.Valid()
    modifies api
    ensures api.Valid() && api.Later() && api.posted == old(api.posted) && api.deleted == old(api.deleted)
    ensures forall s | s in api.dropped && s !in old(api.dropped) :: s in api.ownersOf && api.ownersOf[s] == [uid]
    ensures r.Got? ==> forall s | s in old(api.ownersOf) && old(api.ownersOf)[s] == [uid] :: api.secret.None? || api.secret.value.uid != s
    ensures api.calm && (old(api.secret).None? || old(api.secret).value.owners == [uid]) ==> r.Got? && api.secret.None?
  {
    var s := api.GetSecret();
    if s.Err? {
      return if s.error.status == 404 then Got(()) else Err(s.error);
    }
    if s.value.owners != [uid] {
      return Err(Error(409, false));
    }
    r := api.DeleteSecret(s.value.uid);
  }

  /** Deletes the GameServer with this UID and nothing else; a Secret only if it is its own. Success
      means that the GameServer is gone or going, for good. */
  method Stop(api: Server, uid: Id) returns (r: Reply<()>)
    requires api.Valid()
    modifies api
    ensures api.Valid() && api.Later() && api.posted == old(api.posted)
    ensures old(api.deleted) <= api.deleted <= old(api.deleted) + {uid}
    ensures forall s | s in api.dropped && s !in old(api.dropped) :: s in api.ownersOf && api.ownersOf[s] == [uid]
    ensures r.Got? && uid in old(api.games) ==> api.Ended(uid)
    ensures api.calm && old(api.game).Some? && old(api.game).value.uid == uid ==> r.Got? && uid in api.deleted
    ensures api.calm && old(api.game).None? && (old(api.secret).None? || old(api.secret).value.owners == [uid]) ==> r.Got? && api.secret.None?
  {
    var g := api.GetGame();
    if g.Err? && g.error.status == 404 {
      r := CleanupAbsentSecret(api, uid);
      return;
    }
    if g.Err? {
      return Err(g.error);
    }
    if g.value.uid != uid {
      return Err(Error(409, false));
    }
    r := api.DeleteGame(uid);
    if r.Err? && r.error.status == 404 {
      r := CleanupAbsentSecret(api, uid);
    }
  }
}
