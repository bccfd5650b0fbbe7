/** The provisioner's operations over an abstract ntfy installation (provisioner/main.go, execute): users,
    read-only access and labelled tokens, changed command by command. */
module Provisioner {
  import opened Wrappers

  // ---------------------------------------------------------------------------
  // ntfy and its commands

  datatype Labelled = Labelled(tag: string, token: string)

  datatype User = User(password: string, readable: set<string>, tokens: seq<Labelled>)

  type Store = map<string, User>

  datatype Command =
    | UserList
    | UserAdd(name: string, password: string)
    | UserRemove(name: string)
    | Access(name: string, topic: string)
    | TokenList(name: string)
    | TokenAdd(name: string, tag: string)
    | TokenRemove(name: string, token: string)

  datatype Output = Names(names: set<string>) | Tokens(tokens: seq<Labelled>) | Minted(token: string) | Plain

  datatype Error = CommandFailed | NoTokenInOutput

  /** What happens to one command: it works, it fails without effect, it takes effect but reports failure, or
      it takes effect and prints no token. `token` is what a token command would make. */
  datatype Fate = Works(token: string) | Refused | Broken(token: string) | Mute(token: string)

  /** The installation, and the fates of the commands to come. Where the script ends the provisioner has
      stopped: no later command has any effect, not even the deferred one. */
  datatype Host = Host(store: Store, script: seq<Fate>)

  /** ntfy refuses to add a user twice and to touch a user who does not exist. */
  predicate Allowed(store: Store, cmd: Command) {
    match cmd
    case UserList => true
    case UserAdd(name, _) => name !in store
    case _ => cmd.name in store
  }

  function Effect(store: Store, cmd: Command, minted: string): Store
    requires Allowed(store, cmd)
  {
    match cmd
    case UserList => store
    case UserAdd(name, password) => store[name := User(password, {}, [])]
    case UserRemove(name) => store - {name}
    case Access(name, topic) => store[name := store[name].(readable := store[name].readable + {topic})]
    case TokenList(_) => store
    case TokenAdd(name, tag) => store[name := store[name].(tokens := store[name].tokens + [Labelled(tag, minted)])]
    case TokenRemove(name, token) => store[name := store[name].(tokens := Without(store[name].tokens, token))]
  }

  function Without(tokens: seq<Labelled>, token: string): seq<Labelled> {
    if tokens == [] then []
    else (if tokens[0].token == token then [] else [tokens[0]]) + Without(tokens[1..], token)
  }

  function Printed(store: Store, cmd: Command, fate: Fate): Output
    requires Allowed(store, cmd)
  {
    match cmd
    case UserList => Names(store.Keys)
    case TokenList(name) => Tokens(store[name].tokens)
    case TokenAdd(_, _) => if fate.Works? then Minted(fate.token) else Plain
    case _ => Plain
  }

  function Perform(h: Host, cmd: Command): (Host, Result<Output, Error>) {
    if h.script == [] then (h, Err(CommandFailed))
    else
      var fate, rest := h.script[0], h.script[1..];
      if fate.Refused? || !Allowed(h.store, cmd) then (Host(h.store, rest), Err(CommandFailed))
      else
        (Host(Effect(h.store, cmd, fate.token), rest),
         if fate.Broken? then Err(CommandFailed) else Ok(Printed(h.store, cmd, fate)))
  }

  // ---------------------------------------------------------------------------
  // Requests

  datatype Operation = Provision | AddDevice | RevokeDevice | DisableAccount

  datatype Request = Request(op: Operation, username: string, topic: string, password: string, token: string, id: Option<string>)

  /** validateRequest asks for eight characters at least. */
  predicate ValidId(r: Request) {
    r.id.Some? ==> 8 <= |r.id.value|
  }

  const PREFIX: string := "omnideck-"
  const DEVICE: string := "device"

  function LabelOf(id: Option<string>): string {
    PREFIX + (match id case Some(x) => x case None => DEVICE)
  }

  lemma LabelsDiffer(a: string, b: string)
    ensures LabelOf(Some(a)) == LabelOf(Some(b)) <==> a == b
    ensures 8 <= |a| ==> LabelOf(Some(a)) != LabelOf(None)
  {
    assert LabelOf(Some(a))[|PREFIX|..] == a && LabelOf(Some(b))[|PREFIX|..] == b && LabelOf(None)[|PREFIX|..] == DEVICE;
  }

  function FindLabel(tokens: seq<Labelled>, tag: string): (r: Option<string>)
    ensures r.Some? ==> Labelled(tag, r.value) in tokens
    ensures r.None? ==> forall i :: 0 <= i < |tokens| ==> tokens[i].tag != tag
  {
    if tokens == [] then None
    else if tokens[0].tag == tag then Some(tokens[0].token)
    else FindLabel(tokens[1..], tag)
  }

  predicate ContainsAt(text: string, part: string, i: nat) {
    i + |part| <= |text| && text[i..i + |part|] == part
  }

  predicate Contains(text: string, part: string) {
    exists i :: 0 <= i <= |text| && ContainsAt(text, part, i)
  }

  predicate Mentions(tokens: seq<Labelled>, part: string) {
    exists i :: 0 <= i < |tokens| && (Contains(tokens[i].token, part) || Contains(tokens[i].tag, part))
  }

  function FindRequestToken(h: Host, user: string, id: string): (Host, Result<Option<string>, Error>) {
    var (h1, listed) := Perform(h, TokenList(user));
    match listed
    case Err(e) => (h1, Err(e))
    case Ok(out) => (h1, Ok(if out.Tokens? then FindLabel(out.tokens, LabelOf(Some(id))) else None))
  }

  function AddToken(h: Host, user: string, id: Option<string>): (Host, Result<string, Error>) {
    var (h1, added) := Perform(h, TokenAdd(user, LabelOf(id)));
    match added
    case Err(e) => (h1, Err(e))
    case Ok(out) => (h1, if out.Minted? then Ok(out.token) else Err(NoTokenInOutput))
  }

  function CreateToken(h: Host, user: string, id: Option<string>): (Host, Result<string, Error>) {
    if id.None? then AddToken(h, user, id)
    else
      var (h1, found) := FindRequestToken(h, user, id.value);
      match found
      case Err(e) => (h1, Err(e))
      case Ok(Some(token)) => (h1, Ok(token))
      case Ok(None) => AddToken(h1, user, id)
  }

  /** A new user is removed again unless access and token can be given. */
  function Furnish(h: Host, r: Request): (Host, Result<string, Error>) {
    var (h1, allowed) := Perform(h, Access(r.username, r.topic));
    if allowed.Err? then (Perform(h1, UserRemove(r.username)).0, Err(allowed.error))
    else
      var (h2, made) := CreateToken(h1, r.username, r.id);
      if made.Err? then (Perform(h2, UserRemove(r.username)).0, made) else (h2, made)
  }

  function Create(h: Host, r: Request): (Host, Result<string, Error>) {
    var (h1, added) := Perform(h, UserAdd(r.username, r.password));
    if added.Err? then (h1, Err(added.error)) else Furnish(h1, r)
  }

  function Replace(h: Host, r: Request): (Host, Result<string, Error>) {
    var (h1, removed) := Perform(h, UserRemove(r.username));
    if removed.Err? then (h1, Err(removed.error)) else Create(h1, r)
  }

  function ProvisionAgain(h: Host, r: Request): (Host, Result<string, Error>) {
    if r.id.None? then Replace(h, r)
    else
      var (h1, found) := FindRequestToken(h, r.username, r.id.value);
      match found
      case Err(e) => (h1, Err(e))
      case Ok(Some(token)) => (h1, Ok(token))
      case Ok(None) => Replace(h1, r)
  }

  function ProvisionUser(h: Host, r: Request): (Host, Result<string, Error>) {
    var (h1, listed) := Perform(h, UserList);
    match listed
    case Err(e) => (h1, Err(e))
    case Ok(out) => if out.Names? && r.username in out.names then ProvisionAgain(h1, r) else Create(h1, r)
  }

  function Revoke(h: Host, r: Request): (Host, Result<Option<string>, Error>) {
    var (h1, listed) := Perform(h, TokenList(r.username));
    match listed
    case Err(e) => (h1, Err(e))
    case Ok(out) =>
      if !(out.Tokens? && Mentions(out.tokens, r.token)) then (h1, Ok(None))
      else var (h2, removed) := Perform(h1, TokenRemove(r.username, r.token));
        (h2, if removed.Err? then Err(removed.error) else Ok(None))
  }

  function Remove(h: Host, r: Request): (Host, Result<Option<string>, Error>) {
    var (h1, listed) := Perform(h, UserList);
    match listed
    case Err(e) => (h1, Err(e))
    case Ok(out) =>
      if !(out.Names? && r.username in out.names) then (h1, Ok(None))
      else var (h2, removed) := Perform(h1, UserRemove(r.username));
        (h2, if removed.Err? then Err(removed.error) else Ok(None))
  }

  function Given(p: (Host, Result<string, Error>)): (Host, Result<Option<string>, Error>) {
    (p.0, match p.1 case Ok(token) => Ok(Some(token)) case Err(e) => Err(e))
  }

  /** One whole operation; the token it hands out, if it is one that does. */
  function Execute(h: Host, r: Request): (Host, Result<Option<string>, Error>) {
    match r.op
    case Provision => Given(ProvisionUser(h, r))
    case AddDevice => Given(CreateToken(h, r.username, r.id))
    case RevokeDevice => Revoke(h, r)
    case DisableAccount => Remove(h, r)
  }

  // ---------------------------------------------------------------------------
  // The server

  class Server {
    var store: Store
    var script: seq<Fate>

    constructor (script: seq<Fate>)
      ensures this.script == script && store == map[]
    {
      this.script := script;
      store := map[];
    }

    function State(): Host
      reads this
    {
      Host(store, script)
    }

    /** One ntfy command. */
    method Run(cmd: Command) returns (out: Result<Output, Error>)
      modifies this
      ensures (State(), out) == Perform(old(State()), cmd)
    {
      if script == [] {
        return Err(CommandFailed);
      }
      var fate := script[0];
      script := script[1..];
      if fate.Refused? || !Allowed(store, cmd) {
        return Err(CommandFailed);
      }
      out := if fate.Broken? then Err(CommandFailed) else Ok(Printed(store, cmd, fate));
      store := Effect(store, cmd, fate.token);
    }

    method FindToken(name: string, id: string) returns (r: Result<Option<string>, Error>)
      modifies this
      ensures (State(), r) == FindRequestToken(old(State()), name, id)
    {
      var listed := Run(TokenList(name));
      if listed.Err? {
        return Err(listed.error);
      }
      if !listed.value.Tokens? {
        return Ok(None);
      }
      var lines, tag := listed.value.tokens, LabelOf(Some(id));
      for i := 0 to |lines|
        invariant FindLabel(lines, tag) == FindLabel(lines[i..], tag)
      {
        if lines[i].tag == tag {
          return Ok(Some(lines[i].token));
        }
        assert lines[i..][1..] == lines[i + 1..];
      }
      assert lines[|lines|..] == [];
      r := Ok(None);
    }

    method MakeToken(name: string, id: Option<string>) returns (r: Result<string, Error>)
      modifies this
      ensures (State(), r) == CreateToken(old(State()), name, id)
    {
      var tag := PREFIX + DEVICE;
      if id.Some? {
        tag := PREFIX + id.value;
        var found := FindToken(name, id.value);
        if found.Err? {
          return Err(found.error);
        }
        if found.value.Some? {
          return Ok(found.value.value);
        }
      }
      var added := Run(TokenAdd(name, tag));
      if added.Err? {
        return Err(added.error);
      }
      r := if added.value.Minted? then Ok(added.value.token) else Err(NoTokenInOutput);
    }

    method UserExists(name: string) returns (r: Result<bool, Error>)
      modifies this
      ensures var (h, listed) := Perform(old(State()), UserList);
        State() == h && r == if listed.Err? then Err(listed.error) else Ok(listed.value.Names? && name in listed.value.names)
    {
      var listed := Run(UserList);
      r := if listed.Err? then Err(listed.error) else Ok(listed.value.Names? && name in listed.value.names);
    }

    /** After the user has been added: the deferred removal runs unless everything else succeeds. */
    method GiveAccess(q: Request) returns (r: Result<string, Error>)
      modifies this
      ensures (State(), r) == Furnish(old(State()), q)
    {
      var cleanup := true;
      var allowed := Run(Access(q.username, q.topic));
      if allowed.Err? {
        r := Err(allowed.error);
      } else {
        r := MakeToken(q.username, q.id);
        if r.Ok? {
          cleanup := false;
        }
      }
      if cleanup {
        var removed := Run(UserRemove(q.username));
      }
    }

    method MakeUser(q: Request) returns (r: Result<string, Error>)
      modifies this
      ensures (State(), r) == ProvisionUser(old(State()), q)
    {
      var known := UserExists(q.username);
      if known.Err? {
        return Err(known.error);
      }
      if known.value {
        if q.id.Some? {
          var found := FindToken(q.username, q.id.value);
          if found.Err? {
            return Err(found.error);
          }
          if found.value.Some? {
            return Ok(found.value.value);
          }
        }
        var removed := Run(UserRemove(q.username));
        if removed.Err? {
          return Err(removed.error);
        }
      }
      var added := Run(UserAdd(q.username, q.password));
      if added.Err? {
        return Err(added.error);
      }
      r := GiveAccess(q);
    }

    method RevokeToken(q: Request) returns (r: Result<Option<string>, Error>)
      modifies this
      ensures (State(), r) == Revoke(old(State()), q)
    {
      var listed := Run(TokenList(q.username));
      if listed.Err? {
        return Err(listed.error);
      }
      if !(listed.value.Tokens? && Mentions(listed.value.tokens, q.token)) {
        return Ok(None);
      }
      var removed := Run(TokenRemove(q.username, q.token));
      r := if removed.Err? then Err(removed.error) else Ok(None);
    }

    method RemoveUser(q: Request) returns (r: Result<Option<string>, Error>)
      modifies this
      ensures (State(), r) == Remove(old(State()), q)
    {
      var known := UserExists(q.username);
      if known.Err? {
        return Err(known.error);
      }
      if !known.value {
        return Ok(None);
      }
      var removed := Run(UserRemove(q.username));
      r := if removed.Err? then Err(removed.error) else Ok(None);
    }

    /** execute, for one request at a time. */
    method Handle(q: Request) returns (r: Result<Option<string>, Error>)
      modifies this
      ensures (State(), r) == Execute(old(State()), q)
    {
      match q.op {
        case Provision =>
          var made := MakeUser(q);
          r := if made.Ok? then Ok(Some(made.value)) else Err(made.error);
        case AddDevice =>
          var made := MakeToken(q.username, q.id);
          r := if made.Ok? then Ok(Some(made.value)) else Err(made.error);
        case RevokeDevice =>
          r := RevokeToken(q);
        case DisableAccount =>
          r := RemoveUser(q);
      }
    }
  }
}
