/** What one request to the provisioner leaves behind, whatever fails on the way (provisioner/main.go, execute), told
    from the installation before and after it. */
module ProvisionerOutcomes {
  import opened Wrappers
  import opened Provisioner
  import opened ProvisionerRuns

  // ---------------------------------------------------------------------------
  // The commands that have been run

  /** The host has gone on by `n` commands, or stopped before. */
  ghost predicate GoneOn(h: Host, h': Host, n: nat) {
    |h'.script| <= |h.script| <= |h'.script| + n && h'.script == h.script[|h.script| - |h'.script|..]
  }

  /** What became of the last command run, if any was. */
  ghost function LastFate(h: Host, h': Host): Option<Fate> {
    if |h'.script| < |h.script| then Some(h.script[|h.script| - |h'.script| - 1]) else None
  }

  lemma OneOn(h: Host, cmd: Command)
    ensures GoneOn(h, Perform(h, cmd).0, 1)
    ensures h.script != [] ==> LastFate(h, Perform(h, cmd).0) == Some(h.script[0])
  {
  }

  lemma GoesOn(h: Host, h1: Host, h2: Host, n: nat, m: nat)
    requires GoneOn(h, h1, n) && GoneOn(h1, h2, m)
    ensures GoneOn(h, h2, n + m)
    ensures |h2.script| < |h1.script| ==> LastFate(h, h2) == LastFate(h1, h2)
  {
  }

  // ---------------------------------------------------------------------------
  // Tokens

  /** A user gained one token under this label, at the end, and is otherwise the same. */
  ghost predicate TokenAdded(s: Store, s': Store, name: string, id: Option<string>, token: string) {
    name in s && s' == s[name := User(s[name].password, s[name].readable, s[name].tokens + [Labelled(LabelOf(id), token)])]
  }

  lemma AddStep(h: Host, name: string, id: Option<string>)
    ensures var (h1, added) := Perform(h, TokenAdd(name, LabelOf(id)));
      && (added.Ok? ==> h.script != [] && name in h.store && (added.value.Minted? ==> added.value.token == h.script[0].token))
      && ((h1.store == h.store && added.Err?) || (h.script != [] && !h.script[0].Refused? && TokenAdded(h.store, h1.store, name, id, h.script[0].token)))
  {
  }

  lemma AddTokenMeans(h: Host, name: string, id: Option<string>)
    ensures var (h', made) := AddToken(h, name, id);
      && GoneOn(h, h', 1)
      && (made.Ok? ==> TokenAdded(h.store, h'.store, name, id, made.value))
      && (made.Err? ==> h'.store == h.store || exists token :: TokenAdded(h.store, h'.store, name, id, token))
  {
    OneOn(h, TokenAdd(name, LabelOf(id)));
    AddStep(h, name, id);
  }

  /** A request for a token is answered with one that its user has under the label: one that was there already, and then
      nothing has changed, or a new one. An error leaves things as they were, or one unreported token. */
  ghost predicate TokenMade(s: Store, s': Store, name: string, id: Option<string>, made: Result<string, Error>) {
    match made
    case Ok(token) => (id.Some? && s' == s && HasToken(s, name, LabelOf(id), token)) || TokenAdded(s, s', name, id, token)
    case Err(_) => s' == s || exists token :: TokenAdded(s, s', name, id, token)
  }

  lemma FindMeans(h: Host, name: string, id: string)
    ensures var (h', found) := FindRequestToken(h, name, id);
      && h'.store == h.store && GoneOn(h, h', 1)
      && (found.Ok? ==> name in h.store)
      && (forall token :: found == Ok(Some(token)) ==> HasToken(h.store, name, LabelOf(Some(id)), token))
      && (found == Ok(None) ==> forall i :: 0 <= i < |h.store[name].tokens| ==> h.store[name].tokens[i].tag != LabelOf(Some(id)))
  {
    OneOn(h, TokenList(name));
  }

  lemma CreateTokenMeans(h: Host, name: string, id: Option<string>)
    ensures var (h', made) := CreateToken(h, name, id);
      GoneOn(h, h', 2) && TokenMade(h.store, h'.store, name, id, made)
  {
    if id.None? {
      AddTokenMeans(h, name, id);
    } else {
      FindMeans(h, name, id.value);
      var (h1, found) := FindRequestToken(h, name, id.value);
      if found == Ok(None) {
        AddTokenMeans(h1, name, id);
        GoesOn(h, h1, CreateToken(h, name, id).0, 1, 1);
      }
    }
  }

  // ---------------------------------------------------------------------------
  // Provisioning

  /** A brand-new user: the request's password, its topic, and one token under its label. */
  ghost predicate NewUser(s: Store, s': Store, r: Request, token: string) {
    s' == s[r.username := User(r.password, {r.topic}, [Labelled(LabelOf(r.id), token)])]
  }

  /** A half-made user remains only if the provisioner has stopped or ntfy refused to remove it, or if the very
      command that was to add it reported failure and yet took effect. */
  ghost predicate LeftOver(h: Host, h': Host, r: Request) {
    || h'.script == [] || LastFate(h, h') == Some(Refused)
    || (LastFate(h, h').Some? && LastFate(h, h').value.Broken? && r.username in h'.store && h'.store[r.username] == User(r.password, {}, []))
  }

  lemma LeftOverCarries(h: Host, h1: Host, h': Host, r: Request, n: nat, m: nat)
    requires GoneOn(h, h1, n) && GoneOn(h1, h', m)
    ensures GoneOn(h, h', n + m) && (LeftOver(h1, h', r) ==> LeftOver(h, h', r))
  {
    GoesOn(h, h1, h', n, m);
  }

  lemma AdditionMeans(h: Host, r: Request)
    requires r.username !in h.store
    ensures var (h', added) := Perform(h, UserAdd(r.username, r.password));
      && GoneOn(h, h', 1)
      && (added.Ok? ==> h'.store == h.store[r.username := User(r.password, {}, [])])
      && (added.Err? ==> h'.store == h.store || (LeftOver(h, h', r) && h'.store == h.store[r.username := User(r.password, {}, [])]))
  {
    OneOn(h, UserAdd(r.username, r.password));
  }

  lemma RemovalMeans(h: Host, name: string)
    ensures var (h', removed) := Perform(h, UserRemove(name));
      && GoneOn(h, h', 1)
      && (removed.Ok? ==> h'.store == h.store - {name})
      && (removed.Err? ==> h'.store == h.store || h'.store == h.store - {name})
      && (name in h'.store ==> h'.script == [] || (LastFate(h, h') == Some(Refused) && h.script != []))
  {
    OneOn(h, UserRemove(name));
  }

  lemma UndoMeans(h: Host, r: Request)
    ensures var h' := Perform(h, UserRemove(r.username)).0;
      GoneOn(h, h', 1) && (h'.store == h.store - {r.username} || LeftOver(h, h', r))
  {
    RemovalMeans(h, r.username);
  }

  lemma AccessMeans(h: Host, r: Request)
    requires r.username in h.store && h.store[r.username] == User(r.password, {}, [])
    ensures var (h', allowed) := Perform(h, Access(r.username, r.topic));
      && GoneOn(h, h', 1) && h'.store - {r.username} == h.store - {r.username}
      && (allowed.Ok? ==> h'.store == h.store[r.username := User(r.password, {r.topic}, [])])
  {
    OneOn(h, Access(r.username, r.topic));
    assert {} + {r.topic} == {r.topic};
  }

  lemma TokenForNew(s: Store, s1: Store, s2: Store, r: Request, made: Result<string, Error>)
    requires s1 == s[r.username := User(r.password, {r.topic}, [])] && TokenMade(s1, s2, r.username, r.id, made)
    ensures s2 - {r.username} == s - {r.username} && (made.Ok? ==> NewUser(s, s2, r, made.value))
  {
    forall token ensures [] + [Labelled(LabelOf(r.id), token)] == [Labelled(LabelOf(r.id), token)] {}
  }

  /** From a user who has just been added: either everything else succeeds, or the user is removed again. */
  lemma FurnishMeans(h: Host, r: Request)
    requires r.username in h.store && h.store[r.username] == User(r.password, {}, [])
    ensures var (h', made) := Furnish(h, r);
      && GoneOn(h, h', 4)
      && (made.Ok? ==> NewUser(h.store, h'.store, r, made.value))
      && (made.Err? ==> h'.store == h.store - {r.username} || LeftOver(h, h', r))
  {
    AccessMeans(h, r);
    var (h1, allowed) := Perform(h, Access(r.username, r.topic));
    if allowed.Err? {
      UndoMeans(h1, r);
      LeftOverCarries(h, h1, Perform(h1, UserRemove(r.username)).0, r, 1, 1);
    } else {
      CreateTokenMeans(h1, r.username, r.id);
      var (h2, made) := CreateToken(h1, r.username, r.id);
      TokenForNew(h.store, h1.store, h2.store, r, made);
      GoesOn(h, h1, h2, 1, 2);
      if made.Err? {
        UndoMeans(h2, r);
        LeftOverCarries(h, h2, Perform(h2, UserRemove(r.username)).0, r, 3, 1);
      }
    }
  }

  lemma CreateMeans(h: Host, r: Request)
    requires r.username !in h.store
    ensures var (h', made) := Create(h, r);
      && GoneOn(h, h', 5)
      && (made.Ok? ==> NewUser(h.store, h'.store, r, made.value))
      && (made.Err? ==> h'.store == h.store || LeftOver(h, h', r))
  {
    AdditionMeans(h, r);
    var (h1, added) := Perform(h, UserAdd(r.username, r.password));
    if added.Ok? {
      FurnishMeans(h1, r);
      LeftOverCarries(h, h1, Create(h, r).0, r, 1, 4);
      assert h1.store - {r.username} == h.store;
    }
  }

  lemma ReplaceMeans(h: Host, r: Request)
    requires r.username in h.store
    ensures var (h', made) := Replace(h, r);
      && GoneOn(h, h', 6)
      && (made.Ok? ==> NewUser(h.store, h'.store, r, made.value))
      && (made.Err? ==> h'.store == h.store || h'.store == h.store - {r.username} || LeftOver(h, h', r))
  {
    RemovalMeans(h, r.username);
    var (h1, removed) := Perform(h, UserRemove(r.username));
    if removed.Ok? {
      CreateMeans(h1, r);
      LeftOverCarries(h, h1, Replace(h, r).0, r, 1, 5);
    }
  }

  /** The whole of a provision. It succeeds by finding the request's token, and then nothing has changed, or with a
      brand-new user in place of any former one. It fails with nothing changed, or with the user gone, or - only if the
      removal cannot be made - with a user left over. */
  ghost predicate Provisioned(h: Host, h': Host, r: Request, made: Result<string, Error>) {
    match made
    case Ok(token) => (r.id.Some? && h'.store == h.store && HasToken(h.store, r.username, LabelOf(r.id), token)) || NewUser(h.store, h'.store, r, token)
    case Err(_) => h'.store == h.store || h'.store == h.store - {r.username} || LeftOver(h, h', r)
  }

  lemma ProvisionedCarries(h: Host, h1: Host, h': Host, r: Request, made: Result<string, Error>, n: nat, m: nat)
    requires GoneOn(h, h1, n) && GoneOn(h1, h', m) && h1.store == h.store && Provisioned(h1, h', r, made)
    ensures GoneOn(h, h', n + m) && Provisioned(h, h', r, made)
  {
    LeftOverCarries(h, h1, h', r, n, m);
  }

  lemma AgainMeans(h: Host, r: Request)
    requires r.username in h.store
    ensures var (h', made) := ProvisionAgain(h, r); GoneOn(h, h', 7) && Provisioned(h, h', r, made)
  {
    if r.id.None? {
      ReplaceMeans(h, r);
    } else {
      FindMeans(h, r.username, r.id.value);
      var (h1, found) := FindRequestToken(h, r.username, r.id.value);
      if found == Ok(None) {
        ReplaceMeans(h1, r);
        ProvisionedCarries(h, h1, Replace(h1, r).0, r, Replace(h1, r).1, 1, 6);
      }
    }
  }

  lemma ProvisionMeans(h: Host, r: Request)
    ensures var (h', made) := ProvisionUser(h, r); GoneOn(h, h', 8) && Provisioned(h, h', r, made)
  {
    OneOn(h, UserList);
    var (h1, listed) := Perform(h, UserList);
    if listed.Ok? {
      if r.username in h.store {
        AgainMeans(h1, r);
        ProvisionedCarries(h, h1, ProvisionAgain(h1, r).0, r, ProvisionAgain(h1, r).1, 1, 7);
      } else {
        CreateMeans(h1, r);
        ProvisionedCarries(h, h1, Create(h1, r).0, r, Create(h1, r).1, 1, 5);
      }
    }
  }

  // ---------------------------------------------------------------------------
  // Taking away

  /** The user has lost this token and is otherwise the same. */
  ghost predicate TokenGone(s: Store, s': Store, name: string, token: string) {
    && name in s && name in s' && s' == s[name := User(s[name].password, s[name].readable, s'[name].tokens)]
    && forall l :: multiset(s'[name].tokens)[l] == if l.token == token then 0 else multiset(s[name].tokens)[l]
  }

  lemma {:induction false} WithoutCounts(tokens: seq<Labelled>, token: string, l: Labelled)
    ensures multiset(Without(tokens, token))[l] == if l.token == token then 0 else multiset(tokens)[l]
  {
    if tokens != [] {
      WithoutCounts(tokens[1..], token, l);
      assert tokens == [tokens[0]] + tokens[1..];
      assert multiset(tokens) == multiset{tokens[0]} + multiset(tokens[1..]);
      var head := if tokens[0].token == token then [] else [tokens[0]];
      assert multiset(head + Without(tokens[1..], token)) == multiset(head) + multiset(Without(tokens[1..], token));
    }
  }

  ghost predicate NoToken(s: Store, name: string, token: string) {
    name in s && forall l :: l in s[name].tokens ==> l.token != token
  }

  lemma RemovedTokenIsGone(s: Store, name: string, token: string)
    requires name in s
    ensures TokenGone(s, s[name := s[name].(tokens := Without(s[name].tokens, token))], name, token)
  {
    forall l ensures multiset(Without(s[name].tokens, token))[l] == if l.token == token then 0 else multiset(s[name].tokens)[l] {
      WithoutCounts(s[name].tokens, token, l);
    }
  }

  lemma UnmentionedIsAbsent(s: Store, name: string, token: string)
    requires name in s && !Mentions(s[name].tokens, token)
    ensures NoToken(s, name, token)
  {
    var tokens := s[name].tokens;
    ContainsItself(token);
    forall i | 0 <= i < |tokens| ensures tokens[i].token != token {}
  }

  lemma TokenRemovalMeans(h: Host, name: string, token: string)
    requires name in h.store
    ensures var (h', removed) := Perform(h, TokenRemove(name, token));
      && (removed.Ok? ==> TokenGone(h.store, h'.store, name, token))
      && (removed.Err? ==> h'.store == h.store || TokenGone(h.store, h'.store, name, token))
  {
    RemovedTokenIsGone(h.store, name, token);
  }

  /** A revocation succeeds with the token gone, or never there; it fails with the token gone or nothing changed. */
  lemma RevokeMeans(h: Host, r: Request)
    ensures var (h', done) := Revoke(h, r); var s, s', name := h.store, h'.store, r.username;
      && (done.Ok? ==> done.value == None && (TokenGone(s, s', name, r.token) || (s' == s && NoToken(s, name, r.token))))
      && (done.Err? ==> s' == s || TokenGone(s, s', name, r.token))
  {
    var (h1, listed) := Perform(h, TokenList(r.username));
    assert h1.store == h.store;
    if listed.Ok? {
      if Mentions(h.store[r.username].tokens, r.token) {
        TokenRemovalMeans(h1, r.username, r.token);
      } else {
        UnmentionedIsAbsent(h.store, r.username, r.token);
      }
    }
  }

  /** A removal succeeds with the user gone - or never there - and fails with the user gone or nothing changed. */
  lemma RemoveMeans(h: Host, r: Request)
    ensures var (h', done) := Remove(h, r);
      && (done.Ok? ==> done.value == None && h'.store == h.store - {r.username})
      && (done.Err? ==> h'.store == h.store || h'.store == h.store - {r.username})
  {
  }

  // ---------------------------------------------------------------------------
  // One operation

  /** What one request does, whatever fails: every success and every failure, operation by operation. */
  lemma ExecuteMeans(h: Host, r: Request)
    ensures var (h', done) := Execute(h, r); var s, s', name := h.store, h'.store, r.username;
      match r.op
      case Provision => (done.Ok? ==> done.value.Some?) && Provisioned(h, h', r, if done.Ok? then Ok(done.value.value) else Err(done.error))
      case AddDevice =>
        (match done
         case Ok(given) => given.Some? && TokenMade(s, s', name, r.id, Ok(given.value))
         case Err(e) => TokenMade(s, s', name, r.id, Err(e)))
      case RevokeDevice =>
        if done.Ok? then done.value == None && (TokenGone(s, s', name, r.token) || (s' == s && NoToken(s, name, r.token)))
        else s' == s || TokenGone(s, s', name, r.token)
      case DisableAccount =>
        if done.Ok? then done.value == None && s' == s - {name} else s' == s || s' == s - {name}
  {
    match r.op
    case Provision => ProvisionMeans(h, r);
    case AddDevice => CreateTokenMeans(h, r.username, r.id);
    case RevokeDevice => RevokeMeans(h, r);
    case DisableAccount => RemoveMeans(h, r);
  }

  // ---------------------------------------------------------------------------
  // When nothing fails

  ghost predicate AllWork(script: seq<Fate>) {
    forall i :: 0 <= i < |script| ==> script[i].Works?
  }

  lemma WorkingStep(h: Host, cmd: Command)
    requires AllWork(h.script) && h.script != [] && Allowed(h.store, cmd)
    ensures var (h', out) := Perform(h, cmd);
      && out == Ok(Printed(h.store, cmd, h.script[0])) && h' == Host(Effect(h.store, cmd, h.script[0].token), h.script[1..]) && AllWork(h'.script)
  {
  }

  lemma FurnishWorks(h: Host, r: Request)
    requires AllWork(h.script) && |h.script| >= 3 && r.username in h.store
    ensures Furnish(h, r).1.Ok?
  {
    WorkingStep(h, Access(r.username, r.topic));
    CreateTokenWorks(Perform(h, Access(r.username, r.topic)).0, r.username, r.id);
  }

  lemma CreateTokenWorks(h: Host, name: string, id: Option<string>)
    requires AllWork(h.script) && |h.script| >= 2 && name in h.store
    ensures CreateToken(h, name, id).1.Ok?
  {
    WorkingStep(h, TokenList(name));
    WorkingStep(h, TokenAdd(name, LabelOf(id)));
    var h1 := Perform(h, TokenList(name)).0;
    WorkingStep(h1, TokenAdd(name, LabelOf(id)));
  }

  lemma ReplaceWorks(h: Host, r: Request)
    requires AllWork(h.script) && |h.script| >= 5 && r.username in h.store
    ensures Replace(h, r).1.Ok?
  {
    WorkingStep(h, UserRemove(r.username));
    CreateWorks(Perform(h, UserRemove(r.username)).0, r);
  }

  lemma CreateWorks(h: Host, r: Request)
    requires AllWork(h.script) && |h.script| >= 4 && r.username !in h.store
    ensures Create(h, r).1.Ok?
  {
    WorkingStep(h, UserAdd(r.username, r.password));
    FurnishWorks(Perform(h, UserAdd(r.username, r.password)).0, r);
  }

  /** While every command works, a request succeeds - only a token cannot be listed, given or taken for a user who is
      not there. */
  lemma SucceedsIff(h: Host, r: Request)
    requires AllWork(h.script) && |h.script| >= 7
    ensures Execute(h, r).1.Ok? <==> r.op == Provision || r.op == DisableAccount || r.username in h.store
  {
    match r.op {
      case Provision =>
        WorkingStep(h, UserList);
        var h1 := Perform(h, UserList).0;
        if r.username in h.store {
          WorkingStep(h1, TokenList(r.username));
          ReplaceWorks(h1, r);
          ReplaceWorks(Perform(h1, TokenList(r.username)).0, r);
        } else {
          CreateWorks(h1, r);
        }
      case AddDevice => if r.username in h.store { CreateTokenWorks(h, r.username, r.id); }
      case RevokeDevice =>
        if r.username in h.store {
          WorkingStep(h, TokenList(r.username));
          WorkingStep(Perform(h, TokenList(r.username)).0, TokenRemove(r.username, r.token));
        }
      case DisableAccount =>
        WorkingStep(h, UserList);
        var h1 := Perform(h, UserList).0;
        if r.username in h.store { WorkingStep(h1, UserRemove(r.username)); }
    }
  }

  /** What is done already takes one look: revoking a token no line mentions, or removing a user who is not there, runs a
      single command that changes nothing. */
  lemma NothingToDo(h: Host, r: Request)
    requires h.script != [] && h.script[0].Works?
    requires r.op == RevokeDevice ==> r.username in h.store && !Mentions(h.store[r.username].tokens, r.token)
    requires r.op == DisableAccount ==> r.username !in h.store
    ensures r.op == RevokeDevice || r.op == DisableAccount ==> Execute(h, r) == (Host(h.store, h.script[1..]), Ok(None))
  {
    assert r.username !in h.store ==> h.store - {r.username} == h.store;
  }
}
