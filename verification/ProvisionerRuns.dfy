/** What the provisioner keeps over any sequence of finished, failed, stopped and repeated requests. */
module ProvisionerRuns {
  import opened Wrappers
  import opened Provisioner

  /** Which request each id belongs to: ids are not shared between requests. */
  type Book = map<string, Request>

  ghost predicate Follows(r: Request, book: Book) {
    ValidId(r) && (r.id.Some? ==> r.id.value in book && book[r.id.value] == r)
  }

  /** No two tokens carry the label of one request. */
  ghost predicate UniqueTags(tokens: seq<Labelled>) {
    forall i, j :: 0 <= i < j < |tokens| && tokens[i].tag == tokens[j].tag ==> tokens[i].tag == LabelOf(None)
  }

  function IdOf(tag: string): string {
    if |tag| < |PREFIX| then "" else tag[|PREFIX|..]
  }

  /** A token of a request belongs to that request's user, who can read its topic if it was a provision. */
  ghost predicate TokenOk(name: string, user: User, l: Labelled, book: Book) {
    var id := IdOf(l.tag);
    && l.tag == PREFIX + id
    && (id == DEVICE
        || (id in book && book[id].username == name && (book[id].op == Provision ==> book[id].topic in user.readable)))
  }

  ghost predicate UserOk(name: string, user: User, book: Book) {
    UniqueTags(user.tokens) && forall i :: 0 <= i < |user.tokens| ==> TokenOk(name, user, user.tokens[i], book)
  }

  ghost predicate Good(store: Store, book: Book) {
    forall name :: name in store ==> UserOk(name, store[name], book)
  }

  ghost predicate SameOthers(s: Store, s': Store, name: string) {
    forall other :: other != name ==> (other in s <==> other in s') && (other in s ==> s[other] == s'[other])
  }

  ghost predicate HasToken(store: Store, name: string, tag: string, token: string) {
    name in store && Labelled(tag, token) in store[name].tokens
  }

  // ---------------------------------------------------------------------------
  // One command

  lemma {:induction false} WithoutSelects(tokens: seq<Labelled>, token: string)
    ensures forall l :: l in Without(tokens, token) <==> l in tokens && l.token != token
    ensures UniqueTags(tokens) ==> UniqueTags(Without(tokens, token))
  {
    if tokens != [] {
      WithoutSelects(tokens[1..], token);
      var rest := Without(tokens[1..], token);
      forall i | 0 <= i < |rest| && rest[i].tag == tokens[0].tag && UniqueTags(tokens)
        ensures tokens[0].tag == LabelOf(None)
      {
        assert rest[i] in tokens[1..];
        var k :| 0 <= k < |tokens[1..]| && tokens[1..][k] == rest[i];
        assert tokens[k + 1] == rest[i];
      }
      assert UniqueTags(tokens) ==> UniqueTags(tokens[1..]);
    }
  }

  /** A label that may be given to a user: the shared one, or that of a request of theirs not labelled yet. */
  ghost predicate MayLabel(name: string, user: User, tag: string, book: Book) {
    && TokenOk(name, user, Labelled(tag, ""), book)
    && (tag == LabelOf(None) || forall i :: 0 <= i < |user.tokens| ==> user.tokens[i].tag != tag)
  }

  lemma EffectKeeps(store: Store, cmd: Command, minted: string, book: Book)
    requires Good(store, book) && Allowed(store, cmd)
    requires cmd.TokenAdd? ==> MayLabel(cmd.name, store[cmd.name], cmd.tag, book)
    ensures Good(Effect(store, cmd, minted), book)
  {
    if cmd.TokenRemove? {
      WithoutSelects(store[cmd.name].tokens, cmd.token);
      var user := Effect(store, cmd, minted)[cmd.name];
      forall i | 0 <= i < |user.tokens| ensures TokenOk(cmd.name, user, user.tokens[i], book) {
        assert user.tokens[i] in store[cmd.name].tokens;
      }
    } else if cmd.TokenAdd? {
      var user := Effect(store, cmd, minted)[cmd.name];
      assert UserOk(cmd.name, store[cmd.name], book);
      assert TokenOk(cmd.name, user, Labelled(cmd.tag, minted), book);
      assert UserOk(cmd.name, user, book);
    }
  }

  lemma PerformKeeps(h: Host, cmd: Command, book: Book)
    requires Good(h.store, book)
    requires cmd.TokenAdd? && cmd.name in h.store ==> MayLabel(cmd.name, h.store[cmd.name], cmd.tag, book)
    ensures Good(Perform(h, cmd).0.store, book)
    ensures !cmd.UserList? ==> SameOthers(h.store, Perform(h, cmd).0.store, cmd.name)
  {
    if h.script != [] && Allowed(h.store, cmd) && !h.script[0].Refused? { EffectKeeps(h.store, cmd, h.script[0].token, book); }
  }

  // ---------------------------------------------------------------------------
  // The parts of an operation

  lemma AddTokenKeeps(h: Host, name: string, id: Option<string>, book: Book)
    requires Good(h.store, book)
    requires name in h.store ==> MayLabel(name, h.store[name], LabelOf(id), book)
    ensures var (h', made) := AddToken(h, name, id);
      && Good(h'.store, book) && SameOthers(h.store, h'.store, name)
      && (made.Ok? ==> HasToken(h'.store, name, LabelOf(id), made.value) && name in h.store && h'.store[name].readable == h.store[name].readable)
  {
    PerformKeeps(h, TokenAdd(name, LabelOf(id)), book);
    var (h', made) := AddToken(h, name, id);
    if made.Ok? {
      assert h'.store[name].tokens[|h.store[name].tokens|] == Labelled(LabelOf(id), made.value);
    }
  }

  lemma IdOfLabel(id: Option<string>)
    ensures IdOf(LabelOf(id)) == (if id.Some? then id.value else DEVICE)
  {
  }

  lemma CreateTokenKeeps(h: Host, r: Request, book: Book)
    requires Good(h.store, book) && Follows(r, book) && (r.op == Provision || r.op == AddDevice)
    requires r.op == Provision && r.username in h.store ==> r.topic in h.store[r.username].readable
    ensures var (h', made) := CreateToken(h, r.username, r.id);
      && Good(h'.store, book) && SameOthers(h.store, h'.store, r.username)
      && (made.Ok? ==> HasToken(h'.store, r.username, LabelOf(r.id), made.value)
                       && r.username in h.store && h'.store[r.username].readable == h.store[r.username].readable)
  {
    var name := r.username;
    IdOfLabel(r.id);
    if r.id.None? {
      AddTokenKeeps(h, name, r.id, book);
    } else {
      PerformKeeps(h, TokenList(name), book);
      var (h1, found) := FindRequestToken(h, name, r.id.value);
      if found.Ok? && found.value.None? {
        assert MayLabel(name, h1.store[name], LabelOf(r.id), book);
        AddTokenKeeps(h1, name, r.id, book);
      }
    }
  }

  /** What a provision promises: the user, read-only access to the topic, and the token under its label. */
  ghost predicate Granted(store: Store, r: Request, token: string) {
    && r.username in store && r.topic in store[r.username].readable
    && Labelled(LabelOf(r.id), token) in store[r.username].tokens
  }

  ghost predicate ProvisionKept(h: Host, h': Host, made: Result<string, Error>, r: Request, book: Book) {
    && Good(h'.store, book) && SameOthers(h.store, h'.store, r.username)
    && (made.Ok? ==> Granted(h'.store, r, made.value))
  }

  lemma FurnishKeeps(h: Host, r: Request, book: Book)
    requires Good(h.store, book) && Follows(r, book) && r.op == Provision
    ensures ProvisionKept(h, Furnish(h, r).0, Furnish(h, r).1, r, book)
  {
    PerformKeeps(h, Access(r.username, r.topic), book);
    var (h1, allowed) := Perform(h, Access(r.username, r.topic));
    if allowed.Err? {
      PerformKeeps(h1, UserRemove(r.username), book);
    } else {
      assert r.topic in h1.store[r.username].readable;
      CreateTokenKeeps(h1, r, book);
      var (h2, made) := CreateToken(h1, r.username, r.id);
      if made.Err? { PerformKeeps(h2, UserRemove(r.username), book); }
    }
  }

  lemma CreateKeeps(h: Host, r: Request, book: Book)
    requires Good(h.store, book) && Follows(r, book) && r.op == Provision
    ensures ProvisionKept(h, Create(h, r).0, Create(h, r).1, r, book)
  {
    PerformKeeps(h, UserAdd(r.username, r.password), book);
    var (h1, added) := Perform(h, UserAdd(r.username, r.password));
    if added.Ok? { FurnishKeeps(h1, r, book); }
  }

  lemma ReplaceKeeps(h: Host, r: Request, book: Book)
    requires Good(h.store, book) && Follows(r, book) && r.op == Provision
    ensures ProvisionKept(h, Replace(h, r).0, Replace(h, r).1, r, book)
  {
    PerformKeeps(h, UserRemove(r.username), book);
    var (h1, removed) := Perform(h, UserRemove(r.username));
    if removed.Ok? { CreateKeeps(h1, r, book); }
  }

  lemma ProvisionAgainKeeps(h: Host, r: Request, book: Book)
    requires Good(h.store, book) && Follows(r, book) && r.op == Provision
    ensures ProvisionKept(h, ProvisionAgain(h, r).0, ProvisionAgain(h, r).1, r, book)
  {
    if r.id.None? {
      ReplaceKeeps(h, r, book);
    } else {
      PerformKeeps(h, TokenList(r.username), book);
      var (h1, found) := FindRequestToken(h, r.username, r.id.value);
      if found.Ok? && found.value.None? {
        ReplaceKeeps(h1, r, book);
      } else if found.Ok? {
        FoundIsGranted(h.store, r, found.value.value, book);
      }
    }
  }

  /** A token already labelled for a provision was made after its access was given. */
  lemma FoundIsGranted(store: Store, r: Request, token: string, book: Book)
    requires Good(store, book) && Follows(r, book) && r.op == Provision && r.id.Some?
    requires HasToken(store, r.username, LabelOf(r.id), token)
    ensures Granted(store, r, token)
  {
  }

  lemma ProvisionUserKeeps(h: Host, r: Request, book: Book)
    requires Good(h.store, book) && Follows(r, book) && r.op == Provision
    ensures ProvisionKept(h, ProvisionUser(h, r).0, ProvisionUser(h, r).1, r, book)
  {
    PerformKeeps(h, UserList, book);
    var (h1, listed) := Perform(h, UserList);
    assert h1.store == h.store;
    if listed.Ok? {
      if listed.value.Names? && r.username in listed.value.names { ProvisionAgainKeeps(h1, r, book); } else { CreateKeeps(h1, r, book); }
    }
  }

  // ---------------------------------------------------------------------------
  // One operation

  lemma ExecuteKeeps(h: Host, r: Request, book: Book)
    requires Good(h.store, book) && Follows(r, book)
    ensures Good(Execute(h, r).0.store, book) && SameOthers(h.store, Execute(h, r).0.store, r.username)
  {
    match r.op
    case Provision => ProvisionUserKeeps(h, r, book);
    case AddDevice => CreateTokenKeeps(h, r, book);
    case RevokeDevice =>
      PerformKeeps(h, TokenList(r.username), book);
      PerformKeeps(Perform(h, TokenList(r.username)).0, TokenRemove(r.username, r.token), book);
    case DisableAccount =>
      PerformKeeps(h, UserList, book);
      PerformKeeps(Perform(h, UserList).0, UserRemove(r.username), book);
  }

  lemma ContainsItself(text: string)
    ensures Contains(text, text)
  {
    assert ContainsAt(text, text, 0);
  }

  /** What success means, operation by operation. */
  lemma SuccessMeans(h: Host, r: Request, book: Book)
    requires Good(h.store, book) && Follows(r, book) && Execute(h, r).1.Ok?
    ensures var store, given := Execute(h, r).0.store, Execute(h, r).1.value;
      match r.op
      case Provision => given.Some? && Granted(store, r, given.value)
      case AddDevice => given.Some? && HasToken(store, r.username, LabelOf(r.id), given.value)
      case RevokeDevice => r.username in store && forall l :: l in store[r.username].tokens ==> l.token != r.token
      case DisableAccount => r.username !in store
  {
    match r.op {
      case Provision => ProvisionUserKeeps(h, r, book);
      case AddDevice => CreateTokenKeeps(h, r, book);
      case RevokeDevice =>
        var tokens := h.store[r.username].tokens;
        WithoutSelects(tokens, r.token);
        forall i | 0 <= i < |tokens| && tokens[i].token == r.token ensures Mentions(tokens, r.token) {
          ContainsItself(r.token);
        }
      case DisableAccount =>
    }
  }

  lemma TokenIsFound(store: Store, r: Request, token: string, book: Book)
    requires Good(store, book) && Follows(r, book) && r.id.Some? && HasToken(store, r.username, LabelOf(r.id), token)
    ensures FindLabel(store[r.username].tokens, LabelOf(r.id)) == Some(token)
  {
    var tokens := store[r.username].tokens;
    LabelsDiffer(r.id.value, r.id.value);
    assert UniqueTags(tokens) by { assert UserOk(r.username, store[r.username], book); }
    OneFits(tokens, LabelOf(r.id), token);
  }

  lemma OneFits(tokens: seq<Labelled>, tag: string, token: string)
    requires UniqueTags(tokens) && tag != LabelOf(None) && Labelled(tag, token) in tokens
    ensures FindLabel(tokens, tag) == Some(token)
  {
    var i :| 0 <= i < |tokens| && tokens[i] == Labelled(tag, token);
    var found := FindLabel(tokens, tag);
    assert found.Some? by { assert tokens[i].tag == tag; }
    var j :| 0 <= j < |tokens| && tokens[j] == Labelled(tag, found.value);
    assert i < j ==> tokens[i].tag == tokens[j].tag;
    assert j < i ==> tokens[j].tag == tokens[i].tag;
  }

  lemma FindReturns(h: Host, name: string, id: string, token: string)
    requires name in h.store && FindLabel(h.store[name].tokens, LabelOf(Some(id))) == Some(token)
    ensures var (h', r) := FindRequestToken(h, name, id); h'.store == h.store && (r.Err? || r == Ok(Some(token)))
  {
  }

  /** A request whose token exists already: whatever fails or stops, nothing changes, and the only token handed
      out is that one. */
  lemma RetryChangesNothing(h: Host, r: Request, token: string, book: Book)
    requires Good(h.store, book) && Follows(r, book) && r.id.Some? && (r.op == Provision || r.op == AddDevice)
    requires HasToken(h.store, r.username, LabelOf(r.id), token)
    ensures Execute(h, r).0.store == h.store
    ensures Execute(h, r).1.Ok? ==> Execute(h, r).1.value == Some(token)
  {
    TokenIsFound(h.store, r, token, book);
    if r.op == Provision {
      FindReturns(Perform(h, UserList).0, r.username, r.id.value, token);
    } else {
      FindReturns(h, r.username, r.id.value, token);
    }
  }

  // ---------------------------------------------------------------------------
  // Sequences of requests

  datatype Call = Call(request: Request, script: seq<Fate>)

  /** Some requests, what each was answered, and the installation before, between and after them. */
  datatype Log = Log(stores: seq<Store>, calls: seq<Call>, results: seq<Result<Option<string>, Error>>)
  {
    ghost predicate StepOk(i: nat)
      requires i < |calls| == |results| && |stores| == |calls| + 1
    {
      var (h, r) := Execute(Host(stores[i], calls[i].script), calls[i].request);
      stores[i + 1] == h.store && results[i] == r
    }

    /** The log starts with no managed user, and follows `book`: no two requests share an id. */
    ghost predicate Valid(book: Book) {
      && |calls| == |results| && |stores| == |calls| + 1 && stores[0] == map[]
      && (forall i {:trigger StepOk(i)} :: 0 <= i < |calls| ==> StepOk(i))
      && forall i :: 0 <= i < |calls| ==> Follows(calls[i].request, book)
    }
  }

  lemma {:induction false} RunKeeps(log: Log, book: Book, i: nat)
    requires log.Valid(book) && i < |log.stores|
    ensures Good(log.stores[i], book)
  {
    if i > 0 {
      RunKeeps(log, book, i - 1);
      assert log.StepOk(i - 1);
      ExecuteKeeps(Host(log.stores[i - 1], log.calls[i - 1].script), log.calls[i - 1].request, book);
    }
  }

  /** Over any sequence of finished, failed, stopped and repeated requests, a user has at most one token
      labelled with a given request id. */
  lemma AtMostOneToken(log: Log, book: Book, k: nat, name: string, id: string, i: nat, j: nat)
    requires log.Valid(book) && k < |log.stores| && name in log.stores[k] && 8 <= |id|
    requires i < |log.stores[k][name].tokens| && log.stores[k][name].tokens[i].tag == LabelOf(Some(id))
    requires j < |log.stores[k][name].tokens| && log.stores[k][name].tokens[j].tag == LabelOf(Some(id))
    ensures i == j
  {
    RunKeeps(log, book, k);
    LabelsDiffer(id, id);
    assert UserOk(name, log.stores[k][name], book);
  }

  /** A successful request has done all it promises, whatever happened before it. */
  lemma SuccessInRun(log: Log, book: Book, i: nat)
    requires log.Valid(book) && i < |log.calls| && log.results[i].Ok?
    ensures var r, store, given := log.calls[i].request, log.stores[i + 1], log.results[i].value;
      match r.op
      case Provision => given.Some? && Granted(store, r, given.value)
      case AddDevice => given.Some? && HasToken(store, r.username, LabelOf(r.id), given.value)
      case RevokeDevice => r.username in store && forall l :: l in store[r.username].tokens ==> l.token != r.token
      case DisableAccount => r.username !in store
  {
    RunKeeps(log, book, i);
    assert log.StepOk(i);
    SuccessMeans(Host(log.stores[i], log.calls[i].script), log.calls[i].request, book);
  }

  /** The requests that may take away a token made for `r`. */
  predicate Disturbs(q: Request, r: Request, token: string) {
    q.username == r.username
    && (q.op == DisableAccount || (q.op == Provision && q.id != r.id) || (q.op == RevokeDevice && q.token == token))
  }

  /** The user is still the same one, with this token. */
  ghost predicate SameUser(s: Store, s': Store, name: string, tag: string, token: string) {
    name in s && HasToken(s', name, tag, token) && s'[name].password == s[name].password && s'[name].readable == s[name].readable
  }

  lemma CreateTokenAppends(h: Host, name: string, id: Option<string>, tag: string, token: string)
    requires HasToken(h.store, name, tag, token)
    ensures SameUser(h.store, CreateToken(h, name, id).0.store, name, tag, token)
  {
    var tokens := h.store[name].tokens;
    var i :| 0 <= i < |tokens| && tokens[i] == Labelled(tag, token);
    assert CreateToken(h, name, id).0.store[name].tokens[i] == tokens[i];
  }

  lemma RevokeOther(h: Host, q: Request, tag: string, token: string)
    requires HasToken(h.store, q.username, tag, token) && q.token != token
    ensures SameUser(h.store, Revoke(h, q).0.store, q.username, tag, token)
  {
    WithoutSelects(h.store[q.username].tokens, q.token);
  }

  lemma UndisturbedStep(h: Host, q: Request, r: Request, token: string, book: Book)
    requires Good(h.store, book) && Follows(q, book) && Follows(r, book) && r.id.Some? && (r.op == Provision || r.op == AddDevice)
    requires HasToken(h.store, r.username, LabelOf(r.id), token) && !Disturbs(q, r, token)
    ensures SameUser(h.store, Execute(h, q).0.store, r.username, LabelOf(r.id), token)
  {
    if q.username != r.username {
      ExecuteKeeps(h, q, book);
    } else if q.op == Provision {
      RetryChangesNothing(h, q, token, book);
    } else if q.op == AddDevice {
      CreateTokenAppends(h, q.username, q.id, LabelOf(r.id), token);
    } else {
      RevokeOther(h, q, LabelOf(r.id), token);
    }
  }

  ghost predicate Undisturbed(log: Log, i: nat, j: nat, r: Request, token: string)
    requires j <= |log.calls|
  {
    forall k :: i < k < j ==> !Disturbs(log.calls[k].request, r, token)
  }

  lemma {:induction false} TokenStays(log: Log, book: Book, i: nat, j: nat, token: string)
    requires log.Valid(book) && i < j <= |log.calls| && log.calls[i].request.id.Some? && log.results[i] == Ok(Some(token))
    requires Undisturbed(log, i, j, log.calls[i].request, token)
    ensures log.calls[i].request.op == Provision || log.calls[i].request.op == AddDevice
    ensures var r := log.calls[i].request; SameUser(log.stores[i + 1], log.stores[j], r.username, LabelOf(r.id), token)
    decreases j
  {
    var r := log.calls[i].request;
    SuccessInRun(log, book, i);
    assert r.op == Provision || r.op == AddDevice by { assert log.StepOk(i); }
    if i + 1 < j {
      TokenStays(log, book, i, j - 1, token);
      RunKeeps(log, book, j - 1);
      UndisturbedStep(Host(log.stores[j - 1], log.calls[j - 1].script), log.calls[j - 1].request, r, token, book);
      assert log.StepOk(j - 1);
    }
  }

  /** Once a provision or add-device request has returned a token, every retry of it returns that same token or
      fails, and leaves the user as it was - until another operation removes the user or the token. */
  lemma RetriesAgree(log: Log, book: Book, i: nat, j: nat, token: string)
    requires log.Valid(book) && i < j < |log.calls|
    requires log.calls[i].request.id.Some? && log.calls[j].request == log.calls[i].request
    requires log.results[i] == Ok(Some(token)) && Undisturbed(log, i, j, log.calls[i].request, token)
    ensures log.results[j].Ok? ==> log.results[j].value == Some(token)
    ensures log.stores[j + 1] == log.stores[j]
    ensures var r := log.calls[i].request; SameUser(log.stores[i + 1], log.stores[j + 1], r.username, LabelOf(r.id), token)
  {
    TokenStays(log, book, i, j, token);
    RunKeeps(log, book, j);
    assert log.StepOk(j);
    RetryChangesNothing(Host(log.stores[j], log.calls[j].script), log.calls[j].request, token, book);
  }
}
