/** Event data may not carry secrets: findSensitiveField in apps/server/src/notification-logic.ts. */
module SensitiveFields {
  import opened Wrappers
  import opened StableJson

  function Lower(c: char): char {
    if 'A' <= c <= 'Z' then (c as int - 'A' as int + 'a' as int) as char else c
  }

  /** `text` begins with `word`, ignoring case. */
  predicate Begins(text: string, word: string) {
    |word| <= |text| && forall i :: 0 <= i < |word| ==> Lower(text[i]) == word[i]
  }

  predicate BeginsSecret(text: string) {
    || Begins(text, "password") || Begins(text, "passwd") || Begins(text, "secret") || Begins(text, "token")
    || Begins(text, "apikey") || Begins(text, "api_key") || Begins(text, "api-key")
    || Begins(text, "authorization") || Begins(text, "cookie")
    || Begins(text, "privatekey") || Begins(text, "private_key") || Begins(text, "private-key")
  }

  predicate IsSensitiveKey(key: string) {
    exists i :: 0 <= i < |key| && BeginsSecret(key[i..])
  }

  const SECRETS: seq<string> := ["password", "passwd", "secret", "token", "apikey", "api_key", "api-key",
    "authorization", "cookie", "privatekey", "private_key", "private-key"]

  function LowerAll(text: string): string {
    seq(|text|, i requires 0 <= i < |text| => Lower(text[i]))
  }

  /** A key is sensitive exactly when it contains one of the secret words, in whatever case. */
  lemma SensitiveKeyIff(key: string)
    ensures IsSensitiveKey(key) <==>
      exists n, i :: 0 <= n < |SECRETS| && 0 <= i <= |key| && HasWordAt(key, SECRETS[n], i)
  {
    if IsSensitiveKey(key) {
      var i :| 0 <= i < |key| && BeginsSecret(key[i..]);
      SecretWords(key[i..]);
      var n :| 0 <= n < |SECRETS| && Begins(key[i..], SECRETS[n]);
      WordAt(key, SECRETS[n], i);
    }
    if n, i :| 0 <= n < |SECRETS| && 0 <= i <= |key| && HasWordAt(key, SECRETS[n], i) {
      WordAt(key, SECRETS[n], i);
      SecretWords(key[i..]);
    }
  }

  predicate HasWordAt(key: string, word: string, i: nat) {
    i + |word| <= |key| && LowerAll(key)[i..i + |word|] == word
  }

  lemma WordAt(key: string, word: string, i: nat)
    requires i <= |key|
    ensures HasWordAt(key, word, i) <==> Begins(key[i..], word)
  {
    if i + |word| <= |key| {
      var part := LowerAll(key)[i..i + |word|];
      assert forall j :: 0 <= j < |word| ==> part[j] == Lower(key[i..][j]);
    }
  }

  lemma SecretWords(text: string)
    ensures BeginsSecret(text) <==> exists n :: 0 <= n < |SECRETS| && Begins(text, SECRETS[n])
    ensures BeginsSecret(text) ==> text != ""
  {
    assert SECRETS[0] == "password" && SECRETS[1] == "passwd" && SECRETS[2] == "secret" && SECRETS[3] == "token";
    assert SECRETS[4] == "apikey" && SECRETS[5] == "api_key" && SECRETS[6] == "api-key" && SECRETS[7] == "authorization";
    assert SECRETS[8] == "cookie" && SECRETS[9] == "privatekey" && SECRETS[10] == "private_key" && SECRETS[11] == "private-key";
  }

  /** One step from a value to a value inside it. */
  datatype Step = Index(i: nat) | Key(k: string)

  /** The path to the first sensitive key, depth first: a key is tested before its value is searched. */
  function Find(j: Json): Option<seq<Step>> {
    match j
    case Arr(items) => FindInItems(items, 0)
    case Obj(fields) => FindInFields(fields)
    case _ => None
  }

  function FindInItems(items: Items, i: nat): Option<seq<Step>> {
    match items
    case Nil => None
    case Cons(head, tail) =>
      match Find(head)
      case Some(path) => Some([Index(i)] + path)
      case None => FindInItems(tail, i + 1)
  }

  function FindInFields(f: Fields): Option<seq<Step>> {
    match f
    case End => None
    case Field(k, v, rest) =>
      if IsSensitiveKey(k) then Some([Key(k)])
      else
        match Find(v)
        case Some(path) => Some([Key(k)] + path)
        case None => FindInFields(rest)
  }

  /** The value one step inside j. */
  function Child(j: Json, step: Step): Option<Json> {
    match step
    case Index(i) => if j.Arr? then ItemAt(j.items, i) else None
    case Key(k) => if j.Obj? && k in Keys(j.fields) then Some(Get(j.fields, k)) else None
  }

  function ItemAt(items: Items, i: nat): Option<Json> {
    match items
    case Nil => None
    case Cons(head, tail) => if i == 0 then Some(head) else ItemAt(tail, i - 1)
  }

  function Follow(j: Json, path: seq<Step>): Option<Json>
    decreases |path|
  {
    if path == [] then Some(j)
    else match Child(j, path[0]) case None => None case Some(v) => Follow(v, path[1..])
  }

  /** The path leads somewhere inside j and ends at a sensitive key. */
  predicate LeadsToSecret(j: Json, path: seq<Step>) {
    && path != [] && Follow(j, path).Some?
    && path[|path| - 1].Key? && IsSensitiveKey(path[|path| - 1].k)
  }

  lemma {:induction false} LeadsOn(j: Json, step: Step, v: Json, path: seq<Step>)
    requires Child(j, step) == Some(v) && LeadsToSecret(v, path)
    ensures LeadsToSecret(j, [step] + path)
  {
  }

  /** What is found is a sensitive key of the data. */
  lemma {:induction false} FoundIsSecret(j: Json)
    requires Proper(j) && Find(j).Some?
    ensures LeadsToSecret(j, Find(j).value)
    decreases j, 1
  {
    match j
    case Arr(items) => FoundInItems(items, items, 0);
    case Obj(fields) => FoundInFields(fields, fields);
  }

  lemma {:induction false} FoundInItems(all: Items, items: Items, i: nat)
    requires ProperItems(items) && FindInItems(items, i).Some?
    requires forall n: nat :: ItemAt(all, i + n) == ItemAt(items, n)
    ensures LeadsToSecret(Arr(all), FindInItems(items, i).value)
    decreases items, 0
  {
    if Find(items.head).Some? {
      FoundIsSecret(items.head);
      assert ItemAt(all, i + 0) == ItemAt(items, 0);
      LeadsOn(Arr(all), Index(i), items.head, Find(items.head).value);
    } else {
      forall n: nat ensures ItemAt(all, i + 1 + n) == ItemAt(items.tail, n) {
        assert ItemAt(all, i + (1 + n)) == ItemAt(items, 1 + n);
      }
      FoundInItems(all, items.tail, i + 1);
    }
  }

  lemma {:induction false} FoundInFields(all: Fields, f: Fields)
    requires ProperFields(f) && FindInFields(f).Some? && Keys(f) <= Keys(all)
    requires forall k :: k in Keys(f) ==> Get(all, k) == Get(f, k)
    ensures LeadsToSecret(Obj(all), FindInFields(f).value)
    decreases f, 0
  {
    var k, v := f.key, f.value;
    assert Child(Obj(all), Key(k)) == Some(v) by { assert Get(all, k) == Get(f, k); }
    if IsSensitiveKey(k) {
      assert Follow(Obj(all), [Key(k)]) == Follow(v, [Key(k)][1..]);
    } else if Find(v).Some? {
      FoundIsSecret(v);
      LeadsOn(Obj(all), Key(k), v, Find(v).value);
    } else {
      forall x | x in Keys(f.rest) ensures Get(all, x) == Get(f.rest, x) { assert Get(all, x) == Get(f, x); }
      FoundInFields(all, f.rest);
    }
  }

  /** Nothing is missed: when nothing is found, no path in the data ends at a sensitive key. */
  lemma {:induction false} NothingFoundNothingThere(j: Json, path: seq<Step>)
    requires Proper(j) && Find(j).None?
    ensures !LeadsToSecret(j, path)
    decreases |path|
  {
    if path != [] && Child(j, path[0]).Some? {
      var v := Child(j, path[0]).value;
      match path[0] {
        case Index(i) => CleanItem(j.items, i, 0);
        case Key(k) => CleanField(j.fields, k);
      }
      NothingFoundNothingThere(v, path[1..]);
      var rest := path[1..];
      assert rest != [] ==> rest[|rest| - 1] == path[|path| - 1];
      assert rest == [] ==> path[|path| - 1] == path[0];
      assert Follow(j, path) == Follow(v, rest);
    }
  }

  lemma {:induction false} CleanItem(items: Items, i: nat, start: nat)
    requires ProperItems(items) && FindInItems(items, start).None? && ItemAt(items, i).Some?
    ensures Find(ItemAt(items, i).value).None? && Proper(ItemAt(items, i).value)
  {
    if i > 0 { CleanItem(items.tail, i - 1, start + 1); }
  }

  lemma {:induction false} CleanField(f: Fields, k: string)
    requires ProperFields(f) && FindInFields(f).None? && k in Keys(f)
    ensures Find(Get(f, k)).None? && Proper(Get(f, k)) && !IsSensitiveKey(k)
  {
    if f.key != k { CleanField(f.rest, k); }
  }
}
