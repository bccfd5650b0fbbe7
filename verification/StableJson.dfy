/** Canonical JSON text (stableStringify in apps/server/src/notification-service.ts), used to
    recognise a repeated event whatever the order of its object keys. */
module StableJson {
  import opened Wrappers

  /** A parsed JSON value. A number is kept as the text JavaScript prints for it. */
  datatype Json =
    | Null
    | Bool(b: bool)
    | Num(text: string)
    | Str(s: string)
    | Arr(items: Items)
    | Obj(fields: Fields)

  datatype Items = Nil | Cons(head: Json, tail: Items)
  datatype Fields = End | Field(key: string, value: Json, rest: Fields)

  /** The value of a member. */
  function Look(f: Fields, key: string): Option<Json> {
    match f
    case End => None
    case Field(k, v, rest) => if k == key then Some(v) else Look(rest, key)
  }

  lemma LookOn(f: Fields, key: string)
    requires f.Field?
    ensures Look(f, key) == if f.key == key then Some(f.value) else Look(f.rest, key)
  {
  }

  predicate IsNumberChar(c: char) {
    '0' <= c <= '9' || c == '-' || c == '+' || c == '.' || c == 'e'
  }

  function Keys(f: Fields): set<string> {
    match f case End => {} case Field(k, _, rest) => {k} + Keys(rest)
  }

  /** What a JavaScript object can be: no key twice; numbers print as nonempty numerals. */
  predicate Proper(j: Json) {
    match j
    case Num(t) => t != "" && forall i :: 0 <= i < |t| ==> IsNumberChar(t[i])
    case Arr(items) => ProperItems(items)
    case Obj(fields) => ProperFields(fields)
    case _ => true
  }

  predicate ProperItems(items: Items) {
    match items case Nil => true case Cons(head, tail) => Proper(head) && ProperItems(tail)
  }

  predicate ProperFields(f: Fields) {
    match f case End => true case Field(k, v, rest) => k !in Keys(rest) && Proper(v) && ProperFields(rest)
  }

  // ---------------------------------------------------------------------------
  // The order in which the sorted copy of an object enumerates its keys

  /** Array-index keys come first in numeric order, whatever order they were inserted in; the others
      stay in the sorted order of their code units. */
  predicate IsIndexKey(k: string) {
    && 1 <= |k| <= 10 && (|k| == 10 ==> !Less("4294967294", k))
    && (k[0] != '0' || |k| == 1)
    && forall i :: 0 <= i < |k| ==> '0' <= k[i] <= '9'
  }

  predicate Less(a: string, b: string) {
    if a == "" then b != ""
    else if b == "" then false
    else a[0] < b[0] || (a[0] == b[0] && Less(a[1..], b[1..]))
  }

  predicate KeyBefore(a: string, b: string) {
    if IsIndexKey(a) && IsIndexKey(b) then |a| < |b| || (|a| == |b| && Less(a, b))
    else if IsIndexKey(a) || IsIndexKey(b) then IsIndexKey(a)
    else Less(a, b)
  }

  lemma {:induction false} LessIsTotal(a: string, b: string)
    ensures a == b || Less(a, b) || Less(b, a)
  {
    if a != "" && b != "" && a[0] == b[0] {
      LessIsTotal(a[1..], b[1..]);
      assert a == [a[0]] + a[1..] && b == [b[0]] + b[1..];
    }
  }

  lemma {:induction false} LessIsStrict(a: string, b: string, c: string)
    ensures !Less(a, a)
    ensures Less(a, b) && Less(b, c) ==> Less(a, c)
  {
    if a != "" {
      if b != "" && c != "" { LessIsStrict(a[1..], b[1..], c[1..]); } else { LessIsStrict(a[1..], "", ""); }
    }
  }

  lemma KeyOrder(a: string, b: string, c: string)
    ensures a == b || KeyBefore(a, b) || KeyBefore(b, a)
    ensures !KeyBefore(a, a)
    ensures KeyBefore(a, b) && KeyBefore(b, c) ==> KeyBefore(a, c)
  {
    LessIsTotal(a, b);
    LessIsStrict(a, b, c);
  }

  // ---------------------------------------------------------------------------
  // Normalization

  function Insert(k: string, v: Json, f: Fields): Fields {
    match f
    case End => Field(k, v, End)
    case Field(k', v', rest) => if KeyBefore(k, k') then Field(k, v, f) else Field(k', v', Insert(k, v, rest))
  }

  function Normalize(j: Json): Json {
    match j
    case Arr(items) => Arr(NormalizeItems(items))
    case Obj(fields) => Obj(NormalizeFields(fields))
    case _ => j
  }

  function NormalizeItems(items: Items): Items {
    match items case Nil => Nil case Cons(head, tail) => Cons(Normalize(head), NormalizeItems(tail))
  }

  function NormalizeFields(f: Fields): Fields {
    match f case End => End case Field(k, v, rest) => Insert(k, Normalize(v), NormalizeFields(rest))
  }

  // ---------------------------------------------------------------------------
  // Equality up to the order of object keys, at any depth

  function Get(f: Fields, k: string): (v: Json)
    requires k in Keys(f)
    ensures v < f
  {
    if f.key == k then f.value else Get(f.rest, k)
  }

  predicate Same(a: Json, b: Json) {
    match a
    case Arr(items) => b.Arr? && SameItems(items, b.items)
    case Obj(fields) => b.Obj? && Keys(fields) == Keys(b.fields) && SameFields(fields, b.fields)
    case _ => a == b
  }

  predicate SameItems(a: Items, b: Items) {
    match a
    case Nil => b.Nil?
    case Cons(head, tail) => b.Cons? && Same(head, b.head) && SameItems(tail, b.tail)
  }

  /** Every field on the left is matched, by key, on the right. */
  predicate SameFields(a: Fields, b: Fields) {
    match a
    case End => true
    case Field(k, v, rest) => k in Keys(b) && Same(v, Get(b, k)) && SameFields(rest, b)
  }

  // ---------------------------------------------------------------------------
  // Sorted objects are determined by their fields

  predicate Ordered(f: Fields) {
    match f case End => true case Field(k, _, rest) => (forall x :: x in Keys(rest) ==> KeyBefore(k, x)) && Ordered(rest)
  }

  lemma {:induction false} InsertKeeps(k: string, v: Json, f: Fields)
    requires k !in Keys(f) && Ordered(f)
    ensures Keys(Insert(k, v, f)) == Keys(f) + {k} && Ordered(Insert(k, v, f))
    ensures Get(Insert(k, v, f), k) == v
    ensures forall x :: x in Keys(f) ==> Get(Insert(k, v, f), x) == Get(f, x)
    ensures Proper(v) && ProperFields(f) ==> ProperFields(Insert(k, v, f))
  {
    match f
    case End =>
    case Field(k', v', rest) =>
      KeyOrder(k, k', k);
      if KeyBefore(k, k') {
        forall x | x in Keys(rest) ensures KeyBefore(k, x) { KeyOrder(k, k', x); }
      } else {
        InsertKeeps(k, v, rest);
      }
  }

  lemma {:induction false} NormalizedFields(f: Fields)
    requires ProperFields(f)
    ensures Keys(NormalizeFields(f)) == Keys(f) && Ordered(NormalizeFields(f)) && ProperFields(NormalizeFields(f))
    ensures forall k :: k in Keys(f) ==> Get(NormalizeFields(f), k) == Normalize(Get(f, k))
  {
    match f
    case End =>
    case Field(k, v, rest) =>
      NormalizedFields(rest);
      NormalizedProper(v);
      InsertKeeps(k, Normalize(v), NormalizeFields(rest));
  }

  lemma {:induction false} NormalizedItems(items: Items)
    requires ProperItems(items)
    ensures ProperItems(NormalizeItems(items))
  {
    match items
    case Nil =>
    case Cons(head, tail) =>
      NormalizedProper(head);
      NormalizedItems(tail);
  }

  lemma {:induction false} NormalizedProper(j: Json)
    requires Proper(j)
    ensures Proper(Normalize(j))
  {
    match j
    case Arr(items) => NormalizedItems(items);
    case Obj(fields) => NormalizedFields(fields);
    case _ =>
  }

  lemma {:induction false} OrderedUnique(f: Fields, g: Fields)
    requires Ordered(f) && Ordered(g) && Keys(f) == Keys(g) && ProperFields(f) && ProperFields(g)
    requires forall k :: k in Keys(f) ==> Get(f, k) == Get(g, k)
    ensures f == g
  {
    if f.Field? {
      assert f.key in Keys(g);
      assert g.key in Keys(f);
      KeyOrder(f.key, g.key, f.key);
      assert f.key == g.key;
      assert Get(f, f.key) == Get(g, f.key);
      assert Keys(f.rest) == Keys(f) - {f.key} && Keys(g.rest) == Keys(g) - {f.key};
      forall k | k in Keys(f.rest) ensures Get(f.rest, k) == Get(g.rest, k) {
        assert Get(f, k) == Get(g, k);
      }
      OrderedUnique(f.rest, g.rest);
    }
  }

  // ---------------------------------------------------------------------------
  // Normalization decides equality up to key order

  lemma {:induction false} SameNormalizes(a: Json, b: Json)
    requires Proper(a) && Proper(b)
    ensures Same(a, b) <==> Normalize(a) == Normalize(b)
  {
    match a
    case Arr(items) => if b.Arr? { SameItemsNormalize(items, b.items); }
    case Obj(fields) =>
      if b.Obj? {
        NormalizedFields(fields);
        NormalizedFields(b.fields);
        if Keys(fields) == Keys(b.fields) {
          SameFieldsNormalize(fields, b.fields);
          if SameFields(fields, b.fields) {
            OrderedUnique(NormalizeFields(fields), NormalizeFields(b.fields));
          }
        }
      }
    case _ =>
  }

  lemma {:induction false} SameItemsNormalize(a: Items, b: Items)
    requires ProperItems(a) && ProperItems(b)
    ensures SameItems(a, b) <==> NormalizeItems(a) == NormalizeItems(b)
  {
    if a.Cons? && b.Cons? {
      SameNormalizes(a.head, b.head);
      SameItemsNormalize(a.tail, b.tail);
    }
  }

  lemma {:induction false} GetProper(f: Fields, k: string)
    requires ProperFields(f) && k in Keys(f)
    ensures Proper(Get(f, k))
  {
    if f.key != k { GetProper(f.rest, k); }
  }

  lemma {:induction false} SameFieldsNormalize(a: Fields, b: Fields)
    requires ProperFields(a) && ProperFields(b) && Keys(a) <= Keys(b)
    ensures SameFields(a, b) <==> forall k :: k in Keys(a) ==> Normalize(Get(a, k)) == Normalize(Get(b, k))
  {
    match a
    case End =>
    case Field(k, v, rest) =>
      GetProper(b, k);
      SameNormalizes(v, Get(b, k));
      SameFieldsNormalize(rest, b);
      assert Get(a, k) == v;
      assert forall x :: x in Keys(rest) ==> Get(a, x) == Get(rest, x);
  }

  // ---------------------------------------------------------------------------
  // Text (JSON.stringify)

  const Q: char := '"'
  const BACKSLASH: char := '\\'

  function HexDigit(n: int): char
    requires 0 <= n < 16
  {
    if n < 10 then ('0' as int + n) as char else ('a' as int + n - 10) as char
  }

  /** One character of a string literal. */
  function Escape(c: char): (text: string)
    ensures text != "" && text[0] != Q
  {
    if c == Q || c == BACKSLASH then [BACKSLASH, c]
    else if c == '\U{0008}' then [BACKSLASH, 'b']
    else if c == '\U{000C}' then [BACKSLASH, 'f']
    else if c == '\n' then [BACKSLASH, 'n']
    else if c == '\r' then [BACKSLASH, 'r']
    else if c == '\t' then [BACKSLASH, 't']
    else if c < ' ' then [BACKSLASH, 'u', '0', '0', HexDigit(c as int / 16), HexDigit(c as int % 16)]
    else [c]
  }

  /** The rest of a string literal, its closing quote, and what follows it. */
  function WriteString(s: string, rest: string): string {
    if s == "" then [Q] + rest else Escape(s[0]) + WriteString(s[1..], rest)
  }

  /** The text of j followed by `rest`. */
  function Write(j: Json, rest: string): string {
    match j
    case Null => "null" + rest
    case Bool(b) => (if b then "true" else "false") + rest
    case Num(t) => t + rest
    case Str(s) => [Q] + WriteString(s, rest)
    case Arr(items) =>
      ['['] + (match items case Nil => [']'] + rest case Cons(head, tail) => Write(head, WriteItems(tail, rest)))
    case Obj(fields) =>
      ['{'] + (match fields
               case End => ['}'] + rest
               case Field(k, v, more) => [Q] + WriteString(k, [':'] + Write(v, WriteFields(more, rest))))
  }

  function WriteItems(items: Items, rest: string): string {
    match items
    case Nil => [']'] + rest
    case Cons(head, tail) => [','] + Write(head, WriteItems(tail, rest))
  }

  function WriteFields(f: Fields, rest: string): string {
    match f
    case End => ['}'] + rest
    case Field(k, v, more) => [','] + ([Q] + WriteString(k, [':'] + Write(v, WriteFields(more, rest))))
  }

  function StableStringify(j: Json): string {
    Write(Normalize(j), "")
  }

  // ---------------------------------------------------------------------------
  // Text determines the value

  /** What can follow a value: nothing, or a character that no value contains unquoted. */
  predicate Delimited(x: string) {
    x == "" || x[0] == ',' || x[0] == ']' || x[0] == '}'
  }

  lemma Cancel(p: string, x: string, q: string, y: string)
    requires p + x == q + y && |p| == |q|
    ensures p == q && x == y
  {
    assert p == (p + x)[..|p|] && q == (q + y)[..|p|];
    assert x == (p + x)[|p|..] && y == (q + y)[|p|..];
  }

  function HexValue(c: char): int {
    if c < 'a' then c as int - '0' as int else c as int - 'a' as int + 10
  }

  /** Reads back the character code that begins an escaped text. */
  function FirstCode(text: string): int
    requires text != "" && (text[0] == BACKSLASH ==> |text| >= 2 && (text[1] == 'u' ==> |text| >= 6))
  {
    if text[0] != BACKSLASH then text[0] as int
    else if text[1] == 'b' then 8
    else if text[1] == 'f' then 12
    else if text[1] == 'n' then 10
    else if text[1] == 'r' then 13
    else if text[1] == 't' then 9
    else if text[1] == 'u' then 16 * HexValue(text[4]) + HexValue(text[5])
    else text[1] as int
  }

  lemma EscapeReadsBack(c: char, x: string)
    ensures var text := Escape(c) + x;
      && (text[0] == BACKSLASH ==> |text| >= 2 && (text[1] == 'u' ==> |text| >= 6))
      && FirstCode(text) == c as int
  {
  }

  lemma EscapeSeparates(c: char, d: char, x: string, y: string)
    requires Escape(c) + x == Escape(d) + y
    ensures c == d && x == y
  {
    EscapeReadsBack(c, x);
    EscapeReadsBack(d, y);
    assert c as int == d as int;
    Cancel(Escape(c), x, Escape(d), y);
  }

  lemma {:induction false} StringSeparates(a: string, b: string, x: string, y: string)
    requires WriteString(a, x) == WriteString(b, y)
    ensures a == b && x == y
  {
    if a == "" || b == "" {
      StringEnds(a, x);
      StringEnds(b, y);
      Cancel([Q], x, [Q], y);
    } else {
      EscapeSeparates(a[0], b[0], WriteString(a[1..], x), WriteString(b[1..], y));
      StringSeparates(a[1..], b[1..], x, y);
      assert a == [a[0]] + a[1..] && b == [b[0]] + b[1..];
    }
  }

  lemma StringEnds(s: string, rest: string)
    ensures WriteString(s, rest) != "" && (WriteString(s, rest)[0] == Q <==> s == "")
  {
  }

  lemma NumeralSeparates(a: string, b: string, x: string, y: string)
    requires forall i :: 0 <= i < |a| ==> IsNumberChar(a[i])
    requires forall i :: 0 <= i < |b| ==> IsNumberChar(b[i])
    requires Delimited(x) && Delimited(y) && a + x == b + y
    ensures a == b && x == y
  {
    var text := a + x;
    assert forall i :: 0 <= i < |b| ==> text[i] == (b + y)[i] && IsNumberChar(text[i]);
    assert forall i :: 0 <= i < |a| ==> IsNumberChar(text[i]);
    assert x != "" ==> text[|a|] == x[0];
    assert y != "" ==> text[|b|] == (b + y)[|b|] == y[0];
    Cancel(a, x, b, y);
  }

  /** The character a value's text begins with tells its kind. */
  lemma TextStart(j: Json, rest: string)
    requires Proper(j)
    ensures var text := Write(j, rest);
      && text != ""
      && match j
         case Null => text[0] == 'n'
         case Bool(b) => text[0] == (if b then 't' else 'f')
         case Num(t) => text[0] == t[0] && IsNumberChar(text[0])
         case Str(_) => text[0] == Q
         case Arr(_) => text[0] == '['
         case Obj(_) => text[0] == '{'
  {
  }

  lemma TailStart(items: Items, f: Fields, rest: string)
    ensures Delimited(WriteItems(items, rest)) && Delimited(WriteFields(f, rest))
    ensures WriteItems(items, rest) != "" && (WriteItems(items, rest)[0] == ',' <==> items.Cons?)
    ensures WriteFields(f, rest) != "" && (WriteFields(f, rest)[0] == ',' <==> f.Field?)
  {
  }

  /** No two values have texts that agree up to a delimiter. */
  lemma {:induction false} TextSeparates(a: Json, b: Json, x: string, y: string)
    requires Proper(a) && Proper(b) && Delimited(x) && Delimited(y) && Write(a, x) == Write(b, y)
    ensures a == b && x == y
    decreases a, 2
  {
    TextStart(a, x);
    TextStart(b, y);
    match a
    case Null => Cancel("null", x, "null", y);
    case Bool(v) => Cancel(if v then "true" else "false", x, if b.b then "true" else "false", y);
    case Num(t) => NumeralSeparates(t, b.text, x, y);
    case Str(s) =>
      Cancel([Q], WriteString(s, x), [Q], WriteString(b.s, y));
      StringSeparates(s, b.s, x, y);
    case Arr(items) => ArraySeparates(items, b.items, x, y);
    case Obj(fields) => ObjectSeparates(fields, b.fields, x, y);
  }

  lemma {:induction false} ArraySeparates(a: Items, b: Items, x: string, y: string)
    requires ProperItems(a) && ProperItems(b) && Write(Arr(a), x) == Write(Arr(b), y)
    ensures a == b && x == y
    decreases a, 1
  {
    if a.Cons? { TextStart(a.head, WriteItems(a.tail, x)); }
    if b.Cons? { TextStart(b.head, WriteItems(b.tail, y)); }
    var left := match a case Nil => [']'] + x case Cons(head, tail) => Write(head, WriteItems(tail, x));
    var right := match b case Nil => [']'] + y case Cons(head, tail) => Write(head, WriteItems(tail, y));
    Cancel(['['], left, ['['], right);
    if a.Nil? {
      Cancel([']'], x, [']'], y);
    } else {
      TailStart(a.tail, End, x);
      TailStart(b.tail, End, y);
      TextSeparates(a.head, b.head, WriteItems(a.tail, x), WriteItems(b.tail, y));
      ItemsSeparate(a.tail, b.tail, x, y);
    }
  }

  lemma {:induction false} ItemsSeparate(a: Items, b: Items, x: string, y: string)
    requires ProperItems(a) && ProperItems(b) && WriteItems(a, x) == WriteItems(b, y)
    ensures a == b && x == y
    decreases a, 0
  {
    TailStart(a, End, x);
    TailStart(b, End, y);
    if a.Nil? {
      Cancel([']'], x, [']'], y);
    } else {
      Cancel([','], Write(a.head, WriteItems(a.tail, x)), [','], Write(b.head, WriteItems(b.tail, y)));
      TailStart(a.tail, End, x);
      TailStart(b.tail, End, y);
      TextSeparates(a.head, b.head, WriteItems(a.tail, x), WriteItems(b.tail, y));
      ItemsSeparate(a.tail, b.tail, x, y);
    }
  }

  lemma {:induction false} ObjectSeparates(a: Fields, b: Fields, x: string, y: string)
    requires ProperFields(a) && ProperFields(b) && Write(Obj(a), x) == Write(Obj(b), y)
    ensures a == b && x == y
    decreases a, 1
  {
    var left := if a.End? then ['}'] + x else [Q] + WriteString(a.key, [':'] + Write(a.value, WriteFields(a.rest, x)));
    var right := if b.End? then ['}'] + y else [Q] + WriteString(b.key, [':'] + Write(b.value, WriteFields(b.rest, y)));
    Cancel(['{'], left, ['{'], right);
    assert left[0] == (if a.End? then '}' else Q) && right[0] == (if b.End? then '}' else Q);
    if a.End? {
      Cancel(['}'], x, ['}'], y);
    } else {
      MemberSeparates(a, b, x, y);
    }
  }

  lemma {:induction false} MemberSeparates(a: Fields, b: Fields, x: string, y: string)
    requires a.Field? && b.Field? && ProperFields(a) && ProperFields(b)
    requires [Q] + WriteString(a.key, [':'] + Write(a.value, WriteFields(a.rest, x)))
          == [Q] + WriteString(b.key, [':'] + Write(b.value, WriteFields(b.rest, y)))
    ensures a == b && x == y
    decreases a, 0
  {
    var left, right := [':'] + Write(a.value, WriteFields(a.rest, x)), [':'] + Write(b.value, WriteFields(b.rest, y));
    Cancel([Q], WriteString(a.key, left), [Q], WriteString(b.key, right));
    StringSeparates(a.key, b.key, left, right);
    Cancel([':'], Write(a.value, WriteFields(a.rest, x)), [':'], Write(b.value, WriteFields(b.rest, y)));
    TailStart(Nil, a.rest, x);
    TailStart(Nil, b.rest, y);
    TextSeparates(a.value, b.value, WriteFields(a.rest, x), WriteFields(b.rest, y));
    FieldsSeparate(a.rest, b.rest, x, y);
  }

  lemma {:induction false} FieldsSeparate(a: Fields, b: Fields, x: string, y: string)
    requires ProperFields(a) && ProperFields(b) && WriteFields(a, x) == WriteFields(b, y)
    ensures a == b && x == y
    decreases a, 1
  {
    TailStart(Nil, a, x);
    TailStart(Nil, b, y);
    if a.End? {
      Cancel(['}'], x, ['}'], y);
    } else {
      Cancel([','], [Q] + WriteString(a.key, [':'] + Write(a.value, WriteFields(a.rest, x))),
             [','], [Q] + WriteString(b.key, [':'] + Write(b.value, WriteFields(b.rest, y))));
      MemberSeparates(a, b, x, y);
    }
  }

  /** Two values have the same canonical text exactly when they differ in nothing but the order of
      object keys, at any depth. */
  lemma StableStringifyDecides(a: Json, b: Json)
    requires Proper(a) && Proper(b)
    ensures StableStringify(a) == StableStringify(b) <==> Same(a, b)
  {
    SameNormalizes(a, b);
    NormalizedProper(a);
    NormalizedProper(b);
    if StableStringify(a) == StableStringify(b) {
      TextSeparates(Normalize(a), Normalize(b), "", "");
    }
  }
}
