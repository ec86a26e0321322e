/** JSON values and the two canonical forms the digests are taken over: the
    agent's `canonicalJson` and the host's `stableStringify`. Text is kept as a
    sequence of JSON lexemes, and a string of the shape `sha256:<64 hex>` is
    named by the text it is the hash of, which is how an injective hash is
    assumed. */
module Json {

  datatype Tok =
    | OpenBrace | CloseBrace | OpenBracket | CloseBracket | Comma | Colon
    | UndefinedText
    | NullText
    | BoolText(b: bool)
    | NumText(n: int)
    | StrText(s: string)
    | DigestText(preimage: seq<Tok>)

  datatype Json =
    | Undefined
    | Null
    | Bool(b: bool)
    | Num(n: int)
    | Str(s: string)
    | Digest(preimage: seq<Tok>)
    | Arr(items: seq<Json>)
    | Obj(fields: map<string, Json>)

  // ---------- key order ----------

  predicate Less(a: string, b: string) {
    if b == "" then false
    else if a == "" then true
    else if a[0] != b[0] then a[0] < b[0]
    else Less(a[1..], b[1..])
  }

  lemma LessTotal(a: string, b: string)
    ensures a == b || Less(a, b) || Less(b, a)
    ensures !(Less(a, b) && Less(b, a))
    ensures !Less(a, a)
  {
    if a != "" && b != "" && a[0] == b[0] {
      LessTotal(a[1..], b[1..]);
      assert a == [a[0]] + a[1..] && b == [b[0]] + b[1..];
    }
    if a != "" { LessTotal(a[1..], a[1..]); }
  }

  lemma {:induction a, b, c} LessTransitive(a: string, b: string, c: string)
    requires Less(a, b) && Less(b, c)
    ensures Less(a, c)
  {
  }

  predicate IsLeast(m: string, keys: set<string>) {
    m in keys && forall k :: k in keys ==> k == m || Less(m, k)
  }

  lemma LeastExists(keys: set<string>) returns (m: string)
    requires keys != {}
    ensures IsLeast(m, keys)
  {
    var k :| k in keys;
    if keys == {k} { return k; }
    var rest := keys - {k};
    assert keys == rest + {k};
    var r := LeastExists(rest);
    LessTotal(r, k);
    if Less(r, k) { return r; }
    m := k;
    forall j | j in keys && j != k ensures Less(k, j) {
      if j != r { LessTransitive(k, r, j); }
    }
  }

  lemma LeastUnique(keys: set<string>)
    ensures forall m, n :: IsLeast(m, keys) && IsLeast(n, keys) ==> m == n
  {
    forall m, n | IsLeast(m, keys) && IsLeast(n, keys) ensures m == n { LessTotal(m, n); }
  }

  /** `Object.keys(value).sort()`. */
  function SortedKeys(keys: set<string>): (r: seq<string>)
    ensures forall k :: k in keys <==> k in r
    ensures |r| == |keys|
  {
    if keys == {} then []
    else
      assert exists m :: IsLeast(m, keys) by { var m := LeastExists(keys); }
      LeastUnique(keys);
      var m :| m in keys && IsLeast(m, keys);
      [m] + SortedKeys(keys - {m})
  }

  // ---------- the two canonical forms ----------

  function ScalarText(v: Json): seq<Tok>
    requires !v.Arr? && !v.Obj?
  {
    match v
    case Undefined => [UndefinedText]
    case Null => [NullText]
    case Bool(b) => [BoolText(b)]
    case Num(n) => [NumText(n)]
    case Str(s) => [StrText(s)]
    case Digest(p) => [DigestText(p)]
  }

  /** `canonicalJson`: an undefined member is written out, an undefined item
      joins as empty text. */
  function AgentCanon(v: Json): seq<Tok>
    decreases v, 1, 0
  {
    match v
    case Arr(items) => [OpenBracket] + AgentItems(v, 0)
    case Obj(fields) => [OpenBrace] + AgentFields(v, SortedKeys(fields.Keys))
    case _ => ScalarText(v)
  }

  /** The items from `i` on and the closing bracket. */
  function AgentItems(v: Json, i: nat): seq<Tok>
    requires v.Arr? && i <= |v.items|
    decreases v, 0, |v.items| - i
  {
    if i == |v.items| then [CloseBracket]
    else
      (if i == 0 then [] else [Comma])
      + ((if v.items[i].Undefined? then [] else AgentCanon(v.items[i]))
         + AgentItems(v, i + 1))
  }

  /** The members named by `keys` and the closing brace. */
  function AgentFields(v: Json, keys: seq<string>): seq<Tok>
    requires v.Obj? && forall k :: k in keys ==> k in v.fields
    decreases v, 0, |keys|
  {
    if keys == [] then [CloseBrace]
    else
      [StrText(keys[0]), Colon]
      + (AgentCanon(v.fields[keys[0]])
         + ((if |keys| == 1 then [] else [Comma]) + AgentFields(v, keys[1..])))
  }

  /** The members `stableStringify` and JSON transport keep. */
  function DefinedFields(fields: map<string, Json>): map<string, Json> {
    map k | k in fields && !fields[k].Undefined? :: fields[k]
  }

  /** `stableStringify`: undefined members are left out. */
  function HostCanon(v: Json): seq<Tok>
    decreases v, 1, 0
  {
    match v
    case Arr(items) => [OpenBracket] + HostItems(v, 0)
    case Obj(fields) => [OpenBrace] + HostFields(v, SortedKeys(DefinedFields(fields).Keys))
    case _ => ScalarText(v)
  }

  /** The items from `i` on and the closing bracket. */
  function HostItems(v: Json, i: nat): seq<Tok>
    requires v.Arr? && i <= |v.items|
    decreases v, 0, |v.items| - i
  {
    if i == |v.items| then [CloseBracket]
    else
      (if i == 0 then [] else [Comma])
      + ((if v.items[i].Undefined? then [] else HostCanon(v.items[i]))
         + HostItems(v, i + 1))
  }

  /** The members named by `keys` and the closing brace. */
  function HostFields(v: Json, keys: seq<string>): seq<Tok>
    requires v.Obj? && forall k :: k in keys ==> k in v.fields
    decreases v, 0, |keys|
  {
    if keys == [] then [CloseBrace]
    else
      [StrText(keys[0]), Colon]
      + (HostCanon(v.fields[keys[0]])
         + ((if |keys| == 1 then [] else [Comma]) + HostFields(v, keys[1..])))
  }

  // ---------- JSON transport ----------

  /** `JSON.parse(JSON.stringify(v))`: undefined members vanish, undefined items become null. */
  function Transport(v: Json): Json {
    match v
    case Arr(items) =>
      Arr(seq(|items|, i requires 0 <= i < |items| =>
        if items[i].Undefined? then Null else Transport(items[i])))
    case Obj(fields) =>
      Obj(map k | k in fields && !fields[k].Undefined? :: Transport(fields[k]))
    case _ => v
  }

  /** No undefined member in any object of `v`. */
  predicate NoUndefinedMember(v: Json) {
    match v
    case Arr(items) => forall i :: 0 <= i < |items| ==> NoUndefinedMember(items[i])
    case Obj(fields) => forall k :: k in fields ==> !fields[k].Undefined? && NoUndefinedMember(fields[k])
    case _ => true
  }

  /** No undefined value anywhere inside `v`, `v` itself included. */
  predicate NoUndefined(v: Json) {
    match v
    case Undefined => false
    case Arr(items) => forall i :: 0 <= i < |items| ==> NoUndefined(items[i])
    case Obj(fields) => forall k :: k in fields ==> NoUndefined(fields[k])
    case _ => true
  }

  lemma {:induction false} TransportKeeps(v: Json)
    requires NoUndefined(v)
    ensures Transport(v) == v
  {
    match v
    case Arr(items) =>
      forall i | 0 <= i < |items| ensures Transport(items[i]) == items[i] { TransportKeeps(items[i]); }
      assert Transport(v).items == items;
    case Obj(fields) =>
      forall k | k in fields ensures Transport(fields[k]) == fields[k] { TransportKeeps(fields[k]); }
      assert Transport(v).fields == fields;
    case _ =>
  }

  lemma {:induction false} TransportDefines(v: Json)
    requires !v.Undefined?
    ensures NoUndefined(Transport(v))
  {
    match v
    case Arr(items) =>
      forall i | 0 <= i < |items| && !items[i].Undefined? ensures NoUndefined(Transport(items[i])) { TransportDefines(items[i]); }
    case Obj(fields) =>
      forall k | k in fields && !fields[k].Undefined? ensures NoUndefined(Transport(fields[k])) { TransportDefines(fields[k]); }
    case _ =>
  }

  // ---------- without undefined the two forms are one ----------

  lemma {:induction false} CanonsAgree(v: Json)
    requires NoUndefined(v)
    ensures AgentCanon(v) == HostCanon(v)
    decreases v, 1, 0
  {
    match v
    case Arr(items) => ItemsAgree(v, 0);
    case Obj(fields) =>
      assert DefinedFields(fields) == fields;
      FieldsAgree(v, SortedKeys(fields.Keys));
    case _ =>
  }

  lemma {:induction false} ItemsAgree(v: Json, i: nat)
    requires v.Arr? && NoUndefined(v) && i <= |v.items|
    ensures AgentItems(v, i) == HostItems(v, i)
    decreases v, 0, |v.items| - i
  {
    if i < |v.items| {
      CanonsAgree(v.items[i]);
      ItemsAgree(v, i + 1);
    }
  }

  lemma {:induction false} FieldsAgree(v: Json, keys: seq<string>)
    requires v.Obj? && NoUndefined(v) && forall k :: k in keys ==> k in v.fields
    ensures AgentFields(v, keys) == HostFields(v, keys)
    decreases v, 0, |keys|
  {
    if keys != [] {
      CanonsAgree(v.fields[keys[0]]);
      FieldsAgree(v, keys[1..]);
    }
  }

  // ---------- an undefined member shows in the agent's text only ----------

  lemma {:induction false} UndefinedShows(v: Json)
    requires !NoUndefinedMember(v)
    ensures UndefinedText in AgentCanon(v)
    decreases v, 1, 0
  {
    match v
    case Arr(items) =>
      var i :| 0 <= i < |items| && !NoUndefinedMember(items[i]);
      ItemsShow(v, i, 0);
    case Obj(fields) =>
      var k :| k in fields && (fields[k].Undefined? || !NoUndefinedMember(fields[k]));
      FieldsShow(v, k, SortedKeys(fields.Keys));
    case _ =>
  }

  lemma {:induction false} ItemsShow(v: Json, at: nat, i: nat)
    requires v.Arr? && i <= at < |v.items| && !NoUndefinedMember(v.items[at])
    ensures UndefinedText in AgentItems(v, i)
    decreases v, 0, |v.items| - i
  {
    if i == at { UndefinedShows(v.items[at]); } else { ItemsShow(v, at, i + 1); }
  }

  lemma {:induction false} FieldsShow(v: Json, key: string, keys: seq<string>)
    requires v.Obj? && key in keys && forall k :: k in keys ==> k in v.fields
    requires v.fields[key].Undefined? || !NoUndefinedMember(v.fields[key])
    ensures UndefinedText in AgentFields(v, keys)
    decreases v, 0, |keys|
  {
    if keys[0] == key {
      if !v.fields[key].Undefined? { UndefinedShows(v.fields[key]); }
    } else {
      FieldsShow(v, key, keys[1..]);
    }
  }

  lemma {:induction false} HostNeverShows(v: Json)
    requires NoUndefined(v)
    ensures UndefinedText !in HostCanon(v)
    decreases v, 1, 0
  {
    match v
    case Arr(items) => HostItemsNeverShow(v, 0);
    case Obj(fields) => HostFieldsNeverShow(v, SortedKeys(DefinedFields(fields).Keys));
    case _ =>
  }

  lemma {:induction false} HostItemsNeverShow(v: Json, i: nat)
    requires v.Arr? && NoUndefined(v) && i <= |v.items|
    ensures UndefinedText !in HostItems(v, i)
    decreases v, 0, |v.items| - i
  {
    if i < |v.items| {
      HostNeverShows(v.items[i]);
      HostItemsNeverShow(v, i + 1);
    }
  }

  lemma {:induction false} HostFieldsNeverShow(v: Json, keys: seq<string>)
    requires v.Obj? && NoUndefined(v) && forall k :: k in keys ==> k in v.fields
    ensures UndefinedText !in HostFields(v, keys)
    decreases v, 0, |keys|
  {
    if keys != [] {
      HostNeverShows(v.fields[keys[0]]);
      HostFieldsNeverShow(v, keys[1..]);
    }
  }

  // ---------- an undefined item shortens the agent's text ----------

  /** Undefined items only: the host's text of the transported value is longer
      by one lexeme for each, so the texts differ as soon as there is one. */
  lemma {:induction false} ItemsShorten(v: Json)
    requires !v.Undefined? && NoUndefinedMember(v)
    ensures |AgentCanon(v)| <= |HostCanon(Transport(v))|
    ensures !NoUndefined(v) ==> |AgentCanon(v)| < |HostCanon(Transport(v))|
    decreases v, 1, 0
  {
    match v
    case Arr(items) => ItemsShortenFrom(v, 0);
    case Obj(fields) =>
      var w := Transport(v);
      TransportDefines(v);
      assert DefinedFields(w.fields) == w.fields;
      assert w.fields.Keys == fields.Keys;
      FieldsShortenFrom(v, SortedKeys(fields.Keys));
    case _ =>
  }

  lemma {:induction false} ItemsShortenFrom(v: Json, i: nat)
    requires v.Arr? && NoUndefinedMember(v) && i <= |v.items|
    ensures |AgentItems(v, i)| <= |HostItems(Transport(v), i)|
    ensures (exists j :: i <= j < |v.items| && !NoUndefined(v.items[j]))
      ==> |AgentItems(v, i)| < |HostItems(Transport(v), i)|
    decreases v, 0, |v.items| - i
  {
    if i < |v.items| {
      if !v.items[i].Undefined? {
        ItemsShorten(v.items[i]);
        TransportDefines(v.items[i]);
      }
      ItemsShortenFrom(v, i + 1);
    }
  }

  lemma {:induction false} FieldsShortenFrom(v: Json, keys: seq<string>)
    requires v.Obj? && NoUndefinedMember(v) && forall k :: k in keys ==> k in v.fields
    ensures forall k :: k in keys ==> k in Transport(v).fields
    ensures |AgentFields(v, keys)| <= |HostFields(Transport(v), keys)|
    ensures (exists k :: k in keys && !NoUndefined(v.fields[k]))
      ==> |AgentFields(v, keys)| < |HostFields(Transport(v), keys)|
    decreases v, 0, |keys|
  {
    if keys != [] {
      ItemsShorten(v.fields[keys[0]]);
      FieldsShortenFrom(v, keys[1..]);
    }
  }

  /** The agent's text before transport is the host's text after it exactly
      for the values that hold no undefined. */
  lemma CanonicalAgreement(v: Json)
    requires !v.Undefined?
    ensures AgentCanon(v) == HostCanon(Transport(v)) <==> NoUndefined(v)
  {
    if NoUndefined(v) {
      TransportKeeps(v);
      CanonsAgree(v);
    } else if !NoUndefinedMember(v) {
      UndefinedShows(v);
      TransportDefines(v);
      HostNeverShows(Transport(v));
    } else {
      ItemsShorten(v);
    }
  }

  // ---------- the canonical text determines the value ----------

  lemma CanonStarts(v: Json)
    requires NoUndefined(v)
    ensures AgentCanon(v) != []
    ensures AgentCanon(v)[0] !in {CloseBracket, CloseBrace, Comma, Colon}
  {
  }

  lemma SplitPrefix(p: seq<Tok>, q: seq<Tok>, t: seq<Tok>)
    requires p + q <= t
    ensures p <= t && q <= t[|p|..]
  {
    assert p == (p + q)[..|p|] && q == (p + q)[|p|..];
  }

  /** Two canonical texts that start the same text are texts of the same value. */
  lemma {:induction false} CanonicalPrefixFree(a: Json, b: Json, t: seq<Tok>)
    requires NoUndefined(a) && NoUndefined(b)
    requires AgentCanon(a) <= t && AgentCanon(b) <= t
    ensures a == b
    decreases a, 1, 0
  {
    assert AgentCanon(a)[0] == t[0] == AgentCanon(b)[0] by { CanonStarts(a); CanonStarts(b); }
    if a.Arr? {
      SplitPrefix([OpenBracket], AgentItems(a, 0), t);
      SplitPrefix([OpenBracket], AgentItems(b, 0), t);
      ItemsPrefixFree(a, b, 0, t[1..]);
    } else if a.Obj? {
      var ka, kb := SortedKeys(a.fields.Keys), SortedKeys(b.fields.Keys);
      SplitPrefix([OpenBrace], AgentFields(a, ka), t);
      SplitPrefix([OpenBrace], AgentFields(b, kb), t);
      FieldsPrefixFree(a, b, ka, kb, t[1..]);
      assert forall k :: k in a.fields.Keys <==> k in b.fields.Keys;
      assert a.fields == b.fields;
    }
  }

  lemma {:induction false} ItemsPrefixFree(a: Json, b: Json, i: nat, t: seq<Tok>)
    requires a.Arr? && b.Arr? && NoUndefined(a) && NoUndefined(b)
    requires i <= |a.items| && i <= |b.items|
    requires AgentItems(a, i) <= t && AgentItems(b, i) <= t
    ensures |a.items| == |b.items|
    ensures forall j :: i <= j < |a.items| ==> a.items[j] == b.items[j]
    decreases a, 0, |a.items| - i
  {
    if i == |a.items| {
      ItemsEnd(a, b, i, t);
    } else if i == |b.items| {
      ItemsEnd(b, a, i, t);
    } else {
      var u := ItemsStep(a, b, i, t);
      ItemsPrefixFree(a, b, i + 1, u);
    }
  }

  lemma ItemsEnd(a: Json, b: Json, i: nat, t: seq<Tok>)
    requires a.Arr? && b.Arr? && NoUndefined(b)
    requires i == |a.items| <= |b.items|
    requires AgentItems(a, i) <= t && AgentItems(b, i) <= t
    ensures |a.items| == |b.items|
  {
    if i < |b.items| { ItemsHead(b, i, t); }
  }

  lemma {:induction false} ItemsStep(a: Json, b: Json, i: nat, t: seq<Tok>) returns (u: seq<Tok>)
    requires a.Arr? && b.Arr? && NoUndefined(a) && NoUndefined(b)
    requires i < |a.items| && i < |b.items|
    requires AgentItems(a, i) <= t && AgentItems(b, i) <= t
    ensures a.items[i] == b.items[i]
    ensures AgentItems(a, i + 1) <= u && AgentItems(b, i + 1) <= u
    decreases a, 0, |a.items| - i, 0
  {
    ItemsHead(a, i, t);
    ItemsHead(b, i, t);
    var w := t[if i == 0 then 0 else 1..];
    assert NoUndefined(a.items[i]) && NoUndefined(b.items[i]);
    CanonicalPrefixFree(a.items[i], b.items[i], w);
    u := w[|AgentCanon(a.items[i])|..];
  }

  lemma ItemsHead(a: Json, i: nat, t: seq<Tok>)
    requires a.Arr? && NoUndefined(a) && i < |a.items|
    requires AgentItems(a, i) <= t
    ensures t != [] && t[0] != CloseBracket
    ensures i != 0 ==> t[0] == Comma
    ensures var u := t[if i == 0 then 0 else 1..];
      var c := AgentCanon(a.items[i]);
      c <= u && AgentItems(a, i + 1) <= u[|c|..]
  {
    var sep := if i == 0 then [] else [Comma];
    var c := AgentCanon(a.items[i]);
    CanonStarts(a.items[i]);
    SplitPrefix(sep, c + AgentItems(a, i + 1), t);
    SplitPrefix(c, AgentItems(a, i + 1), t[|sep|..]);
  }

  lemma {:induction false} FieldsPrefixFree(a: Json, b: Json, ka: seq<string>, kb: seq<string>, t: seq<Tok>)
    requires a.Obj? && b.Obj? && NoUndefined(a) && NoUndefined(b)
    requires forall k :: k in ka ==> k in a.fields
    requires forall k :: k in kb ==> k in b.fields
    requires AgentFields(a, ka) <= t && AgentFields(b, kb) <= t
    ensures ka == kb
    ensures forall k :: k in ka ==> a.fields[k] == b.fields[k]
    decreases a, 0, |ka|
  {
    if ka != [] { FieldsHead(a, ka, t); }
    if kb != [] { FieldsHead(b, kb, t); }
    if ka != [] && kb != [] {
      CanonicalPrefixFree(a.fields[ka[0]], b.fields[kb[0]], t[2..]);
      var u := t[2..][|AgentCanon(a.fields[ka[0]])|..];
      assert |ka| == 1 <==> |kb| == 1;
      FieldsPrefixFree(a, b, ka[1..], kb[1..], u[if |ka| == 1 then 0 else 1..]);
      assert ka == [ka[0]] + ka[1..] && kb == [kb[0]] + kb[1..];
    }
  }

  lemma FieldsHead(a: Json, ka: seq<string>, t: seq<Tok>)
    requires a.Obj? && NoUndefined(a) && ka != []
    requires forall k :: k in ka ==> k in a.fields
    requires AgentFields(a, ka) <= t
    ensures |t| >= 2 && t[0] == StrText(ka[0])
    ensures var c := AgentCanon(a.fields[ka[0]]);
      c <= t[2..] &&
      var u := t[2..][|c|..];
      u != [] && (|ka| == 1 ==> u[0] == CloseBrace) && (|ka| != 1 ==> u[0] == Comma) &&
      AgentFields(a, ka[1..]) <= u[if |ka| == 1 then 0 else 1..]
  {
    var head := [StrText(ka[0]), Colon];
    var c := AgentCanon(a.fields[ka[0]]);
    var sep := if |ka| == 1 then [] else [Comma];
    var rest := AgentFields(a, ka[1..]);
    SplitPrefix(head, c + (sep + rest), t);
    SplitPrefix(c, sep + rest, t[2..]);
    SplitPrefix(sep, rest, t[2..][|c|..]);
    if |ka| == 1 { assert ka[1..] == []; }
  }

  /** One canonical text, one value. */
  lemma CanonicalInjective(a: Json, b: Json)
    requires NoUndefined(a) && NoUndefined(b)
    ensures AgentCanon(a) == AgentCanon(b) <==> a == b
  {
    if AgentCanon(a) == AgentCanon(b) { CanonicalPrefixFree(a, b, AgentCanon(a)); }
  }
}
