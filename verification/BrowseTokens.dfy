/** Continuation tokens for mutable browsing. */
module BrowseTokens {
  import opened Wrappers
  import opened Bytes
  import opened Base64

  /** The keys of a dictionary: those the codec knows, and any other text. */
  datatype Key = ExpiresAt | Operation | Position | Principal | Selectors | Version | Bytes | Other(text: string)

  /** The Python values that positions and payloads are made of. */
  datatype Value =
    | VNone
    | VBool(b: bool)
    | VInt(i: int)
    | VFloat(repr: string)
    | VStr(s: string)
    | VBytes(bytes: seq<Byte>)
    | VList(items: seq<Value>)
    | VDict(fields: map<Key, Value>)

  datatype Error =
    | WeakKey
    | BadLifetime
    | BadOperation
    | TooLarge
    | BadToken
    | BadEncoding
    | NotComparable
    | Tampered
    | BadPayload
    | OtherOperation
    | BadExpiry
    | Expired
    | OtherPrincipal
    | OtherSelectors
    | BadPosition
    | NotJson

  const MAX_TOKEN := 8192
  const MAX_ITEMS := 8
  const MAX_STRING := 4096
  const MAX_OPERATION := 160
  const TWO_63 := 0x8000_0000_0000_0000

  /** `len(s.encode("utf-8"))` */
  function Utf8Length(s: string): nat
  {
    if s == [] then 0
    else
      var n := s[0] as int;
      (if n < 0x80 then 1 else if n < 0x800 then 2 else if n < 0x1_0000 then 3 else 4) + Utf8Length(s[1..])
  }

  lemma {:induction false} Utf8LengthOfAscii(s: string)
    requires IsAscii(s)
    ensures Utf8Length(s) == |s|
  {
    if s != [] {
      Utf8LengthOfAscii(s[1..]);
    }
  }

  /** The texts that have a constructor of their own. */
  const KNOWN: set<string> :=
    {"expires_at", "operation", "position", "principal_sha256", "selectors_sha256", "version", "bytes"}

  /** A value that `json.dumps` prints: no bytes, no number that is not finite, and every key in one form. */
  predicate IsJson(v: Value)
    decreases v
  {
    match v
    case VBytes(_) => false
    case VFloat(repr) => repr !in {"nan", "inf", "-inf"}
    case VList(items) => forall x :: x in items ==> IsJson(x)
    case VDict(fields) => forall k :: k in fields ==> (k.Other? ==> k.text !in KNOWN) && IsJson(fields[k])
    case _ => true
  }

  /** What the codec calls: the text form of bytes, printing and parsing JSON, hashing a value, and the message
      code of the domain prefix with an encoded body. */
  datatype World = World(
    encode: seq<Byte> -> string,
    decode: string -> Option<seq<Byte>>,
    dumps: Value -> seq<Byte>,
    loads: seq<Byte> -> Option<Value>,
    identity: Value -> string,
    mac: (seq<Byte>, string) -> seq<Byte>)

  /** Every byte string comes back from its text, which is plain and not empty unless the bytes are. */
  ghost predicate Restores(w: World)
  {
    forall v :: w.decode(w.encode(v)) == Some(v) && Plain(w.encode(v)) && (w.encode(v) == [] ==> v == [])
  }

  // ------------------------------------------------------------------ positions

  /** One item of a position. */
  function Item(w: World, v: Value): Result<Value, Error>
  {
    match v
    case VNone => Ok(v)
    case VBool(_) => Ok(v)
    case VInt(i) => if -TWO_63 <= i < TWO_63 then Ok(v) else Err(BadPosition)
    case VStr(s) => if Utf8Length(s) <= MAX_STRING then Ok(v) else Err(BadPosition)
    case VBytes(b) => if |b| <= MAX_STRING then Ok(v) else Err(BadPosition)
    case VDict(fields) => BytesItem(w, fields)
    case VList(_) => Err(BadPosition)
    case VFloat(_) => Err(BadPosition)
  }

  /** A byte string stands in a payload as a dictionary with one key. */
  function BytesItem(w: World, fields: map<Key, Value>): Result<Value, Error>
  {
    if fields.Keys != {Key.Bytes} || !fields[Key.Bytes].VStr? then Err(BadPosition)
    else
      match w.decode(fields[Key.Bytes].s)
      case None => Err(BadEncoding)
      case Some(b) => if |b| <= MAX_STRING then Ok(VBytes(b)) else Err(BadPosition)
  }

  /** The first invalid item is the one reported. */
  function Items(w: World, vs: seq<Value>): Result<seq<Value>, Error>
  {
    if vs == [] then Ok([]) else Appended(Items(w, vs[..|vs| - 1]), Item(w, vs[|vs| - 1]))
  }

  function Appended(before: Result<seq<Value>, Error>, last: Result<Value, Error>): Result<seq<Value>, Error>
  {
    if before.Err? then before else if last.Err? then Err(last.error) else Ok(before.value + [last.value])
  }

  function Position(w: World, v: Value): Result<seq<Value>, Error>
  {
    if !v.VList? || |v.items| > MAX_ITEMS then Err(BadPosition) else Items(w, v.items)
  }

  /** `_position` */
  method ParsePosition(w: World, v: Value) returns (r: Result<seq<Value>, Error>)
    ensures r == Position(w, v)
  {
    if !v.VList? || |v.items| > MAX_ITEMS {
      return Err(BadPosition);
    }
    var parsed: seq<Value> := [];
    for n := 0 to |v.items|
      invariant Items(w, v.items[..n]) == Ok(parsed)
    {
      assert v.items[..n + 1][..n] == v.items[..n];
      var item := Item(w, v.items[n]);
      if item.Err? {
        FailureStays(w, v.items, n + 1);
        return Err(item.error);
      }
      parsed := parsed + [item.value];
    }
    assert v.items[..|v.items|] == v.items;
    return Ok(parsed);
  }

  lemma {:induction false} FailureStays(w: World, vs: seq<Value>, n: nat)
    requires n <= |vs| && Items(w, vs[..n]).Err?
    ensures Items(w, vs) == Items(w, vs[..n])
  {
    if n == |vs| {
      assert vs[..n] == vs;
    } else {
      assert vs[..|vs| - 1][..n] == vs[..n];
      FailureStays(w, vs[..|vs| - 1], n);
    }
  }

  /** `_position_payload` */
  function Payload(w: World, vs: seq<Value>): (r: seq<Value>)
    ensures |r| == |vs|
  {
    if vs == [] then [] else Payload(w, vs[..|vs| - 1]) + [PayloadItem(w, vs[|vs| - 1])]
  }

  function PayloadItem(w: World, v: Value): Value
  {
    if v.VBytes? then VDict(map[Key.Bytes := VStr(w.encode(v.bytes))]) else v
  }

  lemma ItemRoundTrip(w: World, v: Value, p: Value)
    requires Restores(w) && Item(w, v) == Ok(p)
    ensures Item(w, PayloadItem(w, p)) == Ok(p)
  {
    if p.VBytes? {
      assert PayloadItem(w, p).fields.Keys == {Key.Bytes};
    }
  }

  /** A position survives the trip through its payload. */
  lemma {:induction false} PositionRoundTrip(w: World, vs: seq<Value>, ps: seq<Value>)
    requires Restores(w) && Items(w, vs) == Ok(ps)
    ensures |ps| == |vs| && Items(w, Payload(w, ps)) == Ok(ps)
  {
    if vs != [] {
      var before, last := Items(w, vs[..|vs| - 1]).value, Item(w, vs[|vs| - 1]).value;
      PositionRoundTrip(w, vs[..|vs| - 1], before);
      ItemRoundTrip(w, vs[|vs| - 1], last);
      assert ps == before + [last];
      assert ps[..|ps| - 1] == before && ps[|ps| - 1] == last;
      var out := Payload(w, ps);
      assert out[..|out| - 1] == Payload(w, before) && out[|out| - 1] == PayloadItem(w, last);
    }
  }

  /** The scalars a position may hold. */
  predicate IsScalar(v: Value)
  {
    || v.VNone? || v.VBool?
    || (v.VInt? && -0x8000_0000_0000_0000 <= v.i <= 0x7fff_ffff_ffff_ffff)
    || (v.VStr? && Utf8Length(v.s) <= 4096)
    || (v.VBytes? && |v.bytes| <= 4096)
  }

  /** A value stands for itself, and a dictionary of one text for the bytes it encodes. */
  predicate StandsFor(w: World, v: Value, scalar: Value)
  {
    IsScalar(scalar) &&
    (v == scalar ||
     (scalar.VBytes? && v.VDict? && v.fields.Keys == {Key.Bytes} && v.fields[Key.Bytes].VStr?
      && w.decode(v.fields[Key.Bytes].s) == Some(scalar.bytes)))
  }

  lemma ItemIff(w: World, v: Value, scalar: Value)
    ensures Item(w, v) == Ok(scalar) <==> StandsFor(w, v, scalar)
  {
  }

  lemma {:induction false} ItemsIff(w: World, vs: seq<Value>, ps: seq<Value>)
    ensures Items(w, vs) == Ok(ps) <==> |vs| == |ps| && forall i :: 0 <= i < |vs| ==> StandsFor(w, vs[i], ps[i])
  {
    if vs != [] && ps != [] {
      var rest, before := vs[..|vs| - 1], ps[..|ps| - 1];
      ItemsIff(w, rest, before);
      ItemIff(w, vs[|vs| - 1], ps[|ps| - 1]);
      assert ps == before + [ps[|ps| - 1]];
    }
  }

  /** A list is parsed to a position if and only if it has at most eight items and each stands for its scalar. */
  lemma PositionIff(w: World, v: Value, ps: seq<Value>)
    ensures Position(w, v) == Ok(ps) <==>
      v.VList? && |v.items| == |ps| <= 8 && forall i :: 0 <= i < |ps| ==> StandsFor(w, v.items[i], ps[i])
  {
    if v.VList? {
      ItemsIff(w, v.items, ps);
    }
  }

  // --------------------------------------------------------------------- tokens

  datatype Codec = Codec(key: seq<Byte>, lifetime: int)

  /** `BrowseTokenCodec.__init__` */
  function NewCodec(key: seq<Byte>, lifetime: int): Result<Codec, Error>
  {
    if |key| < 32 then Err(WeakKey) else if lifetime < 1 then Err(BadLifetime) else Ok(Codec(key, lifetime))
  }

  /** The listing a token continues. */
  datatype Request = Request(operation: string, principal: Value, selectors: Value)

  const KEYS: set<Key> := {ExpiresAt, Operation, Key.Position, Principal, Selectors, Version}

  function Body(w: World, expires: int, r: Request, position: seq<Value>): Value
  {
    VDict(map[
      ExpiresAt := VInt(expires),
      Operation := VStr(r.operation),
      Key.Position := VList(Payload(w, position)),
      Principal := VStr(w.identity(r.principal)),
      Selectors := VStr(w.identity(r.selectors)),
      Version := VInt(1)])
  }

  function Signature(c: Codec, w: World, encoded: string): string
  {
    w.encode(w.mac(c.key, encoded))
  }

  const DOT := '.'

  /** A signed payload. */
  function Sealed(c: Codec, w: World, payload: Value): string
  {
    var encoded := w.encode(w.dumps(payload));
    encoded + [DOT] + Signature(c, w, encoded)
  }

  /** `issue` */
  function Issue(c: Codec, w: World, now: int, r: Request, position: seq<Value>): Result<string, Error>
  {
    if r.operation == [] || Utf8Length(r.operation) > MAX_OPERATION then Err(BadOperation)
    else
      match Position(w, VList(position))
      case Err(e) => Err(e)
      case Ok(canonical) =>
        if !IsJson(r.principal) || !IsJson(r.selectors) then Err(NotJson)
        else Bounded(Sealed(c, w, Body(w, now + c.lifetime, r, canonical)))
  }

  function Bounded(token: string): Result<string, Error>
  {
    if |token| > MAX_TOKEN then Err(TooLarge) else Ok(token)
  }

  function FindDot(s: string): (n: nat)
    ensures n <= |s| && DOT !in s[..n] && (n < |s| ==> s[n] == DOT)
  {
    if s == [] || s[0] == DOT then 0
    else
      var n := 1 + FindDot(s[1..]);
      assert s[..n] == [s[0]] + s[1..][..n - 1];
      n
  }

  /** The two parts of a token, if it has them. */
  function Parts(token: string): Option<(string, string)>
  {
    var n := FindDot(token);
    if n == |token| || n == 0 || n + 1 == |token| then None else Some((token[..n], token[n + 1..]))
  }

  predicate Genuine(c: Codec, w: World, encoded: string, supplied: string)
  {
    IsAscii(encoded) && supplied == Signature(c, w, encoded)
  }

  /** The part of `verify` that authenticates a token and gives its payload. */
  function Authenticated(c: Codec, w: World, token: string): Result<Value, Error>
  {
    if token == [] || Utf8Length(token) > MAX_TOKEN || Parts(token).None? then Err(BadToken)
    else
      var (encoded, supplied) := Parts(token).value;
      if !IsAscii(encoded) then Err(BadEncoding)
      else if !IsAscii(supplied) then Err(NotComparable)
      else if !Genuine(c, w, encoded, supplied) then Err(Tampered)
      else Opened(w, encoded)
  }

  function Opened(w: World, encoded: string): Result<Value, Error>
  {
    match w.decode(encoded)
    case None => Err(BadEncoding)
    case Some(bytes) =>
      match w.loads(bytes)
      case None => Err(BadPayload)
      case Some(payload) => Ok(payload)
  }

  /** Python's `value == 1` */
  predicate EqualsOne(v: Value)
  {
    v == VInt(1) || v == VBool(true) || v == VFloat("1.0")
  }

  /** The part of `verify` that reads a payload. */
  function Admitted(w: World, now: int, payload: Value, r: Request): Result<seq<Value>, Error>
  {
    if !payload.VDict? || payload.fields.Keys != KEYS then Err(BadPayload)
    else
      var f := payload.fields;
      if !EqualsOne(f[Version]) || f[Operation] != VStr(r.operation) then Err(OtherOperation)
      else if !f[ExpiresAt].VInt? then Err(BadExpiry)
      else if f[ExpiresAt].i < now then Err(Expired)
      else if !IsJson(r.principal) then Err(NotJson)
      else if f[Principal] != VStr(w.identity(r.principal)) then Err(OtherPrincipal)
      else if !IsJson(r.selectors) then Err(NotJson)
      else if f[Selectors] != VStr(w.identity(r.selectors)) then Err(OtherSelectors)
      else Position(w, f[Key.Position])
  }

  /** `verify` */
  function Verify(c: Codec, w: World, now: int, token: Option<string>, r: Request): Result<Option<seq<Value>>, Error>
  {
    if token.None? then Ok(None)
    else
      var payload :- Authenticated(c, w, token.value);
      Admission(Admitted(w, now, payload, r))
  }

  function Admission(r: Result<seq<Value>, Error>): Result<Option<seq<Value>>, Error>
  {
    match r
    case Err(e) => Err(e)
    case Ok(position) => Ok(Some(position))
  }

  // -------------------------------------------------------------------- theorems

  /** Bytes and the payloads the codec makes are read back as written, hashes tell JSON values apart, and message
      codes are not empty. */
  ghost predicate Faithful(w: World)
  {
    Restores(w) &&
    (forall expires, r, vs, position :: Items(w, vs) == Ok(position) ==> ReadsBack(w, Body(w, expires, r, position))) &&
    IdentifiesJson(w) &&
    forall k, m :: w.mac(k, m) != []
  }

  predicate ReadsBack(w: World, payload: Value)
  {
    w.dumps(payload) != [] && w.loads(w.dumps(payload)) == Some(payload)
  }

  ghost predicate IdentifiesJson(w: World)
  {
    forall a, b :: IsJson(a) && IsJson(b) && w.identity(a) == w.identity(b) ==> a == b
  }

  lemma BodyFields(w: World, expires: int, r: Request, position: seq<Value>)
    ensures var f := Body(w, expires, r, position).fields;
            f.Keys == KEYS && f[ExpiresAt] == VInt(expires) && f[Operation] == VStr(r.operation) &&
            f[Key.Position] == VList(Payload(w, position)) && f[Principal] == VStr(w.identity(r.principal)) &&
            f[Selectors] == VStr(w.identity(r.selectors)) && f[Version] == VInt(1)
  {
  }

  lemma {:induction false} FindDotIs(a: string, b: string)
    requires DOT !in a
    ensures FindDot(a + [DOT] + b) == |a|
  {
    var s := a + [DOT] + b;
    if a != [] {
      assert s[0] == a[0] && s[1..] == a[1..] + [DOT] + b;
      FindDotIs(a[1..], b);
    }
  }

  lemma PartsOf(encoded: string, signature: string)
    requires encoded != [] && DOT !in encoded && signature != []
    ensures Parts(encoded + [DOT] + signature) == Some((encoded, signature))
  {
    var token := encoded + [DOT] + signature;
    FindDotIs(encoded, signature);
    assert token[..|encoded|] == encoded && token[|encoded| + 1..] == signature;
  }

  lemma AuthenticatedParts(c: Codec, w: World, token: string, encoded: string, signature: string)
    requires token != [] && Utf8Length(token) <= MAX_TOKEN && Parts(token) == Some((encoded, signature))
    requires IsAscii(signature) && Genuine(c, w, encoded, signature)
    ensures Authenticated(c, w, token) == Opened(w, encoded)
  {
  }

  lemma JoinIsAscii(a: string, b: string)
    requires IsAscii(a) && IsAscii(b)
    ensures IsAscii(a + [DOT] + b)
  {
  }

  lemma OpenedPayload(w: World, payload: Value)
    requires Restores(w) && w.loads(w.dumps(payload)) == Some(payload)
    ensures Opened(w, w.encode(w.dumps(payload))) == Ok(payload)
  {
    assert w.decode(w.encode(w.dumps(payload))) == Some(w.dumps(payload));
  }

  /** A sealed payload authenticates to itself. */
  lemma SealedAuthenticates(c: Codec, w: World, payload: Value, encoded: string, signature: string)
    requires Restores(w) && w.loads(w.dumps(payload)) == Some(payload) && w.dumps(payload) != []
    requires encoded == w.encode(w.dumps(payload)) && signature == Signature(c, w, encoded)
    requires w.mac(c.key, encoded) != [] && |Sealed(c, w, payload)| <= MAX_TOKEN
    ensures Authenticated(c, w, Sealed(c, w, payload)) == Ok(payload)
  {
    assert Plain(encoded) && Plain(signature);
    PartsOf(encoded, signature);
    JoinIsAscii(encoded, signature);
    Utf8LengthOfAscii(Sealed(c, w, payload));
    AuthenticatedParts(c, w, Sealed(c, w, payload), encoded, signature);
    OpenedPayload(w, payload);
  }

  /** Reading back the fields of an issued payload. */
  lemma BodyIsAdmitted(w: World, expires: int, r: Request, canonical: seq<Value>, now: int, again: Request)
    requires IdentifiesJson(w) && IsJson(r.principal) && IsJson(r.selectors)
    requires Position(w, VList(Payload(w, canonical))) == Ok(canonical)
    ensures Admission(Admitted(w, now, Body(w, expires, r, canonical), again)) == Answer(r, expires, canonical, now, again)
  {
    BodyFields(w, expires, r, canonical);
    assert IsJson(again.principal) ==> (w.identity(again.principal) == w.identity(r.principal) <==> again.principal == r.principal);
    assert IsJson(again.selectors) ==> (w.identity(again.selectors) == w.identity(r.selectors) <==> again.selectors == r.selectors);
    FieldsAreAdmitted(w, Body(w, expires, r, canonical).fields, expires, r, canonical, now, again);
  }

  lemma FieldsAreAdmitted(
      w: World, f: map<Key, Value>, expires: int, r: Request, canonical: seq<Value>, now: int, again: Request)
    requires f.Keys == KEYS && f[ExpiresAt] == VInt(expires) && f[Operation] == VStr(r.operation) && f[Version] == VInt(1)
    requires f[Principal] == VStr(w.identity(r.principal)) && f[Selectors] == VStr(w.identity(r.selectors))
    requires Position(w, f[Key.Position]) == Ok(canonical)
    requires IsJson(again.principal) ==> (w.identity(again.principal) == w.identity(r.principal) <==> again.principal == r.principal)
    requires IsJson(again.selectors) ==> (w.identity(again.selectors) == w.identity(r.selectors) <==> again.selectors == r.selectors)
    ensures Admission(Admitted(w, now, VDict(f), again)) == Answer(r, expires, canonical, now, again)
  {
  }

  /** What a request is told about a token that was issued for request r: the position, if it is the same
      request and the token has not expired, and otherwise the first difference. */
  function Answer(r: Request, expires: int, canonical: seq<Value>, now: int, again: Request): Result<Option<seq<Value>>, Error>
  {
    if again.operation != r.operation then Err(OtherOperation)
    else if expires < now then Err(Expired)
    else if !IsJson(again.principal) then Err(NotJson)
    else if again.principal != r.principal then Err(OtherPrincipal)
    else if !IsJson(again.selectors) then Err(NotJson)
    else if again.selectors != r.selectors then Err(OtherSelectors)
    else Ok(Some(canonical))
  }

  lemma IssuedIsAuthentic(c: Codec, w: World, payload: Value, token: string)
    requires Restores(w) && w.loads(w.dumps(payload)) == Some(payload) && w.dumps(payload) != []
    requires forall k, m :: w.mac(k, m) != []
    requires token == Sealed(c, w, payload) && |token| <= MAX_TOKEN
    ensures Authenticated(c, w, token) == Ok(payload)
  {
    var encoded := w.encode(w.dumps(payload));
    SealedAuthenticates(c, w, payload, encoded, Signature(c, w, encoded));
  }

  /** A canonical position comes back out of the token it was put in. */
  lemma SealedTokenVerifies(
      c: Codec, w: World, expires: int, r: Request, canonical: seq<Value>, token: string, now: int, again: Request)
    requires Faithful(w) && Position(w, VList(Payload(w, canonical))) == Ok(canonical)
    requires IsJson(r.principal) && IsJson(r.selectors)
    requires token == Sealed(c, w, Body(w, expires, r, canonical)) && |token| <= MAX_TOKEN
    ensures Verify(c, w, now, Some(token), again) == Answer(r, expires, canonical, now, again)
  {
    var payload := Body(w, expires, r, canonical);
    assert Items(w, Payload(w, canonical)) == Ok(canonical);
    assert ReadsBack(w, payload);
    IssuedIsAuthentic(c, w, payload, token);
    BodyIsAdmitted(w, expires, r, canonical, now, again);
  }

  lemma CanonicalRestores(w: World, position: seq<Value>, canonical: seq<Value>)
    requires Restores(w) && Position(w, VList(position)) == Ok(canonical)
    ensures Position(w, VList(Payload(w, canonical))) == Ok(canonical)
  {
    PositionRoundTrip(w, position, canonical);
  }

  /** A token is issued only for a valid position. */
  lemma IssuedIsSealed(c: Codec, w: World, now: int, r: Request, position: seq<Value>, token: string)
    returns (canonical: seq<Value>)
    requires Issue(c, w, now, r, position) == Ok(token)
    ensures Position(w, VList(position)) == Ok(canonical) && IsJson(r.principal) && IsJson(r.selectors)
    ensures token == Sealed(c, w, Body(w, now + c.lifetime, r, canonical)) && |token| <= MAX_TOKEN
  {
    canonical := Position(w, VList(position)).value;
  }

  /** What verifying an issued token gives, whenever and for whatever request. */
  lemma IssuedTokenVerifies(
      c: Codec, w: World, issued: int, r: Request, position: seq<Value>, token: string, now: int, again: Request)
    returns (canonical: seq<Value>)
    requires Faithful(w) && Issue(c, w, issued, r, position) == Ok(token)
    ensures Position(w, VList(position)) == Ok(canonical)
    ensures Verify(c, w, now, Some(token), again) == Answer(r, issued + c.lifetime, canonical, now, again)
  {
    canonical := IssuedIsSealed(c, w, issued, r, position, token);
    CanonicalRestores(w, position, canonical);
    SealedTokenVerifies(c, w, issued + c.lifetime, r, canonical, token, now, again);
  }

  /** A token works for its request from the moment it is issued until its lifetime is over. */
  lemma TokenLivesItsLifetime(
      key: seq<Byte>, lifetime: int, c: Codec, w: World, issued: int, r: Request, position: seq<Value>, token: string, now: int)
    requires Faithful(w) && NewCodec(key, lifetime) == Ok(c) && Issue(c, w, issued, r, position) == Ok(token)
    ensures Verify(c, w, now, Some(token), r).Ok? <==> now <= issued + lifetime
    ensures issued < issued + lifetime
  {
    var canonical := IssuedTokenVerifies(c, w, issued, r, position, token, now, r);
  }

  /** Where message codes tell messages apart, `verify` refuses the signature of one body under any other. */
  lemma TamperedIsRefused(c: Codec, w: World, encoded: string, other: string, now: int, r: Request)
    requires Restores(w) && forall m, n :: w.mac(c.key, m) == w.mac(c.key, n) ==> m == n
    requires other != encoded && DOT !in other
    ensures Verify(c, w, now, Some(other + [DOT] + Signature(c, w, encoded)), r).Err?
  {
    var signature := Signature(c, w, encoded);
    var token := other + [DOT] + signature;
    if other != [] && signature != [] {
      PartsOf(other, signature);
      assert w.decode(signature) == Some(w.mac(c.key, encoded));
      assert w.decode(Signature(c, w, other)) == Some(w.mac(c.key, other));
      assert !Genuine(c, w, other, signature);
    } else {
      FindDotIs(other, signature);
    }
  }

  /** A token is a body and the signature of that body, and the body reads as the payload. */
  predicate Presents(c: Codec, w: World, token: string, encoded: string, payload: Value)
  {
    && encoded != [] && IsAscii(encoded) && DOT !in encoded && Signature(c, w, encoded) != []
    && token == encoded + [DOT] + Signature(c, w, encoded) && |token| <= 8192
    && Opened(w, encoded) == Ok(payload)
  }

  /** The payload continues the request and is in time, and its position reads as the scalars. */
  predicate Continues(w: World, now: int, payload: Value, r: Request, ps: seq<Value>)
  {
    && payload.VDict? && payload.fields.Keys == {ExpiresAt, Operation, Key.Position, Principal, Selectors, Version}
    && var f := payload.fields;
    && f[Version] in {VInt(1), VBool(true), VFloat("1.0")} && f[Operation] == VStr(r.operation)
    && f[ExpiresAt].VInt? && now <= f[ExpiresAt].i
    && IsJson(r.principal) && f[Principal] == VStr(w.identity(r.principal))
    && IsJson(r.selectors) && f[Selectors] == VStr(w.identity(r.selectors))
    && f[Key.Position].VList? && |f[Key.Position].items| == |ps| <= 8
    && forall i :: 0 <= i < |ps| ==> StandsFor(w, f[Key.Position].items[i], ps[i])
  }

  lemma PresentedIsAuthentic(c: Codec, w: World, token: string, encoded: string, payload: Value)
    requires Restores(w) && Presents(c, w, token, encoded, payload)
    ensures Authenticated(c, w, token) == Ok(payload)
  {
    var signature := Signature(c, w, encoded);
    assert Plain(signature);
    PartsOf(encoded, signature);
    JoinIsAscii(encoded, signature);
    Utf8LengthOfAscii(token);
    AuthenticatedParts(c, w, token, encoded, signature);
  }

  lemma AuthenticIsPresented(c: Codec, w: World, token: string, payload: Value) returns (encoded: string)
    requires Restores(w) && Authenticated(c, w, token) == Ok(payload)
    ensures Presents(c, w, token, encoded, payload)
  {
    var n := FindDot(token);
    encoded := token[..n];
    assert token == token[..n] + [DOT] + token[n + 1..];
    JoinIsAscii(encoded, token[n + 1..]);
    Utf8LengthOfAscii(token);
  }

  lemma AdmittedIff(w: World, now: int, payload: Value, r: Request, ps: seq<Value>)
    ensures Admitted(w, now, payload, r) == Ok(ps) <==> Continues(w, now, payload, r, ps)
  {
    if payload.VDict? && payload.fields.Keys == KEYS {
      PositionIff(w, payload.fields[Key.Position], ps);
    }
  }

  /** Of any text at all: `verify` answers a position if and only if the text is a body with its own signature,
      and the body continues this request, is in time and holds that position. */
  lemma AcceptedIff(c: Codec, w: World, now: int, token: string, r: Request, ps: seq<Value>)
    requires Restores(w)
    ensures Verify(c, w, now, Some(token), r) == Ok(Some(ps)) <==>
            exists encoded, payload :: Presents(c, w, token, encoded, payload) && Continues(w, now, payload, r, ps)
  {
    var authentic := Authenticated(c, w, token);
    if authentic.Ok? {
      AdmittedIff(w, now, authentic.value, r, ps);
      var encoded := AuthenticIsPresented(c, w, token, authentic.value);
    }
    if encoded, payload :| Presents(c, w, token, encoded, payload) && Continues(w, now, payload, r, ps) {
      PresentedIsAuthentic(c, w, token, encoded, payload);
    }
  }

  /** The items of a position stand for at most eight scalars. */
  predicate Reads(w: World, position: seq<Value>, ps: seq<Value>)
  {
    |position| == |ps| <= 8 && forall i :: 0 <= i < |ps| ==> StandsFor(w, position[i], ps[i])
  }

  /** The token that continues a request at a position. */
  function TokenFor(c: Codec, w: World, now: int, r: Request, ps: seq<Value>): string
  {
    Sealed(c, w, Body(w, now + c.lifetime, r, ps))
  }

  /** `issue` answers a token if and only if the operation is named in 1 to 160 bytes, the request is JSON, the
      position reads as scalars, and the token that continues the request there is not too long. */
  lemma IssuesIff(c: Codec, w: World, now: int, r: Request, position: seq<Value>, token: string)
    ensures Issue(c, w, now, r, position) == Ok(token) <==>
      && r.operation != [] && Utf8Length(r.operation) <= 160 && IsJson(r.principal) && IsJson(r.selectors)
      && exists ps :: Reads(w, position, ps) && token == TokenFor(c, w, now, r, ps) && |token| <= 8192
  {
    var parsed := Position(w, VList(position));
    if parsed.Ok? {
      PositionIff(w, VList(position), parsed.value);
      assert Reads(w, position, parsed.value);
    }
    if ps :| Reads(w, position, ps) && token == TokenFor(c, w, now, r, ps) && |token| <= 8192 {
      PositionIff(w, VList(position), ps);
    }
  }

  /** The codec of the application: base64 for the text, which restores every byte string. */
  lemma Base64Restores(w: World)
    requires w.encode == Encode && w.decode == Decode
    ensures Restores(w)
  {
    forall v
      ensures w.decode(w.encode(v)) == Some(v) && Plain(w.encode(v)) && (w.encode(v) == [] ==> v == [])
    {
      DecodeEncode(v);
    }
  }
}
