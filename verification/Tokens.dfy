/**
  Execution tokens: a signed canonical payload bound to one action, and a table row that can be
  claimed once.  Times are in microseconds.
 */
module Tokens {
  import opened Wrappers
  import opened Base64
  import opened Json
  import Utf8

  type Org = string
  type Time = int

  datatype Claims = Claims(jti: string, ctx: string, tier: int, exp: int)

  /** A row of `execution_token_jti`. */
  datatype Row = Row(org: Org, ctx: string, tier: int, expires: Time, used: bool)

  datatype State = State(rows: map<string, Row>, signed: set<Claims>)

  const Empty: State := State(map[], {})

  /** The key pair and the JSON parser. */
  datatype Env = Env(sign: Bytes -> Bytes, accepts: (Bytes, Bytes) -> bool, loads: Bytes -> Option<Value>)

  function Payload(c: Claims): Value {
    Obj(map["jti" := Str(c.jti), "ctx_hash" := Str(c.ctx), "tier" := Int(c.tier), "exp" := Int(c.exp)])
  }

  function Text(v: Value): Bytes { Utf8.Encoded(Print(v)) }

  function Body(c: Claims): Bytes { Text(Payload(c)) }

  /** Its own signatures verify, and the parser reads back what the printer wrote. */
  ghost predicate Works(env: Env) {
    (forall body :: env.accepts(env.sign(body), body)) && forall v :: env.loads(Text(v)) == Some(v)
  }

  /** `int()` of a timestamp: whole seconds, truncated towards zero. */
  function Seconds(t: Time): int {
    if t >= 0 then t / 1_000_000 else -(-t / 1_000_000)
  }

  function Joined(body: Bytes, signature: Bytes): string {
    Bare(body) + ("." + Bare(signature))
  }

  function Token(env: Env, c: Claims): string {
    Joined(Body(c), env.sign(Body(c)))
  }

  // ---- Checking -------------------------------------------------------------------------------

  function Dot(s: string): (i: nat)
    ensures i <= |s| && (i < |s| ==> s[i] == '.') && forall k :: 0 <= k < i ==> s[k] != '.'
  {
    if s == "" || s[0] == '.' then 0 else 1 + Dot(s[1..])
  }

  /** The two halves of a token, decoded. */
  function Parts(token: string): Option<(Bytes, Bytes)> {
    var i := Dot(token);
    if i == |token| then None
    else
      match (DecodeBare(token[..i]), DecodeBare(token[i + 1..]))
      case (Some(body), Some(signature)) => Some((body, signature))
      case _ => None
  }

  predicate HasClaims(v: Value) {
    && v.Obj? && {"jti", "ctx_hash", "tier", "exp"} <= v.members.Keys
    && v.members["jti"].Str? && v.members["ctx_hash"].Str? && v.members["tier"].Int? && v.members["exp"].Int?
  }

  /** Signature, context and expiry; `None` is any of the refusals. */
  function Check(env: Env, token: string, ctx: string, now: Time): Option<Claims> {
    match Parts(token)
    case None => None
    case Some((body, signature)) =>
      if !env.accepts(signature, body) then None
      else
        match env.loads(body)
        case None => None
        case Some(v) =>
          if !HasClaims(v) || v.members["ctx_hash"].s != ctx || v.members["exp"].i < Seconds(now) then None
          else Some(Claims(v.members["jti"].s, ctx, v.members["tier"].i, v.members["exp"].i))
  }

  /** The claim's WHERE clause. */
  predicate Claimable(rows: map<string, Row>, jti: string, org: Org, dbNow: Time) {
    jti in rows && rows[jti].org == org && !rows[jti].used && rows[jti].expires > dbNow
  }

  function Verdict(env: Env, rows: map<string, Row>, token: string, org: Org, ctx: string, now: Time, dbNow: Time): Option<Claims> {
    var c := Check(env, token, ctx, now);
    if c.Some? && Claimable(rows, c.value.jti, org, dbNow) then c else None
  }

  function AfterVerify(env: Env, rows: map<string, Row>, token: string, org: Org, ctx: string, now: Time, dbNow: Time)
    : map<string, Row>
  {
    var c := Verdict(env, rows, token, org, ctx, now, dbNow);
    if c.None? || c.value.jti !in rows then rows else rows[c.value.jti := rows[c.value.jti].(used := true)]
  }

  // ---- Steps ----------------------------------------------------------------------------------

  /** `keep` says whether the caller's transaction commits. */
  datatype Step =
    | Mint(jti: string, org: Org, ctx: string, tier: int, now: Time, ttl: int, keep: bool)
    | Verify(token: string, org: Org, ctx: string, now: Time, dbNow: Time, keep: bool)

  function Expiry(now: Time, ttl: int): Time { now + ttl * 1_000_000 }

  function MintedClaims(a: Step): Claims
    requires a.Mint?
  {
    Claims(a.jti, a.ctx, a.tier, Seconds(Expiry(a.now, a.ttl)))
  }

  function MintedRow(a: Step): Row
    requires a.Mint?
  {
    Row(a.org, a.ctx, a.tier, Expiry(a.now, a.ttl), false)
  }

  /** Nobody presents a body with an acceptable signature that the key did not make. */
  ghost predicate Unforged(env: Env, signed: set<Claims>, token: string) {
    var p := Parts(token);
    p.Some? && env.accepts(p.value.1, p.value.0) ==> exists c :: c in signed && Body(c) == p.value.0
  }

  ghost predicate Enabled(env: Env, s: State, a: Step) {
    match a
    case Mint(jti, _, _, _, _, _, _) => jti !in s.rows && forall c :: c in s.signed ==> c.jti != jti
    case Verify(token, _, _, _, _, _) => Unforged(env, s.signed, token)
  }

  function Next(env: Env, s: State, a: Step): State {
    match a
    case Mint(jti, _, _, _, _, _, keep) =>
      State(if keep then s.rows[jti := MintedRow(a)] else s.rows, s.signed + {MintedClaims(a)})
    case Verify(token, org, ctx, now, dbNow, keep) =>
      State(if keep then AfterVerify(env, s.rows, token, org, ctx, now, dbNow) else s.rows, s.signed)
  }

  // ---- The store ------------------------------------------------------------------------------

  class Store {
    var rows: map<string, Row>

    constructor ()
      ensures rows == map[]
    {
      rows := map[];
    }

    /** `mint`: sign the claims and record the id, unused. */
    method MintToken(env: Env, jti: string, org: Org, ctx: string, tier: int, now: Time, ttl: int) returns (token: string)
      requires jti !in rows
      modifies this
      ensures token == Token(env, MintedClaims(Mint(jti, org, ctx, tier, now, ttl, true)))
      ensures rows == old(rows)[jti := Row(org, ctx, tier, now + ttl * 1_000_000, false)]
    {
      var expires := now + ttl * 1_000_000;
      var claims := Claims(jti, ctx, tier, Seconds(expires));
      assert claims == MintedClaims(Mint(jti, org, ctx, tier, now, ttl, true));
      var body := Body(claims);
      token := Joined(body, env.sign(body));
      assert token == Token(env, claims);
      rows := rows[jti := Row(org, ctx, tier, expires, false)];
    }

    /** `verify`: the checks in order, then one conditional update; its row count decides. */
    method VerifyToken(env: Env, token: string, org: Org, ctx: string, now: Time, dbNow: Time)
      returns (claims: Option<Claims>)
      modifies this
      ensures claims == Verdict(env, old(rows), token, org, ctx, now, dbNow)
      ensures rows == AfterVerify(env, old(rows), token, org, ctx, now, dbNow)
    {
      var i := Dot(token);
      if i == |token| { return None; }
      var body, signature := DecodeBare(token[..i]), DecodeBare(token[i + 1..]);
      if body.None? || signature.None? { return None; }
      if !env.accepts(signature.value, body.value) { return None; }
      var payload := env.loads(body.value);
      if payload.None? || !HasClaims(payload.value) { return None; }
      var m := payload.value.members;
      if m["ctx_hash"].s != ctx { return None; }
      if m["exp"].i < Seconds(now) { return None; }
      var jti := m["jti"].s;
      if !Claimable(rows, jti, org, dbNow) { return None; }
      rows := rows[jti := rows[jti].(used := true)];
      claims := Some(Claims(jti, ctx, m["tier"].i, m["exp"].i));
    }
  }
}
