/**
  A minted token verifies for its own organisation and action within its lifetime, at most once
  over any run, and no body that was not minted ever verifies.
 */
module TokenSafety {
  import opened Wrappers
  import opened Base64
  import opened Json
  import opened Tokens
  import JsonUnique
  import Utf8

  datatype Run = Run(states: seq<State>, steps: seq<Step>)

  ghost predicate ValidRun(env: Env, run: Run) {
    && Works(env) && |run.states| == |run.steps| + 1 && run.states[0] == Empty
    && forall i :: 0 <= i < |run.steps| ==>
         Enabled(env, run.states[i], run.steps[i]) && run.states[i + 1] == Next(env, run.states[i], run.steps[i])
  }

  // ---- The format -----------------------------------------------------------------------------

  /** Different values have different bytes, so there is a parser that reads every one of them back. */
  lemma TextUnique(a: Value, b: Value)
    requires Text(a) == Text(b)
    ensures a == b
  {
    Utf8.EncodedUnique(Print(a), Print(b));
    JsonUnique.CanonicalInjective(a, b);
  }

  lemma PayloadUnique(a: Claims, b: Claims)
    requires Payload(a) == Payload(b)
    ensures a == b
  {
    var (x, y) := (Payload(a).members, Payload(b).members);
    assert x["jti"] == y["jti"] && x["ctx_hash"] == y["ctx_hash"] && x["tier"] == y["tier"] && x["exp"] == y["exp"];
  }

  lemma BodyUnique(a: Claims, b: Claims)
    requires Body(a) == Body(b)
    ensures a == b
  {
    TextUnique(Payload(a), Payload(b));
    PayloadUnique(a, b);
  }

  lemma {:induction false} DotAfter(x: string, y: string)
    requires '.' !in x
    ensures Dot(x + ("." + y)) == |x|
  {
    if x == "" {
      assert x + ("." + y) == "." + y;
    } else {
      assert (x + ("." + y))[1..] == x[1..] + ("." + y);
      DotAfter(x[1..], y);
    }
  }

  lemma HalvesOf(x: string, y: string, a: Bytes, b: Bytes)
    requires '.' !in x && DecodeBare(x) == Some(a) && DecodeBare(y) == Some(b)
    ensures Parts(x + ("." + y)) == Some((a, b))
  {
    var t := x + ("." + y);
    DotAfter(x, y);
    assert t[..|x|] == x && t[|x| + 1..] == y;
  }

  /** The dot split recovers the body and the signature of every token. */
  lemma TokenParts(env: Env, c: Claims)
    ensures Parts(Token(env, c)) == Some((Body(c), env.sign(Body(c))))
  {
    var (body, signature) := (Body(c), env.sign(Body(c)));
    RoundTrip(body);
    RoundTrip(signature);
    HalvesOf(Bare(body), Bare(signature), body, signature);
  }

  lemma PayloadHasClaims(c: Claims)
    ensures HasClaims(Payload(c))
  {}

  /** Exactly which checks a minted token passes before its row is looked at. */
  lemma CheckMinted(env: Env, c: Claims, ctx: string, now: Time)
    requires Works(env)
    ensures Check(env, Token(env, c), ctx, now) == if ctx == c.ctx && Seconds(now) <= c.exp then Some(c) else None
  {
    TokenParts(env, c);
    PayloadHasClaims(c);
    assert env.accepts(env.sign(Body(c)), Body(c));
    assert env.loads(Text(Payload(c))) == Some(Payload(c));
  }

  /** Whatever passes the checks carries claims the key has signed, for the context asked about. */
  lemma CheckedIsSigned(env: Env, signed: set<Claims>, token: string, ctx: string, now: Time)
    requires Works(env) && Unforged(env, signed, token) && Check(env, token, ctx, now).Some?
    ensures var c := Check(env, token, ctx, now).value; c in signed && c.ctx == ctx && Seconds(now) <= c.exp
  {
    var p := Parts(token).value;
    var c :| c in signed && Body(c) == p.0;
    assert env.loads(Text(Payload(c))) == Some(Payload(c));
  }

  // ---- What every run keeps -------------------------------------------------------------------

  /** Ids are signed once, and every row was recorded for the claims signed with its id. */
  ghost predicate Inv(s: State) {
    && (forall c, d :: c in s.signed && d in s.signed && c.jti == d.jti ==> c == d)
    && forall jti :: jti in s.rows ==>
         var r := s.rows[jti]; Claims(jti, r.ctx, r.tier, Seconds(r.expires)) in s.signed
  }

  lemma KeepsInv(env: Env, s: State, a: Step)
    requires Inv(s) && Enabled(env, s, a)
    ensures Inv(Next(env, s, a))
  {}

  lemma {:induction false} RunKeepsInv(env: Env, run: Run, j: nat)
    requires ValidRun(env, run) && j < |run.states|
    ensures Inv(run.states[j])
    decreases j
  {
    if j > 0 {
      RunKeepsInv(env, run, j - 1);
      KeepsInv(env, run.states[j - 1], run.steps[j - 1]);
    }
  }

  /**
    Nothing else ever verifies: a success means the presented body was signed for this context, and
    a row committed for this organisation, with the same tier, was still unclaimed and unexpired.
   */
  lemma OnlyMintedVerifies(env: Env, run: Run, j: nat, token: string, org: Org, ctx: string, now: Time, dbNow: Time)
    requires ValidRun(env, run) && j < |run.states| && Unforged(env, run.states[j].signed, token)
    requires Verdict(env, run.states[j].rows, token, org, ctx, now, dbNow).Some?
    ensures var c := Verdict(env, run.states[j].rows, token, org, ctx, now, dbNow).value;
            && c in run.states[j].signed && c.ctx == ctx && Parts(token).value.0 == Body(c)
            && c.jti in run.states[j].rows
            && var r := run.states[j].rows[c.jti];
               && r == Row(org, ctx, c.tier, r.expires, false) && c.exp == Seconds(r.expires)
               && dbNow < r.expires && Seconds(now) <= c.exp
  {
    var s := run.states[j];
    RunKeepsInv(env, run, j);
    CheckedIsSigned(env, s.signed, token, ctx, now);
    var c := Check(env, token, ctx, now).value;
    var r := s.rows[c.jti];
    assert Claims(c.jti, r.ctx, r.tier, Seconds(r.expires)) in s.signed;
    var p := Parts(token).value;
    var d :| d in s.signed && Body(d) == p.0;
    assert env.loads(Text(Payload(d))) == Some(Payload(d));
  }

  // ---- One use --------------------------------------------------------------------------------

  /** A committed verification of the token with this id. */
  predicate Uses(env: Env, s: State, a: Step, jti: string) {
    && a.Verify? && a.keep
    && var v := Verdict(env, s.rows, a.token, a.org, a.ctx, a.now, a.dbNow); v.Some? && v.value.jti == jti
  }

  lemma StepOnRow(env: Env, s: State, a: Step, jti: string)
    requires Enabled(env, s, a) && jti in s.rows
    ensures jti in Next(env, s, a).rows
    ensures Next(env, s, a).rows[jti] == if Uses(env, s, a, jti) then s.rows[jti].(used := true) else s.rows[jti]
  {}

  predicate Ages(r: Row, r': Row) {
    r' == r || r' == r.(used := true)
  }

  lemma OneStep(env: Env, run: Run, k: nat, jti: string)
    requires ValidRun(env, run) && k < |run.steps| && jti in run.states[k].rows
    ensures jti in run.states[k + 1].rows
    ensures var (r, r') := (run.states[k].rows[jti], run.states[k + 1].rows[jti]);
            Ages(r, r') && (!Uses(env, run.states[k], run.steps[k], jti) ==> r' == r)
  {
    StepOnRow(env, run.states[k], run.steps[k], jti);
  }

  /** A row changes only by being claimed, and stays claimed. */
  lemma {:induction false} RowOverRun(env: Env, run: Run, i: nat, j: nat, jti: string)
    requires ValidRun(env, run) && i <= j < |run.states| && jti in run.states[i].rows
    ensures jti in run.states[j].rows && Ages(run.states[i].rows[jti], run.states[j].rows[jti])
    decreases j
  {
    if i < j {
      RowOverRun(env, run, i, j - 1, jti);
      OneStep(env, run, j - 1, jti);
    }
  }

  lemma {:induction false} UnusedRow(env: Env, run: Run, i: nat, j: nat, jti: string)
    requires ValidRun(env, run) && i <= j < |run.states| && jti in run.states[i].rows
    requires forall k :: i <= k < j ==> !Uses(env, run.states[k], run.steps[k], jti)
    ensures jti in run.states[j].rows && run.states[j].rows[jti] == run.states[i].rows[jti]
    decreases j
  {
    if i < j {
      UnusedRow(env, run, i, j - 1, jti);
      OneStep(env, run, j - 1, jti);
    }
  }

  /** No id is used twice in any run, however its token is spelled, by whom or when. */
  lemma AtMostOnce(env: Env, run: Run, i: nat, j: nat, jti: string)
    requires ValidRun(env, run) && i < |run.steps| && j < |run.steps|
    requires Uses(env, run.states[i], run.steps[i], jti) && Uses(env, run.states[j], run.steps[j], jti)
    ensures i == j
  {
    if i != j {
      var (a, b) := if i < j then (i, j) else (j, i);
      StepOnRow(env, run.states[a], run.steps[a], jti);
      RowOverRun(env, run, a + 1, b, jti);
    }
  }

  lemma UnusedVerdict(env: Env, run: Run, i: nat, j: nat, org: Org, ctx: string, now: Time, dbNow: Time)
    requires ValidRun(env, run) && i < j < |run.states| && run.steps[i].Mint? && run.steps[i].keep
    requires forall k :: i < k < j ==> !Uses(env, run.states[k], run.steps[k], run.steps[i].jti)
    ensures var (c, r) := (MintedClaims(run.steps[i]), MintedRow(run.steps[i]));
            Verdict(env, run.states[j].rows, Token(env, c), org, ctx, now, dbNow)
              == if org == r.org && ctx == c.ctx && Seconds(now) <= c.exp && dbNow < r.expires then Some(c) else None
  {
    var a := run.steps[i];
    assert run.states[i + 1] == Next(env, run.states[i], a);
    UnusedRow(env, run, i + 1, j, a.jti);
    CheckMinted(env, MintedClaims(a), ctx, now);
  }

  /** `s` is the time in whole seconds, the part of a second dropped on the side of zero. */
  predicate WholeSeconds(t: Time, s: int) {
    if t >= 0 then s * 1_000_000 <= t < (s + 1) * 1_000_000 else (s - 1) * 1_000_000 < t <= s * 1_000_000
  }

  lemma SecondsAre(t: Time, s: int)
    ensures s == Seconds(t) <==> WholeSeconds(t, s)
  {}

  /** What a minting with a lifetime of `ttl` seconds signs and records. */
  lemma Lifetime(a: Step, last: int)
    requires a.Mint? && WholeSeconds(a.now + a.ttl * 1_000_000, last)
    ensures MintedClaims(a) == Claims(a.jti, a.ctx, a.tier, last)
    ensures MintedRow(a) == Row(a.org, a.ctx, a.tier, a.now + a.ttl * 1_000_000, false)
  {
    SecondsAre(a.now + a.ttl * 1_000_000, last);
  }

  /**
    A token whose minting was committed, and which no committed verification has used since, is
    accepted exactly for its own organisation and context, until its lifetime is over: on the
    verifier's clock, in whole seconds, and on the database's.
   */
  lemma MintedVerifiesIff(
    env: Env, run: Run, i: nat, j: nat, org: Org, ctx: string, now: Time, dbNow: Time, second: int, last: int)
    requires ValidRun(env, run) && i < j < |run.states| && run.steps[i].Mint? && run.steps[i].keep
    requires forall k :: i < k < j ==> !Uses(env, run.states[k], run.steps[k], run.steps[i].jti)
    requires WholeSeconds(now, second) && WholeSeconds(run.steps[i].now + run.steps[i].ttl * 1_000_000, last)
    ensures var a := run.steps[i]; var c := Claims(a.jti, a.ctx, a.tier, last);
            Verdict(env, run.states[j].rows, Token(env, c), org, ctx, now, dbNow)
              == if org == a.org && ctx == a.ctx && second <= last && dbNow < a.now + a.ttl * 1_000_000 then Some(c) else None
  {
    SecondsAre(now, second);
    Lifetime(run.steps[i], last);
    UnusedVerdict(env, run, i, j, org, ctx, now, dbNow);
  }

  lemma EarlierSecond(t: Time, u: Time, s: int, last: int)
    requires WholeSeconds(t, s) && WholeSeconds(u, last) && t < u
    ensures s <= last
  {}

  /** With both clocks at one instant: accepted from minting until `ttl` seconds later, and not from then on. */
  lemma AliveForItsLifetime(env: Env, run: Run, i: nat, j: nat, now: Time, second: int, last: int)
    requires ValidRun(env, run) && i < j < |run.states| && run.steps[i].Mint? && run.steps[i].keep
    requires forall k :: i < k < j ==> !Uses(env, run.states[k], run.steps[k], run.steps[i].jti)
    requires WholeSeconds(now, second) && WholeSeconds(run.steps[i].now + run.steps[i].ttl * 1_000_000, last)
    ensures var a := run.steps[i]; var c := Claims(a.jti, a.ctx, a.tier, last);
            Verdict(env, run.states[j].rows, Token(env, c), a.org, a.ctx, now, now)
              == if now < a.now + a.ttl * 1_000_000 then Some(c) else None
  {
    var a := run.steps[i];
    MintedVerifiesIff(env, run, i, j, a.org, a.ctx, now, now, second, last);
    if now < a.now + a.ttl * 1_000_000 { EarlierSecond(now, a.now + a.ttl * 1_000_000, second, last); }
  }

  /** A minting that was rolled back leaves a signed token that never verifies. */
  lemma RolledBackNeverVerifies(
    env: Env, run: Run, i: nat, j: nat, org: Org, ctx: string, now: Time, dbNow: Time)
    requires ValidRun(env, run) && i < j < |run.states| && run.steps[i].Mint? && !run.steps[i].keep
    ensures Verdict(env, run.states[j].rows, Token(env, MintedClaims(run.steps[i])), org, ctx, now, dbNow) == None
  {
    var a := run.steps[i];
    assert run.states[i + 1] == Next(env, run.states[i], a);
    NoRowLater(env, run, i + 1, j, MintedClaims(a));
    CheckMinted(env, MintedClaims(a), ctx, now);
  }

  lemma {:induction false} NoRowLater(env: Env, run: Run, i: nat, j: nat, c: Claims)
    requires ValidRun(env, run) && i <= j < |run.states| && c in run.states[i].signed && c.jti !in run.states[i].rows
    ensures c in run.states[j].signed && c.jti !in run.states[j].rows
    decreases j
  {
    if i < j {
      NoRowLater(env, run, i, j - 1, c);
      assert run.states[j] == Next(env, run.states[j - 1], run.steps[j - 1]);
    }
  }
}
