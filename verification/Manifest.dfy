/**
  Permission manifests: compiled as archetype ∩ pack ∩ tenant, printed as canonical JSON, hashed and
  signed.  Signatures are ideal: only bodies in `signed` carry one that verifies.
 */
module Manifest {
  import opened Wrappers
  import opened RateLimits
  import Json
  import JsonUnique

  type Tool = string

  /** A grant as the pack declares it. */
  datatype PackGrant = PackGrant(name: Option<Tool>, perMin: Option<int>, constraints: Option<string>)

  /** A grant as compiled. */
  datatype Grant = Grant(name: Tool, readOnly: bool, tierEval: bool, perMin: Option<int>, constraints: Option<string>)

  datatype Inputs = Inputs(
    instance: string,
    org: string,
    compiledAt: string,
    allowlist: seq<Tool>,
    grants: seq<PackGrant>,
    sendsPerDay: Option<int>,
    tenantAllow: Option<set<Tool>>)

  datatype Body = Body(
    instance: string,
    org: string,
    compiledAt: string,
    tools: seq<Grant>,
    sendsPerDay: Option<int>,
    narrowingAllow: seq<Tool>)

  datatype Signature = By(body: Body) | Other(raw: string)
  datatype Signed = Signed(body: Body, digest: string, signature: Signature)

  /** The hash of a text. */
  type Digest = string -> string

  const NO_TIER_TOOLS: seq<Tool> := ["pricing.compute", "landing_page.generate"]

  predicate EndsWith(s: string, suffix: string) {
    |suffix| <= |s| && s[|s| - |suffix|..] == suffix
  }

  predicate StartsWith(s: string, prefix: string) {
    prefix <= s
  }

  predicate IsReadOnly(name: Tool) {
    EndsWith(name, ".read") || EndsWith(name, ".search")
  }

  predicate SkipsTier(name: Tool) {
    IsReadOnly(name) || name in NO_TIER_TOOLS
  }

  // ---- Compiling -----------------------------------------------------------------------------

  /** Inside all three levels. */
  predicate Granted(i: Inputs, g: PackGrant) {
    && g.name.Some? && g.name.value != ""
    && g.name.value in i.allowlist
    && (i.tenantAllow.Some? ==> g.name.value in i.tenantAllow.value)
  }

  function Compiled(g: PackGrant): Grant
    requires g.name.Some?
  {
    Grant(g.name.value, SkipsTier(g.name.value), !SkipsTier(g.name.value), g.perMin, g.constraints)
  }

  function Tools(i: Inputs, grants: seq<PackGrant>): seq<Grant> {
    if grants == [] then []
    else Tools(i, grants[..|grants| - 1]) + if Granted(i, grants[|grants| - 1]) then [Compiled(grants[|grants| - 1])] else []
  }

  function ReadOnlyNames(tools: seq<Grant>): seq<Tool> {
    if tools == [] then []
    else ReadOnlyNames(tools[..|tools| - 1]) + if IsReadOnly(tools[|tools| - 1].name) then [tools[|tools| - 1].name] else []
  }

  function Compile(i: Inputs): Body {
    Body(i.instance, i.org, i.compiledAt, Tools(i, i.grants), i.sendsPerDay, ReadOnlyNames(Tools(i, i.grants)))
  }

  /** `compile_manifest`: one pass over the pack's grants. */
  method CompileManifest(i: Inputs) returns (body: Body)
    ensures body == Compile(i)
  {
    var allowed := set t | t in i.allowlist;
    var tools: seq<Grant> := [];
    var readOnlyNames: seq<Tool> := [];
    for n := 0 to |i.grants|
      invariant tools == Tools(i, i.grants[..n]) && readOnlyNames == ReadOnlyNames(tools)
    {
      assert i.grants[..n + 1][..n] == i.grants[..n];
      var g := i.grants[n];
      if g.name.None? || g.name.value == "" || g.name.value !in allowed {
        continue;
      }
      var name := g.name.value;
      if i.tenantAllow.Some? && name !in i.tenantAllow.value {
        continue;
      }
      ghost var before := tools;
      if IsReadOnly(name) {
        tools := tools + [Grant(name, true, false, g.perMin, g.constraints)];
        readOnlyNames := readOnlyNames + [name];
      } else if name in NO_TIER_TOOLS {
        tools := tools + [Grant(name, true, false, g.perMin, g.constraints)];
      } else {
        tools := tools + [Grant(name, false, true, g.perMin, g.constraints)];
      }
      assert tools[..|tools| - 1] == before;
    }
    assert i.grants[..|i.grants|] == i.grants;
    body := Body(i.instance, i.org, i.compiledAt, tools, i.sendsPerDay, readOnlyNames);
  }

  /** The compiled tools are exactly the pack's grants inside all three levels. */
  lemma {:induction false} CompileIntersects(i: Inputs, grants: seq<PackGrant>, g: Grant)
    ensures g in Tools(i, grants) <==> exists n :: 0 <= n < |grants| && Granted(i, grants[n]) && g == Compiled(grants[n])
  {
    if grants != [] {
      var init := grants[..|grants| - 1];
      CompileIntersects(i, init, g);
      assert forall n :: 0 <= n < |init| ==> init[n] == grants[n];
    }
  }

  /** What a compiled grant says about its three levels and its tier. */
  lemma GrantIsInside(i: Inputs, g: Grant)
    requires g in Compile(i).tools
    ensures g.name in i.allowlist && (i.tenantAllow.Some? ==> g.name in i.tenantAllow.value)
    ensures exists p :: p in i.grants && p.name == Some(g.name) && p.perMin == g.perMin && p.constraints == g.constraints
    ensures g.tierEval <==> !SkipsTier(g.name)
  {
    CompileIntersects(i, i.grants, g);
    var n :| 0 <= n < |i.grants| && Granted(i, i.grants[n]) && g == Compiled(i.grants[n]);
    assert i.grants[n] in i.grants;
  }

  /** Only read-only names survive narrowing, and every read-only grant does. */
  lemma {:induction false} NarrowingIsReadOnly(tools: seq<Grant>, t: Tool)
    ensures t in ReadOnlyNames(tools) <==> IsReadOnly(t) && exists g :: g in tools && g.name == t
  {
    if tools != [] {
      var init, last := tools[..|tools| - 1], tools[|tools| - 1];
      NarrowingIsReadOnly(init, t);
      assert tools == init + [last];
      if exists g :: g in tools && g.name == t {
        var g :| g in tools && g.name == t;
        assert g in init || g == last;
      }
      assert last in tools;
      assert forall g :: g in init ==> g in tools;
    }
  }

  // ---- The text that is hashed ---------------------------------------------------------------

  type Members = map<string, Json.Value>

  function Names(tools: seq<Tool>): Json.Value { Json.Arr(seq(|tools|, i requires 0 <= i < |tools| => Json.Str(tools[i]))) }

  function When(c: bool, key: string, v: Json.Value): Members { if c then map[key := v] else map[] }

  function GrantMembers(g: Grant): Members {
    map["name" := Json.Str(g.name)]
    + When(g.readOnly, "read_only", Json.Bool(true))
    + When(g.tierEval, "requires_tier_eval", Json.Bool(true))
    + When(g.perMin.Some?, "rate_limit", Json.Obj(map["per_min" := if g.perMin.Some? then Json.Int(g.perMin.value) else Json.Null]))
    + When(g.constraints.Some?, "params_constraints", if g.constraints.Some? then Json.Str(g.constraints.value) else Json.Null)
  }

  function GrantValue(g: Grant): Json.Value { Json.Obj(GrantMembers(g)) }

  function GrantValues(tools: seq<Grant>): seq<Json.Value> {
    seq(|tools|, i requires 0 <= i < |tools| => GrantValue(tools[i]))
  }

  /** The manifest without its own hash and signature. */
  function BodyValue(b: Body): Json.Value {
    Json.Obj(map[
      "manifest_version" := Json.Int(3),
      "instance_id" := Json.Str(b.instance),
      "org_id" := Json.Str(b.org),
      "compiled_at" := Json.Str(b.compiledAt),
      "expires_at" := Json.Null,
      "tools" := Json.Arr(GrantValues(b.tools)),
      "budgets" := Json.Obj(if b.sendsPerDay.Some? then map["sends_day" := Json.Int(b.sendsPerDay.value)] else map[]),
      "untrusted_narrowing" := Json.Obj(map[
        "on_flags" := Names(["web_fetch", "file_ingest", "forwarded_content"]),
        "allow" := Names(b.narrowingAllow)])])
  }

  function Text(b: Body): string { Json.Print(BodyValue(b)) }

  lemma Flags(g: Grant)
    ensures var m := GrantMembers(g);
            && "name" in m && m["name"] == Json.Str(g.name)
            && ("read_only" in m <==> g.readOnly) && ("requires_tier_eval" in m <==> g.tierEval)
  {}

  lemma Limits(g: Grant)
    ensures var m := GrantMembers(g);
            && ("rate_limit" in m <==> g.perMin.Some?)
            && (g.perMin.Some? ==> m["rate_limit"] == Json.Obj(map["per_min" := Json.Int(g.perMin.value)]))
            && ("params_constraints" in m <==> g.constraints.Some?)
            && (g.constraints.Some? ==> m["params_constraints"] == Json.Str(g.constraints.value))
  {}

  lemma LimitUnique(a: int, b: int)
    requires Json.Obj(map["per_min" := Json.Int(a)]) == Json.Obj(map["per_min" := Json.Int(b)])
    ensures a == b
  {
    assert map["per_min" := Json.Int(a)]["per_min"] == map["per_min" := Json.Int(b)]["per_min"];
  }

  lemma GrantValueUnique(a: Grant, b: Grant)
    requires GrantValue(a) == GrantValue(b)
    ensures a == b
  {
    Flags(a); Flags(b); Limits(a); Limits(b);
    if a.perMin.Some? { LimitUnique(a.perMin.value, b.perMin.value); }
  }

  lemma GrantValuesUnique(a: seq<Grant>, b: seq<Grant>)
    requires GrantValues(a) == GrantValues(b)
    ensures a == b
  {
    assert |a| == |GrantValues(a)| == |b|;
    forall i | 0 <= i < |a| ensures a[i] == b[i] {
      assert GrantValues(a)[i] == GrantValues(b)[i];
      GrantValueUnique(a[i], b[i]);
    }
  }

  lemma NamesUnique(a: seq<Tool>, b: seq<Tool>)
    requires Names(a) == Names(b)
    ensures a == b
  {
    assert |a| == |Names(a).items| == |b|;
    forall i | 0 <= i < |a| ensures a[i] == b[i] {
      assert Names(a).items[i] == Names(b).items[i];
    }
  }

  lemma BodyValueUnique(a: Body, b: Body)
    requires BodyValue(a) == BodyValue(b)
    ensures a == b
  {
    var (m, n) := (BodyValue(a).members, BodyValue(b).members);
    assert m["instance_id"] == n["instance_id"] && m["org_id"] == n["org_id"] && m["compiled_at"] == n["compiled_at"];
    assert m["tools"] == n["tools"];
    GrantValuesUnique(a.tools, b.tools);
    var (p, q) := (m["budgets"].members, n["budgets"].members);
    assert p == q && ("sends_day" in p <==> a.sendsPerDay.Some?) && ("sends_day" in q <==> b.sendsPerDay.Some?);
    if a.sendsPerDay.Some? { assert p["sends_day"] == q["sends_day"]; }
    assert m["untrusted_narrowing"].members["allow"] == n["untrusted_narrowing"].members["allow"];
    NamesUnique(a.narrowingAllow, b.narrowingAllow);
  }

  /** Two bodies have one canonical text only if they are the same in every part. */
  lemma TextUnique(a: Body, b: Body)
    ensures Text(a) == Text(b) <==> a == b
  {
    if Text(a) == Text(b) {
      JsonUnique.CanonicalInjective(BodyValue(a), BodyValue(b));
      BodyValueUnique(a, b);
    }
  }

  // ---- Signing -------------------------------------------------------------------------------

  /** `manifest_hash` */
  function BodyHash(h: Digest, body: Body): string { h(Text(body)) }

  function Sign(h: Digest, body: Body): Signed {
    Signed(body, BodyHash(h, body), By(body))
  }

  /** `verify`: the embedded digest is that of the body and the signature over it is ours. */
  predicate Verify(h: Digest, signed: set<Body>, m: Signed) {
    m.digest != "" && m.digest == BodyHash(h, m.body) && m.signature == By(m.body) && m.body in signed
  }

  /**
    A signed manifest verifies, whatever else is signed; and a manifest that verifies under its
    digest is the same in every part, or the two texts are a collision of the hash.
   */
  lemma SignThenVerify(h: Digest, signed: set<Body>, body: Body, other: Signed)
    requires body in signed && BodyHash(h, body) != ""
    ensures Verify(h, signed, Sign(h, body))
    ensures Verify(h, signed, other) && other.digest == BodyHash(h, body) ==>
              other == Sign(h, body) || (Text(other.body) != Text(body) && h(Text(other.body)) == h(Text(body)))
  {
    TextUnique(other.body, body);
  }

  // ---- Lookup --------------------------------------------------------------------------------

  /** An exact name, or a family `x.*` by its dotted prefix. */
  predicate Covers(name: Tool, tool: Tool) {
    name == tool || (EndsWith(name, ".*") && StartsWith(tool, name[..|name| - 1]))
  }

  /** The first grant that covers the tool. */
  function FindGrant(tools: seq<Grant>, tool: Tool): (g: Option<Grant>)
    ensures g.Some? ==> g.value in tools && Covers(g.value.name, tool)
    ensures g.None? ==> forall i :: 0 <= i < |tools| ==> !Covers(tools[i].name, tool)
  {
    if tools == [] then None
    else if Covers(tools[0].name, tool) then Some(tools[0])
    else
      FindGrant(tools[1..], tool)
  }

  /** The first covering grant is the one found; where none up to `n` covers, the rest decides. */
  lemma {:induction false} FindsTheFirst(tools: seq<Grant>, tool: Tool, n: nat)
    requires n < |tools| && forall i :: 0 <= i < n ==> !Covers(tools[i].name, tool)
    ensures Covers(tools[n].name, tool) ==> FindGrant(tools, tool) == Some(tools[n])
    ensures !Covers(tools[n].name, tool) ==> FindGrant(tools, tool) == FindGrant(tools[n + 1..], tool)
  {
    if n > 0 {
      FindsTheFirst(tools[1..], tool, n - 1);
      assert tools[1..][n..] == tools[n + 1..];
    }
  }
}
