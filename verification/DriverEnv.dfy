/** The environment of the csi-plugin containers. */
module DriverEnv {
  import opened Base
  import opened DriverTypes

  datatype Source = SecretRef(secret: SecretKey) | FieldRef(path: string)

  datatype EnvVar = EnvVar(name: string, value: string, from: Option<Source>)

  function Literal(name: string, value: string): EnvVar {
    EnvVar(name, value, None)
  }

  function Render(e: EnvSpec): EnvVar {
    match e.secret
    case Some(s) => EnvVar(e.name, "", Some(SecretRef(s)))
    case None => Literal(e.name, e.value)
  }

  function RenderAll(es: seq<EnvSpec>): seq<EnvVar> {
    seq(|es|, i requires 0 <= i < |es| => Render(es[i]))
  }

  // Go's nil and empty slices behave alike under append, so both are [] here.
  method ExtraEnv(spec: Spec) returns (env: seq<EnvVar>)
    ensures env == RenderAll(spec.extraEnv)
  {
    if |spec.extraEnv| == 0 {
      return [];
    }
    env := [];
    for i := 0 to |spec.extraEnv|
      invariant env == RenderAll(spec.extraEnv[..i])
    {
      var e := spec.extraEnv[i];
      var v := EnvVar(e.name, "", None);
      if e.secret.Some? {
        v := v.(from := Some(SecretRef(e.secret.value)));
      } else {
        v := v.(value := e.value);
      }
      env := env + [v];
    }
    assert spec.extraEnv[..|spec.extraEnv|] == spec.extraEnv;
  }

  function EndpointOverride(spec: Spec): seq<EnvVar> {
    if spec.ecsEndpoint == "" then [] else [Literal("ECS_ENDPOINT", spec.ecsEndpoint)]
  }

  method DriverEnvOf(spec: Spec) returns (env: seq<EnvVar>)
    ensures env == PluginEnv([], spec)
  {
    env := ExtraEnv(spec);
    if spec.ecsEndpoint != "" {
      env := env + [Literal("ECS_ENDPOINT", spec.ecsEndpoint)];
    }
  }

  // The env list of one csi-plugin container, given its built-in entries.
  function PluginEnv(builtin: seq<EnvVar>, spec: Spec): seq<EnvVar> {
    builtin + RenderAll(spec.extraEnv) + EndpointOverride(spec)
  }

  // The container runtime lets the last entry of a name win.
  function Resolve(env: seq<EnvVar>, name: string): Option<EnvVar> {
    if env == [] then None
    else if env[|env| - 1].name == name then Some(env[|env| - 1])
    else Resolve(env[..|env| - 1], name)
  }

  lemma {:induction false} ResolveAppend(a: seq<EnvVar>, b: seq<EnvVar>, name: string)
    ensures Resolve(a + b, name) == if Resolve(b, name).Some? then Resolve(b, name) else Resolve(a, name)
  {
    if b == [] {
      assert a + b == a;
    } else {
      var front := b[..|b| - 1];
      assert (a + b)[..|a + b| - 1] == a + front;
      ResolveAppend(a, front, name);
    }
  }

  lemma RenderHead(es: seq<EnvSpec>, name: string)
    requires es != []
    ensures Resolve(RenderAll(es), name) ==
            if Resolve(RenderAll(es[1..]), name).Some? then Resolve(RenderAll(es[1..]), name)
            else if es[0].name == name then Some(Render(es[0])) else None
  {
    var head := [Render(es[0])];
    assert RenderAll(es) == head + RenderAll(es[1..]);
    ResolveAppend(head, RenderAll(es[1..]), name);
    assert head[..0] == [];
  }

  lemma {:induction false} NoEntry(es: seq<EnvSpec>, name: string)
    requires forall i | 0 <= i < |es| :: es[i].name != name
    ensures Resolve(RenderAll(es), name) == None
  {
    if es != [] {
      NoEntry(es[1..], name);
      RenderHead(es, name);
    }
  }

  // +listType=map with key name on spec.extraEnv.
  ghost predicate UniqueNames(es: seq<EnvSpec>) {
    forall i, j | 0 <= i < j < |es| :: es[i].name != es[j].name
  }

  function ResolvedExtra(es: seq<EnvSpec>, name: string): Option<EnvVar> {
    if es == [] then None
    else if es[0].name == name then Some(Render(es[0]))
    else ResolvedExtra(es[1..], name)
  }

  lemma {:induction false} UniqueEntry(es: seq<EnvSpec>, name: string)
    requires UniqueNames(es)
    ensures Resolve(RenderAll(es), name) == ResolvedExtra(es, name)
  {
    if es != [] {
      RenderHead(es, name);
      if es[0].name == name {
        NoEntry(es[1..], name);
      } else {
        UniqueEntry(es[1..], name);
      }
    }
  }

  // What the driver sees for a name: the ECS endpoint field, else the one
  // extraEnv entry of that name, else the built-in entry.
  lemma EffectiveEnvironment(builtin: seq<EnvVar>, spec: Spec, name: string)
    requires UniqueNames(spec.extraEnv)
    ensures Resolve(PluginEnv(builtin, spec), name) ==
            if name == "ECS_ENDPOINT" && spec.ecsEndpoint != "" then Some(EnvVar(name, spec.ecsEndpoint, None))
            else if ResolvedExtra(spec.extraEnv, name).Some? then ResolvedExtra(spec.extraEnv, name)
            else Resolve(builtin, name)
  {
    UniqueEntry(spec.extraEnv, name);
    var extra := RenderAll(spec.extraEnv);
    ResolveAppend(builtin + extra, EndpointOverride(spec), name);
    ResolveAppend(builtin, extra, name);
    assert EndpointOverride(spec) == [] || EndpointOverride(spec)[..0] == [];
  }

  // An extraEnv entry never yields both a literal and a secret reference.
  lemma LiteralOrSecret(es: seq<EnvSpec>, i: nat)
    requires i < |es|
    ensures RenderAll(es)[i].name == es[i].name
    ensures RenderAll(es)[i].from.Some? <==> es[i].secret.Some?
    ensures es[i].secret.Some? ==> RenderAll(es)[i] == EnvVar(es[i].name, "", Some(SecretRef(es[i].secret.value)))
    ensures es[i].secret.None? ==> RenderAll(es)[i].value == es[i].value
  {
  }
}
