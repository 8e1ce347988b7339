/** Construction of the agent pod from the custom resource. */
module PodTemplates {
  import opened Wrappers
  import opened GoInts
  import opened KubeObjects

  /** The part of the resource the pod is built from. */
  datatype AgentSpec = AgentSpec(
    name: string, uid: string, apiVersion: string, kind: string,
    orgURL: string, project: string, pool: string, image: string,
    patSecret: string, pullSecret: string, resources: Opaque, mode: string, docker: string,
    tolerations: seq<Opaque>, affinity: Option<Opaque>, ephemeral: bool, env: seq<EnvVar>,
    minReplicas: Int32, maxReplicas: Int32)

  const AGENT := "azdo-agent"
  const SIGNAL := "signal-volume"
  const SOCKET := "docker-socket"
  const MINIMAL_RESOURCES := Opaque(5064, 0)   // 50m CPU, 64Mi memory
  const NO_RESOURCES := Opaque(0, 0)

  function BaseEnv(cr: AgentSpec): seq<EnvVar> {
    [ EnvVar("AZP_TOKEN", "", Some(SecretKey(cr.patSecret, "PAT"))),
      EnvVar("AGENT_DEBUG", "true", None),
      EnvVar("AZP_URL", cr.orgURL, None),
      EnvVar("AZP_PROJECT", cr.project, None),
      EnvVar("AZP_POOL", cr.pool, None) ]
  }

  function SidecarEnv(docker: string): seq<EnvVar> {
    if docker == "buildkit" then
      [EnvVar("BUILDKIT_HOST", "tcp://localhost:1234", None), EnvVar("DOCKER_BUILDKIT", "1", None)]
    else if docker == "dind" then
      [EnvVar("DOCKER_BUILDKIT", "1", None), EnvVar("DOCKER_HOST", "unix:///run/user/1000/docker.sock", None)]
    else []
  }

  const BUILDKIT := Container("buildkit", "ghcr.io/etiennedeneuve/azdo-buildkit:0.0.3",
    ["buildkitd", "--addr", "tcp://0.0.0.0:1234"], [], [], NO_RESOURCES, [], [Port(1234, "buildkit")], "", false)

  const DIND := Container("docker-dind-rootless", "docker:dind-rootless", ["/bin/sh", "-c"],
    ["dockerd-entrypoint.sh &\nwhile ! test -f /usr/share/pod/done; do\n"
     + "  echo 'Waiting for the agent pod to finish...'\n  sleep 5\ndone\n"
     + "echo 'Agent pod finished, exiting'\nexit 0"],
    [EnvVar("DOCKER_TLS_CERTDIR", "/certs", None), EnvVar("DOCKER_HOST", "unix:///run/user/1000/docker.sock", None)],
    NO_RESOURCES, [VolumeMount(SOCKET, "/run/user/1000", false), VolumeMount(SIGNAL, "/usr/share/pod", true)],
    [], "IfNotPresent", true)

  function Sidecars(docker: string): seq<Container> {
    if docker == "buildkit" then [BUILDKIT] else if docker == "dind" then [DIND] else []
  }

  const START := "trap 'touch /usr/share/pod/done' EXIT && ./start.sh"

  function AgentArgs(ephemeral: bool): seq<string> {
    [if ephemeral then START + " --once" else START]
  }

  function AgentContainer(cr: AgentSpec): Container {
    Container(AGENT, cr.image, ["/bin/sh", "-c"], AgentArgs(cr.ephemeral),
      BaseEnv(cr) + cr.env + SidecarEnv(cr.docker), MINIMAL_RESOURCES,
      [VolumeMount(SIGNAL, "/usr/share/pod", false)]
        + (if cr.docker == "dind" then [VolumeMount(SOCKET, "/run/user/1000", false)] else []),
      [], "", false)
  }

  function OwnerOf(cr: AgentSpec): Owner {
    Owner(cr.apiVersion, cr.kind, cr.name, cr.uid)
  }

  /** The pod template the resource stands for, before the mode is looked at. */
  function TemplateFor(cr: AgentSpec): PodTemplate {
    PodTemplate(Some(map["app" := AGENT]), None, [OwnerOf(cr)],
      PodSpec(if cr.pullSecret != "" then [cr.pullSecret] else [], cr.tolerations, cr.affinity,
        [AgentContainer(cr)] + Sidecars(cr.docker), [SOCKET, SIGNAL], "Always"))
  }

  // ---------- the construction, step by step ----------

  method BuildEnv(cr: AgentSpec) returns (env: seq<EnvVar>)
    ensures env == BaseEnv(cr) + cr.env
  {
    env := BaseEnv(cr);
    if |cr.env| > 0 {
      env := env + cr.env;
    }
  }

  /** Gives every container named like the agent its command and signal mount. */
  method WireAgents(containers: seq<Container>, ephemeral: bool) returns (r: seq<Container>)
    ensures |r| == |containers|
    ensures forall i :: 0 <= i < |r| ==>
              r[i] == if containers[i].name == AGENT
                      then containers[i].(command := ["/bin/sh", "-c"], args := AgentArgs(ephemeral),
                             mounts := containers[i].mounts + [VolumeMount(SIGNAL, "/usr/share/pod", false)])
                      else containers[i]
  {
    r := containers;
    for i := 0 to |containers|
      invariant |r| == |containers|
      invariant forall k :: i <= k < |r| ==> r[k] == containers[k]
      invariant forall k :: 0 <= k < i ==>
                  r[k] == if containers[k].name == AGENT
                          then containers[k].(command := ["/bin/sh", "-c"], args := AgentArgs(ephemeral),
                                 mounts := containers[k].mounts + [VolumeMount(SIGNAL, "/usr/share/pod", false)])
                          else containers[k]
    {
      if r[i].name == AGENT {
        var command := START;
        if ephemeral {
          command := command + " --once";
        }
        r := r[i := r[i].(command := ["/bin/sh", "-c"], args := [command],
                          mounts := r[i].mounts + [VolumeMount(SIGNAL, "/usr/share/pod", false)])];
      }
    }
  }

  /** Appends variables to every container named like the agent. */
  method AppendAgentEnv(containers: seq<Container>, env: seq<EnvVar>) returns (r: seq<Container>)
    ensures |r| == |containers|
    ensures forall i :: 0 <= i < |r| ==>
              r[i] == if containers[i].name == AGENT then containers[i].(env := containers[i].env + env)
                      else containers[i]
  {
    r := containers;
    for i := 0 to |containers|
      invariant |r| == |containers|
      invariant forall k :: i <= k < |r| ==> r[k] == containers[k]
      invariant forall k :: 0 <= k < i ==>
                  r[k] == if containers[k].name == AGENT then containers[k].(env := containers[k].env + env)
                          else containers[k]
    {
      if containers[i].name == AGENT {
        r := r[i := r[i].(env := containers[i].env + env)];
      }
    }
  }

  method AddSidecar(containers: seq<Container>, docker: string) returns (r: seq<Container>)
    requires |containers| == 1 && containers[0].name == AGENT
    ensures r == [containers[0].(
                    env := containers[0].env + SidecarEnv(docker),
                    mounts := containers[0].mounts
                      + (if docker == "dind" then [VolumeMount(SOCKET, "/run/user/1000", false)] else []))]
                 + Sidecars(docker)
  {
    r := containers;
    if docker == "buildkit" {
      r := AppendAgentEnv(r, SidecarEnv(docker));
      r := r + [BUILDKIT];
    } else if docker == "dind" {
      r := r[0 := r[0].(env := r[0].env + SidecarEnv(docker))];
      r := r[0 := r[0].(mounts := r[0].mounts + [VolumeMount(SOCKET, "/run/user/1000", false)])];
      r := r + [DIND];
    } else {
      assert containers[0].env + [] == containers[0].env;
      assert containers[0].mounts + [] == containers[0].mounts;
    }
    assert containers[0].mounts + [] == containers[0].mounts;
  }

  method BuildPodTemplate(cr: AgentSpec) returns (t: PodTemplate)
    ensures t == TemplateFor(cr)
  {
    var env := BuildEnv(cr);
    var pullSecrets: seq<string> := [];
    if cr.pullSecret != "" {
      pullSecrets := [cr.pullSecret];
    }
    var containers := [Container(AGENT, cr.image, [], [], env, MINIMAL_RESOURCES, [], [], "", false)];
    var volumes: seq<string> := [];
    volumes := volumes + [SOCKET];
    volumes := volumes + [SIGNAL];
    containers := WireAgents(containers, cr.ephemeral);
    assert containers[0].mounts == [VolumeMount(SIGNAL, "/usr/share/pod", false)];
    containers := AddSidecar(containers, cr.docker);
    assert containers[0] == AgentContainer(cr);
    assert volumes == [SOCKET, SIGNAL];
    t := PodTemplate(Some(map["app" := AGENT]), None, [OwnerOf(cr)],
           PodSpec(pullSecrets, cr.tolerations, cr.affinity, containers, volumes, "Always"));
  }

  // ---------- what every pod satisfies ----------

  /** The agent comes first and alone bears its name; container names are
      distinct; every mount names a declared volume, and volumes are distinct. */
  ghost predicate WellFormed(p: PodSpec) {
    && 0 < |p.containers|
    && (forall i :: 0 <= i < |p.containers| ==> (p.containers[i].name == AGENT <==> i == 0))
    && (forall i, j :: 0 <= i < j < |p.containers| ==> p.containers[i].name != p.containers[j].name)
    && (forall i, m :: 0 <= i < |p.containers| && m in p.containers[i].mounts ==> m.name in p.volumes)
    && (forall i, j :: 0 <= i < j < |p.volumes| ==> p.volumes[i] != p.volumes[j])
  }

  lemma PodIsWellFormed(cr: AgentSpec)
    ensures WellFormed(TemplateFor(cr).spec)
  {
    var p := TemplateFor(cr).spec;
    assert p.containers[0] == AgentContainer(cr);
    forall i, m | 0 <= i < |p.containers| && m in p.containers[i].mounts ensures m.name in p.volumes {
      if i == 0 {
        assert m.name == SIGNAL || m.name == SOCKET;
      }
      assert p.volumes[0] == SOCKET && p.volumes[1] == SIGNAL;
    }
  }

  /** The kubelet's rule: the last variable of a name wins. */
  function Lookup(env: seq<EnvVar>, name: string): Option<EnvVar> {
    if env == [] then None
    else if env[|env| - 1].name == name then Some(env[|env| - 1])
    else Lookup(env[..|env| - 1], name)
  }

  lemma {:induction false} LookupAppend(a: seq<EnvVar>, b: seq<EnvVar>, name: string)
    ensures Lookup(a + b, name) == if Lookup(b, name).Some? then Lookup(b, name) else Lookup(a, name)
  {
    if b == [] {
      assert a + b == a;
    } else {
      LookupAppend(a, b[..|b| - 1], name);
      assert (a + b)[..|a + b| - 1] == a + b[..|b| - 1];
    }
  }

  /** A sidecar variable overrides a user's, a user's overrides a base one. */
  lemma EnvPrecedence(cr: AgentSpec, name: string)
    ensures var (base, user, side) := (BaseEnv(cr), cr.env, SidecarEnv(cr.docker));
            Lookup(TemplateFor(cr).spec.containers[0].env, name)
              == if Lookup(side, name).Some? then Lookup(side, name)
                 else if Lookup(user, name).Some? then Lookup(user, name)
                 else Lookup(base, name)
  {
    assert TemplateFor(cr).spec.containers[0] == AgentContainer(cr);
    LookupAppend(BaseEnv(cr) + cr.env, SidecarEnv(cr.docker), name);
    LookupAppend(BaseEnv(cr), cr.env, name);
  }

  /** Unless a user variable says otherwise, the agent logs in to the resource's
      organization with the referenced token and registers in the very pool the
      controller lists and cleans; no sidecar interferes. */
  lemma AgentJoinsThePool(cr: AgentSpec, name: string)
    requires name in {"AZP_TOKEN", "AZP_URL", "AZP_PROJECT", "AZP_POOL", "AGENT_DEBUG"}
    ensures Lookup(TemplateFor(cr).spec.containers[0].env, name)
         == if Lookup(cr.env, name).Some? then Lookup(cr.env, name)
            else if name == "AZP_TOKEN" then Some(EnvVar(name, "", Some(SecretKey(cr.patSecret, "PAT"))))
            else Some(EnvVar(name, if name == "AZP_URL" then cr.orgURL
                                   else if name == "AGENT_DEBUG" then "true"
                                   else if name == "AZP_PROJECT" then cr.project else cr.pool, None))
  {
    EnvPrecedence(cr, name);
    SidecarsLeaveLogin(cr.docker, name);
    BaseLogin(cr, name);
  }

  lemma SidecarsLeaveLogin(docker: string, name: string)
    requires name in {"AZP_TOKEN", "AZP_URL", "AZP_PROJECT", "AZP_POOL", "AGENT_DEBUG"}
    ensures Lookup(SidecarEnv(docker), name) == None
  {
    var env := SidecarEnv(docker);
    if env != [] {
      LookupAppend([env[0]], [env[1]], name);
      assert env == [env[0]] + [env[1]];
    }
  }

  lemma BaseLogin(cr: AgentSpec, name: string)
    requires name in {"AZP_TOKEN", "AZP_URL", "AZP_PROJECT", "AZP_POOL", "AGENT_DEBUG"}
    ensures Lookup(BaseEnv(cr), name)
         == if name == "AZP_TOKEN" then Some(EnvVar(name, "", Some(SecretKey(cr.patSecret, "PAT"))))
            else Some(EnvVar(name, if name == "AZP_URL" then cr.orgURL
                                   else if name == "AGENT_DEBUG" then "true"
                                   else if name == "AZP_PROJECT" then cr.project else cr.pool, None))
  {
    var env := BaseEnv(cr);
    assert env == [env[0]] + [env[1]] + [env[2]] + [env[3]] + [env[4]];
    LookupAppend([env[0]] + [env[1]] + [env[2]] + [env[3]], [env[4]], name);
    LookupAppend([env[0]] + [env[1]] + [env[2]], [env[3]], name);
    LookupAppend([env[0]] + [env[1]], [env[2]], name);
    LookupAppend([env[0]], [env[1]], name);
  }

  /** The agent's container and the pod around it, field by field. */
  lemma PodInPlainFields(cr: AgentSpec)
    ensures var (t, p) := (TemplateFor(cr), TemplateFor(cr).spec);
            && p.imagePullSecrets == (if cr.pullSecret == "" then [] else [cr.pullSecret])
            && p.tolerations == cr.tolerations && p.affinity == cr.affinity
            && p.volumes == ["docker-socket", "signal-volume"] && p.restartPolicy == "Always"
            && (forall key :: LabelValue(t.labels, key) == if key == "app" then Some("azdo-agent") else None)
            && (forall key :: LabelValue(t.annotations, key) == None)
            && t.owners == [Owner(cr.apiVersion, cr.kind, cr.name, cr.uid)]
    ensures var (p, a) := (TemplateFor(cr).spec, TemplateFor(cr).spec.containers[0]);
            && |p.containers| == (if cr.docker in {"buildkit", "dind"} then 2 else 1)
            && a.name == "azdo-agent" && a.image == cr.image && a.command == ["/bin/sh", "-c"] && !a.privileged
            && a.args == ["trap 'touch /usr/share/pod/done' EXIT && ./start.sh"
                          + if cr.ephemeral then " --once" else ""]
            && VolumeMount("signal-volume", "/usr/share/pod", false) in a.mounts
            && a.ports == [] && a.pullPolicy == "" && a.resources.meaning == 5064
  {
    var a := AgentContainer(cr);
    assert TemplateFor(cr).spec.containers[0] == a;
    assert a.mounts[0] == VolumeMount("signal-volume", "/usr/share/pod", false);
    assert START + "" == START;
  }

  /** With "dind" agent and sidecar are told the same socket, in a directory both
      mount; only the sidecar is privileged, and it can only read the signal. */
  lemma DindSharesItsSocket(cr: AgentSpec)
    requires cr.docker == "dind"
    ensures var (a, d) := (TemplateFor(cr).spec.containers[0], TemplateFor(cr).spec.containers[1]);
            && Lookup(a.env, "DOCKER_HOST") == Lookup(d.env, "DOCKER_HOST")
                 == Some(EnvVar("DOCKER_HOST", "unix:///run/user/1000/docker.sock", None))
            && VolumeMount("docker-socket", "/run/user/1000", false) in a.mounts
            && d.mounts == [VolumeMount("docker-socket", "/run/user/1000", false),
                            VolumeMount("signal-volume", "/usr/share/pod", true)]
            && d.name == "docker-dind-rootless" && d.image == "docker:dind-rootless" && d.privileged
            && d.command == ["/bin/sh", "-c"] && d.pullPolicy == "IfNotPresent" && d.resources.meaning == 0
            && d.args == ["dockerd-entrypoint.sh &\nwhile ! test -f /usr/share/pod/done; do\n"
                          + "  echo 'Waiting for the agent pod to finish...'\n  sleep 5\ndone\n"
                          + "echo 'Agent pod finished, exiting'\nexit 0"]
            && Lookup(d.env, "DOCKER_TLS_CERTDIR") == Some(EnvVar("DOCKER_TLS_CERTDIR", "/certs", None))
            && Lookup(a.env, "DOCKER_BUILDKIT") == Some(EnvVar("DOCKER_BUILDKIT", "1", None))
  {
    var a, d := AgentContainer(cr), DIND;
    assert TemplateFor(cr).spec.containers == [a, d];
    EnvPrecedence(cr, "DOCKER_HOST");
    var side := SidecarEnv("dind");
    EnvPrecedence(cr, "DOCKER_BUILDKIT");
    LookupAppend([side[0]], [side[1]], "DOCKER_BUILDKIT");
    LookupAppend([side[0]], [side[1]], "DOCKER_HOST");
    assert side == [side[0]] + [side[1]];
    LookupAppend([d.env[0]], [d.env[1]], "DOCKER_HOST");
    LookupAppend([d.env[0]], [d.env[1]], "DOCKER_TLS_CERTDIR");
    assert d.env == [d.env[0]] + [d.env[1]];
    assert a.mounts[1] == VolumeMount("docker-socket", "/run/user/1000", false);
    assert a.mounts[1] in a.mounts;
  }

  /** With "buildkit" the agent is told the port on which the sidecar listens. */
  lemma BuildkitIsReached(cr: AgentSpec)
    requires cr.docker == "buildkit"
    ensures var (a, b) := (TemplateFor(cr).spec.containers[0], TemplateFor(cr).spec.containers[1]);
            && Lookup(a.env, "BUILDKIT_HOST") == Some(EnvVar("BUILDKIT_HOST", "tcp://localhost:1234", None))
            && b.name == "buildkit" && b.command == ["buildkitd", "--addr", "tcp://0.0.0.0:1234"]
            && b.ports == [Port(1234, "buildkit")] && !b.privileged && b.pullPolicy == "" && b.resources.meaning == 0
            && b.image == "ghcr.io/etiennedeneuve/azdo-buildkit:0.0.3"
            && Lookup(a.env, "DOCKER_BUILDKIT") == Some(EnvVar("DOCKER_BUILDKIT", "1", None))
  {
    EnvPrecedence(cr, "BUILDKIT_HOST");
    assert TemplateFor(cr).spec.containers == [AgentContainer(cr), BUILDKIT];
    var side := SidecarEnv("buildkit");
    EnvPrecedence(cr, "DOCKER_BUILDKIT");
    LookupAppend([side[0]], [side[1]], "DOCKER_BUILDKIT");
    LookupAppend([side[0]], [side[1]], "BUILDKIT_HOST");
    assert side == [side[0]] + [side[1]];
  }

  /** The resource limits of the custom resource never reach the pod. */
  lemma ResourcesAreIgnored(cr: AgentSpec, other: Opaque)
    ensures TemplateFor(cr.(resources := other)) == TemplateFor(cr)
  {}
}
