/** How the controller decides which remote agents belong to a custom resource
    or to a pod.  Agents carry the name of the pod they run in. */
module AgentMatching {

  /** strings.HasPrefix */
  predicate HasPrefix(s: string, prefix: string) {
    prefix <= s
  }

  /** strings.LastIndex(s, "-") */
  function LastDash(s: string): (r: int)
    ensures -1 <= r < |s|
    ensures 0 <= r ==> s[r] == '-'
    ensures forall k :: r < k < |s| ==> s[k] != '-'
  {
    if s == [] then -1
    else if s[|s| - 1] == '-' then |s| - 1
    else LastDash(s[..|s| - 1])
  }

  predicate DashFree(s: string) {
    '-' !in s
  }

  function CleanupPrefix(crName: string): string {
    crName + "-"
  }

  /** The agents a cleanup pass for the custom resource `crName` deletes. */
  predicate MatchesCr(crName: string, agent: string) {
    HasPrefix(agent, CleanupPrefix(crName))
  }

  /** In plain terms: the resource's name, a dash, and anything. */
  lemma MatchesCrIff(crName: string, agent: string)
    ensures MatchesCr(crName, agent)
       <==> |crName| < |agent| && agent[..|crName|] == crName && agent[|crName|] == '-'
  {
    var p := CleanupPrefix(crName);
    if |crName| < |agent| && agent[..|crName|] == crName && agent[|crName|] == '-' {
      assert agent[..|p|] == p;
    }
    if MatchesCr(crName, agent) {
      assert agent[..|crName|] == p[..|crName|];
      assert agent[|crName|] == p[|crName|];
    }
  }

  /** The agents of a resource's own pods match it, whatever the generated suffixes. */
  lemma OwnPodsMatch(crName: string, h1: string, h2: string)
    ensures MatchesCr(crName, crName + "-" + h1 + "-" + h2)
    ensures MatchesCr(crName, crName + "-" + h1)
  {
    MatchesCrIff(crName, crName + "-" + h1);
    MatchesCrIff(crName, crName + "-" + h1 + "-" + h2);
  }

  /** The pod name with up to two trailing "-hash" parts removed; a dash in
      first position never counts. */
  function StripHashes(pod: string): string {
    var i := LastDash(pod);
    if i > 0 then
      var once := pod[..i];
      var j := LastDash(once);
      if j > 0 then once[..j] else once
    else pod
  }

  /** The agents the pod handler deletes. */
  predicate MatchesPod(pod: string, agent: string) {
    HasPrefix(agent, StripHashes(pod))
  }

  lemma MatchesPodIff(pod: string, agent: string)
    ensures var p := StripHashes(pod); MatchesPod(pod, agent) <==> |p| <= |agent| && agent[..|p|] == p
  {}

  /** Nothing is stripped exactly when no dash follows the first character. */
  lemma StripsNothingIff(pod: string)
    ensures StripHashes(pod) == pod <==> forall i :: 0 < i < |pod| ==> pod[i] != '-'
  {
    if 0 < LastDash(pod) {
      assert |StripHashes(pod)| < |pod|;
    }
  }

  lemma {:induction false} LastDashAfterJoin(d: string, h: string)
    requires DashFree(h)
    ensures LastDash(d + "-" + h) == |d|
  {
    if h == "" {
      assert d + "-" + h == d + "-";
    } else {
      var s := d + "-" + h;
      var shorter := h[..|h| - 1];
      assert s[|s| - 1] == h[|h| - 1];
      assert s[..|s| - 1] == d + "-" + shorter;
      LastDashAfterJoin(d, shorter);
    }
  }

  /** Two resources can claim the same agent exactly when one's "name-" is a
      prefix of the other's. */
  lemma SharedAgentsIff(a: string, b: string)
    ensures (exists agent :: MatchesCr(a, agent) && MatchesCr(b, agent))
       <==> (CleanupPrefix(a) <= CleanupPrefix(b) || CleanupPrefix(b) <= CleanupPrefix(a))
  {
    if agent :| MatchesCr(a, agent) && MatchesCr(b, agent) {
      var p, q := CleanupPrefix(a), CleanupPrefix(b);
      if |p| <= |q| {
        assert p == agent[..|p|] == q[..|p|];
      } else {
        assert q == agent[..|q|] == p[..|q|];
      }
    }
    if CleanupPrefix(a) <= CleanupPrefix(b) {
      assert MatchesCr(a, CleanupPrefix(b)) && MatchesCr(b, CleanupPrefix(b));
    }
    if CleanupPrefix(b) <= CleanupPrefix(a) {
      assert MatchesCr(a, CleanupPrefix(a)) && MatchesCr(b, CleanupPrefix(a));
    }
  }

  /** A Deployment's pod "d-h1-h2" strips back to "d". */
  lemma StripDeploymentPod(d: string, h1: string, h2: string)
    requires d != "" && DashFree(h1) && DashFree(h2)
    ensures StripHashes(d + "-" + h1 + "-" + h2) == d
  {
    var once := d + "-" + h1;
    LastDashAfterJoin(once, h2);
    assert (once + "-" + h2)[..|once|] == once;
    LastDashAfterJoin(d, h1);
    assert once[..|d|] == d;
  }

  /** A Job's pod "d-h" strips back to "d" exactly when "d" has no dash after
      its first character; otherwise part of the resource's own name goes too. */
  lemma StripJobPodIff(d: string, h: string)
    requires d != "" && DashFree(h)
    ensures StripHashes(d + "-" + h) == d <==> LastDash(d) <= 0
    ensures 0 < LastDash(d) ==> StripHashes(d + "-" + h) == d[..LastDash(d)]
  {
    LastDashAfterJoin(d, h);
    assert (d + "-" + h)[..|d|] == d;
  }

  /** Stripping leaves a non-empty prefix of a non-empty pod name, so the agent
      registered under the pod's name is always among the matches. */
  lemma StripKeepsOwnAgent(pod: string)
    requires pod != ""
    ensures StripHashes(pod) != "" && StripHashes(pod) <= pod
    ensures MatchesPod(pod, pod)
  {}

  // ---------- whom the pod handler hits ----------

  /** The handler takes every agent of resource `owner` exactly when the stripped
      pod name is a prefix of the resource's "name-". */
  lemma PodCoversResourceIff(pod: string, owner: string)
    ensures (forall agent :: MatchesCr(owner, agent) ==> MatchesPod(pod, agent))
       <==> StripHashes(pod) <= CleanupPrefix(owner)
  {
    if forall agent :: MatchesCr(owner, agent) ==> MatchesPod(pod, agent) {
      assert MatchesCr(owner, CleanupPrefix(owner));
    }
  }

  /** It takes no agent but those of `owner` exactly when the resource's "name-"
      is a prefix of the stripped pod name. */
  lemma PodConfinedToResourceIff(pod: string, owner: string)
    ensures (forall agent :: MatchesPod(pod, agent) ==> MatchesCr(owner, agent))
       <==> CleanupPrefix(owner) <= StripHashes(pod)
  {
    if forall agent :: MatchesPod(pod, agent) ==> MatchesCr(owner, agent) {
      assert MatchesPod(pod, StripHashes(pod));
    }
  }

  /** It takes some agent that resource `other` also claims exactly when one of
      the two prefixes extends the other. */
  lemma PodReachesResourceIff(pod: string, other: string)
    ensures (exists agent :: MatchesPod(pod, agent) && MatchesCr(other, agent))
       <==> (StripHashes(pod) <= CleanupPrefix(other) || CleanupPrefix(other) <= StripHashes(pod))
  {
    var p, q := StripHashes(pod), CleanupPrefix(other);
    if agent :| MatchesPod(pod, agent) && MatchesCr(other, agent) {
      if |p| <= |q| {
        assert p == agent[..|p|] == q[..|p|];
      } else {
        assert q == agent[..|q|] == p[..|q|];
      }
    }
    if p <= q {
      assert MatchesPod(pod, q) && MatchesCr(other, q);
    }
    if q <= p {
      assert MatchesPod(pod, p) && MatchesCr(other, p);
    }
  }

  /** A pod named like a resource makes the handler take all agents of that
      resource, and it is never confined to them. */
  lemma SameNamedPodIsNeverConfined(name: string)
    ensures forall agent :: MatchesCr(name, agent) ==> MatchesPod(name, agent)
    ensures exists agent :: MatchesPod(name, agent) && !MatchesCr(name, agent)
  {
    PodCoversResourceIff(name, name);
    PodConfinedToResourceIff(name, name);
  }

  /** A resource "web" and a pod of that name: an agent of resource "web2" goes. */
  lemma NeighbourIsHit()
    ensures MatchesPod("web", "web2-x-y") && MatchesCr("web2", "web2-x-y") && !MatchesCr("web", "web2-x-y")
  {
    assert LastDash("web") == -1;
    assert CleanupPrefix("web")[3] == '-' && "web2-x-y"[3] == '2';
  }
}
