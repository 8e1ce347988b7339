/** The two lookups of the PAT secret: ValidateSecrets in the use case and
    getPATToken in the controller, each falling back to namespace "default". */
module Secrets {
  import opened Wrappers

  type Data = map<string, string>

  /** What a Get of a secret answers; a broken one fails every time. */
  datatype Lookup = Found(data: Data) | NotFound | Broken

  datatype SecretKey = SecretKey(namespace: string, name: string)

  type SecretStore = map<SecretKey, Lookup>

  datatype SecretError = Missing | Unreadable | NoPatKey | Unexpected | PullMissing | PullUnreadable

  const PAT := "PAT"
  const DEFAULT := "default"

  function Get(store: SecretStore, namespace: string, name: string): Lookup {
    var key := SecretKey(namespace, name);
    if key in store then store[key] else NotFound
  }

  predicate HoldsPat(l: Lookup) {
    l.Found? && PAT in l.data
  }

  /** Where validation accepts the PAT reference from. */
  function ValidatedFrom(store: SecretStore, namespace: string, name: string): Option<string> {
    var own, fallback := Get(store, namespace, name), Get(store, DEFAULT, name);
    if HoldsPat(own) then Some(namespace)
    else if own.NotFound? && HoldsPat(fallback) then Some(DEFAULT)
    else None
  }

  /** Where the token is read from. */
  function ReadFrom(store: SecretStore, namespace: string, name: string): Option<string> {
    if HoldsPat(Get(store, namespace, name)) then Some(namespace)
    else if HoldsPat(Get(store, DEFAULT, name)) then Some(DEFAULT)
    else None
  }

  /** Is the pull secret there, in either namespace? */
  predicate PullAccepted(store: SecretStore, namespace: string, pull: string) {
    || pull == ""
    || Get(store, namespace, pull).Found?
    || (Get(store, namespace, pull).NotFound? && Get(store, DEFAULT, pull).Found?)
  }

  /** The token is taken from key "PAT" of the secret in the own namespace, or else
      in namespace "default"; what is not stored is not found. */
  lemma ReadFromMeaning(store: SecretStore, namespace: string, name: string)
    ensures var (own, fallback) := (Get(store, namespace, name), Get(store, "default", name));
            ReadFrom(store, namespace, name)
              == if own.Found? && "PAT" in own.data then Some(namespace)
                 else if fallback.Found? && "PAT" in fallback.data then Some("default")
                 else None
    ensures var key := SecretKey(namespace, name);
            Get(store, namespace, name) == if key in store.Keys then store[key] else NotFound
  {}

  method ValidateSecrets(store: SecretStore, namespace: string, pat: string, pull: string)
      returns (err: Option<SecretError>)
    ensures err == None <==> ValidatedFrom(store, namespace, pat).Some? && PullAccepted(store, namespace, pull)
    ensures err in {Some(PullMissing), Some(PullUnreadable)} ==> ValidatedFrom(store, namespace, pat).Some?
    ensures var (own, fallback) := (Get(store, namespace, pull), Get(store, "default", pull));
            ValidatedFrom(store, namespace, pat).Some? ==>
              && (err == Some(PullMissing) <==> pull != "" && own.NotFound? && fallback.NotFound?)
              && (err == Some(PullUnreadable) <==> pull != "" && (own.Broken? || (own.NotFound? && fallback.Broken?)))
    ensures var (own, fallback) := (Get(store, namespace, pat), Get(store, DEFAULT, pat));
            && (err == Some(Missing) <==> own.NotFound? && fallback.NotFound?)
            && (err == Some(Unreadable) <==> own.Broken? || (own.NotFound? && fallback.Broken?))
            && (err == Some(NoPatKey) <==>
                  (if own.NotFound? then fallback.Found? && !HoldsPat(fallback) else own.Found? && !HoldsPat(own)))
  {
    var found := Get(store, namespace, pat);
    if !found.Found? {
      if found.NotFound? {
        found := Get(store, DEFAULT, pat);
        if !found.Found? {
          return Some(if found.NotFound? then Missing else Unreadable);
        }
      } else {
        return Some(Unreadable);
      }
    }
    if PAT !in found.data {
      return Some(NoPatKey);
    }
    if pull != "" {
      var pulled := Get(store, namespace, pull);
      if !pulled.Found? {
        if pulled.NotFound? {
          pulled := Get(store, DEFAULT, pull);
          if !pulled.Found? {
            return Some(if pulled.NotFound? then PullMissing else PullUnreadable);
          }
        } else {
          return Some(PullUnreadable);
        }
      }
    }
    return None;
  }

  /** The branch for an unexpected error can never be taken. */
  method GetPATToken(store: SecretStore, namespace: string, name: string) returns (r: Result<string, SecretError>)
    ensures r.Ok? <==> ReadFrom(store, namespace, name).Some?
    ensures r.Ok? ==> r.value == Get(store, ReadFrom(store, namespace, name).value, name).data[PAT]
    ensures r != Err(Unexpected)
    ensures var (own, fallback) := (Get(store, namespace, name), Get(store, DEFAULT, name));
            && (r == Err(Missing) <==> !HoldsPat(own) && fallback.NotFound?)
            && (r == Err(Unreadable) <==> !HoldsPat(own) && fallback.Broken?)
            && (r == Err(NoPatKey) <==> !HoldsPat(own) && fallback.Found? && !HoldsPat(fallback))
  {
    var answer := Get(store, namespace, name);
    var data: Data := if answer.Found? then answer.data else map[];
    var present := PAT in data;
    if answer.Found? {
      if present {
        return Ok(data[PAT]);
      }
    }
    if answer.NotFound? || !present {
      answer := Get(store, DEFAULT, name);
      if !answer.Found? {
        return Err(if answer.NotFound? then Missing else Unreadable);
      }
      if PAT !in answer.data {
        return Err(NoPatKey);
      }
      return Ok(answer.data[PAT]);
    }
    return Err(Unexpected);
  }

  /** If validation accepts the reference, the controller reads the token, from
      the same secret. */
  lemma AcceptedTokenIsRead(store: SecretStore, namespace: string, name: string)
    requires ValidatedFrom(store, namespace, name).Some?
    ensures ReadFrom(store, namespace, name) == ValidatedFrom(store, namespace, name)
  {}

  /** The other way round they part exactly when the resource's own namespace
      has a secret that cannot be read or lacks the key, and "default" has one
      with it: the token is read, but validation refuses. */
  lemma LookupsPartIff(store: SecretStore, namespace: string, name: string)
    ensures (ReadFrom(store, namespace, name).Some? && ValidatedFrom(store, namespace, name).None?)
       <==> (!Get(store, namespace, name).NotFound? && !HoldsPat(Get(store, namespace, name))
             && HoldsPat(Get(store, DEFAULT, name)))
  {}
}
