/** The per-page policy every draft of the plugin shares: a set of page keys
    for which the back gesture is disabled, changed one key at a time. */
module PagePolicy {
  import opened PluginCall

  /** The set after one enable (`enabled`) or disable request for `key`:
      `remove` when enabled, `insert`/`add` otherwise. */
  function Update(disabled: set<string>, key: string, enabled: bool): (r: set<string>)
    ensures key in r <==> !enabled
    ensures forall k :: k != key ==> (k in r <==> k in disabled)
  {
    if enabled then disabled - {key} else disabled + {key}
  }

  /** The gesture is allowed for a page unless its key is in the set. */
  predicate Allowed(disabled: set<string>, key: string) {
    key !in disabled
  }

  /** Enabling a page that is not disabled leaves the set as it is. */
  lemma EnableAbsentIsNoOp(disabled: set<string>, key: string)
    requires key !in disabled
    ensures Update(disabled, key, true) == disabled
  {
  }

  /** Repeating a request has no further effect. */
  lemma UpdateIdempotent(disabled: set<string>, key: string, enabled: bool)
    ensures Update(Update(disabled, key, enabled), key, enabled) == Update(disabled, key, enabled)
  {
  }

  /** Of two requests for the same page, only the later one matters. */
  lemma LastWriteWins(disabled: set<string>, key: string, first: bool, second: bool)
    ensures Update(Update(disabled, key, first), key, second) == Update(disabled, key, second)
  {
  }

  /** Requests for different pages do not interfere. */
  lemma UpdatesCommute(disabled: set<string>, k1: string, e1: bool, k2: string, e2: bool)
    requires k1 != k2
    ensures Update(Update(disabled, k1, e1), k2, e2) == Update(Update(disabled, k2, e2), k1, e1)
  {
  }

  /** One request made to the policy: the key it names and whether it enables. */
  datatype Request = Request(key: string, enabled: bool)

  /** The set after a session's requests, starting from the empty set the
      plugin is created with. */
  function Replay(requests: seq<Request>): set<string>
  {
    if requests == [] then {}
    else
      var last := requests[|requests| - 1];
      Update(Replay(requests[..|requests| - 1]), last.key, last.enabled)
  }

  /** The `enabled` flag of the latest request that names `key`, if any. */
  function LatestFor(requests: seq<Request>, key: string): Option<bool>
  {
    if requests == [] then None
    else if requests[|requests| - 1].key == key then Some(requests[|requests| - 1].enabled)
    else LatestFor(requests[..|requests| - 1], key)
  }

  /** A key is disabled exactly when the latest request naming it disabled it;
      a key no request names is allowed (fail-open). */
  lemma {:induction false} ReplayMembership(requests: seq<Request>, key: string)
    ensures key in Replay(requests) <==> LatestFor(requests, key) == Some(false)
    ensures LatestFor(requests, key) == None ==> Allowed(Replay(requests), key)
  {
    if requests != [] {
      ReplayMembership(requests[..|requests| - 1], key);
    }
  }
}
