/**
 * The correlation store: a map from a per-call token to the payload a Before hook
 * leaves for its matching After hook (the program stores a start time).
 */
module Correlation {
  import opened Errors

  /** Dictionary.Add: insert a new key, or fail if the key is already present. */
  function Added<P>(m: map<Token, P>, token: Token, payload: P): (r: Result<map<Token, P>>)
    ensures r.Ok? <==> token !in m
    ensures r.Err? ==> r.error == DuplicateToken(token)
    ensures r.Ok? ==> r.value.Keys == m.Keys + {token} && r.value[token] == payload
    ensures r.Ok? ==> forall k :: k in m ==> r.value[k] == m[k]
  {
    if token in m then Err(DuplicateToken(token)) else Ok(m[token := payload])
  }

  /** The indexer followed by Remove: read the payload of a key and drop the key, or fail if it is absent. */
  function Taken<P>(m: map<Token, P>, token: Token): (r: Result<(P, map<Token, P>)>)
    ensures r.Ok? <==> token in m
    ensures r.Err? ==> r.error == MissingCorrelation(token)
    ensures r.Ok? ==> r.value.0 == m[token] && r.value.1.Keys == m.Keys - {token}
    ensures r.Ok? ==> forall k :: k in r.value.1 ==> r.value.1[k] == m[k]
  {
    if token in m then Ok((m[token], m - {token})) else Err(MissingCorrelation(token))
  }

  /** A successful insertion followed by the matching take gives back the payload and the prior contents. */
  lemma TakeUndoesAdd<P>(m: map<Token, P>, token: Token, payload: P)
    requires Added(m, token, payload).Ok?
    ensures Taken(Added(m, token, payload).value, token) == Ok((payload, m))
  {
    var m' := Added(m, token, payload).value;
    assert m' - {token} == m;
  }

  class CorrelationStore<P> {
    var entries: map<Token, P>

    constructor ()
      ensures entries == map[]
    {
      entries := map[];
    }

    /** Record the payload under a fresh token. */
    method Put(token: Token, payload: P) returns (r: Result<()>)
      modifies this
      ensures r.Ok? <==> Added(old(entries), token, payload).Ok?
      ensures r.Ok? ==> entries == Added(old(entries), token, payload).value
      ensures r.Err? ==> r.error == DuplicateToken(token) && entries == old(entries)
    {
      if token in entries {
        return Err(DuplicateToken(token));
      }
      entries := entries[token := payload];
      r := Ok(());
    }

    /** Read the payload stored under a token and remove the token. */
    method Take(token: Token) returns (r: Result<P>)
      modifies this
      ensures r.Ok? <==> Taken(old(entries), token).Ok?
      ensures r.Ok? ==> (r.value, entries) == Taken(old(entries), token).value
      ensures r.Err? ==> r.error == MissingCorrelation(token) && entries == old(entries)
    {
      if token !in entries {
        return Err(MissingCorrelation(token));
      }
      var payload := entries[token];
      entries := entries - {token};
      r := Ok(payload);
    }
  }

  /** A matched Put/Take pair on a fresh token leaves the store as it found it. */
  method PairedUse<P>(store: CorrelationStore<P>, token: Token, payload: P) returns (read: P)
    requires token !in store.entries
    modifies store
    ensures read == payload
    ensures store.entries == old(store.entries)
  {
    var put := store.Put(token, payload);
    TakeUndoesAdd(old(store.entries), token, payload);
    var taken := store.Take(token);
    read := taken.value;
  }
}
