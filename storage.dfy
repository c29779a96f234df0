/**
 * An in-memory model of the storage collaborator (the storage.Storage interface)
 * that the administrative API talks to: one map per record kind, the per-key
 * create / get / update / delete / list primitives, and a fault switch per
 * primitive. Each primitive's meaning is stated once, by the functions Lookup,
 * Insert, Remove, Update and UpdateCapturing; the Store methods are proved to
 * behave as those functions say.
 */
module Storage {
  import opened Common
  import opened Bcrypt

  /** The storage errors the API distinguishes: ErrNotFound, ErrAlreadyExists, and every other failure. */
  datatype StoreError = ErrNotFound | ErrAlreadyExists | ErrOther

  /** What an update callback returns: the record to write back, or an error that aborts the write. */
  datatype Write<V> = Put(value: V) | Abort(err: StoreError)

  datatype Client = Client(
    id: string,
    secret: string,
    redirectURIs: seq<string>,
    trustedPeers: seq<string>,
    public: bool,
    name: string,
    logoURL: string)

  datatype Password = Password(email: string, hash: Hash, username: string, userID: string)

  /** A reference to a refresh token held inside an offline session; timestamps are Unix seconds. */
  datatype RefreshTokenRef = RefreshTokenRef(id: string, clientID: string, createdAt: int, lastUsed: int)

  /** Offline sessions are keyed by the pair (user id, connector id). */
  datatype SessionKey = SessionKey(userID: string, connID: string)

  /** The refresh-token references of one user through one connector, keyed by client id. */
  datatype OfflineSessions = OfflineSessions(userID: string, connID: string, refresh: map<string, RefreshTokenRef>)

  /** The standalone refresh-token record, addressed by token id. */
  datatype RefreshToken = RefreshToken(id: string, clientID: string)

  /** The storage primitives, as named by the fault switch. */
  datatype Op =
    | CreateClientOp | UpdateClientOp | DeleteClientOp | ListClientsOp
    | CreatePasswordOp | UpdatePasswordOp | DeletePasswordOp | GetPasswordOp | ListPasswordsOp
    | GetOfflineSessionsOp | UpdateOfflineSessionsOp | DeleteRefreshOp

  /** A call of a primitive that may change storage, with the key it addressed. */
  datatype Call =
    | CreateClientCall(id: string)
    | UpdateClientCall(id: string)
    | DeleteClientCall(id: string)
    | CreatePasswordCall(email: string)
    | UpdatePasswordCall(email: string)
    | DeletePasswordCall(email: string)
    | UpdateOfflineSessionsCall(key: SessionKey)
    | DeleteRefreshCall(id: string)

  /** The error an injected fault makes primitive `op` fail with, if any. */
  function FaultOf(faults: map<Op, StoreError>, op: Op): (f: Option<StoreError>)
    ensures f.Some? <==> op in faults
    ensures f.Some? ==> f.value == faults[op]
  {
    if op in faults then Some(faults[op]) else None
  }

  /** Get: the stored record, or ErrNotFound when the key is absent. */
  function Lookup<K, V>(m: map<K, V>, k: K, fault: Option<StoreError>): (r: Result<V, StoreError>)
    ensures fault.Some? ==> r == Failure(fault.value)
    ensures fault.None? ==> (r.Success? <==> k in m)
    ensures r.Success? ==> k in m && r.value == m[k]
    ensures fault.None? && k !in m ==> r == Failure(ErrNotFound)
  {
    if fault.Some? then Failure(fault.value)
    else if k in m then Success(m[k])
    else Failure(ErrNotFound)
  }

  /** Create: stores `v` under a fresh key; an existing key is refused with ErrAlreadyExists. */
  function Insert<K, V>(m: map<K, V>, k: K, v: V, fault: Option<StoreError>): (r: (Option<StoreError>, map<K, V>))
    ensures r.0.None? <==> fault.None? && k !in m
    ensures r.0.None? ==> r.1 == m[k := v]
    ensures r.0.Some? ==> r.1 == m
    ensures fault.None? && k in m ==> r.0 == Some(ErrAlreadyExists)
    ensures fault.Some? ==> r.0 == fault
  {
    if fault.Some? then (fault, m)
    else if k in m then (Some(ErrAlreadyExists), m)
    else (None, m[k := v])
  }

  /** Delete: removes the key; an absent key is ErrNotFound. */
  function Remove<K, V>(m: map<K, V>, k: K, fault: Option<StoreError>): (r: (Option<StoreError>, map<K, V>))
    ensures r.0.None? <==> fault.None? && k in m
    ensures r.0.None? ==> r.1 == m - {k} && |r.1| == |m| - 1
    ensures r.0.Some? ==> r.1 == m
    ensures fault.None? && k !in m ==> r.0 == Some(ErrNotFound)
    ensures fault.Some? ==> r.0 == fault
  {
    if fault.Some? then (fault, m)
    else if k in m then (None, m - {k})
    else (Some(ErrNotFound), m)
  }

  /**
   * Update(key, f): an absent key is ErrNotFound and f is not called; when f
   * aborts nothing is written and f's error is returned; otherwise f's record
   * replaces the old one under the same key.
   */
  function Update<K, V>(m: map<K, V>, k: K, f: V -> Write<V>, fault: Option<StoreError>): (r: (Option<StoreError>, map<K, V>))
    ensures r.0.None? <==> fault.None? && k in m && f(m[k]).Put?
    ensures r.0.None? ==> r.1 == m[k := f(m[k]).value]
    ensures r.0.Some? ==> r.1 == m
    ensures fault.None? && k !in m ==> r.0 == Some(ErrNotFound)
    ensures fault.None? && k in m && f(m[k]).Abort? ==> r.0 == Some(f(m[k]).err)
    ensures fault.Some? ==> r.0 == fault
  {
    if fault.Some? then (fault, m)
    else if k !in m then (Some(ErrNotFound), m)
    else match f(m[k])
      case Put(v) => (None, m[k := v])
      case Abort(e) => (Some(e), m)
  }

  /**
   * Update with a callback that also assigns variables of its caller: `f` maps
   * the stored record and the current value of those variables to a write and
   * their new value. When `f` never runs (fault, absent key) the variables keep
   * the value `x` they had before the call.
   */
  function UpdateCapturing<K, V, X>(m: map<K, V>, k: K, f: (V, X) -> (Write<V>, X), x: X, fault: Option<StoreError>)
    : (r: (Option<StoreError>, map<K, V>, X))
    ensures fault.Some? || k !in m ==> r.2 == x && r.1 == m
    ensures fault.None? && k in m ==> r.2 == f(m[k], x).1
    ensures r.0.None? <==> fault.None? && k in m && f(m[k], x).0.Put?
    ensures r.0.None? ==> r.1 == m[k := f(m[k], x).0.value]
    ensures r.0.Some? ==> r.1 == m
    ensures fault.None? && k !in m ==> r.0 == Some(ErrNotFound)
    ensures fault.None? && k in m && f(m[k], x).0.Abort? ==> r.0 == Some(f(m[k], x).0.err)
    ensures fault.Some? ==> r.0 == fault
  {
    if fault.Some? then (fault, m, x)
    else if k !in m then (Some(ErrNotFound), m, x)
    else
      var (w, x') := f(m[k], x);
      match w
      case Put(v) => (None, m[k := v], x')
      case Abort(e) => (Some(e), m, x')
  }

  /** `keys` lists every key of `m` exactly once. */
  ghost predicate ListsKeysOf<K, V>(keys: seq<K>, m: map<K, V>) {
    && Distinct(keys)
    && (forall k :: k in m ==> k in keys)
    && (forall i :: 0 <= i < |keys| ==> keys[i] in m)
  }

  /** A duplicate-free listing of a map's keys has as many elements as the map. */
  lemma {:induction false} ListedKeysCount<K, V>(keys: seq<K>, m: map<K, V>)
    requires ListsKeysOf(keys, m)
    ensures |keys| == |m|
  {
    if keys != [] {
      var last := keys[|keys| - 1];
      var init := keys[..|keys| - 1];
      assert keys == init + [last];
      forall i | 0 <= i < |init|
        ensures init[i] != last
      {
        assert keys[i] != keys[|keys| - 1];
      }
      var rest := m - {last};
      forall k
        ensures k in rest <==> k in init
      {
        if k in init {
          assert k in keys;
        }
      }
      ListedKeysCount(init, rest);
      assert m.Keys == rest.Keys + {last};
    }
  }

  /** Iterates over a map, as a storage engine lists its records: every record once, in some order. */
  method EnumerateMap<K, V>(m: map<K, V>) returns (vs: seq<V>, ghost keys: seq<K>)
    ensures ListsKeysOf(keys, m)
    ensures |vs| == |keys| == |m|
    ensures forall i :: 0 <= i < |keys| ==> keys[i] in m && vs[i] == m[keys[i]]
  {
    var rest := m.Keys;
    vs, keys := [], [];
    while rest != {}
      invariant Distinct(keys)
      invariant forall k :: k in m <==> k in keys || k in rest
      invariant forall k :: k in rest ==> k !in keys
      invariant |vs| == |keys|
      invariant forall i :: 0 <= i < |keys| ==> keys[i] in m && vs[i] == m[keys[i]]
      decreases rest
    {
      var k :| k in rest;
      vs, keys := vs + [m[k]], keys + [k];
      rest := rest - {k};
    }
    ListedKeysCount(keys, m);
  }

  /** The storage engine, held in memory. */
  class Store {
    var clients: map<string, Client>
    var passwords: map<string, Password>
    var offlineSessions: map<SessionKey, OfflineSessions>
    var refreshTokens: map<string, RefreshToken>
    /** Fault injection: a primitive whose Op is a key here fails with the mapped error and changes nothing. */
    var faults: map<Op, StoreError>
    /** Every call of a primitive that may change storage, in the order it was made. */
    ghost var writes: seq<Call>

    constructor (clients: map<string, Client>, passwords: map<string, Password>,
                 offlineSessions: map<SessionKey, OfflineSessions>, refreshTokens: map<string, RefreshToken>,
                 faults: map<Op, StoreError>)
      ensures this.clients == clients && this.passwords == passwords
      ensures this.offlineSessions == offlineSessions && this.refreshTokens == refreshTokens
      ensures this.faults == faults && writes == []
    {
      this.clients, this.passwords := clients, passwords;
      this.offlineSessions, this.refreshTokens := offlineSessions, refreshTokens;
      this.faults := faults;
      writes := [];
    }

    method CreateClient(c: Client) returns (err: Option<StoreError>)
      modifies this`clients, this`writes
      ensures writes == old(writes) + [CreateClientCall(c.id)]
      ensures (err, clients) == Insert(old(clients), c.id, c, FaultOf(faults, CreateClientOp))
    {
      writes := writes + [CreateClientCall(c.id)];
      if CreateClientOp in faults {
        err := Some(faults[CreateClientOp]);
      } else if c.id in clients {
        err := Some(ErrAlreadyExists);
      } else {
        clients := clients[c.id := c];
        err := None;
      }
    }

    method UpdateClient(id: string, f: Client -> Write<Client>) returns (err: Option<StoreError>)
      modifies this`clients, this`writes
      ensures writes == old(writes) + [UpdateClientCall(id)]
      ensures (err, clients) == Update(old(clients), id, f, FaultOf(faults, UpdateClientOp))
    {
      writes := writes + [UpdateClientCall(id)];
      if UpdateClientOp in faults {
        err := Some(faults[UpdateClientOp]);
      } else if id !in clients {
        err := Some(ErrNotFound);
      } else {
        var w := f(clients[id]);
        if w.Put? {
          clients := clients[id := w.value];
          err := None;
        } else {
          err := Some(w.err);
        }
      }
    }

    method DeleteClient(id: string) returns (err: Option<StoreError>)
      modifies this`clients, this`writes
      ensures writes == old(writes) + [DeleteClientCall(id)]
      ensures (err, clients) == Remove(old(clients), id, FaultOf(faults, DeleteClientOp))
    {
      writes := writes + [DeleteClientCall(id)];
      if DeleteClientOp in faults {
        err := Some(faults[DeleteClientOp]);
      } else if id in clients {
        clients := clients - {id};
        err := None;
      } else {
        err := Some(ErrNotFound);
      }
    }

    method ListClients() returns (r: Result<seq<Client>, StoreError>, ghost ids: seq<string>)
      ensures ListClientsOp in faults ==> r == Failure(faults[ListClientsOp])
      ensures ListClientsOp !in faults ==> r.Success? && ListsKeysOf(ids, clients) && |r.value| == |ids| == |clients|
      ensures r.Success? ==> forall i :: 0 <= i < |ids| ==> ids[i] in clients && r.value[i] == clients[ids[i]]
    {
      if ListClientsOp in faults {
        return Failure(faults[ListClientsOp]), [];
      }
      var all;
      all, ids := EnumerateMap(clients);
      r := Success(all);
    }

    method CreatePassword(p: Password) returns (err: Option<StoreError>)
      modifies this`passwords, this`writes
      ensures writes == old(writes) + [CreatePasswordCall(p.email)]
      ensures (err, passwords) == Insert(old(passwords), p.email, p, FaultOf(faults, CreatePasswordOp))
    {
      writes := writes + [CreatePasswordCall(p.email)];
      if CreatePasswordOp in faults {
        err := Some(faults[CreatePasswordOp]);
      } else if p.email in passwords {
        err := Some(ErrAlreadyExists);
      } else {
        passwords := passwords[p.email := p];
        err := None;
      }
    }

    method UpdatePassword(email: string, f: Password -> Write<Password>) returns (err: Option<StoreError>)
      modifies this`passwords, this`writes
      ensures writes == old(writes) + [UpdatePasswordCall(email)]
      ensures (err, passwords) == Update(old(passwords), email, f, FaultOf(faults, UpdatePasswordOp))
    {
      writes := writes + [UpdatePasswordCall(email)];
      if UpdatePasswordOp in faults {
        err := Some(faults[UpdatePasswordOp]);
      } else if email !in passwords {
        err := Some(ErrNotFound);
      } else {
        var w := f(passwords[email]);
        if w.Put? {
          passwords := passwords[email := w.value];
          err := None;
        } else {
          err := Some(w.err);
        }
      }
    }

    method DeletePassword(email: string) returns (err: Option<StoreError>)
      modifies this`passwords, this`writes
      ensures writes == old(writes) + [DeletePasswordCall(email)]
      ensures (err, passwords) == Remove(old(passwords), email, FaultOf(faults, DeletePasswordOp))
    {
      writes := writes + [DeletePasswordCall(email)];
      if DeletePasswordOp in faults {
        err := Some(faults[DeletePasswordOp]);
      } else if email in passwords {
        passwords := passwords - {email};
        err := None;
      } else {
        err := Some(ErrNotFound);
      }
    }

    method GetPassword(email: string) returns (r: Result<Password, StoreError>)
      ensures r == Lookup(passwords, email, FaultOf(faults, GetPasswordOp))
    {
      if GetPasswordOp in faults {
        r := Failure(faults[GetPasswordOp]);
      } else if email in passwords {
        r := Success(passwords[email]);
      } else {
        r := Failure(ErrNotFound);
      }
    }

    method ListPasswords() returns (r: Result<seq<Password>, StoreError>, ghost emails: seq<string>)
      ensures ListPasswordsOp in faults ==> r == Failure(faults[ListPasswordsOp])
      ensures ListPasswordsOp !in faults ==> r.Success? && ListsKeysOf(emails, passwords) && |r.value| == |emails| == |passwords|
      ensures r.Success? ==> forall i :: 0 <= i < |emails| ==> emails[i] in passwords && r.value[i] == passwords[emails[i]]
    {
      if ListPasswordsOp in faults {
        return Failure(faults[ListPasswordsOp]), [];
      }
      var all;
      all, emails := EnumerateMap(passwords);
      r := Success(all);
    }

    method GetOfflineSessions(userID: string, connID: string) returns (r: Result<OfflineSessions, StoreError>)
      ensures r == Lookup(offlineSessions, SessionKey(userID, connID), FaultOf(faults, GetOfflineSessionsOp))
    {
      var key := SessionKey(userID, connID);
      if GetOfflineSessionsOp in faults {
        r := Failure(faults[GetOfflineSessionsOp]);
      } else if key in offlineSessions {
        r := Success(offlineSessions[key]);
      } else {
        r := Failure(ErrNotFound);
      }
    }

    /**
     * The callback may assign variables of its caller; `captured` is their value
     * before the call and `captured'` their value afterwards.
     */
    method UpdateOfflineSessions<X>(userID: string, connID: string,
                                    f: (OfflineSessions, X) -> (Write<OfflineSessions>, X), captured: X)
      returns (err: Option<StoreError>, captured': X)
      modifies this`offlineSessions, this`writes
      ensures writes == old(writes) + [UpdateOfflineSessionsCall(SessionKey(userID, connID))]
      ensures (err, offlineSessions, captured')
           == UpdateCapturing(old(offlineSessions), SessionKey(userID, connID), f, captured,
                              FaultOf(faults, UpdateOfflineSessionsOp))
    {
      var key := SessionKey(userID, connID);
      writes := writes + [UpdateOfflineSessionsCall(key)];
      captured' := captured;
      if UpdateOfflineSessionsOp in faults {
        err := Some(faults[UpdateOfflineSessionsOp]);
      } else if key !in offlineSessions {
        err := Some(ErrNotFound);
      } else {
        var (w, c) := f(offlineSessions[key], captured);
        captured' := c;
        if w.Put? {
          offlineSessions := offlineSessions[key := w.value];
          err := None;
        } else {
          err := Some(w.err);
        }
      }
    }

    method DeleteRefresh(id: string) returns (err: Option<StoreError>)
      modifies this`refreshTokens, this`writes
      ensures writes == old(writes) + [DeleteRefreshCall(id)]
      ensures (err, refreshTokens) == Remove(old(refreshTokens), id, FaultOf(faults, DeleteRefreshOp))
    {
      writes := writes + [DeleteRefreshCall(id)];
      if DeleteRefreshOp in faults {
        err := Some(faults[DeleteRefreshOp]);
      } else if id in refreshTokens {
        refreshTokens := refreshTokens - {id};
        err := None;
      } else {
        err := Some(ErrNotFound);
      }
    }
  }
}
