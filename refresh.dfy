/**
 * The refresh-grant handlers of the administrative API: list the refresh-token
 * references of a user's offline session, and revoke one client's grant.
 *
 * Revocation is two storage calls with no transaction around them. Phase A
 * updates the offline session and detaches the client's reference, capturing its
 * token id; phase B deletes the standalone refresh-token record under that id.
 * When phase B fails after phase A succeeded, the session no longer lists the
 * grant but the token record stays behind: an orphan, which is reported as
 * Internal and not rolled back.
 *
 * The subject identifying the user is an opaque encoding of the pair
 * (user id, connector id); its decoder is a parameter, `unmarshal`.
 */
module Refresh {
  import opened Common
  import opened Storage
  import opened Codes

  /** A refresh-token reference as the API returns it. */
  datatype ApiRefreshTokenRef = ApiRefreshTokenRef(id: string, clientId: string, createdAt: int, lastUsed: int)

  datatype RevokeRefreshReq = RevokeRefreshReq(userId: string, clientId: string)

  /**
   * The two variables of RevokeRefresh that its update callback assigns: the
   * id of the detached token and whether the reference was missing.
   */
  datatype RevokeCapture = RevokeCapture(refreshID: string, notFound: bool)

  /** Their values before the callback runs. */
  const NothingCaptured := RevokeCapture("", false)

  function ToApiRef(r: RefreshTokenRef): (a: ApiRefreshTokenRef)
    ensures a.id == r.id && a.clientId == r.clientID && a.createdAt == r.createdAt && a.lastUsed == r.lastUsed
  {
    ApiRefreshTokenRef(r.id, r.clientID, r.createdAt, r.lastUsed)
  }

  /**
   * Every reference of the session keyed by the decoded subject, each once, in
   * the order the map is walked. A pair with no offline session has simply
   * never been granted one: the answer is an empty list, not an error.
   */
  method ListRefreshForUser(s: Store, unmarshal: string -> Option<SessionKey>, userId: string)
    returns (code: Code, refs: seq<ApiRefreshTokenRef>, ghost clientIds: seq<string>)
    ensures unmarshal(userId).None? ==> code == Internal && refs == []
    ensures unmarshal(userId).Some? ==>
      var got := Lookup(s.offlineSessions, unmarshal(userId).value, FaultOf(s.faults, GetOfflineSessionsOp));
      && (got.Failure? ==> refs == [] && code == (if got.error == ErrNotFound then Ok else Internal))
      && (got.Success? ==>
            var refresh := got.value.refresh;
            && code == Ok
            && ListsKeysOf(clientIds, refresh)
            && |refs| == |clientIds| == |refresh|
            && (forall i :: 0 <= i < |clientIds| ==> clientIds[i] in refresh && refs[i] == ToApiRef(refresh[clientIds[i]]))
            && (forall c :: c in refresh ==> ToApiRef(refresh[c]) in refs))
  {
    var subject := unmarshal(userId);
    if subject.None? {
      return Internal, [], [];
    }
    var r := s.GetOfflineSessions(subject.value.userID, subject.value.connID);
    if r.Failure? {
      if r.error == ErrNotFound {
        return Ok, [], [];
      }
      return Internal, [], [];
    }
    var refresh := r.value.refresh;
    var rest := refresh.Keys;
    refs, clientIds := [], [];
    while rest != {}
      invariant Distinct(clientIds)
      invariant forall c :: c in refresh ==> c in clientIds || c in rest
      invariant forall c :: c in rest ==> c in refresh && c !in clientIds
      invariant |refs| == |clientIds|
      invariant forall i :: 0 <= i < |clientIds| ==> clientIds[i] in refresh && refs[i] == ToApiRef(refresh[clientIds[i]])
      decreases rest
    {
      var c :| c in rest;
      refs, clientIds := refs + [ToApiRef(refresh[c])], clientIds + [c];
      rest := rest - {c};
    }
    ListedKeysCount(clientIds, refresh);
    forall c | c in refresh
      ensures ToApiRef(refresh[c]) in refs
    {
      var i :| 0 <= i < |clientIds| && clientIds[i] == c;
      assert refs[i] == ToApiRef(refresh[c]);
    }
    code := Ok;
  }

  /** The session holds a reference for the client, and that reference names a token. */
  predicate HasLiveRef(sess: OfflineSessions, clientId: string) {
    clientId in sess.refresh && sess.refresh[clientId].id != ""
  }

  /**
   * Phase A's update callback. Without a live reference for the client it
   * aborts with ErrNotFound and sets the not-found flag; otherwise it removes
   * that one entry and captures its token id. Only the variable it assigns
   * changes in the capture.
   */
  function Detach(clientId: string, sess: OfflineSessions, cap: RevokeCapture): (r: (Write<OfflineSessions>, RevokeCapture))
    ensures !HasLiveRef(sess, clientId) ==> r.0 == Abort(ErrNotFound) && r.1 == cap.(notFound := true)
    ensures HasLiveRef(sess, clientId) ==> r.0.Put? && r.1 == cap.(refreshID := sess.refresh[clientId].id)
    ensures r.0.Put? ==>
      && r.0.value.userID == sess.userID && r.0.value.connID == sess.connID
      && r.0.value.refresh.Keys == sess.refresh.Keys - {clientId}
      && forall c :: c in r.0.value.refresh ==> r.0.value.refresh[c] == sess.refresh[c]
  {
    if clientId !in sess.refresh || sess.refresh[clientId].id == "" then
      (Abort(ErrNotFound), cap.(notFound := true))
    else
      (Put(sess.(refresh := sess.refresh - {clientId})), cap.(refreshID := sess.refresh[clientId].id))
  }

  function Detacher(clientId: string): (OfflineSessions, RevokeCapture) -> (Write<OfflineSessions>, RevokeCapture) {
    (sess: OfflineSessions, cap: RevokeCapture) => Detach(clientId, sess, cap)
  }

  /** Once a client's grant is detached, revoking it again finds nothing. */
  lemma DetachTwiceFindsNothing(clientId: string, sess: OfflineSessions, cap: RevokeCapture, cap': RevokeCapture)
    requires HasLiveRef(sess, clientId)
    ensures Detach(clientId, Detach(clientId, sess, cap).0.value, cap').0 == Abort(ErrNotFound)
  {
  }

  /** Detaching one client leaves every other client's grant as it was. */
  lemma DetachKeepsOtherClients(a: string, b: string, sess: OfflineSessions, cap: RevokeCapture)
    requires a != b && HasLiveRef(sess, a)
    ensures HasLiveRef(Detach(a, sess, cap).0.value, b) <==> HasLiveRef(sess, b)
    ensures b in sess.refresh ==> Detach(a, sess, cap).0.value.refresh[b] == sess.refresh[b]
  {
  }

  /** Revocations of two different clients of one session commute. */
  lemma DetachCommutes(a: string, b: string, sess: OfflineSessions, cap: RevokeCapture)
    requires a != b && HasLiveRef(sess, a) && HasLiveRef(sess, b)
    ensures
      var ab := Detach(b, Detach(a, sess, cap).0.value, cap).0;
      var ba := Detach(a, Detach(b, sess, cap).0.value, cap).0;
      ab.Put? && ba.Put? && ab.value == ba.value
  {
  }

  /** Phase A detaches a reference exactly when the session exists, holds a live reference and the update is not faulted. */
  predicate PhaseADetaches(sessions: map<SessionKey, OfflineSessions>, key: SessionKey, clientId: string,
                           faults: map<Op, StoreError>) {
    UpdateOfflineSessionsOp !in faults && key in sessions && HasLiveRef(sessions[key], clientId)
  }

  method RevokeRefresh(s: Store, unmarshal: string -> Option<SessionKey>, req: RevokeRefreshReq) returns (code: Code)
    modifies s`offlineSessions, s`refreshTokens, s`writes
    ensures unmarshal(req.userId).None? ==>
      && code == Internal && s.writes == old(s.writes)
      && s.offlineSessions == old(s.offlineSessions) && s.refreshTokens == old(s.refreshTokens)
    // The two phases, stated through the storage primitives they call.
    ensures unmarshal(req.userId).Some? ==>
      var key := unmarshal(req.userId).value;
      var (err, sessions, cap) := UpdateCapturing(old(s.offlineSessions), key, Detacher(req.clientId),
                                                  NothingCaptured, FaultOf(s.faults, UpdateOfflineSessionsOp));
      && s.offlineSessions == sessions
      && (err.Some? ==>
            && code == LookupStatus(err)
            && s.writes == old(s.writes) + [UpdateOfflineSessionsCall(key)]
            && s.refreshTokens == old(s.refreshTokens))
      && (err.None? ==>
            var (derr, tokens) := Remove(old(s.refreshTokens), cap.refreshID, FaultOf(s.faults, DeleteRefreshOp));
            && s.writes == old(s.writes) + [UpdateOfflineSessionsCall(key), DeleteRefreshCall(cap.refreshID)]
            && s.refreshTokens == tokens
            && code == (if derr.None? then Ok else Internal))
    // Nothing to detach: NotFound (or the update's own failure), and phase B never runs.
    ensures unmarshal(req.userId).Some? && !PhaseADetaches(old(s.offlineSessions), unmarshal(req.userId).value, req.clientId, s.faults) ==>
      && code != Ok
      && (UpdateOfflineSessionsOp !in s.faults ==> code == NotFound)
      && s.writes == old(s.writes) + [UpdateOfflineSessionsCall(unmarshal(req.userId).value)]
      && s.offlineSessions == old(s.offlineSessions) && s.refreshTokens == old(s.refreshTokens)
    // Detached: phase A precedes phase B, and phase B deletes the token the reference named.
    ensures unmarshal(req.userId).Some? && PhaseADetaches(old(s.offlineSessions), unmarshal(req.userId).value, req.clientId, s.faults) ==>
      var key := unmarshal(req.userId).value;
      var ref := old(s.offlineSessions)[key].refresh[req.clientId];
      && s.writes == old(s.writes) + [UpdateOfflineSessionsCall(key), DeleteRefreshCall(ref.id)]
      && s.offlineSessions == old(s.offlineSessions)[key := old(s.offlineSessions)[key].(refresh := old(s.offlineSessions)[key].refresh - {req.clientId})]
      && (code == Ok <==> DeleteRefreshOp !in s.faults && ref.id in old(s.refreshTokens))
      && (code == Ok ==> s.refreshTokens == old(s.refreshTokens) - {ref.id})
      // The orphan: phase B failed, the reference is gone, the token record is untouched.
      && (code != Ok ==> code == Internal && s.refreshTokens == old(s.refreshTokens))
  {
    var subject := unmarshal(req.userId);
    if subject.None? {
      return Internal;
    }
    var id := subject.value;
    var err, captured := s.UpdateOfflineSessions(id.userID, id.connID, Detacher(req.clientId), NothingCaptured);
    if err.Some? {
      if err.value == ErrNotFound {
        return NotFound;
      }
      return Internal;
    }
    if captured.notFound {
      return NotFound;
    }
    var derr := s.DeleteRefresh(captured.refreshID);
    if derr.Some? {
      return Internal;
    }
    return Ok;
  }
}
