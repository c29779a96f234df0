/**
 * Call sequences across several handlers on one store, proved from the
 * handlers' contracts alone.
 */
module Scenarios {
  import opened Common
  import opened Storage
  import opened Codes
  import opened Ids
  import opened Bcrypt
  import opened Passwords
  import opened Clients
  import opened Refresh

  /**
   * Create client "c1" with no secret, patch its redirect URIs, delete it twice:
   * the secret is filled in, the patch changes the redirect URIs and nothing
   * else, and the second delete finds nothing.
   */
  method ClientLifecycle() returns (created: Code, updated: Code, deleted: Code, deletedAgain: Code,
                                    stored: Client, patched: Client)
    ensures created == Ok && updated == Ok && deleted == Ok && deletedAgain == NotFound
    ensures stored.id == "c1" && stored.secret != ""
    ensures patched == stored.(redirectURIs := ["https://a"])
  {
    var s := new Store(map[], map[], map[], map[], map[]);
    var ids := new IdSource();
    var req := new CreateClientReq(Some(ApiClient("c1", "", [], [], false, "app", "")));
    created := CreateClient(s, ids, req);
    stored := s.clients["c1"];
    updated := UpdateClient(s, UpdateClientReq("c1", Some(["https://a"]), None, "", ""));
    patched := s.clients["c1"];
    deleted := DeleteClient(s, "c1");
    deletedAgain := DeleteClient(s, "c1");
  }

  /** Two clients created without ids get different, non-empty generated ids. */
  method GeneratedIdsDiffer() returns (first: string, second: string)
    ensures first != "" && second != "" && first != second
  {
    var s := new Store(map[], map[], map[], map[], map[]);
    var ids := new IdSource();
    var req1 := new CreateClientReq(Some(ApiClient("", "", [], [], false, "", "")));
    var code1 := CreateClient(s, ids, req1);
    var req2 := new CreateClientReq(Some(ApiClient("", "", [], [], false, "", "")));
    var code2 := CreateClient(s, ids, req2);
    first, second := req1.client.value.id, req2.client.value.id;
    IssuedDistinct(ids);
  }

  /** Two clients created without secrets get different, non-empty generated secrets. */
  method GeneratedSecretsDiffer() returns (first: string, second: string)
    ensures first != "" && second != "" && first != second
  {
    var s := new Store(map[], map[], map[], map[], map[]);
    var ids := new IdSource();
    var req1 := new CreateClientReq(Some(ApiClient("a", "", [], [], false, "", "")));
    var code1 := CreateClient(s, ids, req1);
    ghost var afterFirst := ids.issued;
    var req2 := new CreateClientReq(Some(ApiClient("b", "", [], [], false, "", "")));
    var code2 := CreateClient(s, ids, req2);
    first, second := req1.client.value.secret, req2.client.value.secret;
    assert first == ids.issued[0] + ids.issued[1] by {
      assert ids.issued[..|afterFirst|] == afterFirst;
    }
    IssuedPairsDistinct(ids, 0, 2);
  }

  /**
   * Revoking a live grant while deleting refresh tokens fails: the call reports
   * Internal, the session no longer lists the grant, and the token record is
   * still stored.
   */
  method RevokeWithFailingDeleteLeavesOrphan() returns (code: Code, remaining: map<string, RefreshTokenRef>, orphan: bool)
    ensures code == Internal && "client-a" !in remaining && "client-b" in remaining && orphan
  {
    var key := SessionKey("user-1", "conn-1");
    var refs := map["client-a" := RefreshTokenRef("tok-a", "client-a", 100, 200),
                    "client-b" := RefreshTokenRef("tok-b", "client-b", 150, 250)];
    var s := new Store(map[], map[], map[key := OfflineSessions("user-1", "conn-1", refs)],
                       map["tok-a" := RefreshToken("tok-a", "client-a"), "tok-b" := RefreshToken("tok-b", "client-b")],
                       map[DeleteRefreshOp := ErrOther]);
    var unmarshal := (subject: string) => if subject == "subject-1" then Some(key) else None;
    code := RevokeRefresh(s, unmarshal, RevokeRefreshReq("subject-1", "client-a"));
    remaining := s.offlineSessions[key].refresh;
    orphan := "tok-a" in s.refreshTokens;
  }

  /**
   * Revoking a grant twice: the first call deletes the token; the second finds
   * no reference, reports NotFound and never reaches DeleteRefresh.
   */
  method RevokeTwice() returns (first: Code, second: Code, tokenLeft: bool, ghost secondCalls: seq<Call>)
    ensures first == Ok && second == NotFound && !tokenLeft
    ensures secondCalls == [UpdateOfflineSessionsCall(SessionKey("user-1", "conn-1"))]
  {
    var key := SessionKey("user-1", "conn-1");
    var refs := map["client-a" := RefreshTokenRef("tok-a", "client-a", 100, 200)];
    var s := new Store(map[], map[], map[key := OfflineSessions("user-1", "conn-1", refs)],
                       map["tok-a" := RefreshToken("tok-a", "client-a")], map[]);
    var unmarshal := (subject: string) => if subject == "subject-1" then Some(key) else None;
    first := RevokeRefresh(s, unmarshal, RevokeRefreshReq("subject-1", "client-a"));
    ghost var afterFirst := s.writes;
    second := RevokeRefresh(s, unmarshal, RevokeRefreshReq("subject-1", "client-a"));
    secondCalls := s.writes[|afterFirst|..];
    tokenLeft := "tok-a" in s.refreshTokens;
  }

  /**
   * Store a password whose hash has cost 12, then verify: the right password
   * verifies, a wrong one is a successful answer with verified == false, and
   * an unknown email is NotFound. A hash of cost 9 is refused before storage.
   */
  method VerifyAfterCreate() returns (created: Code, right: bool, wrongCode: Code, wrong: bool,
                                      unknownCode: Code, weakCode: Code)
    ensures created == Ok
    ensures right && wrongCode == Ok && !wrong
    ensures unknownCode == NotFound
    ensures weakCode == InvalidArgument
  {
    var strong: Hash := [1];
    var weak: Hash := [2];
    var bc := Hasher((h: Hash) => if h == strong then Some(12) else if h == weak then Some(9) else None,
                     (h: Hash, plain: string) => h == strong && plain == "s3cret");
    var s := new Store(map[], map[], map[], map[], map[]);
    created := CreatePassword(s, bc, Some(ApiPassword("a@example.com", Some(strong), "alice", "u-1")));
    var rightCode;
    rightCode, right := VerifyPassword(s, bc, VerifyPasswordReq("a@example.com", "s3cret"));
    wrongCode, wrong := VerifyPassword(s, bc, VerifyPasswordReq("a@example.com", "guess"));
    var unknown;
    unknownCode, unknown := VerifyPassword(s, bc, VerifyPasswordReq("b@example.com", "s3cret"));
    weakCode := CreatePassword(s, bc, Some(ApiPassword("b@example.com", Some(weak), "bob", "u-2")));
  }
}
