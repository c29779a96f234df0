/**
 * The password handlers of the administrative API: create, update, delete, list
 * and verify local username/password credentials, and the bcrypt cost policy a
 * supplied hash must meet. Handlers report a Code; the human-readable messages
 * that accompany an error are not modelled.
 */
module Passwords {
  import opened Common
  import opened Bcrypt
  import opened Storage
  import opened Codes
  import Api

  /** A password as the API exchanges it; `hash` is None where the request carries no hash. */
  datatype ApiPassword = ApiPassword(email: string, hash: Option<Hash>, username: string, userId: string)

  datatype UpdatePasswordReq = UpdatePasswordReq(email: string, newHash: Option<Hash>, newUsername: string)

  datatype VerifyPasswordReq = VerifyPasswordReq(email: string, password: string)

  /** Why a hash fails the cost policy. */
  datatype CostError = Unparsable | BelowMinimum(cost: int) | AboveMaximum(cost: int)

  /** The costs the API accepts: from bcrypt's default up to the upper bound, inclusive. */
  predicate AcceptableCost(c: int) {
    DefaultCost <= c <= Api.UpBoundCost
  }

  /** checkCost: a hash passes exactly when its embedded cost parses and is acceptable. */
  function CheckCost(bc: Hasher, hash: Hash): (r: Option<CostError>)
    ensures r.None? <==> bc.cost(hash).Some? && AcceptableCost(bc.cost(hash).value)
    ensures r == Some(Unparsable) <==> bc.cost(hash).None?
    ensures r.Some? && r.value.BelowMinimum? <==> bc.cost(hash).Some? && bc.cost(hash).value < DefaultCost
    ensures r.Some? && r.value.AboveMaximum? <==> bc.cost(hash).Some? && bc.cost(hash).value > Api.UpBoundCost
    ensures r.Some? && !r.value.Unparsable? ==> bc.cost(hash) == Some(r.value.cost)
  {
    match bc.cost(hash)
    case None => Some(Unparsable)
    case Some(actual) =>
      if actual < DefaultCost then Some(BelowMinimum(actual))
      else if actual > Api.UpBoundCost then Some(AboveMaximum(actual))
      else None
  }

  /** The checks CreatePassword makes before it touches storage. */
  predicate InvalidCreate(bc: Hasher, req: Option<ApiPassword>) {
    || req.None?
    || req.value.userId == ""
    || req.value.hash.None?
    || CheckCost(bc, req.value.hash.value).Some?
  }

  /** The record CreatePassword stores for a valid request. */
  function StoredPassword(p: ApiPassword): (r: Password)
    requires p.hash.Some?
    ensures r.email == p.email && r.hash == p.hash.value && r.username == p.username && r.userID == p.userId
  {
    Password(p.email, p.hash.value, p.username, p.userId)
  }

  method CreatePassword(s: Store, bc: Hasher, req: Option<ApiPassword>) returns (code: Code)
    modifies s`passwords, s`writes
    ensures InvalidCreate(bc, req) ==>
      code == InvalidArgument && s.writes == old(s.writes) && s.passwords == old(s.passwords)
    ensures !InvalidCreate(bc, req) ==>
      var p := StoredPassword(req.value);
      var (err, after) := Insert(old(s.passwords), p.email, p, FaultOf(s.faults, CreatePasswordOp));
      && s.writes == old(s.writes) + [CreatePasswordCall(p.email)]
      && s.passwords == after
      && code == CreateStatus(err)
  {
    if req.None? {
      return InvalidArgument;
    }
    var pw := req.value;
    if pw.userId == "" {
      return InvalidArgument;
    }
    if pw.hash.Some? {
      if CheckCost(bc, pw.hash.value).Some? {
        return InvalidArgument;
      }
    } else {
      return InvalidArgument;
    }
    var err := s.CreatePassword(Password(pw.email, pw.hash.value, pw.username, pw.userId));
    if err.Some? {
      if err.value == ErrAlreadyExists {
        return AlreadyExists;
      }
      return Internal;
    }
    return Ok;
  }

  /** The checks UpdatePassword makes before it touches storage. */
  predicate InvalidUpdate(bc: Hasher, req: UpdatePasswordReq) {
    || req.email == ""
    || (req.newHash.None? && req.newUsername == "")
    || (req.newHash.Some? && CheckCost(bc, req.newHash.value).Some?)
  }

  /**
   * The sparse patch UpdatePassword applies: the hash is replaced only when a
   * new one is supplied, the username only when a non-empty one is; the email
   * and the user id are never touched.
   */
  function PatchPassword(p: Password, newHash: Option<Hash>, newUsername: string): (r: Password)
    ensures r.email == p.email && r.userID == p.userID
    ensures newHash.Some? ==> r.hash == newHash.value
    ensures newHash.None? ==> r.hash == p.hash
    ensures newUsername != "" ==> r.username == newUsername
    ensures newUsername == "" ==> r.username == p.username
  {
    var withHash := if newHash.Some? then p.(hash := newHash.value) else p;
    if newUsername != "" then withHash.(username := newUsername) else withHash
  }

  /** The update callback UpdatePassword hands to storage; it never aborts. */
  function PasswordUpdater(req: UpdatePasswordReq): Password -> Write<Password> {
    (p: Password) => Put(PatchPassword(p, req.newHash, req.newUsername))
  }

  /** Applying the same patch twice is the same as applying it once. */
  lemma PatchPasswordIdempotent(p: Password, newHash: Option<Hash>, newUsername: string)
    ensures PatchPassword(PatchPassword(p, newHash, newUsername), newHash, newUsername)
         == PatchPassword(p, newHash, newUsername)
  {
  }

  /** A later patch wins on every field it supplies; the earlier patch survives on the others. */
  lemma PatchPasswordCompose(p: Password, h1: Option<Hash>, u1: string, h2: Option<Hash>, u2: string)
    ensures PatchPassword(PatchPassword(p, h1, u1), h2, u2)
         == PatchPassword(p, if h2.Some? then h2 else h1, if u2 != "" then u2 else u1)
  {
  }

  method UpdatePassword(s: Store, bc: Hasher, req: UpdatePasswordReq) returns (code: Code)
    modifies s`passwords, s`writes
    ensures InvalidUpdate(bc, req) ==>
      code == InvalidArgument && s.writes == old(s.writes) && s.passwords == old(s.passwords)
    ensures !InvalidUpdate(bc, req) ==>
      var (err, after) := Update(old(s.passwords), req.email, PasswordUpdater(req), FaultOf(s.faults, UpdatePasswordOp));
      && s.writes == old(s.writes) + [UpdatePasswordCall(req.email)]
      && s.passwords == after
      && code == LookupStatus(err)
    ensures code == Ok <==> !InvalidUpdate(bc, req) && UpdatePasswordOp !in s.faults && req.email in old(s.passwords)
    ensures code == Ok ==>
      s.passwords == old(s.passwords)[req.email := PatchPassword(old(s.passwords)[req.email], req.newHash, req.newUsername)]
  {
    if req.email == "" {
      return InvalidArgument;
    }
    if req.newHash.None? && req.newUsername == "" {
      return InvalidArgument;
    }
    if req.newHash.Some? {
      if CheckCost(bc, req.newHash.value).Some? {
        return InvalidArgument;
      }
    }
    var updater := PasswordUpdater(req);
    var err := s.UpdatePassword(req.email, updater);
    if err.Some? {
      if err.value == ErrNotFound {
        return NotFound;
      }
      return Internal;
    }
    return Ok;
  }

  method DeletePassword(s: Store, email: string) returns (code: Code)
    modifies s`passwords, s`writes
    ensures email == "" ==> code == InvalidArgument && s.writes == old(s.writes) && s.passwords == old(s.passwords)
    ensures email != "" ==>
      var (err, after) := Remove(old(s.passwords), email, FaultOf(s.faults, DeletePasswordOp));
      && s.writes == old(s.writes) + [DeletePasswordCall(email)]
      && s.passwords == after
      && code == LookupStatus(err)
  {
    if email == "" {
      return InvalidArgument;
    }
    var err := s.DeletePassword(email);
    if err.Some? {
      if err.value == ErrNotFound {
        return NotFound;
      }
      return Internal;
    }
    return Ok;
  }

  /** The identity fields of a stored password, as a listing returns them: the hash is left out. */
  function Redacted(p: Password): (r: ApiPassword)
    ensures r.hash.None?
    ensures r.email == p.email && r.username == p.username && r.userId == p.userID
  {
    ApiPassword(p.email, None, p.username, p.userID)
  }

  /**
   * One entry per stored password, in the order storage lists them, each with
   * email, username and user id only.
   */
  method ListPasswords(s: Store) returns (code: Code, passwords: seq<ApiPassword>, ghost emails: seq<string>)
    ensures ListPasswordsOp in s.faults ==> code == Internal && passwords == []
    ensures ListPasswordsOp !in s.faults ==>
      && code == Ok
      && ListsKeysOf(emails, s.passwords)
      && |passwords| == |emails| == |s.passwords|
      && forall i :: 0 <= i < |emails| ==> emails[i] in s.passwords && passwords[i] == Redacted(s.passwords[emails[i]])
    ensures forall i :: 0 <= i < |passwords| ==> passwords[i].hash.None?
  {
    var r;
    r, emails := s.ListPasswords();
    if r.Failure? {
      return Internal, [], emails;
    }
    var passwordList := r.value;
    passwords := [];
    for i := 0 to |passwordList|
      invariant |passwords| == i
      invariant forall j :: 0 <= j < i ==> passwords[j] == Redacted(passwordList[j])
    {
      passwords := passwords + [Redacted(passwordList[i])];
    }
    code := Ok;
  }

  /**
   * A wrong password is a successful answer with verified == false, not an
   * error; only empty arguments, a missing email and storage failures are errors.
   */
  method VerifyPassword(s: Store, bc: Hasher, req: VerifyPasswordReq) returns (code: Code, verified: bool)
    ensures req.email == "" || req.password == "" ==> code == InvalidArgument && !verified
    ensures req.email != "" && req.password != "" ==>
      var got := Lookup(s.passwords, req.email, FaultOf(s.faults, GetPasswordOp));
      && (got.Failure? ==> code == LookupStatus(Some(got.error)) && !verified)
      && (got.Success? ==> code == Ok && verified == bc.compare(got.value.hash, req.password))
    ensures code != Ok ==> !verified
  {
    if req.email == "" {
      return InvalidArgument, false;
    }
    if req.password == "" {
      return InvalidArgument, false;
    }
    var r := s.GetPassword(req.email);
    if r.Failure? {
      if r.error == ErrNotFound {
        return NotFound, false;
      }
      return Internal, false;
    }
    if !bc.compare(r.value.hash, req.password) {
      return Ok, false;
    }
    return Ok, true;
  }
}
