/**
 * The client handlers of the administrative API: create (filling in a generated
 * id and secret), sparse update, delete and list of OAuth client registrations.
 */
module Clients {
  import opened Common
  import opened Storage
  import opened Codes
  import opened Ids

  /** A client as the API exchanges it. */
  datatype ApiClient = ApiClient(
    id: string,
    secret: string,
    redirectUris: seq<string>,
    trustedPeers: seq<string>,
    public: bool,
    name: string,
    logoUrl: string)

  /** The create request; CreateClient fills in the client's id and secret in place. */
  class CreateClientReq {
    var client: Option<ApiClient>

    constructor (client: Option<ApiClient>)
      ensures this.client == client
    {
      this.client := client;
    }
  }

  /** An update request: None and "" mean "leave this field alone". */
  datatype UpdateClientReq = UpdateClientReq(
    id: string,
    redirectUris: Option<seq<string>>,
    trustedPeers: Option<seq<string>>,
    name: string,
    logoUrl: string)

  /** The record CreateClient stores: the request's fields one for one. */
  function ToStorage(c: ApiClient): Client {
    Client(c.id, c.secret, c.redirectUris, c.trustedPeers, c.public, c.name, c.logoUrl)
  }

  /** A stored client as ListClients returns it: every field, the secret included. */
  function ToApi(c: Client): ApiClient {
    ApiClient(c.id, c.secret, c.redirectURIs, c.trustedPeers, c.public, c.name, c.logoURL)
  }

  /** Listing gives back exactly what creating stored, and the two mappings are mutually inverse. */
  lemma StoredClientRoundTrip(c: ApiClient, d: Client)
    ensures ToApi(ToStorage(c)) == c
    ensures ToStorage(ToApi(d)) == d
  {
  }

  /** How many identifiers CreateClient draws: one for a missing id, two for a missing secret. */
  function DrawsNeeded(c: ApiClient): nat {
    (if c.id == "" then 1 else 0) + (if c.secret == "" then 2 else 0)
  }

  /**
   * The client after CreateClient filled it in from the identifiers `draws`, in
   * the order they were drawn: a missing id becomes the first draw, a missing
   * secret the concatenation of the last two; supplied values and every other
   * field are kept.
   */
  function WithGeneratedIds(c: ApiClient, draws: seq<string>): (r: ApiClient)
    requires |draws| == DrawsNeeded(c)
    ensures c.id != "" ==> r.id == c.id
    ensures c.id == "" ==> r.id == draws[0]
    ensures c.secret != "" ==> r.secret == c.secret
    ensures c.secret == "" ==> r.secret == draws[|draws| - 2] + draws[|draws| - 1]
    ensures r.(id := c.id, secret := c.secret) == c
    ensures (forall i :: 0 <= i < |draws| ==> draws[i] != "") ==> r.id != "" && r.secret != ""
  {
    var rest := if c.id == "" then draws[1..] else draws;
    var withId := if c.id == "" then c.(id := draws[0]) else c;
    if c.secret == "" then withId.(secret := rest[0] + rest[1]) else withId
  }

  method CreateClient(s: Store, ids: IdSource, req: CreateClientReq) returns (code: Code)
    requires ids.Valid()
    modifies s`clients, s`writes, ids, req
    ensures ids.Valid()
    ensures old(req.client).None? ==>
      && code == InvalidArgument
      && req.client == old(req.client) && ids.issued == old(ids.issued)
      && s.writes == old(s.writes) && s.clients == old(s.clients)
    ensures old(req.client).Some? ==>
      && old(ids.issued) <= ids.issued
      && var draws := ids.issued[|old(ids.issued)|..];
      && |draws| == DrawsNeeded(old(req.client).value)
      && req.client == Some(WithGeneratedIds(old(req.client).value, draws))
      && var c := req.client.value;
      && var (err, after) := Insert(old(s.clients), c.id, ToStorage(c), FaultOf(s.faults, CreateClientOp));
      && s.writes == old(s.writes) + [CreateClientCall(c.id)]
      && s.clients == after
      && code == CreateStatus(err)
  {
    if req.client.None? {
      return InvalidArgument;
    }
    ghost var given := req.client.value;
    ghost var before := ids.issued;
    if req.client.value.id == "" {
      var id := ids.NewID();
      req.client := Some(req.client.value.(id := id));
    }
    if req.client.value.secret == "" {
      var first := ids.NewID();
      var second := ids.NewID();
      req.client := Some(req.client.value.(secret := first + second));
    }
    ghost var draws := ids.issued[|before|..];
    assert ids.issued == before + draws;
    assert req.client.value == WithGeneratedIds(given, draws);
    var c := req.client.value;
    var err := s.CreateClient(ToStorage(c));
    if err.Some? {
      if err.value == ErrAlreadyExists {
        return AlreadyExists;
      }
      return Internal;
    }
    return Ok;
  }

  /**
   * The patch UpdateClient applies: redirect URIs and trusted peers are replaced
   * only when supplied, name and logo URL only when non-empty; id, secret and
   * the public flag are never touched.
   */
  function PatchClient(c: Client, req: UpdateClientReq): (r: Client)
    ensures r.id == c.id && r.secret == c.secret && r.public == c.public
    ensures r.redirectURIs == if req.redirectUris.Some? then req.redirectUris.value else c.redirectURIs
    ensures r.trustedPeers == if req.trustedPeers.Some? then req.trustedPeers.value else c.trustedPeers
    ensures r.name == if req.name != "" then req.name else c.name
    ensures r.logoURL == if req.logoUrl != "" then req.logoUrl else c.logoURL
  {
    var c1 := if req.redirectUris.Some? then c.(redirectURIs := req.redirectUris.value) else c;
    var c2 := if req.trustedPeers.Some? then c1.(trustedPeers := req.trustedPeers.value) else c1;
    var c3 := if req.name != "" then c2.(name := req.name) else c2;
    if req.logoUrl != "" then c3.(logoURL := req.logoUrl) else c3
  }

  /** The update callback UpdateClient hands to storage; it never aborts. */
  function ClientUpdater(req: UpdateClientReq): Client -> Write<Client> {
    (c: Client) => Put(PatchClient(c, req))
  }

  /** A patch that supplies nothing leaves the record exactly as it was. */
  lemma EmptyPatchIsIdentity(c: Client, id: string)
    ensures PatchClient(c, UpdateClientReq(id, None, None, "", "")) == c
  {
  }

  /** Applying the same patch twice is the same as applying it once. */
  lemma PatchClientIdempotent(c: Client, req: UpdateClientReq)
    ensures PatchClient(PatchClient(c, req), req) == PatchClient(c, req)
  {
  }

  method UpdateClient(s: Store, req: UpdateClientReq) returns (code: Code)
    modifies s`clients, s`writes
    ensures req.id == "" ==> code == InvalidArgument && s.writes == old(s.writes) && s.clients == old(s.clients)
    ensures req.id != "" ==>
      var (err, after) := Update(old(s.clients), req.id, ClientUpdater(req), FaultOf(s.faults, UpdateClientOp));
      && s.writes == old(s.writes) + [UpdateClientCall(req.id)]
      && s.clients == after
      && code == LookupStatus(err)
    ensures code == Ok <==> req.id != "" && UpdateClientOp !in s.faults && req.id in old(s.clients)
    ensures code == Ok ==> s.clients == old(s.clients)[req.id := PatchClient(old(s.clients)[req.id], req)]
  {
    if req.id == "" {
      return InvalidArgument;
    }
    var err := s.UpdateClient(req.id, ClientUpdater(req));
    if err.Some? {
      if err.value == ErrNotFound {
        return NotFound;
      }
      return Internal;
    }
    return Ok;
  }

  /** DeleteClient makes no empty-id check: every id reaches storage. */
  method DeleteClient(s: Store, id: string) returns (code: Code)
    modifies s`clients, s`writes
    ensures var (err, after) := Remove(old(s.clients), id, FaultOf(s.faults, DeleteClientOp));
      && s.writes == old(s.writes) + [DeleteClientCall(id)]
      && s.clients == after
      && code == LookupStatus(err)
  {
    var err := s.DeleteClient(id);
    if err.Some? {
      if err.value == ErrNotFound {
        return NotFound;
      }
      return Internal;
    }
    return Ok;
  }

  /** One entry per stored client, in the order storage lists them, with every field copied. */
  method ListClients(s: Store) returns (code: Code, clients: seq<ApiClient>, ghost ids: seq<string>)
    ensures ListClientsOp in s.faults ==> code == Internal && clients == []
    ensures ListClientsOp !in s.faults ==>
      && code == Ok
      && ListsKeysOf(ids, s.clients)
      && |clients| == |ids| == |s.clients|
      && forall i :: 0 <= i < |ids| ==> ids[i] in s.clients && clients[i] == ToApi(s.clients[ids[i]])
  {
    var r;
    r, ids := s.ListClients();
    if r.Failure? {
      return Internal, [], ids;
    }
    var clientList := r.value;
    clients := [];
    for i := 0 to |clientList|
      invariant |clients| == i
      invariant forall j :: 0 <= j < i ==> clients[j] == ToApi(clientList[j])
    {
      clients := clients + [ToApi(clientList[i])];
    }
    code := Ok;
  }
}
