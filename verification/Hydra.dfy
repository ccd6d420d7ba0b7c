/** The remote OAuth server as the portal sees it (internal/hydra/client.go): a map of live clients. */
module Hydra {
  import opened Domain

  /**
   The token strategy and lifespans of a registration: opaque with 1, 24 and 4320 hours for ID, access and refresh
   tokens, or none sent at all.
   */
  datatype TokenPolicy = StandardPolicy | NoPolicy

  /** Grant and response types, scope and authentication method, which every caller sends alike. */
  datatype Profile = ConfidentialCodeClient

  datatype Registration = Registration(
    name: string, logo: string, redirectURIs: seq<string>, owner: string, profile: Profile, policy: TokenPolicy)

  datatype Client = Client(registration: Registration, secret: string)

  datatype Credentials = Credentials(id: ClientId, secret: string)

  type Clients = map<ClientId, Client>

  /** An update replaces the whole registration of a live client and has no effect on a missing one. */
  function Updated(live: Clients, id: ClientId, client: Client): Clients {
    if id in live then live[id := client] else live
  }

  /** The server's state.  Whether a call goes through, and what it answers, is the caller's parameter. */
  class Server {
    var live: Clients

    constructor ()
      ensures live == map[]
    {
      live := map[];
    }

    method CreateClient(registration: Registration, grant: Credentials)
      modifies this
      ensures live == old(live)[grant.id := Client(registration, grant.secret)]
    {
      live := live[grant.id := Client(registration, grant.secret)];
    }

    method UpdateClient(id: ClientId, registration: Registration, secret: string)
      modifies this
      ensures live == Updated(old(live), id, Client(registration, secret))
      ensures live == if id in old(live) then old(live)[id := Client(registration, secret)] else old(live)
    {
      if id in live {
        live := live[id := Client(registration, secret)];
      }
    }

    method DeleteClient(id: ClientId)
      modifies this
      ensures live == old(live) - {id}
    {
      live := live - {id};
    }
  }
}
