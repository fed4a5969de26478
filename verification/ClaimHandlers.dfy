/** The objects behind the claim protocol: the handler of one server (pkg/server/rpc.go, pkg/server/stream.go) and the
    client with its dispatch loop (pkg/client/client.go).  Every method is one section under the object's lock, and
    is shown to be a step of the protocol. */
module ClaimHandlers {
  import opened Options
  import opened ClaimCore
  import C = ClaimCore
  import R = ClaimedRpc

  datatype Routing = Dropped | Sent | Blocked

  /** `claims` gives the goroutine whose claim channel is registered for a request, `channels` what the claim channels
      of this server hold. */
  class RpcHandler {
    const server: ServerId
    var claims: map<RequestId, Gid>
    var channels: map<Gid, Grant>

    /** The handler's maps are its part of the protocol state. */
    ghost predicate Represents(c: Core)
      reads this
    {
      && (forall id :: id in claims <==> Task(server, id) in c.routes)
      && (forall id | id in claims :: claims[id] == c.routes[Task(server, id)])
      && (forall g | g in c.tasks && c.tasks[g].server == server :: g in channels <==> g in c.channels)
      && (forall g | g in c.tasks && c.tasks[g].server == server && g in channels :: channels[g] == c.channels[g])
    }

    constructor (server: ServerId)
      ensures this.server == server && Represents(NEW)
    {
      this.server, claims, channels := server, map[], map[];
    }

    /** claimRequest registers its channel. */
    method BeginClaim(ghost c: Core, g: Gid, id: RequestId)
      requires C.Invariant(c) && Represents(c) && C.Enabled(c, Register(g)) && c.tasks[g] == Task(server, id)
      modifies this
      ensures Represents(C.Next(c, Register(g))) && claims == old(claims)[id := g]
    {
      claims := claims[id := g];
    }

    /** The deferred removal, after a failed publication or a timeout: it removes the entry for the request, whosever
        channel it is. */
    method EndClaim(ghost c: Core, g: Gid, id: RequestId, ghost l: C.Label)
      requires C.Invariant(c) && Represents(c) && C.Enabled(c, l) && g in c.tasks && c.tasks[g] == Task(server, id)
      requires (exists sent :: l == PublishBid(g, false, sent)) || (l == Leave(g) && At(c, g, Waiting))
      modifies this
      ensures Represents(C.Next(c, l)) && claims == old(claims) - {id}
    {
      claims := claims - {id};
    }

    /** claimRequest reads its channel: the request is claimed when the grant names this server. */
    method ReadClaim(ghost c: Core, g: Gid, id: RequestId) returns (claimed: bool)
      requires C.Invariant(c) && Represents(c) && C.Enabled(c, ReadGrant(g)) && c.tasks[g] == Task(server, id)
      modifies this
      ensures Represents(C.Next(c, ReadGrant(g))) && claims == old(claims) - {id}
      ensures claimed <==> At(C.Next(c, ReadGrant(g)), g, Won)
      ensures claimed ==> Grant(id, server) in c.grants
    {
      claimed := channels[g].server == server;
      claims := claims - {id};
    }

    /** The claim branch of `run`. */
    method RouteClaim(ghost c: Core, grant: Grant) returns (r: Routing)
      requires C.Invariant(c) && Represents(c) && grant in c.grants
      modifies this
      ensures r.Sent? <==> C.Enabled(c, RouteGrant(server, grant))
      ensures Represents(if r.Sent? then C.Next(c, RouteGrant(server, grant)) else c)
      ensures r.Dropped? <==> grant.id !in claims
      ensures claims == old(claims)
    {
      if grant.id !in claims {
        return Dropped;
      }
      var g := claims[grant.id];
      if g in channels {
        return Blocked;
      }
      channels := channels[g := grant];
      r := Sent;
    }
  }

  /** A request that the client still serves. */
  predicate Live(r: R.Rpc, id: RequestId) {
    id in r.core.clients && !r.core.clients[id].Quit? && id !in r.results
  }

  /** A step with which the client stops serving request `id`: the publication of the request failed, selection gave up,
      a reply was taken, or the request failed later. */
  ghost predicate Ends(l: R.Label, id: RequestId) {
    || (exists sent :: l == R.Claim(PublishRequest(id, false, sent)))
    || (exists error :: l == R.Abandon(id, error))
    || (exists decodes :: l == R.Take(id, decodes))
    || exists e :: l == R.Fail(id, e)
  }

  lemma OthersStay(r: R.Rpc, l: R.Label, id: RequestId)
    requires Ends(l, id) && R.Enabled(r, l)
    ensures R.Next(r, l).core.heard == r.core.heard
    ensures forall x :: Live(R.Next(r, l), x) <==> Live(r, x) && x != id
    ensures forall x | x != id && x in r.boxes :: x in R.Next(r, l).boxes && R.Next(r, l).boxes[x] == r.boxes[x]
    ensures forall x | x in R.Next(r, l).boxes :: x in r.boxes
  {
  }

  /** `claimRequests` and `responseChannels` give the channels registered for requests and what they hold. */
  class RpcClient {
    var claimRequests: map<RequestId, seq<Bid>>
    var responseChannels: map<RequestId, Option<R.Reply>>

    ghost predicate Represents(r: R.Rpc)
      reads this
    {
      && (forall id :: id in responseChannels <==> Live(r, id))
      && (forall id :: id in claimRequests <==> Live(r, id))
      && (forall id | id in responseChannels ::
            responseChannels[id] == if id in r.boxes then Some(r.boxes[id]) else None)
      && (forall id, b | id in claimRequests && b in claimRequests[id] :: b.id == id && b in r.core.heard)
    }

    constructor ()
      ensures Represents(R.INIT)
    {
      claimRequests, responseChannels := map[], map[];
    }

    /** newRPC registers the channels of a new request. */
    method Begin(ghost r: R.Rpc, id: RequestId)
      requires Represents(r) && id !in r.core.clients && id !in r.boxes && id !in r.results
      modifies this
      ensures Represents(R.Next(r, R.Claim(Open(id))))
    {
      claimRequests := claimRequests[id := []];
      responseChannels := responseChannels[id := None];
    }

    /** The deferred removal when newRPC returns. */
    method End(ghost r: R.Rpc, id: RequestId, ghost l: R.Label)
      requires Represents(r) && R.Enabled(r, l) && Live(r, id)
      requires Ends(l, id)
      modifies this
      ensures Represents(R.Next(r, l))
      ensures responseChannels == old(responseChannels) - {id} && claimRequests == old(claimRequests) - {id}
    {
      OthersStay(r, l, id);
      claimRequests := claimRequests - {id};
      responseChannels := responseChannels - {id};
    }

    /** The claim branch of the dispatch loop. */
    method DispatchClaim(ghost r: R.Rpc, bid: Bid) returns (routed: bool)
      requires Represents(r) && bid in r.core.bids
      modifies this
      ensures routed <==> Live(r, bid.id)
      ensures Represents(if routed then R.Next(r, R.Claim(HearBid(bid))) else r)
      ensures claimRequests ==
              if routed then old(claimRequests)[bid.id := old(claimRequests[bid.id]) + [bid]] else old(claimRequests)
    {
      routed := bid.id in claimRequests;
      if routed {
        claimRequests := claimRequests[bid.id := claimRequests[bid.id] + [bid]];
      }
    }

    /** The response branch of the dispatch loop: the response channel has room for one. */
    method DispatchResponse(ghost r: R.Rpc, reply: R.Reply) returns (routing: Routing)
      requires Represents(r) && reply in r.replies
      modifies this
      ensures routing.Dropped? <==> !Live(r, reply.id)
      ensures routing.Blocked? <==> Live(r, reply.id) && reply.id in r.boxes
      ensures Represents(if routing.Sent? then R.Next(r, R.HearReply(reply)) else r)
    {
      if reply.id !in responseChannels {
        return Dropped;
      }
      if responseChannels[reply.id].Some? {
        return Blocked;
      }
      responseChannels := responseChannels[reply.id := Some(reply)];
      routing := Sent;
    }
  }
}
