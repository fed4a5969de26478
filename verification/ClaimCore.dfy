/** The claim protocol that unary requests and stream opens share (pkg/client/rpc.go, pkg/client/stream.go,
    pkg/server/rpc.go, pkg/server/stream.go): a request is published, servers bid for it, the client grants it to one
    of them.  Any number of servers and requests; the network loses, delays, duplicates and reorders. */
module ClaimCore {

  type RequestId = string
  type ServerId = string
  /** A goroutine that a server starts for one delivery of a request. */
  type Gid = string

  datatype Bid = Bid(id: RequestId, server: ServerId)
  datatype Grant = Grant(id: RequestId, server: ServerId)

  /** The client side of one request. */
  datatype Client =
    | Opening                              // ids registered, request not yet published
    | Selecting
    | Choosing(server: ServerId, custom: bool)           // selected, grant not yet published
    | Granted(server: ServerId, custom: bool, ok: bool)  // grant handed to the bus, which reported success or not
    | Quit

  /** One delivery of a request at one server. */
  datatype Task = Task(server: ServerId, id: RequestId)

  datatype Phase =
    | Started
    | Bidding    // claim channel registered
    | Waiting    // bid published
    | Won        // read a grant for its own server
    | Left

  /** `requests`, `bids` and `grants` hold everything ever published; `heard` the bids that reached the client.
      `tasks` is every goroutine ever started, `channels` the grant in its claim channel, and `routes` the claim
      channels registered at each server. */
  datatype Core = Core(
    clients: map<RequestId, Client>,
    requests: set<RequestId>,
    bids: set<Bid>,
    grants: set<Grant>,
    heard: set<Bid>,
    tasks: map<Gid, Task>,
    phases: map<Gid, Phase>,
    channels: map<Gid, Grant>,
    routes: map<Task, Gid>)

  const NEW := Core(map[], {}, {}, {}, {}, map[], map[], map[], map[])

  datatype Label =
    // client
    | Open(id: RequestId)
    | PublishRequest(id: RequestId, ok: bool, sent: bool)
    | HearBid(bid: Bid)
    | Select(id: RequestId, server: ServerId, custom: bool)
    | PublishGrant(id: RequestId, ok: bool, sent: bool)
    | GiveUp(id: RequestId)
    // servers
    | Start(g: Gid, task: Task)
    | Register(g: Gid)
    | PublishBid(g: Gid, ok: bool, sent: bool)
    | RouteGrant(server: ServerId, grant: Grant)
    | ReadGrant(g: Gid)
    | Leave(g: Gid)

  predicate At(c: Core, g: Gid, phase: Phase) {
    g in c.tasks && g in c.phases && c.phases[g] == phase
  }

  predicate Enabled(c: Core, l: Label) {
    match l
    case Open(id) => id !in c.clients
    case PublishRequest(id, ok, sent) => id in c.clients && c.clients[id].Opening? && (ok ==> sent)
    case HearBid(bid) => bid in c.bids && bid.id in c.clients && !c.clients[bid.id].Quit?
    case Select(id, server, custom) =>
      id in c.clients && c.clients[id].Selecting? && (!custom ==> Bid(id, server) in c.heard)
    case PublishGrant(id, ok, sent) => id in c.clients && c.clients[id].Choosing? && (ok ==> sent)
    case GiveUp(id) => id in c.clients && c.clients[id].Selecting?
    case Start(g, task) => g !in c.tasks && g !in c.phases && task.id in c.requests
    case Register(g) => At(c, g, Started)
    case PublishBid(g, ok, sent) => At(c, g, Bidding) && (ok ==> sent)
    case RouteGrant(server, grant) =>
      grant in c.grants && Task(server, grant.id) in c.routes && c.routes[Task(server, grant.id)] !in c.channels
    case ReadGrant(g) => At(c, g, Waiting) && g in c.channels
    case Leave(g) => At(c, g, Started) || At(c, g, Waiting)
  }

  /** A goroutine that leaves removes the route for its request, whosever channel that is by now. */
  function Unrouted(c: Core, g: Gid): map<Task, Gid>
    requires g in c.tasks
  {
    c.routes - {c.tasks[g]}
  }

  function Next(c: Core, l: Label): Core
    requires Enabled(c, l)
  {
    match l
    case Open(id) => c.(clients := c.clients[id := Opening])
    case PublishRequest(id, ok, sent) =>
      c.(clients := c.clients[id := if ok then Selecting else Quit],
         requests := if sent then c.requests + {id} else c.requests)
    case HearBid(bid) => c.(heard := c.heard + {bid})
    case Select(id, server, custom) => c.(clients := c.clients[id := Choosing(server, custom)])
    case PublishGrant(id, ok, sent) =>
      c.(clients := c.clients[id := Granted(c.clients[id].server, c.clients[id].custom, ok)],
         grants := if sent then c.grants + {Grant(id, c.clients[id].server)} else c.grants)
    case GiveUp(id) => c.(clients := c.clients[id := Quit])
    case Start(g, task) => c.(tasks := c.tasks[g := task], phases := c.phases[g := Started])
    case Register(g) => c.(routes := c.routes[c.tasks[g] := g], phases := c.phases[g := Bidding])
    case PublishBid(g, ok, sent) =>
      c.(bids := if sent then c.bids + {Bid(c.tasks[g].id, c.tasks[g].server)} else c.bids,
         phases := c.phases[g := if ok then Waiting else Left],
         routes := if ok then c.routes else Unrouted(c, g))
    case RouteGrant(server, grant) => c.(channels := c.channels[c.routes[Task(server, grant.id)] := grant])
    case ReadGrant(g) =>
      c.(phases := c.phases[g := if c.channels[g].server == c.tasks[g].server then Won else Left],
         routes := Unrouted(c, g))
    case Leave(g) =>
      c.(phases := c.phases[g := Left], routes := if c.phases[g].Started? then c.routes else Unrouted(c, g))
  }

  /** A grant is the choice of its client, made among the bids unless a custom selection made it; a goroutine that
      has won was granted its request. */
  ghost predicate Invariant(c: Core) {
    && (forall x | x in c.grants :: x.id in c.clients && c.clients[x.id].Granted? && c.clients[x.id].server == x.server)
    && (forall g | g in c.channels :: g in c.tasks && c.channels[g] in c.grants && c.channels[g].id == c.tasks[g].id)
    && (forall t | t in c.routes :: c.routes[t] in c.tasks && c.tasks[c.routes[t]] == t)
    && (forall g | g in c.phases :: g in c.tasks)
    && (forall g | At(c, g, Won) :: Grant(c.tasks[g].id, c.tasks[g].server) in c.grants)
    && (forall g | g in c.tasks :: c.tasks[g].id in c.requests)
    && (forall id | id in c.requests :: id in c.clients && !c.clients[id].Opening?)
  }

  /** A server bids only for a request that was delivered to it. */
  ghost predicate Delivered(c: Core, b: Bid) {
    exists g :: g in c.tasks && c.tasks[g] == Task(b.server, b.id)
  }

  /** Unless a custom function selected it, the chosen server has bid. */
  ghost predicate BidsSound(c: Core) {
    && c.heard <= c.bids
    && (forall b | b in c.bids :: Delivered(c, b))
    && (forall id | id in c.clients && (c.clients[id].Choosing? || c.clients[id].Granted?) && !c.clients[id].custom ::
          Bid(id, c.clients[id].server) in c.heard)
  }

  lemma ClientKeeps(c: Core, l: Label)
    requires l.Open? || l.PublishRequest? || l.HearBid? || l.Select? || l.PublishGrant? || l.GiveUp?
    requires Invariant(c) && Enabled(c, l)
    ensures Invariant(Next(c, l))
  {
  }

  lemma BiddingKeeps(c: Core, l: Label)
    requires l.Start? || l.Register? || l.PublishBid?
    requires Invariant(c) && Enabled(c, l)
    ensures Invariant(Next(c, l))
  {
  }

  lemma GrantingKeeps(c: Core, l: Label)
    requires l.RouteGrant? || l.ReadGrant? || l.Leave?
    requires Invariant(c) && Enabled(c, l)
    ensures Invariant(Next(c, l))
  {
  }

  lemma BidsKept(c: Core, l: Label)
    requires BidsSound(c) && Enabled(c, l)
    ensures BidsSound(Next(c, l))
  {
    var c' := Next(c, l);
    forall b | b in c'.bids ensures Delivered(c', b) {
      if b in c.bids {
        var g :| g in c.tasks && c.tasks[g] == Task(b.server, b.id);
        assert c'.tasks[g] == Task(b.server, b.id);
      } else {
        assert c'.tasks[l.g] == Task(b.server, b.id);
      }
    }
  }

  lemma EveryStep(c: Core, l: Label)
    requires Invariant(c) && BidsSound(c) && Enabled(c, l)
    ensures Invariant(Next(c, l)) && BidsSound(Next(c, l))
  {
    if l.Open? || l.PublishRequest? || l.HearBid? || l.Select? || l.PublishGrant? || l.GiveUp? {
      ClientKeeps(c, l);
    } else if l.Start? || l.Register? || l.PublishBid? {
      BiddingKeeps(c, l);
    } else {
      GrantingKeeps(c, l);
    }
    BidsKept(c, l);
  }

  /** No server got request `id` delivered twice. */
  ghost predicate DeliveredOnce(c: Core, id: RequestId) {
    forall g, h | g in c.tasks && h in c.tasks && c.tasks[g] == c.tasks[h] && c.tasks[g].id == id :: g == h
  }

  /** A goroutine that has won stays where it is. */
  lemma WonStays(c: Core, l: Label, g: Gid)
    requires At(c, g, Won) && Enabled(c, l)
    ensures At(Next(c, l), g, Won) && Next(c, l).tasks[g] == c.tasks[g]
  {
  }

  /** Two goroutines that win the same request run on the same server. */
  lemma OneWinningServer(c: Core, g: Gid, h: Gid)
    requires Invariant(c) && At(c, g, Won) && At(c, h, Won) && c.tasks[g].id == c.tasks[h].id
    ensures c.tasks[g].server == c.tasks[h].server
  {
  }
}
