/** Unary requests that need a claim: the server runs its handler once it has won the request and replies; the client
    waits for the reply. */
module ClaimedRpc {
  import opened ClaimCore
  import C = ClaimCore

  /** A reply is an error to the client exactly when its error text is not empty. */
  datatype Reply = Reply(id: RequestId, server: ServerId, error: string, body: string)

  datatype Result = Success(server: ServerId, body: string) | Failure(error: string)

  /** `runs` are the goroutines that have called the handler, `unsent` the replies they have still to publish;
      `replies` is everything ever published, `boxes` the response channels, each with room for one; `heard` holds the
      last error that a selecting client has read for a request. */
  datatype Rpc = Rpc(
    core: Core,
    runs: map<Gid, Task>,
    unsent: map<Gid, Reply>,
    replies: set<Reply>,
    boxes: map<RequestId, Reply>,
    heard: map<RequestId, string>,
    results: map<RequestId, Result>)

  const INIT := Rpc(NEW, map[], map[], {}, map[], map[], map[])

  datatype Label =
    | Claim(l: C.Label)
    // server
    | Reject(g: Gid, error: string, sent: bool)        // the payload does not decode
    | Run(g: Gid, error: string, body: string)
    | SendReply(g: Gid, sent: bool)
    // client
    | HearReply(reply: Reply)
    | Swallow(id: RequestId)                           // selectServer reads the response channel
    | Abandon(id: RequestId, error: string)            // selectServer fails
    | Take(id: RequestId, decodes: bool)
    | Fail(id: RequestId, error: string)               // the grant was not published, or the context is done

  predicate Enabled(r: Rpc, l: Label) {
    match l
    case Claim(cl) => !cl.GiveUp? && C.Enabled(r.core, cl)
    case Reject(g, error, _) => At(r.core, g, Started) && error != ""
    case Run(g, _, _) => At(r.core, g, Won) && g !in r.runs
    case SendReply(g, _) => g in r.unsent
    case HearReply(reply) =>
      reply in r.replies && reply.id in r.core.clients && reply.id !in r.boxes && reply.id !in r.results
    case Swallow(id) => id in r.boxes && id in r.core.clients && r.core.clients[id].Selecting?
    case Abandon(id, _) => id !in r.results && C.Enabled(r.core, GiveUp(id))
    case Take(id, _) =>
      id in r.boxes && id in r.core.clients && r.core.clients[id].Granted? && r.core.clients[id].ok && id !in r.results
    case Fail(id, _) => id in r.core.clients && r.core.clients[id].Granted? && id !in r.results
  }

  /** What the caller gets from a reply, whose body may not decode. */
  function ResultOf(reply: Reply, decodes: bool): Result {
    if reply.error != "" then Failure(reply.error)
    else if decodes then Success(reply.server, reply.body)
    else Failure("malformed response")
  }

  function Next(r: Rpc, l: Label): Rpc
    requires Enabled(r, l)
  {
    match l
    case Claim(cl) => r.(core := C.Next(r.core, cl))
    case Reject(g, error, sent) =>
      var t := r.core.tasks[g];
      r.(core := C.Next(r.core, Leave(g)),
         replies := if sent then r.replies + {Reply(t.id, t.server, error, "")} else r.replies)
    case Run(g, error, body) =>
      var t := r.core.tasks[g];
      r.(runs := r.runs[g := t], unsent := r.unsent[g := Reply(t.id, t.server, error, body)])
    case SendReply(g, sent) =>
      r.(unsent := r.unsent - {g}, replies := if sent then r.replies + {r.unsent[g]} else r.replies)
    case HearReply(reply) => r.(boxes := r.boxes[reply.id := reply])
    case Swallow(id) =>
      r.(boxes := r.boxes - {id},
         heard := if r.boxes[id].error != "" then r.heard[id := r.boxes[id].error] else r.heard)
    case Abandon(id, error) =>
      r.(core := C.Next(r.core, GiveUp(id)),
         results := r.results[id := Failure(if id in r.heard then r.heard[id] else error)])
    case Take(id, decodes) => r.(boxes := r.boxes - {id}, results := r.results[id := ResultOf(r.boxes[id], decodes)])
    case Fail(id, error) => r.(results := r.results[id := Failure(error)])
  }

  ghost predicate IsRun(rs: seq<Rpc>, ls: seq<Label>) {
    && |rs| == |ls| + 1 && rs[0] == INIT
    && forall i | 0 <= i < |ls| :: Enabled(rs[i], ls[i]) && rs[i + 1] == Next(rs[i], ls[i])
  }

  /** The handler ran for the request of this reply on the server that sends it. */
  ghost predicate HasRun(r: Rpc, server: ServerId, id: RequestId) {
    exists g :: g in r.runs && r.runs[g] == Task(server, id)
  }

  ghost predicate Replied(r: Rpc) {
    && (forall g | g in r.runs :: At(r.core, g, Won) && r.runs[g] == r.core.tasks[g])
    && (forall g | g in r.unsent :: g in r.runs && r.runs[g] == Task(r.unsent[g].server, r.unsent[g].id))
    && (forall x | x in r.replies && x.error == "" :: HasRun(r, x.server, x.id))
    && (forall id | id in r.boxes :: r.boxes[id] in r.replies && r.boxes[id].id == id)
    && (forall id | id in r.results && r.results[id].Success? ::
          Reply(id, r.results[id].server, "", r.results[id].body) in r.replies)
  }

  ghost predicate Invariant(r: Rpc) {
    C.Invariant(r.core) && BidsSound(r.core) && Replied(r)
  }

  lemma HasRunStays(r: Rpc, r': Rpc, x: Reply)
    requires HasRun(r, x.server, x.id) && forall g | g in r.runs :: g in r'.runs && r'.runs[g] == r.runs[g]
    ensures HasRun(r', x.server, x.id)
  {
    var g :| g in r.runs && r.runs[g] == Task(x.server, x.id);
    assert r'.runs[g] == Task(x.server, x.id);
  }

  /** The claim protocol moves on and everything else stays. */
  lemma ClaimReplied(r: Rpc, l: Label)
    requires l.Claim? && Replied(r) && Enabled(r, l)
    ensures Replied(Next(r, l))
  {
    var r' := Next(r, l);
    forall g | g in r.runs ensures At(r'.core, g, Won) && r'.core.tasks[g] == r.core.tasks[g] {
      WonStays(r.core, l.l, g);
    }
    forall x | x in r.replies && x.error == "" ensures HasRun(r', x.server, x.id) {
      HasRunStays(r, r', x);
    }
  }

  lemma ServerReplied(r: Rpc, l: Label)
    requires (l.Reject? || l.Run? || l.SendReply?) && Replied(r) && Enabled(r, l)
    ensures Replied(Next(r, l))
  {
    var r' := Next(r, l);
    forall x | x in r.replies && x.error == "" ensures HasRun(r', x.server, x.id) {
      HasRunStays(r, r', x);
    }
    if l.SendReply? {
      assert r'.runs[l.g] == Task(r.unsent[l.g].server, r.unsent[l.g].id);
    }
  }

  lemma ClientReplied(r: Rpc, l: Label)
    requires !l.Claim? && !l.Reject? && !l.Run? && !l.SendReply? && Replied(r) && Enabled(r, l)
    ensures Replied(Next(r, l))
  {
    var r' := Next(r, l);
    forall x | x in r.replies && x.error == "" ensures HasRun(r', x.server, x.id) {
      HasRunStays(r, r', x);
    }
  }

  lemma RepliedKept(r: Rpc, l: Label)
    requires Replied(r) && Enabled(r, l)
    ensures Replied(Next(r, l))
  {
    if l.Claim? {
      ClaimReplied(r, l);
    } else if l.Reject? || l.Run? || l.SendReply? {
      ServerReplied(r, l);
    } else {
      ClientReplied(r, l);
    }
  }

  lemma {:induction false} Everywhere(rs: seq<Rpc>, ls: seq<Label>, i: nat)
    requires IsRun(rs, ls) && i <= |ls|
    ensures Invariant(rs[i])
  {
    if i > 0 {
      Everywhere(rs, ls, i - 1);
      var r, l := rs[i - 1], ls[i - 1];
      RepliedKept(r, l);
      if l.Claim? {
        EveryStep(r.core, l.l);
      } else if l.Reject? {
        EveryStep(r.core, Leave(l.g));
      } else if l.Abandon? {
        EveryStep(r.core, GiveUp(l.id));
      }
    }
  }

  /** At most one server runs the handler for a request, and it is the one the client granted the request to, which
      had bid for it unless a custom function chose. */
  lemma AtMostOneServer(rs: seq<Rpc>, ls: seq<Label>, i: nat, g: Gid, h: Gid)
    requires IsRun(rs, ls) && i <= |ls| && g in rs[i].runs && h in rs[i].runs
    requires rs[i].runs[g].id == rs[i].runs[h].id
    ensures rs[i].runs[g].server == rs[i].runs[h].server
    ensures var t, clients := rs[i].runs[g], rs[i].core.clients;
      && t.id in clients && clients[t.id].Granted? && clients[t.id].server == t.server
      && (!clients[t.id].custom ==> Bid(t.id, t.server) in rs[i].core.heard)
  {
    Everywhere(rs, ls, i);
    OneWinningServer(rs[i].core, g, h);
  }

  /** Unless the bus duplicates the request, its handler runs at most once, over all servers. */
  lemma AtMostOnce(rs: seq<Rpc>, ls: seq<Label>, i: nat, g: Gid, h: Gid)
    requires IsRun(rs, ls) && i <= |ls|
    requires g in rs[i].runs && h in rs[i].runs && rs[i].runs[g].id == rs[i].runs[h].id
    requires DeliveredOnce(rs[i].core, rs[i].runs[g].id)
    ensures g == h
  {
    Everywhere(rs, ls, i);
    AtMostOneServer(rs, ls, i, g, h);
  }

  lemma SuccessGranted(r: Rpc, x: Reply)
    requires Invariant(r) && x in r.replies && x.error == ""
    ensures Grant(x.id, x.server) in r.core.grants
  {
    var g :| g in r.runs && r.runs[g] == Task(x.server, x.id);
  }

  /** While the client is still selecting, and so would discard a reply without an error, there is none: neither on
      the bus nor in the response channel. */
  lemma NothingSwallowed(rs: seq<Rpc>, ls: seq<Label>, i: nat, id: RequestId, reply: Reply)
    requires IsRun(rs, ls) && i <= |ls|
    requires id in rs[i].core.clients && (rs[i].core.clients[id].Selecting? || rs[i].core.clients[id].Choosing?)
    ensures reply in rs[i].replies && reply.id == id ==> reply.error != ""
    ensures id in rs[i].boxes ==> rs[i].boxes[id].error != ""
  {
    Everywhere(rs, ls, i);
    forall x | x in rs[i].replies && x.error == "" ensures Grant(x.id, x.server) in rs[i].core.grants {
      SuccessGranted(rs[i], x);
    }
  }

  /** A success that the client returns comes from the server it chose, which has run the handler. */
  lemma SuccessFromChosen(rs: seq<Rpc>, ls: seq<Label>, i: nat, id: RequestId)
    requires IsRun(rs, ls) && i <= |ls| && id in rs[i].results && rs[i].results[id].Success?
    ensures HasRun(rs[i], rs[i].results[id].server, id)
    ensures id in rs[i].core.clients && rs[i].core.clients[id].Granted?
    ensures rs[i].core.clients[id].server == rs[i].results[id].server
  {
    Everywhere(rs, ls, i);
    var server := rs[i].results[id].server;
    SuccessGranted(rs[i], Reply(id, server, "", rs[i].results[id].body));
  }
}
