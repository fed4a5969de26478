/** Where the result of a request comes from: the caller gets what a handler returned, an error for an error. */
module ClaimOrigin {
  import opened Options
  import opened ClaimCore
  import opened ClaimedRpc
  import C = ClaimCore
  import R = ClaimedRpc

  /** Step `l` makes a server give reply `x`: its handler returned an error or a body, or the request did not decode. */
  predicate Gives(r: Rpc, l: R.Label, x: Reply) {
    match l
    case Run(g, error, body) =>
      g in r.core.tasks && x == Reply(r.core.tasks[g].id, r.core.tasks[g].server, error, body)
    case Reject(g, error, _) =>
      g in r.core.tasks && x == Reply(r.core.tasks[g].id, r.core.tasks[g].server, error, "")
    case _ => false
  }

  /** Some step before position `i` gave the reply. */
  ghost predicate Given(rs: seq<Rpc>, ls: seq<R.Label>, i: nat, x: Reply)
    requires |rs| == |ls| + 1 && i <= |ls|
  {
    exists j: nat :: j < i && Gives(rs[j], ls[j], x)
  }

  /** The reply is about to be sent, or has been sent. */
  ghost predicate Known(r: Rpc, x: Reply) {
    x in r.replies || exists g :: g in r.unsent && r.unsent[g] == x
  }

  lemma KnownStep(r: Rpc, l: R.Label, x: Reply)
    requires R.Enabled(r, l) && Known(R.Next(r, l), x)
    ensures Known(r, x) || Gives(r, l, x)
  {
    if l.SendReply? && x in R.Next(r, l).replies && x !in r.replies {
      assert l.g in r.unsent && r.unsent[l.g] == x;
    } else if x !in R.Next(r, l).replies {
      var g :| g in R.Next(r, l).unsent && R.Next(r, l).unsent[g] == x;
      assert g in r.unsent || (l.Run? && l.g == g);
    }
  }

  lemma {:induction false} KnownIsGiven(rs: seq<Rpc>, ls: seq<R.Label>, i: nat, x: Reply)
    requires R.IsRun(rs, ls) && i <= |ls| && Known(rs[i], x)
    ensures Given(rs, ls, i, x)
  {
    if i > 0 {
      KnownStep(rs[i - 1], ls[i - 1], x);
      if Known(rs[i - 1], x) {
        KnownIsGiven(rs, ls, i - 1, x);
      }
    }
  }

  /** What is in a response channel was given by a server. */
  lemma BoxIsGiven(rs: seq<Rpc>, ls: seq<R.Label>, i: nat, id: RequestId)
    requires R.IsRun(rs, ls) && i <= |ls| && id in rs[i].boxes
    ensures rs[i].boxes[id].id == id && Given(rs, ls, i, rs[i].boxes[id])
  {
    R.Everywhere(rs, ls, i);
    KnownIsGiven(rs, ls, i, rs[i].boxes[id]);
  }

  /** What the caller gets from a reply. */
  ghost predicate Conveys(x: Reply, decodes: bool, result: Result) {
    && (x.error != "" ==> result == Failure(x.error))
    && (x.error == "" && decodes ==> result == Success(x.server, x.body))
    && (x.error == "" && !decodes ==> result.Failure?)
  }

  /** A reply that the caller takes was given by a server for this request, and the caller gets its error if it has one,
      and its body otherwise. */
  lemma TakenIsGiven(rs: seq<Rpc>, ls: seq<R.Label>, k: nat, id: RequestId, decodes: bool)
    requires R.IsRun(rs, ls) && k < |ls| && ls[k] == Take(id, decodes)
    ensures id in rs[k + 1].results
    ensures exists x: Reply :: x.id == id && Given(rs, ls, k, x) && Conveys(x, decodes, rs[k + 1].results[id])
  {
    BoxIsGiven(rs, ls, k, id);
    var x := rs[k].boxes[id];
    assert Conveys(x, decodes, rs[k + 1].results[id]);
  }

  /** Step `l` settles the result of request `id`. */
  predicate Finishes(l: R.Label, id: RequestId) {
    (l.Take? || l.Fail? || l.Abandon?) && l.id == id
  }

  lemma ResultStep(r: Rpc, l: R.Label, id: RequestId)
    requires R.Enabled(r, l)
    ensures id in R.Next(r, l).results <==> id in r.results || Finishes(l, id)
    ensures id in r.results ==> !Finishes(l, id) && R.Next(r, l).results[id] == r.results[id]
  {
  }

  /** A result is settled by exactly one step and does not change any more. */
  lemma {:induction false} ResultIsSettled(rs: seq<Rpc>, ls: seq<R.Label>, i: nat, id: RequestId) returns (k: nat)
    requires R.IsRun(rs, ls) && i <= |ls| && id in rs[i].results
    ensures k < i && Finishes(ls[k], id) && id in rs[k + 1].results && rs[k + 1].results[id] == rs[i].results[id]
  {
    ResultStep(rs[i - 1], ls[i - 1], id);
    if id in rs[i - 1].results {
      k := ResultIsSettled(rs, ls, i - 1, id);
    } else {
      k := i - 1;
    }
  }

  /** A handler on `server` has returned `body` without an error for the request. */
  ghost predicate HandlerReturned(rs: seq<Rpc>, ls: seq<R.Label>, i: nat, id: RequestId, server: ServerId, body: string)
    requires |rs| == |ls| + 1 && i <= |ls|
  {
    exists j: nat, g: Gid ::
      j < i && ls[j] == Run(g, "", body) && g in rs[j].core.tasks && rs[j].core.tasks[g] == Task(server, id)
  }

  lemma GivenWithoutError(rs: seq<Rpc>, ls: seq<R.Label>, i: nat, x: Reply)
    requires R.IsRun(rs, ls) && i <= |ls| && Given(rs, ls, i, x) && x.error == ""
    ensures HandlerReturned(rs, ls, i, x.id, x.server, x.body)
  {
    var j: nat :| j < i && Gives(rs[j], ls[j], x);
    assert ls[j].Run? && ls[j] == Run(ls[j].g, "", x.body);
  }

  /** A success is what the handler returned: some step ran it for this request at this server, without an error and
      with this body. */
  lemma SuccessIsReturned(rs: seq<Rpc>, ls: seq<R.Label>, i: nat, id: RequestId, server: ServerId, body: string)
    requires R.IsRun(rs, ls) && i <= |ls| && id in rs[i].results && rs[i].results[id] == Success(server, body)
    ensures HandlerReturned(rs, ls, i, id, server, body)
  {
    var k := ResultIsSettled(rs, ls, i, id);
    assert ls[k].Take?;
    TakenIsGiven(rs, ls, k, id, ls[k].decodes);
    var x: Reply :| x.id == id && Given(rs, ls, k, x) && Conveys(x, ls[k].decodes, rs[k + 1].results[id]);
    GivenWithoutError(rs, ls, k, x);
    var j: nat, g: Gid :|
      j < k && ls[j] == Run(g, "", body) && g in rs[j].core.tasks && rs[j].core.tasks[g] == Task(server, id);
    assert j < i;
  }

  // ---- giving up

  /** The last error that the client has read for the request while it was selecting. */
  ghost function LastRead(rs: seq<Rpc>, ls: seq<R.Label>, i: nat, id: RequestId): Option<string>
    requires R.IsRun(rs, ls) && i <= |ls|
  {
    if i == 0 then None
    else if ls[i - 1] == Swallow(id) && rs[i - 1].boxes[id].error != "" then Some(rs[i - 1].boxes[id].error)
    else LastRead(rs, ls, i - 1, id)
  }

  lemma {:induction false} HeardIsLastRead(rs: seq<Rpc>, ls: seq<R.Label>, i: nat, id: RequestId)
    requires R.IsRun(rs, ls) && i <= |ls|
    ensures LastRead(rs, ls, i, id) == if id in rs[i].heard then Some(rs[i].heard[id]) else None
  {
    if i > 0 {
      HeardIsLastRead(rs, ls, i - 1, id);
      HeardStep(rs[i - 1], ls[i - 1], id);
    }
  }

  lemma HeardStep(r: Rpc, l: R.Label, id: RequestId)
    requires R.Enabled(r, l)
    ensures var h := R.Next(r, l).heard;
      if l == Swallow(id) && r.boxes[id].error != "" then id in h && h[id] == r.boxes[id].error
      else (id in h <==> id in r.heard) && (id in h ==> h[id] == r.heard[id])
  {
  }

  /** A client that gives up reports the last error it has read, or else its own. */
  lemma AbandonReports(rs: seq<Rpc>, ls: seq<R.Label>, k: nat, id: RequestId, error: string)
    requires R.IsRun(rs, ls) && k < |ls| && ls[k] == Abandon(id, error)
    ensures id in rs[k + 1].results
    ensures rs[k + 1].results[id] ==
      Failure(if LastRead(rs, ls, k, id).Some? then LastRead(rs, ls, k, id).value else error)
  {
    HeardIsLastRead(rs, ls, k, id);
  }

  // ---- claim channels

  /** A registered claim channel belongs to a goroutine that still waits for its grant, or is about to. */
  ghost predicate RoutesLive(c: Core) {
    forall t | t in c.routes :: At(c, c.routes[t], Bidding) || At(c, c.routes[t], Waiting)
  }

  lemma RoutesKept(c: Core, l: C.Label)
    requires C.Invariant(c) && RoutesLive(c) && C.Enabled(c, l)
    ensures RoutesLive(C.Next(c, l))
  {
  }

  /** No claim channel is left behind: in every run, those registered belong to goroutines that have not left or won. */
  lemma {:induction false} NoClaimLeaks(rs: seq<Rpc>, ls: seq<R.Label>, i: nat)
    requires R.IsRun(rs, ls) && i <= |ls|
    ensures RoutesLive(rs[i].core)
  {
    if i > 0 {
      NoClaimLeaks(rs, ls, i - 1);
      R.Everywhere(rs, ls, i - 1);
      match ls[i - 1]
      case Claim(l) => RoutesKept(rs[i - 1].core, l);
      case Reject(g, _, _) => RoutesKept(rs[i - 1].core, Leave(g));
      case Abandon(id, _) => RoutesKept(rs[i - 1].core, GiveUp(id));
      case _ =>
    }
  }

  /** The goroutine has published its bid. */
  ghost predicate HasBid(ls: seq<R.Label>, i: nat, g: Gid)
    requires i <= |ls|
  {
    exists j: nat, sent: bool :: j < i && ls[j] == R.Claim(PublishBid(g, true, sent))
  }

  lemma CoreBidStep(c: Core, l: C.Label, g: Gid)
    requires C.Enabled(c, l) && (At(C.Next(c, l), g, Waiting) || At(C.Next(c, l), g, Won))
    ensures At(c, g, Waiting) || At(c, g, Won) || (l.PublishBid? && l.g == g && l.ok)
  {
  }

  lemma BidStep(r: Rpc, l: R.Label, g: Gid)
    requires R.Enabled(r, l) && (At(R.Next(r, l).core, g, Waiting) || At(R.Next(r, l).core, g, Won))
    ensures At(r.core, g, Waiting) || At(r.core, g, Won) || exists sent :: l == R.Claim(PublishBid(g, true, sent))
  {
    match l
    case Claim(cl) =>
      CoreBidStep(r.core, cl, g);
      assert cl.PublishBid? && cl.g == g && cl.ok ==> l == R.Claim(PublishBid(g, true, cl.sent));
    case Reject(h, _, _) => CoreBidStep(r.core, Leave(h), g);
    case Abandon(id, _) => CoreBidStep(r.core, GiveUp(id), g);
    case _ =>
  }

  /** Whoever waits for a grant, or has won, has published its bid. */
  ghost predicate BidFirst(c: Core, ls: seq<R.Label>, i: nat, g: Gid)
    requires i <= |ls|
  {
    At(c, g, Waiting) || At(c, g, Won) ==> HasBid(ls, i, g)
  }

  lemma BidFirstNext(r: Rpc, ls: seq<R.Label>, i: nat, g: Gid)
    requires i < |ls| && R.Enabled(r, ls[i]) && BidFirst(r.core, ls, i, g)
    ensures BidFirst(R.Next(r, ls[i]).core, ls, i + 1, g)
  {
    var c := R.Next(r, ls[i]).core;
    if At(c, g, Waiting) || At(c, g, Won) {
      BidStep(r, ls[i], g);
    }
  }

  /** Only a goroutine whose bid was published wins. */
  lemma {:induction false} WinnersHaveBid(rs: seq<Rpc>, ls: seq<R.Label>, i: nat, g: Gid)
    requires R.IsRun(rs, ls) && i <= |ls|
    ensures BidFirst(rs[i].core, ls, i, g)
  {
    if i > 0 {
      WinnersHaveBid(rs, ls, i - 1, g);
      BidFirstNext(rs[i - 1], ls, i - 1, g);
    }
  }

  /** A request that fails after its grant reports the error it failed with. */
  lemma FailReports(rs: seq<Rpc>, ls: seq<R.Label>, k: nat, id: RequestId, error: string)
    requires R.IsRun(rs, ls) && k < |ls| && ls[k] == Fail(id, error)
    ensures id in rs[k + 1].results && rs[k + 1].results[id] == Failure(error)
  {
  }

  // ---- the channels, step by step

  /** A response channel fills when a reply is heard and empties when it is read. */
  lemma BoxStep(r: Rpc, l: R.Label, id: RequestId)
    requires R.Enabled(r, l)
    ensures var boxes := R.Next(r, l).boxes;
      if l.HearReply? && l.reply.id == id then id !in r.boxes && id in boxes && boxes[id] == l.reply
      else if l == Swallow(id) || (l.Take? && l.id == id) then id in r.boxes && id !in boxes
      else (id in boxes <==> id in r.boxes) && (id in boxes ==> boxes[id] == r.boxes[id])
  {
  }

  ghost function Heard(ls: seq<R.Label>, id: RequestId): nat {
    if ls == [] then 0
    else
      var l := ls[|ls| - 1];
      Heard(ls[..|ls| - 1], id) + if l.HearReply? && l.reply.id == id then 1 else 0
  }

  ghost function Read(ls: seq<R.Label>, id: RequestId): nat {
    if ls == [] then 0
    else
      var l := ls[|ls| - 1];
      Read(ls[..|ls| - 1], id) + if l == Swallow(id) || (l.Take? && l.id == id) then 1 else 0
  }

  /** In every run the client reads each reply that reached it once: what was heard and not read is in the channel. */
  lemma {:induction false} ReadOnce(rs: seq<Rpc>, ls: seq<R.Label>, i: nat, id: RequestId)
    requires R.IsRun(rs, ls) && i <= |ls|
    ensures Heard(ls[..i], id) == Read(ls[..i], id) + if id in rs[i].boxes then 1 else 0
  {
    if i > 0 {
      ReadOnce(rs, ls, i - 1, id);
      BoxStep(rs[i - 1], ls[i - 1], id);
      assert ls[..i][..i - 1] == ls[..i - 1];
    }
  }

  /** A claim channel is registered by one step of a goroutine and removed when a goroutine for the same delivery fails
      to publish its bid, reads a grant or stops waiting; one that leaves earlier removes nothing. */
  lemma RouteStep(c: Core, l: C.Label, t: Task)
    requires C.Enabled(c, l)
    ensures var registers := l.Register? && c.tasks[l.g] == t;
      var removes :=
        || (l.PublishBid? && !l.ok && c.tasks[l.g] == t)
        || (l.ReadGrant? && c.tasks[l.g] == t)
        || (l.Leave? && At(c, l.g, Waiting) && c.tasks[l.g] == t);
      && (t in C.Next(c, l).routes <==> registers || (t in c.routes && !removes))
      && (registers ==> C.Next(c, l).routes[t] == l.g)
  {
  }

  // ---- replies and grants, once each

  lemma UnsentStep(r: Rpc, l: R.Label, g: Gid)
    requires R.Enabled(r, l)
    ensures g in R.Next(r, l).unsent <==>
      (l.Run? && l.g == g) || (g in r.unsent && !(l.SendReply? && l.g == g))
    ensures g in R.Next(r, l).runs <==> g in r.runs || (l.Run? && l.g == g)
    ensures l.Run? && l.g == g ==> g !in r.runs
    ensures l.SendReply? && l.g == g ==> g in r.unsent
  {
  }

  ghost function Runs(ls: seq<R.Label>, g: Gid): nat {
    if ls == [] then 0
    else Runs(ls[..|ls| - 1], g) + if ls[|ls| - 1].Run? && ls[|ls| - 1].g == g then 1 else 0
  }

  ghost function Replies(ls: seq<R.Label>, g: Gid): nat {
    if ls == [] then 0
    else Replies(ls[..|ls| - 1], g) + if ls[|ls| - 1].SendReply? && ls[|ls| - 1].g == g then 1 else 0
  }

  /** A goroutine runs its handler at most once, and sends one reply for it at most: it has one to send exactly when it
      has run and not replied. */
  lemma {:induction false} OnceEach(rs: seq<Rpc>, ls: seq<R.Label>, i: nat, g: Gid)
    requires R.IsRun(rs, ls) && i <= |ls|
    ensures Runs(ls[..i], g) == if g in rs[i].runs then 1 else 0
    ensures Runs(ls[..i], g) == Replies(ls[..i], g) + if g in rs[i].unsent then 1 else 0
  {
    if i > 0 {
      OnceEach(rs, ls, i - 1, g);
      UnsentStep(rs[i - 1], ls[i - 1], g);
      assert ls[..i][..i - 1] == ls[..i - 1];
    }
  }

  /** The client has a grant that the bus took. */
  predicate GrantTaken(c: Core, id: RequestId) {
    id in c.clients && c.clients[id].Granted? && c.clients[id].ok
  }

  lemma CoreGrantStep(c: Core, l: C.Label, id: RequestId)
    requires C.Enabled(c, l) && GrantTaken(C.Next(c, l), id)
    ensures GrantTaken(c, id) || (l.PublishGrant? && l.id == id && l.ok)
  {
  }

  lemma GrantStep(r: Rpc, l: R.Label, id: RequestId)
    requires R.Enabled(r, l) && GrantTaken(R.Next(r, l).core, id)
    ensures GrantTaken(r.core, id) || exists sent :: l == R.Claim(PublishGrant(id, true, sent))
  {
    match l
    case Claim(cl) =>
      CoreGrantStep(r.core, cl, id);
      assert cl.PublishGrant? && cl.id == id && cl.ok ==> l == R.Claim(PublishGrant(id, true, cl.sent));
    case Reject(h, _, _) => CoreGrantStep(r.core, Leave(h), id);
    case Abandon(x, _) => CoreGrantStep(r.core, GiveUp(x), id);
    case _ =>
  }

  lemma {:induction false} GrantWasTaken(rs: seq<Rpc>, ls: seq<R.Label>, i: nat, id: RequestId)
    requires R.IsRun(rs, ls) && i <= |ls| && GrantTaken(rs[i].core, id)
    ensures exists j: nat, sent: bool :: j < i && ls[j] == R.Claim(PublishGrant(id, true, sent))
  {
    if i > 0 {
      GrantStep(rs[i - 1], ls[i - 1], id);
      if GrantTaken(rs[i - 1].core, id) {
        GrantWasTaken(rs, ls, i - 1, id);
      }
    }
  }

  /** The caller takes a reply only after its grant was published: when that fails, the request fails. */
  lemma TakenAfterGrant(rs: seq<Rpc>, ls: seq<R.Label>, k: nat, id: RequestId, decodes: bool)
    requires R.IsRun(rs, ls) && k < |ls| && ls[k] == Take(id, decodes)
    ensures exists j: nat, sent: bool :: j < k && ls[j] == R.Claim(PublishGrant(id, true, sent))
  {
    assert R.Enabled(rs[k], ls[k]);
    GrantWasTaken(rs, ls, k, id);
  }
}
