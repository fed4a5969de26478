/** The claim protocol can succeed: from every reachable state a new request can be claimed by any server, run there and
    answered, and a new stream can be opened there and used. */
module ClaimSuccess {
  import opened ClaimCore
  import C = ClaimCore
  import R = ClaimedRpc
  import O = StreamOpen

  // ---- the claim

  ghost predicate CoreRun(c: Core, cs: seq<Core>, ls: seq<C.Label>, d: Core) {
    && |cs| == |ls| + 1 && cs[0] == c && cs[|ls|] == d
    && forall i | 0 <= i < |ls| ::
         !ls[i].Open? && !ls[i].GiveUp? && C.Enabled(cs[i], ls[i]) && cs[i + 1] == C.Next(cs[i], ls[i])
  }

  lemma Extend(c: Core, cs: seq<Core>, ls: seq<C.Label>, d: Core, l: C.Label)
    returns (cs': seq<Core>, ls': seq<C.Label>)
    requires CoreRun(c, cs, ls, d) && C.Enabled(d, l) && !l.Open? && !l.GiveUp?
    ensures CoreRun(c, cs', ls', C.Next(d, l))
  {
    cs', ls' := cs + [C.Next(d, l)], ls + [l];
  }

  /** The request goes out, reaches the server, and its bid reaches the client. */
  lemma BidPhase(c: Core, id: RequestId, g: Gid, server: ServerId) returns (cs: seq<Core>, ls: seq<C.Label>, d: Core)
    requires id in c.clients && c.clients[id].Opening? && g !in c.tasks && g !in c.phases
    ensures CoreRun(c, cs, ls, d)
    ensures id in d.clients && d.clients[id].Selecting? && Bid(id, server) in d.heard
    ensures At(d, g, Waiting) && d.tasks[g] == Task(server, id) && d.channels == c.channels
    ensures Task(server, id) in d.routes && d.routes[Task(server, id)] == g
    ensures d.tasks.Keys == c.tasks.Keys + {g}
  {
    var task := Task(server, id);
    cs, ls := Extend(c, [c], [], c, PublishRequest(id, true, true));
    var d1 := C.Next(c, PublishRequest(id, true, true));
    cs, ls := Extend(c, cs, ls, d1, Start(g, task));
    var d2 := C.Next(d1, Start(g, task));
    cs, ls := Extend(c, cs, ls, d2, Register(g));
    var d3 := C.Next(d2, Register(g));
    cs, ls := Extend(c, cs, ls, d3, PublishBid(g, true, true));
    var d4 := C.Next(d3, PublishBid(g, true, true));
    cs, ls := Extend(c, cs, ls, d4, HearBid(Bid(id, server)));
    d := C.Next(d4, HearBid(Bid(id, server)));
  }

  /** The client grants the request to the server, which reads the grant. */
  lemma GrantPhase(c: Core, cs: seq<Core>, ls: seq<C.Label>, d: Core, id: RequestId, g: Gid, server: ServerId)
    returns (cs': seq<Core>, ls': seq<C.Label>, e: Core)
    requires CoreRun(c, cs, ls, d)
    requires id in d.clients && d.clients[id].Selecting? && Bid(id, server) in d.heard
    requires At(d, g, Waiting) && d.tasks[g] == Task(server, id) && g !in d.channels
    requires Task(server, id) in d.routes && d.routes[Task(server, id)] == g
    ensures CoreRun(c, cs', ls', e)
    ensures id in e.clients && e.clients[id] == Granted(server, false, true)
    ensures At(e, g, Won) && e.tasks[g] == Task(server, id) && e.tasks == d.tasks
  {
    cs', ls' := Extend(c, cs, ls, d, Select(id, server, false));
    var d1 := C.Next(d, Select(id, server, false));
    cs', ls' := Extend(c, cs', ls', d1, PublishGrant(id, true, true));
    var d2 := C.Next(d1, PublishGrant(id, true, true));
    cs', ls' := Extend(c, cs', ls', d2, RouteGrant(server, Grant(id, server)));
    var d3 := C.Next(d2, RouteGrant(server, Grant(id, server)));
    cs', ls' := Extend(c, cs', ls', d3, ReadGrant(g));
    e := C.Next(d3, ReadGrant(g));
  }

  lemma ClaimPhase(c: Core, id: RequestId, g: Gid, server: ServerId) returns (cs: seq<Core>, ls: seq<C.Label>, e: Core)
    requires C.Invariant(c) && id in c.clients && c.clients[id].Opening? && g !in c.tasks
    ensures CoreRun(c, cs, ls, e)
    ensures id in e.clients && e.clients[id] == Granted(server, false, true)
    ensures At(e, g, Won) && e.tasks[g] == Task(server, id) && e.tasks.Keys == c.tasks.Keys + {g}
  {
    var d: Core;
    cs, ls, d := BidPhase(c, id, g, server);
    cs, ls, e := GrantPhase(c, cs, ls, d, id, g, server);
  }

  // ---- unary requests

  ghost predicate RpcContinues(rs: seq<R.Rpc>, ls: seq<R.Label>, qs: seq<R.Rpc>, ms: seq<R.Label>, q: R.Rpc) {
    R.IsRun(qs, ms) && rs <= qs && ls <= ms && qs[|ms|] == q
  }

  lemma RpcExtend(rs: seq<R.Rpc>, ls: seq<R.Label>, qs: seq<R.Rpc>, ms: seq<R.Label>, q: R.Rpc, l: R.Label)
    returns (qs': seq<R.Rpc>, ms': seq<R.Label>)
    requires RpcContinues(rs, ls, qs, ms, q) && R.Enabled(q, l)
    ensures RpcContinues(rs, ls, qs', ms', R.Next(q, l))
  {
    qs', ms' := qs + [R.Next(q, l)], ms + [l];
  }

  /** Steps of the claim protocol are steps of a request. */
  lemma {:induction false} RpcLift(rs: seq<R.Rpc>, ls: seq<R.Label>, qs: seq<R.Rpc>, ms: seq<R.Label>, q: R.Rpc,
                                   cs: seq<Core>, cl: seq<C.Label>, d: Core)
    returns (qs': seq<R.Rpc>, ms': seq<R.Label>)
    requires RpcContinues(rs, ls, qs, ms, q) && CoreRun(q.core, cs, cl, d)
    ensures RpcContinues(rs, ls, qs', ms', q.(core := d))
    decreases |cl|
  {
    qs', ms' := qs, ms;
    if cl != [] {
      var l := R.Claim(cl[0]);
      qs', ms' := RpcExtend(rs, ls, qs, ms, q, l);
      qs', ms' := RpcLift(rs, ls, qs', ms', R.Next(q, l), cs[1..], cl[1..], d);
    }
  }

  /** The server that has won runs its handler, and its reply reaches the caller. */
  lemma ReplyPhase(rs: seq<R.Rpc>, ls: seq<R.Label>, qs: seq<R.Rpc>, ms: seq<R.Label>, q: R.Rpc, id: RequestId, g: Gid,
                   server: ServerId, error: string, body: string)
    returns (qs': seq<R.Rpc>, ms': seq<R.Label>, z: R.Rpc)
    requires RpcContinues(rs, ls, qs, ms, q) && g !in q.runs
    requires At(q.core, g, Won) && q.core.tasks[g] == Task(server, id)
    requires id in q.core.clients && q.core.clients[id] == Granted(server, false, true)
    requires id !in q.boxes && id !in q.results
    ensures RpcContinues(rs, ls, qs', ms', z)
    ensures id in z.results && z.results[id] == if error == "" then R.Success(server, body) else R.Failure(error)
    ensures g in z.runs && z.runs[g] == Task(server, id)
  {
    var reply := R.Reply(id, server, error, body);
    qs', ms' := RpcExtend(rs, ls, qs, ms, q, R.Run(g, error, body));
    var q1 := R.Next(q, R.Run(g, error, body));
    qs', ms' := RpcExtend(rs, ls, qs', ms', q1, R.SendReply(g, true));
    var q2 := R.Next(q1, R.SendReply(g, true));
    qs', ms' := RpcExtend(rs, ls, qs', ms', q2, R.HearReply(reply));
    var q3 := R.Next(q2, R.HearReply(reply));
    qs', ms' := RpcExtend(rs, ls, qs', ms', q3, R.Take(id, true));
    z := R.Next(q3, R.Take(id, true));
  }

  /** From every reachable state a new request can be claimed by any server, which runs its handler; the caller gets
      what the handler returned: its result, or its error. */
  lemma RequestCanSucceed(rs: seq<R.Rpc>, ls: seq<R.Label>, id: RequestId, g: Gid, server: ServerId, error: string,
                          body: string)
    requires R.IsRun(rs, ls)
    requires var r := rs[|ls|]; id !in r.core.clients && id !in r.boxes && id !in r.results && g !in r.core.tasks
    ensures exists qs: seq<R.Rpc>, ms: seq<R.Label>, q: R.Rpc ::
      RpcContinues(rs, ls, qs, ms, q) && id in q.results
      && q.results[id] == (if error == "" then R.Success(server, body) else R.Failure(error))
      && g in q.runs && q.runs[g] == Task(server, id)
  {
    var r := rs[|ls|];
    R.Everywhere(rs, ls, |ls|);
    var qs, ms := RpcExtend(rs, ls, rs, ls, r, R.Claim(Open(id)));
    var q := R.Next(r, R.Claim(Open(id)));
    R.Everywhere(qs, ms, |ms|);
    var cs, cl, d := ClaimPhase(q.core, id, g, server);
    qs, ms := RpcLift(rs, ls, qs, ms, q, cs, cl, d);
    var z: R.Rpc;
    qs, ms, z := ReplyPhase(rs, ls, qs, ms, q.(core := d), id, g, server, error, body);
  }

  /** A server that cannot decode the request says so before anybody has bid. */
  lemma RejectPhase(rs: seq<R.Rpc>, ls: seq<R.Label>, qs: seq<R.Rpc>, ms: seq<R.Label>, q: R.Rpc, id: RequestId, g: Gid,
                    server: ServerId, error: string)
    returns (qs': seq<R.Rpc>, ms': seq<R.Label>, z: R.Rpc)
    requires RpcContinues(rs, ls, qs, ms, q) && id in q.core.clients && q.core.clients[id].Opening?
    requires g !in q.core.tasks && g !in q.core.phases && id !in q.boxes && id !in q.results && error != ""
    ensures RpcContinues(rs, ls, qs', ms', z) && id in z.core.clients && z.core.clients[id].Selecting?
    ensures id !in z.boxes && id !in z.results && R.Reply(id, server, error, "") in z.replies
  {
    var l1 := R.Claim(PublishRequest(id, true, true));
    qs', ms' := RpcExtend(rs, ls, qs, ms, q, l1);
    var q1 := R.Next(q, l1);
    qs', ms' := RpcExtend(rs, ls, qs', ms', q1, R.Claim(Start(g, Task(server, id))));
    var q2 := R.Next(q1, R.Claim(Start(g, Task(server, id))));
    qs', ms' := RpcExtend(rs, ls, qs', ms', q2, R.Reject(g, error, true));
    z := R.Next(q2, R.Reject(g, error, true));
  }

  /** The client reads the error while it selects, and reports it when it gives up. */
  lemma AbandonPhase(rs: seq<R.Rpc>, ls: seq<R.Label>, qs: seq<R.Rpc>, ms: seq<R.Label>, q: R.Rpc, id: RequestId,
                     reply: R.Reply, other: string)
    returns (qs': seq<R.Rpc>, ms': seq<R.Label>, z: R.Rpc)
    requires RpcContinues(rs, ls, qs, ms, q) && id in q.core.clients && q.core.clients[id].Selecting?
    requires id !in q.boxes && id !in q.results && reply in q.replies && reply.id == id && reply.error != ""
    ensures RpcContinues(rs, ls, qs', ms', z) && id in z.results && z.results[id] == R.Failure(reply.error)
  {
    qs', ms' := RpcExtend(rs, ls, qs, ms, q, R.HearReply(reply));
    var q1 := R.Next(q, R.HearReply(reply));
    qs', ms' := RpcExtend(rs, ls, qs', ms', q1, R.Swallow(id));
    var q2 := R.Next(q1, R.Swallow(id));
    qs', ms' := RpcExtend(rs, ls, qs', ms', q2, R.Abandon(id, other));
    z := R.Next(q2, R.Abandon(id, other));
  }

  /** From every reachable state a malformed request can be reported to its caller, although nobody bids for it. */
  lemma RejectionCanReach(rs: seq<R.Rpc>, ls: seq<R.Label>, id: RequestId, g: Gid, server: ServerId, error: string)
    requires R.IsRun(rs, ls) && error != ""
    requires var r := rs[|ls|]; id !in r.core.clients && id !in r.boxes && id !in r.results && g !in r.core.tasks
    ensures exists qs: seq<R.Rpc>, ms: seq<R.Label>, q: R.Rpc ::
      RpcContinues(rs, ls, qs, ms, q) && id in q.results && q.results[id] == R.Failure(error)
  {
    var r := rs[|ls|];
    R.Everywhere(rs, ls, |ls|);
    var qs, ms := RpcExtend(rs, ls, rs, ls, r, R.Claim(Open(id)));
    var q := R.Next(r, R.Claim(Open(id)));
    qs, ms, q := RejectPhase(rs, ls, qs, ms, q, id, g, server, error);
    qs, ms, q := AbandonPhase(rs, ls, qs, ms, q, id, R.Reply(id, server, error, ""), "no response");
  }

  // ---- streams

  ghost predicate OpenContinues(os: seq<O.Opening>, ls: seq<O.Label>, qs: seq<O.Opening>, ms: seq<O.Label>,
                                q: O.Opening) {
    O.IsRun(qs, ms) && os <= qs && ls <= ms && qs[|ms|] == q
  }

  lemma OpenExtend(os: seq<O.Opening>, ls: seq<O.Label>, qs: seq<O.Opening>, ms: seq<O.Label>, q: O.Opening, l: O.Label)
    returns (qs': seq<O.Opening>, ms': seq<O.Label>)
    requires OpenContinues(os, ls, qs, ms, q) && O.Enabled(q, l)
    ensures OpenContinues(os, ls, qs', ms', O.Next(q, l))
  {
    qs', ms' := qs + [O.Next(q, l)], ms + [l];
  }

  lemma {:induction false} OpenLift(os: seq<O.Opening>, ls: seq<O.Label>, qs: seq<O.Opening>, ms: seq<O.Label>,
                                    q: O.Opening, cs: seq<Core>, cl: seq<C.Label>, d: Core)
    returns (qs': seq<O.Opening>, ms': seq<O.Label>)
    requires OpenContinues(os, ls, qs, ms, q) && CoreRun(q.core, cs, cl, d)
    ensures OpenContinues(os, ls, qs', ms', q.(core := d))
    decreases |cl|
  {
    qs', ms' := qs, ms;
    if cl != [] {
      var l := O.Claim(cl[0]);
      qs', ms' := OpenExtend(os, ls, qs, ms, q, l);
      qs', ms' := OpenLift(os, ls, qs', ms', O.Next(q, l), cs[1..], cl[1..], d);
    }
  }

  /** The server that has won registers the stream and acknowledges it; a first message is handled there. */
  lemma UsePhase(os: seq<O.Opening>, ls: seq<O.Label>, qs: seq<O.Opening>, ms: seq<O.Label>, q: O.Opening,
                 id: RequestId, stream: O.StreamId, g: Gid, server: ServerId, n: nat)
    returns (qs': seq<O.Opening>, ms': seq<O.Label>, z: O.Opening)
    requires OpenContinues(os, ls, qs, ms, q) && g !in q.ever
    requires At(q.core, g, Won) && q.core.tasks[g] == Task(server, id)
    requires id in q.core.clients && q.core.clients[id] == Granted(server, false, true)
    requires id in q.streamOf && q.streamOf[id] == stream
    ensures OpenContinues(os, ls, qs', ms', z)
    ensures id in z.ready && (server, O.Message(stream, n)) in z.handled
  {
    qs', ms' := OpenExtend(os, ls, qs, ms, q, O.RegisterStream(g));
    var q1 := O.Next(q, O.RegisterStream(g));
    qs', ms' := OpenExtend(os, ls, qs', ms', q1, O.SendAck(g, true));
    var q2 := O.Next(q1, O.SendAck(g, true));
    qs', ms' := OpenExtend(os, ls, qs', ms', q2, O.HearAck(id));
    var q3 := O.Next(q2, O.HearAck(id));
    qs', ms' := OpenExtend(os, ls, qs', ms', q3, O.Succeed(id));
    var q4 := O.Next(q3, O.Succeed(id));
    qs', ms' := OpenExtend(os, ls, qs', ms', q4, O.SendMessage(stream, n));
    var q5 := O.Next(q4, O.SendMessage(stream, n));
    qs', ms' := OpenExtend(os, ls, qs', ms', q5, O.DeliverMessage(server, O.Message(stream, n)));
    z := O.Next(q5, O.DeliverMessage(server, O.Message(stream, n)));
  }

  /** From every reachable state a new stream can be opened at any server, and messages on it are handled there. */
  lemma StreamCanOpen(os: seq<O.Opening>, ls: seq<O.Label>, id: RequestId, stream: O.StreamId, g: Gid, server: ServerId,
                      n: nat)
    requires O.IsRun(os, ls)
    requires var o := os[|ls|]; id !in o.core.clients && stream !in o.streamOf.Values && g !in o.core.tasks
    ensures exists qs: seq<O.Opening>, ms: seq<O.Label>, q: O.Opening ::
      OpenContinues(os, ls, qs, ms, q) && id in q.ready && (server, O.Message(stream, n)) in q.handled
  {
    var o := os[|ls|];
    O.Everywhere(os, ls, |ls|);
    var qs, ms := OpenExtend(os, ls, os, ls, o, O.OpenStream(id, stream));
    var q := O.Next(o, O.OpenStream(id, stream));
    O.Everywhere(qs, ms, |ms|);
    var cs, cl, d := ClaimPhase(q.core, id, g, server);
    qs, ms := OpenLift(os, ls, qs, ms, q, cs, cl, d);
    var z: O.Opening;
    qs, ms, z := UsePhase(os, ls, qs, ms, q.(core := d), id, stream, g, server, n);
  }
}
