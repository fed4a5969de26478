/** What a bus that delivers twice can do: a server can win one request twice, run it twice, and lose a stream that it
    still serves. */
module ClaimDuplicates {
  import opened ClaimCore
  import opened ClaimSuccess
  import C = ClaimCore
  import R = ClaimedRpc
  import O = StreamOpen

  /** The grant of a request that has been won exists, and an unused goroutine has no traces. */
  lemma Unused(c: Core, g: Gid, h: Gid)
    requires C.Invariant(c) && At(c, g, Won) && h !in c.tasks
    ensures c.tasks[g].id in c.requests && Grant(c.tasks[g].id, c.tasks[g].server) in c.grants
    ensures h !in c.phases && h !in c.channels && g != h
  {
  }

  /** The request is delivered to the server once more; so is the grant, to the new goroutine. */
  lemma SecondPhase(c: Core, id: RequestId, g: Gid, h: Gid, server: ServerId)
    returns (cs: seq<Core>, ls: seq<C.Label>, d: Core)
    requires At(c, g, Won) && c.tasks[g] == Task(server, id) && id in c.requests && Grant(id, server) in c.grants
    requires h !in c.tasks && h !in c.phases && h !in c.channels && g != h
    ensures CoreRun(c, cs, ls, d)
    ensures At(d, g, Won) && d.tasks[g] == Task(server, id)
    ensures At(d, h, Won) && d.tasks[h] == Task(server, id)
  {
    cs, ls := ClaimSuccess.Extend(c, [c], [], c, Start(h, Task(server, id)));
    var d1 := C.Next(c, Start(h, Task(server, id)));
    cs, ls := ClaimSuccess.Extend(c, cs, ls, d1, Register(h));
    var d2 := C.Next(d1, Register(h));
    cs, ls := ClaimSuccess.Extend(c, cs, ls, d2, PublishBid(h, true, true));
    var d3 := C.Next(d2, PublishBid(h, true, true));
    cs, ls := ClaimSuccess.Extend(c, cs, ls, d3, RouteGrant(server, Grant(id, server)));
    var d4 := C.Next(d3, RouteGrant(server, Grant(id, server)));
    cs, ls := ClaimSuccess.Extend(c, cs, ls, d4, ReadGrant(h));
    d := C.Next(d4, ReadGrant(h));
  }

  /** Two goroutines of the server win a request that was just opened. */
  lemma WonTwice(rs: seq<R.Rpc>, ls: seq<R.Label>, qs: seq<R.Rpc>, ms: seq<R.Label>, q: R.Rpc, id: RequestId, g: Gid,
                 h: Gid, server: ServerId)
    returns (qs': seq<R.Rpc>, ms': seq<R.Label>, d: Core)
    requires RpcContinues(rs, ls, qs, ms, q) && id in q.core.clients && q.core.clients[id].Opening?
    requires g !in q.core.tasks && h !in q.core.tasks && g != h
    ensures RpcContinues(rs, ls, qs', ms', q.(core := d))
    ensures At(d, g, Won) && d.tasks[g] == Task(server, id) && At(d, h, Won) && d.tasks[h] == Task(server, id)
  {
    R.Everywhere(qs, ms, |ms|);
    var cs, cl, e := ClaimPhase(q.core, id, g, server);
    qs', ms' := RpcLift(rs, ls, qs, ms, q, cs, cl, e);
    R.Everywhere(qs', ms', |ms'|);
    Unused(e, g, h);
    cs, cl, d := SecondPhase(e, id, g, h, server);
    qs', ms' := RpcLift(rs, ls, qs', ms', q.(core := e), cs, cl, d);
  }

  /** Both run the handler. */
  lemma RunTwice(rs: seq<R.Rpc>, ls: seq<R.Label>, qs: seq<R.Rpc>, ms: seq<R.Label>, q: R.Rpc, g: Gid, h: Gid)
    returns (qs': seq<R.Rpc>, ms': seq<R.Label>, z: R.Rpc)
    requires RpcContinues(rs, ls, qs, ms, q) && At(q.core, g, Won) && At(q.core, h, Won) && g != h
    requires g !in q.runs && h !in q.runs
    ensures RpcContinues(rs, ls, qs', ms', z)
    ensures g in z.runs && h in z.runs && z.runs[g] == q.core.tasks[g] && z.runs[h] == q.core.tasks[h]
  {
    qs', ms' := RpcExtend(rs, ls, qs, ms, q, R.Run(g, "", ""));
    var q1 := R.Next(q, R.Run(g, "", ""));
    qs', ms' := RpcExtend(rs, ls, qs', ms', q1, R.Run(h, "", ""));
    z := R.Next(q1, R.Run(h, "", ""));
  }

  /** From every reachable state a new request can come to run twice, at any server. */
  lemma RequestCanRunTwice(rs: seq<R.Rpc>, ls: seq<R.Label>, id: RequestId, g: Gid, h: Gid, server: ServerId)
    requires R.IsRun(rs, ls) && g != h
    requires var r := rs[|ls|]; id !in r.core.clients && g !in r.core.tasks && h !in r.core.tasks
    ensures exists qs: seq<R.Rpc>, ms: seq<R.Label>, q: R.Rpc ::
      RpcContinues(rs, ls, qs, ms, q) && g in q.runs && h in q.runs
      && q.runs[g] == Task(server, id) && q.runs[h] == Task(server, id)
  {
    var r := rs[|ls|];
    R.Everywhere(rs, ls, |ls|);
    var qs, ms := RpcExtend(rs, ls, rs, ls, r, R.Claim(Open(id)));
    var q := R.Next(r, R.Claim(Open(id)));
    var d: Core;
    qs, ms, d := WonTwice(rs, ls, qs, ms, q, id, g, h, server);
    qs, ms, q := RunTwice(rs, ls, qs, ms, q.(core := d), g, h);
  }

  /** Goroutine `h` serves the stream and has not closed it, but a message that reaches its server is not handled. */
  ghost predicate Lost(o: O.Opening, h: Gid, server: ServerId, w: O.Wire) {
    && h in o.ever && !o.ever[h].Closed? && h in o.core.tasks && o.core.tasks[h].server == server
    && o.core.tasks[h].id in o.streamOf && o.streamOf[o.core.tasks[h].id] == w.stream
    && w in o.sent && (server, w) !in O.Next(o, O.DeliverMessage(server, w)).handled
  }

  /** Both goroutines register the stream, the first one closes it, and a message goes out. */
  lemma LosePhase(os: seq<O.Opening>, ls: seq<O.Label>, qs: seq<O.Opening>, ms: seq<O.Label>, q: O.Opening,
                  id: RequestId, g: Gid, h: Gid, server: ServerId, w: O.Wire)
    returns (qs': seq<O.Opening>, ms': seq<O.Label>, z: O.Opening)
    requires OpenContinues(os, ls, qs, ms, q) && g != h && g !in q.ever && h !in q.ever
    requires At(q.core, g, Won) && q.core.tasks[g] == Task(server, id)
    requires At(q.core, h, Won) && q.core.tasks[h] == Task(server, id)
    requires w.Message? && id in q.streamOf && w.stream == q.streamOf[id] && (server, w) !in q.handled
    ensures OpenContinues(os, ls, qs', ms', z) && Lost(z, h, server, w)
  {
    qs', ms' := OpenExtend(os, ls, qs, ms, q, O.RegisterStream(g));
    var q1 := O.Next(q, O.RegisterStream(g));
    qs', ms' := OpenExtend(os, ls, qs', ms', q1, O.RegisterStream(h));
    var q2 := O.Next(q1, O.RegisterStream(h));
    qs', ms' := OpenExtend(os, ls, qs', ms', q2, O.CloseStream(g));
    var q3 := O.Next(q2, O.CloseStream(g));
    qs', ms' := OpenExtend(os, ls, qs', ms', q3, O.SendMessage(w.stream, w.n));
    z := O.Next(q3, O.SendMessage(w.stream, w.n));
  }

  lemma ClaimInvariant(os: seq<O.Opening>, ls: seq<O.Label>)
    requires O.IsRun(os, ls)
    ensures C.Invariant(os[|ls|].core)
  {
    O.Everywhere(os, ls, |ls|);
  }

  lemma StreamWonTwice(os: seq<O.Opening>, ls: seq<O.Label>, qs: seq<O.Opening>, ms: seq<O.Label>, q: O.Opening,
                       id: RequestId, g: Gid, h: Gid, server: ServerId)
    returns (qs': seq<O.Opening>, ms': seq<O.Label>, d: Core)
    requires OpenContinues(os, ls, qs, ms, q) && id in q.core.clients && q.core.clients[id].Opening?
    requires g !in q.core.tasks && h !in q.core.tasks && g != h
    ensures OpenContinues(os, ls, qs', ms', q.(core := d))
    ensures At(d, g, Won) && d.tasks[g] == Task(server, id) && At(d, h, Won) && d.tasks[h] == Task(server, id)
  {
    ClaimInvariant(qs, ms);
    var cs, cl, e := ClaimPhase(q.core, id, g, server);
    qs', ms' := OpenLift(os, ls, qs, ms, q, cs, cl, e);
    ClaimInvariant(qs', ms');
    Unused(e, g, h);
    cs, cl, d := SecondPhase(e, id, g, h, server);
    qs', ms' := OpenLift(os, ls, qs', ms', q.(core := e), cs, cl, d);
  }

  /** From every reachable state a new stream can be lost in this way, at any server. */
  lemma StreamCanBeLost(os: seq<O.Opening>, ls: seq<O.Label>, id: RequestId, stream: O.StreamId, g: Gid, h: Gid,
                        server: ServerId, n: nat)
    requires O.IsRun(os, ls) && g != h
    requires var o := os[|ls|];
      id !in o.core.clients && stream !in o.streamOf.Values && g !in o.core.tasks && h !in o.core.tasks
    ensures exists qs: seq<O.Opening>, ms: seq<O.Label>, q: O.Opening ::
      OpenContinues(os, ls, qs, ms, q) && Lost(q, h, server, O.Message(stream, n))
  {
    var o, w := os[|ls|], O.Message(stream, n);
    O.Everywhere(os, ls, |ls|);
    NotYetHandled(o, server, w);
    var qs, ms := OpenExtend(os, ls, os, ls, o, O.OpenStream(id, stream));
    var q := O.Next(o, O.OpenStream(id, stream));
    var d: Core;
    qs, ms, d := StreamWonTwice(os, ls, qs, ms, q, id, g, h, server);
    qs, ms, q := LosePhase(os, ls, qs, ms, q.(core := d), id, g, h, server, w);
  }

  lemma NotYetHandled(o: O.Opening, server: ServerId, w: O.Wire)
    requires O.Handling(o) && w.stream !in o.streamOf.Values
    ensures (server, w) !in o.handled
  {
    assert (server, w) in o.handled ==> O.HandledRightly(o, (server, w));
  }
}
