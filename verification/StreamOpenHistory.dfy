/** What has happened in the open handshake, read off the labels of a run: what was sent, which acknowledgements the
    client has handled, which opens have succeeded, and which messages were handled where. */
module StreamOpenHistory {
  import opened C = ClaimCore
  import opened O = StreamOpen

  /** Step `l` puts `w` on the network. */
  predicate Puts(o: Opening, l: O.Label, w: Wire)
    requires O.Enabled(o, l)
  {
    match l
    case SendAck(g, sent) => sent && w == Ack(o.streamOf[o.core.tasks[g].id], o.core.tasks[g].id)
    case SendMessage(stream, n) => w == Message(stream, n)
    case _ => false
  }

  lemma SentStep(o: Opening, l: O.Label, w: Wire)
    requires O.Enabled(o, l)
    ensures w in O.Next(o, l).sent <==> w in o.sent || Puts(o, l, w)
  {
  }

  /** What is on the network was sent by some step, and nothing sent is forgotten. */
  lemma {:induction false} SentIff(os: seq<Opening>, ls: seq<O.Label>, i: nat, w: Wire)
    requires IsRun(os, ls) && i <= |ls|
    ensures w in os[i].sent <==> exists j: nat :: j < i && Puts(os[j], ls[j], w)
  {
    if i > 0 {
      SentIff(os, ls, i - 1, w);
      SentStep(os[i - 1], ls[i - 1], w);
    }
  }

  lemma MarksStep(o: Opening, l: O.Label, id: RequestId)
    requires O.Enabled(o, l)
    ensures id in O.Next(o, l).acked <==> id in o.acked || l == HearAck(id)
    ensures id in O.Next(o, l).ready <==> id in o.ready || l == Succeed(id)
  {
  }

  /** An open request is acknowledged to the client, and `OpenStream` has succeeded, exactly when a step did so. */
  lemma {:induction false} MarksIff(os: seq<Opening>, ls: seq<O.Label>, i: nat, id: RequestId)
    requires IsRun(os, ls) && i <= |ls|
    ensures id in os[i].acked <==> exists j: nat :: j < i && ls[j] == HearAck(id)
    ensures id in os[i].ready <==> exists j: nat :: j < i && ls[j] == Succeed(id)
  {
    if i > 0 {
      MarksIff(os, ls, i - 1, id);
      MarksStep(os[i - 1], ls[i - 1], id);
    }
  }

  lemma HandledStep(o: Opening, l: O.Label, server: ServerId, w: Wire)
    requires O.Enabled(o, l)
    ensures (server, w) in O.Next(o, l).handled <==>
      (server, w) in o.handled || (l == DeliverMessage(server, w) && Entry(server, w.stream) in o.registry)
  {
  }

  /** A message was handled at a server exactly when some step delivered it there while the stream was registered. */
  lemma {:induction false} HandledRead(os: seq<Opening>, ls: seq<O.Label>, i: nat, server: ServerId, w: Wire)
    requires IsRun(os, ls) && i <= |ls|
    ensures (server, w) in os[i].handled <==>
      exists j: nat :: j < i && ls[j] == DeliverMessage(server, w) && Standing(os, ls, j, Entry(server, w.stream))
  {
    if i > 0 {
      HandledRead(os, ls, i - 1, server, w);
      HandledStep(os[i - 1], ls[i - 1], server, w);
      RegistryIff(os, ls, i - 1, Entry(server, w.stream));
    }
  }
}
