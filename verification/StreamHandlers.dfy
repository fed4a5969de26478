/** The stream registry of one server (pkg/server/stream.go).  Every method is one section under the handler's lock,
    and is shown to be a step of `StreamOpen`. */
module StreamHandlers {
  import opened ClaimCore
  import O = StreamOpen

  class StreamHandler {
    const server: ServerId
    var streams: map<O.StreamId, Gid>

    /** The map is this server's part of the registry. */
    ghost predicate Represents(o: O.Opening)
      reads this
    {
      && (forall stream :: stream in streams <==> O.Entry(server, stream) in o.registry)
      && (forall stream | stream in streams :: streams[stream] == o.registry[O.Entry(server, stream)])
    }

    constructor (server: ServerId)
      ensures this.server == server && Represents(O.INIT)
    {
      this.server, streams := server, map[];
    }

    /** handleOpenRequest registers the stream that goroutine `g` has won. */
    method Register(ghost o: O.Opening, g: Gid, stream: O.StreamId)
      requires Represents(o) && O.Enabled(o, O.RegisterStream(g)) && O.EntryOf(o, g) == O.Entry(server, stream)
      modifies this
      ensures Represents(O.Next(o, O.RegisterStream(g))) && streams == old(streams)[stream := g]
    {
      streams := streams[stream := g];
    }

    /** handleRequest passes a message to the registered stream, if there is one. */
    method Deliver(ghost o: O.Opening, w: O.Wire) returns (handled: bool)
      requires Represents(o) && w in o.sent
      ensures Represents(O.Next(o, O.DeliverMessage(server, w)))
      ensures handled ==> (server, w) in O.Next(o, O.DeliverMessage(server, w)).handled
      ensures !handled ==> O.Next(o, O.DeliverMessage(server, w)).handled == o.handled
    {
      handled := w.stream in streams;
    }

    /** serverStream.Close removes the stream. */
    method Close(ghost o: O.Opening, g: Gid, stream: O.StreamId)
      requires Represents(o) && O.Enabled(o, O.CloseStream(g)) && O.EntryOf(o, g) == O.Entry(server, stream)
      modifies this
      ensures Represents(O.Next(o, O.CloseStream(g))) && streams == old(streams) - {stream}
    {
      streams := streams - {stream};
    }
  }

  /** What one server does to its registry leaves the others' alone. */
  lemma OthersUntouched(o: O.Opening, l: O.Label, e: O.Entry)
    requires O.Enabled(o, l) && (O.AtServer(l) ==> O.EntryOf(o, l.g).server != e.server)
    ensures e in O.Next(o, l).registry <==> e in o.registry
    ensures e in o.registry ==> O.Next(o, l).registry[e] == o.registry[e]
  {
  }
}
