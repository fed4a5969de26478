/** Opening a stream over the claim protocol (pkg/client/stream.go, pkg/server/stream.go): the server that wins
    registers the stream, then acknowledges the open request; the client waits for the acknowledgement. */
module StreamOpen {
  import opened ClaimCore
  import C = ClaimCore

  type StreamId = string

  /** An acknowledgement carries the ids of the open request; any other message for a stream is a `Message`. */
  datatype Wire =
    | Ack(stream: StreamId, id: RequestId)
    | Message(stream: StreamId, n: nat)

  /** A stream in the registry of one server. */
  datatype Entry = Entry(server: ServerId, stream: StreamId)

  datatype Progress = Registered | Acked | Closed

  /** `streamOf` gives the stream each open request is for.  `registry` holds the streams registered now, `ever` the
      goroutines that have registered one and where they are; `sent` is everything ever published on the stream
      channels, `acked` the open requests whose acknowledgement the client has handled, `ready` those for which
      `OpenStream` has succeeded; `handled` the messages servers have passed to a stream. */
  datatype Opening = Handshake(
    core: Core,
    streamOf: map<RequestId, StreamId>,
    registry: map<Entry, Gid>,
    ever: map<Gid, Progress>,
    sent: set<Wire>,
    acked: set<RequestId>,
    ready: set<RequestId>,
    handled: set<(ServerId, Wire)>)

  const INIT := Handshake(NEW, map[], map[], map[], {}, {}, {}, {})

  datatype Label =
    | Claim(l: C.Label)
    | OpenStream(id: RequestId, stream: StreamId)
    | RegisterStream(g: Gid)
    | SendAck(g: Gid, sent: bool)
    | HearAck(id: RequestId)
    | Succeed(id: RequestId)
    | SendMessage(stream: StreamId, n: nat)
    | DeliverMessage(server: ServerId, w: Wire)
    | CloseStream(g: Gid)

  predicate Enabled(o: Opening, l: Label) {
    match l
    case Claim(cl) => !cl.Open? && C.Enabled(o.core, cl)
    case OpenStream(id, stream) => C.Enabled(o.core, C.Open(id)) && stream !in o.streamOf.Values
    case RegisterStream(g) => At(o.core, g, Won) && g !in o.ever && o.core.tasks[g].id in o.streamOf
    case SendAck(g, _) => g in o.ever && o.ever[g].Registered? && g in o.core.tasks && o.core.tasks[g].id in o.streamOf
    case HearAck(id) => id in o.streamOf && Ack(o.streamOf[id], id) in o.sent
    case Succeed(id) => id in o.acked && id in o.core.clients && o.core.clients[id].Granted? && o.core.clients[id].ok
    case SendMessage(stream, n) => true
    case DeliverMessage(server, w) => w in o.sent
    case CloseStream(g) => g in o.ever && !o.ever[g].Closed? && g in o.core.tasks && o.core.tasks[g].id in o.streamOf
  }

  /** The registry entry that goroutine `g` writes. */
  function EntryOf(o: Opening, g: Gid): Entry
    requires g in o.core.tasks && o.core.tasks[g].id in o.streamOf
  {
    Entry(o.core.tasks[g].server, o.streamOf[o.core.tasks[g].id])
  }

  function Next(o: Opening, l: Label): Opening
    requires Enabled(o, l)
  {
    match l
    case Claim(cl) => o.(core := C.Next(o.core, cl))
    case OpenStream(id, stream) => o.(core := C.Next(o.core, C.Open(id)), streamOf := o.streamOf[id := stream])
    case RegisterStream(g) => o.(registry := o.registry[EntryOf(o, g) := g], ever := o.ever[g := Registered])
    case SendAck(g, sent) =>
      o.(sent := if sent then o.sent + {Ack(EntryOf(o, g).stream, o.core.tasks[g].id)} else o.sent,
         ever := o.ever[g := Acked])
    case HearAck(id) => o.(acked := o.acked + {id})
    case Succeed(id) => o.(ready := o.ready + {id})
    case SendMessage(stream, n) => o.(sent := o.sent + {Message(stream, n)})
    case DeliverMessage(server, w) =>
      o.(handled := if Entry(server, w.stream) in o.registry then o.handled + {(server, w)} else o.handled)
    case CloseStream(g) => o.(registry := o.registry - {EntryOf(o, g)}, ever := o.ever[g := Closed])
  }

  ghost predicate IsRun(os: seq<Opening>, ls: seq<Label>) {
    && |os| == |ls| + 1 && os[0] == INIT
    && forall i | 0 <= i < |ls| :: Enabled(os[i], ls[i]) && os[i + 1] == Next(os[i], ls[i])
  }

  /** Server `server` has at some time registered the stream of request `id`. */
  ghost predicate HasRegistered(o: Opening, server: ServerId, id: RequestId) {
    exists g :: g in o.ever && g in o.core.tasks && o.core.tasks[g] == Task(server, id)
  }

  ghost predicate Acknowledged(o: Opening, id: RequestId) {
    exists server :: HasRegistered(o, server, id)
  }

  /** Stream ids are as unique as request ids, and only a goroutine that has won its request registers a stream. */
  ghost predicate Registering(o: Opening) {
    && o.streamOf.Keys == o.core.clients.Keys
    && (forall x, y | x in o.streamOf && y in o.streamOf && o.streamOf[x] == o.streamOf[y] :: x == y)
    && (forall g | g in o.ever :: At(o.core, g, Won) && o.core.tasks[g].id in o.streamOf)
    && (forall e | e in o.registry :: o.registry[e] in o.ever && EntryOf(o, o.registry[e]) == e)
  }

  /** An open request is acknowledged only after its stream has been registered somewhere. */
  ghost predicate Acknowledging(o: Opening) {
    && (forall x | x in o.sent && x.Ack? :: Acknowledged(o, x.id))
    && (forall id | id in o.acked :: Acknowledged(o, id))
    && o.ready <= o.acked
  }

  /** No goroutine has closed a stream that it registered for `task`. */
  ghost predicate Unclosed(o: Opening, task: Task) {
    forall h | h in o.ever && h in o.core.tasks && o.core.tasks[h] == task :: !o.ever[h].Closed?
  }

  /** A server keeps a stream until it closes it. */
  ghost predicate Keeping(o: Opening) {
    forall g | g in o.ever && g in o.core.tasks && o.core.tasks[g].id in o.streamOf && Unclosed(o, o.core.tasks[g]) ::
      EntryOf(o, g) in o.registry
  }

  /** What a server has handled was for a stream it had registered. */
  ghost predicate Handling(o: Opening) {
    forall x | x in o.handled :: HandledRightly(o, x)
  }

  ghost predicate Invariant(o: Opening) {
    C.Invariant(o.core) && BidsSound(o.core) && Registering(o) && Acknowledging(o) && Keeping(o) && Handling(o)
  }

  /** The claim protocol moves on from `c` to `d` without losing a goroutine, a victory or a client. */
  ghost predicate Extends(c: Core, d: Core) {
    && c.clients.Keys <= d.clients.Keys
    && (forall g | g in c.tasks :: g in d.tasks && d.tasks[g] == c.tasks[g])
    && (forall g | At(c, g, Won) :: At(d, g, Won))
  }

  lemma CoreExtends(c: Core, l: C.Label)
    requires C.Enabled(c, l)
    ensures Extends(c, C.Next(c, l))
    ensures C.Next(c, l).clients.Keys == if l.Open? then c.clients.Keys + {l.id} else c.clients.Keys
  {
  }

  /** The core step that a step makes, if any. */
  lemma CoreStep(o: Opening, l: Label)
    requires C.Invariant(o.core) && BidsSound(o.core) && Enabled(o, l)
    ensures C.Invariant(Next(o, l).core) && BidsSound(Next(o, l).core) && Extends(o.core, Next(o, l).core)
  {
    if l.Claim? {
      EveryStep(o.core, l.l);
      CoreExtends(o.core, l.l);
    } else if l.OpenStream? {
      EveryStep(o.core, C.Open(l.id));
      CoreExtends(o.core, C.Open(l.id));
    }
  }

  /** Registry and history stay as they are while the claim protocol moves on. */
  lemma FrameKeeps(o: Opening, o': Opening)
    requires Registering(o) && Keeping(o) && Extends(o.core, o'.core)
    requires o'.registry == o.registry && o'.ever == o.ever && o'.streamOf.Keys == o'.core.clients.Keys
    requires forall id | id in o.streamOf :: id in o'.streamOf && o'.streamOf[id] == o.streamOf[id]
    requires forall x, y | x in o'.streamOf && y in o'.streamOf && o'.streamOf[x] == o'.streamOf[y] :: x == y
    ensures Registering(o') && Keeping(o')
  {
  }

  /** Steps that change the registry or its history. */
  predicate AtServer(l: Label) {
    l.RegisterStream? || l.SendAck? || l.CloseStream?
  }

  lemma KeptElsewhere(o: Opening, l: Label)
    requires !AtServer(l) && Enabled(o, l)
    requires C.Invariant(o.core) && BidsSound(o.core) && Registering(o) && Keeping(o)
    ensures Registering(Next(o, l)) && Keeping(Next(o, l))
  {
    var o' := Next(o, l);
    CoreStep(o, l);
    if l.Claim? {
      CoreExtends(o.core, l.l);
    } else if l.OpenStream? {
      CoreExtends(o.core, C.Open(l.id));
    }
    FrameKeeps(o, o');
  }

  lemma RegisteringAtServer(o: Opening, l: Label)
    requires AtServer(l) && Registering(o) && Enabled(o, l)
    ensures Registering(Next(o, l))
  {
    assert Next(o, l).core == o.core && Next(o, l).streamOf == o.streamOf;
  }

  /** Nothing that was recorded is forgotten. */
  ghost predicate Grows(o: Opening, o': Opening) {
    && Extends(o.core, o'.core)
    && (forall g | g in o.ever :: g in o'.ever)
    && (forall id | id in o.streamOf :: id in o'.streamOf && o'.streamOf[id] == o.streamOf[id])
  }

  lemma StepGrows(o: Opening, l: Label)
    requires Registering(o) && Enabled(o, l)
    ensures Grows(o, Next(o, l))
  {
    if l.Claim? {
      CoreExtends(o.core, l.l);
    } else if l.OpenStream? {
      CoreExtends(o.core, C.Open(l.id));
    }
  }

  lemma HasRegisteredStays(o: Opening, o': Opening, server: ServerId, id: RequestId)
    requires HasRegistered(o, server, id) && Grows(o, o')
    ensures HasRegistered(o', server, id)
  {
    var g :| g in o.ever && g in o.core.tasks && o.core.tasks[g] == Task(server, id);
    assert g in o'.ever;
  }

  lemma AcknowledgedStays(o: Opening, o': Opening, id: RequestId)
    requires Acknowledged(o, id) && Grows(o, o')
    ensures Acknowledged(o', id)
  {
    var server :| HasRegistered(o, server, id);
    HasRegisteredStays(o, o', server, id);
  }

  lemma AcknowledgingKept(o: Opening, l: Label)
    requires Acknowledging(o) && Enabled(o, l) && Grows(o, Next(o, l))
    ensures Acknowledging(Next(o, l))
  {
    var o' := Next(o, l);
    forall id | Acknowledged(o, id) ensures Acknowledged(o', id) {
      AcknowledgedStays(o, o', id);
    }
    if l.SendAck? {
      assert HasRegistered(o, o.core.tasks[l.g].server, o.core.tasks[l.g].id);
      assert Acknowledged(o, o.core.tasks[l.g].id);
    }
  }

  lemma KeepingAtServer(o: Opening, l: Label)
    requires AtServer(l) && Registering(o) && Keeping(o) && Enabled(o, l)
    ensures Keeping(Next(o, l))
  {
    var o' := Next(o, l);
    assert o'.core == o.core && o'.streamOf == o.streamOf;
    forall g | g in o'.ever && g in o.core.tasks && o.core.tasks[g].id in o.streamOf && Unclosed(o', o.core.tasks[g])
      ensures EntryOf(o', g) in o'.registry
    {
      UnclosedBefore(o, l, o.core.tasks[g]);
      assert l.CloseStream? ==> EntryOf(o, g) != EntryOf(o, l.g);
    }
  }

  lemma UnclosedBefore(o: Opening, l: Label, task: Task)
    requires AtServer(l) && Enabled(o, l) && Unclosed(Next(o, l), task)
    requires l.RegisterStream? ==> l.g !in o.ever
    ensures Unclosed(o, task)
    ensures l.CloseStream? ==> o.core.tasks[l.g] != task
  {
    var o' := Next(o, l);
    forall h | h in o.ever && h in o.core.tasks && o.core.tasks[h] == task ensures !o.ever[h].Closed? {
      assert h in o'.ever;
    }
  }

  /** The message `x.1` was for a stream that server `x.0` has registered. */
  ghost predicate HandledRightly(o: Opening, x: (ServerId, Wire)) {
    exists id :: id in o.streamOf && o.streamOf[id] == x.1.stream && HasRegistered(o, x.0, id)
  }

  lemma HandledRightlyStays(o: Opening, o': Opening, x: (ServerId, Wire))
    requires HandledRightly(o, x) && Grows(o, o')
    ensures HandledRightly(o', x)
  {
    var id :| id in o.streamOf && o.streamOf[id] == x.1.stream && HasRegistered(o, x.0, id);
    HasRegisteredStays(o, o', x.0, id);
    assert id in o'.streamOf;
  }

  lemma DeliveredRightly(o: Opening, server: ServerId, w: Wire)
    requires Registering(o) && Entry(server, w.stream) in o.registry
    ensures HandledRightly(o, (server, w))
  {
    var g := o.registry[Entry(server, w.stream)];
    assert HasRegistered(o, server, o.core.tasks[g].id);
  }

  lemma HandlingKept(o: Opening, l: Label)
    requires Registering(o) && Handling(o) && Enabled(o, l) && Grows(o, Next(o, l))
    ensures Handling(Next(o, l))
  {
    var o' := Next(o, l);
    forall x | x in o.handled ensures HandledRightly(o', x) {
      HandledRightlyStays(o, o', x);
    }
    if l.DeliverMessage? && Entry(l.server, l.w.stream) in o.registry {
      DeliveredRightly(o, l.server, l.w);
      HandledRightlyStays(o, o', (l.server, l.w));
    }
  }

  lemma {:induction false} Everywhere(os: seq<Opening>, ls: seq<Label>, i: nat)
    requires IsRun(os, ls) && i <= |ls|
    ensures Invariant(os[i])
  {
    if i > 0 {
      Everywhere(os, ls, i - 1);
      var o, l := os[i - 1], ls[i - 1];
      CoreStep(o, l);
      StepGrows(o, l);
      if AtServer(l) {
        RegisteringAtServer(o, l);
        KeepingAtServer(o, l);
      } else {
        KeptElsewhere(o, l);
      }
      AcknowledgingKept(o, l);
      HandlingKept(o, l);
    }
  }

  /** At most one server ever registers a given stream. */
  lemma OneServer(os: seq<Opening>, ls: seq<Label>, i: nat, id: RequestId, s: ServerId, t: ServerId)
    requires IsRun(os, ls) && i <= |ls| && HasRegistered(os[i], s, id) && HasRegistered(os[i], t, id)
    ensures s == t
  {
    Everywhere(os, ls, i);
    var o := os[i];
    var g :| g in o.ever && g in o.core.tasks && o.core.tasks[g] == Task(s, id);
    var h :| h in o.ever && h in o.core.tasks && o.core.tasks[h] == Task(t, id);
    OneWinningServer(o.core, g, h);
  }

  /** When `OpenStream` has succeeded, exactly one server has ever registered the stream: the one the client chose. */
  lemma ExactlyOneServer(os: seq<Opening>, ls: seq<Label>, i: nat, id: RequestId)
    requires IsRun(os, ls) && i <= |ls| && id in os[i].ready
    ensures id in os[i].core.clients && os[i].core.clients[id].Granted?
    ensures forall s :: HasRegistered(os[i], s, id) <==> s == os[i].core.clients[id].server
  {
    Everywhere(os, ls, i);
    AcknowledgedAtChosen(os, ls, i, id);
  }

  lemma AcknowledgedAtChosen(os: seq<Opening>, ls: seq<Label>, i: nat, id: RequestId)
    requires IsRun(os, ls) && i <= |ls| && Acknowledged(os[i], id)
    ensures id in os[i].core.clients && os[i].core.clients[id].Granted?
    ensures forall s :: HasRegistered(os[i], s, id) <==> s == os[i].core.clients[id].server
  {
    Everywhere(os, ls, i);
    var o := os[i];
    var s :| HasRegistered(o, s, id);
    var g :| g in o.ever && g in o.core.tasks && o.core.tasks[g] == Task(s, id);
    assert Grant(id, s) in o.core.grants;
    forall t | HasRegistered(o, t, id) ensures t == s {
      OneServer(os, ls, i, id, s, t);
    }
  }

  /** Registration comes before the acknowledgement: as soon as an acknowledgement of the open request exists, the
      server that the client chose has registered the stream. */
  lemma RegisteredBeforeAck(os: seq<Opening>, ls: seq<Label>, i: nat, stream: StreamId, id: RequestId)
    requires IsRun(os, ls) && i <= |ls| && Ack(stream, id) in os[i].sent
    ensures id in os[i].core.clients && os[i].core.clients[id].Granted?
    ensures HasRegistered(os[i], os[i].core.clients[id].server, id)
  {
    Everywhere(os, ls, i);
    AcknowledgedAtChosen(os, ls, i, id);
  }

  /** A message on the stream is handled only where the stream was registered, which is on one server. */
  lemma HandledThere(os: seq<Opening>, ls: seq<Label>, i: nat, id: RequestId, server: ServerId, w: Wire)
    requires IsRun(os, ls) && i <= |ls| && id in os[i].streamOf && w.stream == os[i].streamOf[id]
    requires (server, w) in os[i].handled
    ensures HasRegistered(os[i], server, id)
    ensures forall s :: HasRegistered(os[i], s, id) ==> s == server
  {
    Everywhere(os, ls, i);
    var x :| x in os[i].streamOf && os[i].streamOf[x] == w.stream && HasRegistered(os[i], server, x);
    forall s | HasRegistered(os[i], s, id) ensures s == server {
      OneServer(os, ls, i, id, s, server);
    }
  }

  /** A message that reaches a server which has registered the stream, and has not closed it, is handled there. */
  lemma DeliveredIsHandled(os: seq<Opening>, ls: seq<Label>, i: nat, g: Gid, w: Wire)
    requires IsRun(os, ls) && i <= |ls|
    requires g in os[i].ever && g in os[i].core.tasks && Unclosed(os[i], os[i].core.tasks[g])
    requires os[i].core.tasks[g].id in os[i].streamOf && w.stream == os[i].streamOf[os[i].core.tasks[g].id]
    requires w in os[i].sent
    ensures var server := os[i].core.tasks[g].server;
      (server, w) in Next(os[i], DeliverMessage(server, w)).handled
  {
    Everywhere(os, ls, i);
    EntryKept(os[i], g);
  }

  lemma EntryKept(o: Opening, g: Gid)
    requires Keeping(o) && g in o.ever && g in o.core.tasks && o.core.tasks[g].id in o.streamOf
    requires Unclosed(o, o.core.tasks[g])
    ensures EntryOf(o, g) in o.registry
  {
  }

  /** So once `OpenStream` has succeeded, every message on the stream that reaches the chosen server is handled there
      unless that server has closed the stream. */
  lemma ReadyIsHandled(os: seq<Opening>, ls: seq<Label>, i: nat, id: RequestId, w: Wire)
    requires IsRun(os, ls) && i <= |ls| && id in os[i].ready && w in os[i].sent
    requires id in os[i].streamOf && w.stream == os[i].streamOf[id]
    ensures id in os[i].core.clients && os[i].core.clients[id].Granted?
    ensures var server := os[i].core.clients[id].server;
      Unclosed(os[i], Task(server, id)) ==> (server, w) in Next(os[i], DeliverMessage(server, w)).handled
  {
    ExactlyOneServer(os, ls, i, id);
    var o, server := os[i], os[i].core.clients[id].server;
    assert HasRegistered(o, server, id);
    var g :| g in o.ever && g in o.core.tasks && o.core.tasks[g] == Task(server, id);
    if Unclosed(o, Task(server, id)) {
      DeliveredIsHandled(os, ls, i, g, w);
    }
  }

  // ---- exactly when a delivered message is handled

  /** Step `j` writes, or removes, registry entry `e`. */
  predicate Writes(os: seq<Opening>, ls: seq<Label>, j: nat, e: Entry)
    requires j < |ls| && j < |os| && Enabled(os[j], ls[j])
  {
    ls[j].RegisterStream? && EntryOf(os[j], ls[j].g) == e
  }

  predicate Removes(os: seq<Opening>, ls: seq<Label>, j: nat, e: Entry)
    requires j < |ls| && j < |os| && Enabled(os[j], ls[j])
  {
    ls[j].CloseStream? && EntryOf(os[j], ls[j].g) == e
  }

  /** Some step has written the entry, and none has removed it since. */
  ghost predicate Standing(os: seq<Opening>, ls: seq<Label>, i: nat, e: Entry)
    requires IsRun(os, ls) && i <= |ls|
  {
    exists j: nat :: j < i && Writes(os, ls, j, e) && forall k: nat | j < k < i :: !Removes(os, ls, k, e)
  }

  lemma RegistryStep(o: Opening, l: Label, e: Entry)
    requires Enabled(o, l)
    ensures e in Next(o, l).registry <==>
      (l.RegisterStream? && EntryOf(o, l.g) == e) || (e in o.registry && !(l.CloseStream? && EntryOf(o, l.g) == e))
  {
  }

  lemma StandingBack(os: seq<Opening>, ls: seq<Label>, i: nat, e: Entry)
    requires IsRun(os, ls) && 0 < i <= |ls| && Standing(os, ls, i, e) && !Writes(os, ls, i - 1, e)
    ensures Standing(os, ls, i - 1, e) && !Removes(os, ls, i - 1, e)
  {
    var j: nat :| j < i && Writes(os, ls, j, e) && forall k: nat | j < k < i :: !Removes(os, ls, k, e);
    assert j < i - 1 && forall k: nat | j < k < i - 1 :: !Removes(os, ls, k, e);
  }

  lemma StandingForth(os: seq<Opening>, ls: seq<Label>, i: nat, e: Entry)
    requires IsRun(os, ls) && 0 < i <= |ls|
    requires Writes(os, ls, i - 1, e) || (Standing(os, ls, i - 1, e) && !Removes(os, ls, i - 1, e))
    ensures Standing(os, ls, i, e)
  {
    if !Writes(os, ls, i - 1, e) {
      var j: nat :| j < i - 1 && Writes(os, ls, j, e) && forall k: nat | j < k < i - 1 :: !Removes(os, ls, k, e);
      assert j < i && forall k: nat | j < k < i :: !Removes(os, ls, k, e);
    }
  }

  /** A stream is registered exactly when some step has registered it and no step has closed it since. */
  lemma {:induction false} RegistryIff(os: seq<Opening>, ls: seq<Label>, i: nat, e: Entry)
    requires IsRun(os, ls) && i <= |ls|
    ensures e in os[i].registry <==> Standing(os, ls, i, e)
  {
    if i > 0 {
      RegistryIff(os, ls, i - 1, e);
      RegistryStep(os[i - 1], ls[i - 1], e);
      if Standing(os, ls, i, e) && !Writes(os, ls, i - 1, e) {
        StandingBack(os, ls, i, e);
      }
      if e in os[i].registry {
        StandingForth(os, ls, i, e);
      }
    }
  }

  /** A message is handled where it is delivered exactly then, unless it had been handled there before. */
  lemma HandledIff(os: seq<Opening>, ls: seq<Label>, i: nat, server: ServerId, w: Wire)
    requires IsRun(os, ls) && i <= |ls| && w in os[i].sent
    ensures (server, w) in Next(os[i], DeliverMessage(server, w)).handled <==>
      (server, w) in os[i].handled || Standing(os, ls, i, Entry(server, w.stream))
  {
    RegistryIff(os, ls, i, Entry(server, w.stream));
  }
}
