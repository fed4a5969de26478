/** Choosing a server among the claims of a request: `selectServer` (pkg/client/rpc.go). */
module Selection {
  import opened Options

  datatype Claim = Claim(server: string, affinity: real)

  datatype Error = Response(text: string) | Unavailable(responses: nat) | NoResponse | Custom(text: string)

  datatype Outcome = Selected(server: string) | Failed(error: Error)

  /** `shortCircuit` says that ShortCircuitTimeout is positive. */
  datatype Opts = Opts(
    minimum: real,
    maximum: real,
    acceptFirst: bool,
    shortCircuit: bool,
    choose: Option<seq<Claim> -> Outcome>)

  /** What the loop receives before its context is done. */
  datatype Event = Bid(claim: Claim) | Answer(error: string)

  predicate Eligible(o: Opts, e: Event) {
    e.Bid? && (o.minimum <= 0.0 || e.claim.affinity >= o.minimum)
  }

  predicate Accepted(o: Opts, e: Event) {
    Eligible(o, e) && (o.acceptFirst || (o.maximum > 0.0 && e.claim.affinity >= o.maximum))
  }

  predicate Considered(o: Opts, e: Event) {
    Eligible(o, e) && !Accepted(o, e)
  }

  /** A claim that can win by affinity: the comparison starts at zero. */
  predicate Candidate(o: Opts, e: Event) {
    Considered(o, e) && e.claim.affinity > 0.0
  }

  ghost predicate NoneAccepted(o: Opts, events: seq<Event>, n: nat)
    requires n <= |events|
  {
    forall j | 0 <= j < n :: !Accepted(o, events[j])
  }

  ghost predicate NoCandidate(o: Opts, events: seq<Event>, n: nat)
    requires n <= |events|
  {
    forall j | 0 <= j < n :: !Candidate(o, events[j])
  }

  /** The timers started in the first `n` events: at most one, at the first eligible claim that is not accepted. */
  ghost predicate Timers(o: Opts, events: seq<Event>, n: nat, timers: seq<nat>)
    requires n <= |events|
  {
    if timers == [] then !o.shortCircuit || forall j | 0 <= j < n :: !Considered(o, events[j])
    else
      o.shortCircuit && |timers| == 1 && timers[0] < n && Considered(o, events[timers[0]]) &&
      forall j | 0 <= j < timers[0] :: !Considered(o, events[j])
  }

  /** The earliest of the candidates of greatest affinity among the first `n` events. */
  ghost predicate Best(o: Opts, events: seq<Event>, n: nat, k: nat)
    requires n <= |events|
  {
    k < n && Candidate(o, events[k]) &&
    forall j | 0 <= j < n && Candidate(o, events[j]) ::
      events[j].claim.affinity <= events[k].claim.affinity &&
      (j < k ==> events[j].claim.affinity < events[k].claim.affinity)
  }

  /** The claims given to a selection function. */
  function Claims(o: Opts, events: seq<Event>, n: nat): seq<Claim>
    requires n <= |events|
  {
    if n == 0 then []
    else if Considered(o, events[n - 1]) then Claims(o, events, n - 1) + [events[n - 1].claim]
    else Claims(o, events, n - 1)
  }

  function Bids(events: seq<Event>, n: nat): nat
    requires n <= |events|
  {
    if n == 0 then 0 else Bids(events, n - 1) + if events[n - 1].Bid? then 1 else 0
  }

  /** The last error response. */
  function LastError(events: seq<Event>, n: nat): Option<string>
    requires n <= |events|
  {
    if n == 0 then None
    else if events[n - 1].Answer? && events[n - 1].error != "" then Some(events[n - 1].error)
    else LastError(events, n - 1)
  }

  /** `claims` holds one entry for each eligible claim that was not accepted, in the order in which they arrived; `ks`
      are their positions. */
  ghost predicate Arrivals(o: Opts, events: seq<Event>, n: nat, ks: seq<nat>, claims: seq<Claim>)
    requires n <= |events|
  {
    && |ks| == |claims|
    && (forall i | 0 <= i < |ks| :: ks[i] < n && Considered(o, events[ks[i]]) && claims[i] == events[ks[i]].claim)
    && (forall i, j | 0 <= i < j < |ks| :: ks[i] < ks[j])
    && (forall k: nat | k < n && Considered(o, events[k]) :: k in ks)
  }

  lemma {:induction false} ClaimsArrive(o: Opts, events: seq<Event>, n: nat) returns (ks: seq<nat>)
    requires n <= |events|
    ensures Arrivals(o, events, n, ks, Claims(o, events, n))
  {
    if n == 0 {
      ks := [];
    } else {
      ks := ClaimsArrive(o, events, n - 1);
      if Considered(o, events[n - 1]) {
        ks := ks + [n - 1];
      }
    }
  }

  /** What is reported when no server was selected. */
  function Failure(events: seq<Event>): Error {
    var error, bids := LastError(events, |events|), Bids(events, |events|);
    if error.Some? then Response(error.value)
    else if bids > 0 then Unavailable(bids)
    else NoResponse
  }

  /** The greatest affinity so far: none, or that of the best claim. */
  ghost predicate Leads(o: Opts, events: seq<Event>, n: nat, c: Claim)
    requires n <= |events|
  {
    if NoCandidate(o, events, n) then c == Claim("", 0.0)
    else exists k: nat :: Best(o, events, n, k) && events[k].claim == c
  }

  lemma LeadsNext(o: Opts, events: seq<Event>, n: nat, c: Claim)
    requires n < |events| && Leads(o, events, n, c) && c.affinity >= 0.0
    ensures var e := events[n];
      Leads(o, events, n + 1, if Considered(o, e) && e.claim.affinity > c.affinity then e.claim else c)
  {
    var e := events[n];
    if Considered(o, e) && e.claim.affinity > c.affinity {
      assert Best(o, events, n + 1, n);
    } else if !NoCandidate(o, events, n) {
      var k: nat :| Best(o, events, n, k) && events[k].claim == c;
      assert Best(o, events, n + 1, k);
    }
  }

  /** The timers, event by event. */
  function Started(o: Opts, events: seq<Event>, n: nat): seq<nat>
    requires n <= |events|
  {
    if n == 0 then []
    else
      var before := Started(o, events, n - 1);
      if o.shortCircuit && Considered(o, events[n - 1]) && before == [] then [n - 1] else before
  }

  lemma {:induction false} StartedOnce(o: Opts, events: seq<Event>, n: nat)
    requires n <= |events|
    ensures Timers(o, events, n, Started(o, events, n))
  {
    if n > 0 {
      StartedOnce(o, events, n - 1);
    }
  }

  /** What the loop returns when its context is done and no claim was accepted early. */
  ghost predicate Decided(o: Opts, events: seq<Event>, out: Outcome) {
    if o.choose.Some? then out == o.choose.value(Claims(o, events, |events|))
    else if NoCandidate(o, events, |events|) then out == Failed(Failure(events))
    else
      exists k: nat :: Best(o, events, |events|, k) && out ==
        if events[k].claim.server != "" then Selected(events[k].claim.server) else Failed(Failure(events))
  }

  /** The leader by affinity, claim by claim; `Claim("", 0.0)` when there is none. */
  function Leader(o: Opts, events: seq<Event>, n: nat): (c: Claim)
    requires n <= |events|
    ensures c.affinity >= 0.0
  {
    if n == 0 then Claim("", 0.0)
    else
      var before := Leader(o, events, n - 1);
      if Considered(o, events[n - 1]) && events[n - 1].claim.affinity > before.affinity then events[n - 1].claim
      else before
  }

  lemma {:induction false} LeaderLeads(o: Opts, events: seq<Event>, n: nat)
    requires n <= |events|
    ensures Leads(o, events, n, Leader(o, events, n))
  {
    if n > 0 {
      LeaderLeads(o, events, n - 1);
      LeadsNext(o, events, n - 1, Leader(o, events, n - 1));
    }
  }

  lemma Decide(o: Opts, events: seq<Event>)
    ensures var server := Leader(o, events, |events|).server;
      Decided(o, events, if o.choose.Some? then o.choose.value(Claims(o, events, |events|))
                         else if server != "" then Selected(server) else Failed(Failure(events)))
  {
    LeaderLeads(o, events, |events|);
    if o.choose.None? && !NoCandidate(o, events, |events|) {
      var k: nat :| Best(o, events, |events|, k) && events[k].claim == Leader(o, events, |events|);
    }
  }

  /** The claim that is selected, when no selection function is given. */
  ghost predicate Wins(o: Opts, events: seq<Event>, k: nat) {
    k < |events| &&
    if NoneAccepted(o, events, |events|) then Best(o, events, |events|, k)
    else NoneAccepted(o, events, k) && Accepted(o, events[k])
  }

  lemma Leading(o: Opts, events: seq<Event>)
    requires Leader(o, events, |events|).server != "" && NoneAccepted(o, events, |events|)
    ensures exists k: nat :: Wins(o, events, k) && events[k].claim == Leader(o, events, |events|)
  {
    LeaderLeads(o, events, |events|);
    var k: nat :| Best(o, events, |events|, k) && events[k].claim == Leader(o, events, |events|);
    assert Wins(o, events, k);
  }

  /** The loop over the events that arrive before the context is done. `used` counts the events consumed, `timers` lists
      those that started a short-circuit timer. */
  method SelectServer(o: Opts, events: seq<Event>) returns (out: Outcome, used: nat, timers: seq<nat>)
    ensures used <= |events| && Timers(o, events, used, timers)
    ensures if NoneAccepted(o, events, |events|) then used == |events| && Decided(o, events, out)
      else used > 0 && NoneAccepted(o, events, used - 1) && Accepted(o, events[used - 1]) &&
           out == Selected(events[used - 1].claim.server)
    ensures NoneAccepted(o, events, |events|) && o.choose.Some? ==>
              exists ks, claims :: Arrivals(o, events, |events|, ks, claims) && out == o.choose.value(claims)
    ensures o.choose.None? && out.Selected? ==>
              exists k: nat :: Wins(o, events, k) && events[k].claim.server == out.server
  {
    var shorted, server, affinity := false, "", 0.0;
    var claims: seq<Claim>, count, error: Option<string> := [], 0, None;
    timers := [];
    for i := 0 to |events|
      invariant NoneAccepted(o, events, i)
      invariant timers == Started(o, events, i) && shorted == (timers != [])
      invariant if o.choose.Some? then claims == Claims(o, events, i) && server == ""
        else Claim(server, affinity) == Leader(o, events, i)
      invariant count == Bids(events, i) && error == LastError(events, i)
    {
      match events[i]
      case Bid(claim) =>
        count := count + 1;
        if (o.minimum > 0.0 && claim.affinity >= o.minimum) || o.minimum <= 0.0 {
          if o.acceptFirst || (o.maximum > 0.0 && claim.affinity >= o.maximum) {
            StartedOnce(o, events, i + 1);
            assert Wins(o, events, i);
            return Selected(claim.server), i + 1, timers;
          }
          if o.choose.Some? {
            claims := claims + [claim];
          } else if claim.affinity > affinity {
            server, affinity := claim.server, claim.affinity;
          }
          if o.shortCircuit && !shorted {
            shorted := true;
            timers := timers + [i];
          }
        }
      case Answer(text) =>
        if text != "" {
          error := Some(text);
        }
    }
    StartedOnce(o, events, |events|);
    Decide(o, events);
    ghost var ks := ClaimsArrive(o, events, |events|);
    if o.choose.None? && server != "" {
      Leading(o, events);
    }
    used := |events|;
    out :=
      if o.choose.Some? then o.choose.value(claims)
      else if server != "" then Selected(server)
      else if error.Some? then Failed(Response(error.value))
      else if count > 0 then Failed(Unavailable(count))
      else Failed(NoResponse);
  }

  /** There is a best claim exactly when there is an eligible one with positive affinity. */
  lemma {:induction false} BestExists(o: Opts, events: seq<Event>, n: nat)
    requires n <= |events|
    ensures (exists k: nat :: Best(o, events, n, k)) <==> !NoCandidate(o, events, n)
  {
    if n > 0 {
      BestExists(o, events, n - 1);
      var e := events[n - 1];
      if !NoCandidate(o, events, n - 1) {
        var k: nat :| Best(o, events, n - 1, k);
        var best := if Candidate(o, e) && e.claim.affinity > events[k].claim.affinity then n - 1 else k;
        assert Candidate(o, events[k]) && Best(o, events, n, best);
      } else if Candidate(o, e) {
        assert Best(o, events, n, n - 1);
      }
    }
  }

  /** The best claim is unique. */
  lemma BestUnique(o: Opts, events: seq<Event>, n: nat, j: nat, k: nat)
    requires n <= |events| && Best(o, events, n, j) && Best(o, events, n, k)
    ensures j == k
  {
    assert Candidate(o, events[j]) && Candidate(o, events[k]);
  }

  /** When every server has a name, selection by affinity fails exactly when no claim was a candidate, and what it then
      reports tells an error response from servers that cannot serve and from silence. */
  lemma FailsIff(o: Opts, events: seq<Event>, out: Outcome)
    requires o.choose.None? && Decided(o, events, out)
    requires forall j | 0 <= j < |events| && events[j].Bid? :: events[j].claim.server != ""
    ensures out.Failed? <==> NoCandidate(o, events, |events|)
    ensures out == Failed(NoResponse) <==> forall j | 0 <= j < |events| :: events[j] == Answer("")
  {
    Silence(events, |events|);
    if !NoCandidate(o, events, |events|) {
      var k: nat :| Best(o, events, |events|, k) && out == Selected(events[k].claim.server);
      assert Candidate(o, events[k]);
    }
  }

  lemma {:induction false} Silence(events: seq<Event>, n: nat)
    requires n <= |events|
    ensures LastError(events, n).None? && Bids(events, n) == 0 <==> forall j | 0 <= j < n :: events[j] == Answer("")
  {
    if n > 0 {
      Silence(events, n - 1);
    }
  }

  /** Only servers with a positive affinity are selected, unless the first claim is accepted without a minimum: then a
      server that declared itself unavailable with an affinity of zero can win. */
  lemma WinnersAvailable(o: Opts)
    ensures (forall events: seq<Event>, k: nat | Wins(o, events, k) :: events[k].claim.affinity > 0.0) <==>
            !(o.acceptFirst && o.minimum <= 0.0)
  {
    if o.acceptFirst && o.minimum <= 0.0 {
      var events := [Bid(Claim("s", 0.0))];
      assert Accepted(o, events[0]) && Wins(o, events, 0);
    }
  }

  // ---- the promises of the options, on affinities

  /** The claim meets the minimum, if there is one. */
  predicate Meets(o: Opts, e: Event) {
    e.Bid? && (o.minimum > 0.0 ==> e.claim.affinity >= o.minimum)
  }

  /** A server is selected exactly when some claim meets the minimum and has a positive affinity, or any affinity when
      the first one is accepted. */
  lemma SelectsIff(o: Opts, events: seq<Event>)
    ensures (exists k: nat :: Wins(o, events, k)) <==>
      exists j :: 0 <= j < |events| && Meets(o, events[j]) && (o.acceptFirst || events[j].claim.affinity > 0.0)
  {
    if NoneAccepted(o, events, |events|) {
      BestExists(o, events, |events|);
      forall j | 0 <= j < |events| && Meets(o, events[j]) && (o.acceptFirst || events[j].claim.affinity > 0.0)
        ensures Candidate(o, events[j])
      {
        assert !Accepted(o, events[j]);
      }
      if k: nat :| Best(o, events, |events|, k) {
        assert Wins(o, events, k) && Meets(o, events[k]) && events[k].claim.affinity > 0.0;
      }
    } else {
      var k := FirstAccepted(o, events, |events|);
      assert Wins(o, events, k) && Meets(o, events[k]) && (o.acceptFirst || events[k].claim.affinity > 0.0);
    }
  }

  lemma {:induction false} FirstAccepted(o: Opts, events: seq<Event>, n: nat) returns (k: nat)
    requires n <= |events| && !NoneAccepted(o, events, n)
    ensures k < n && NoneAccepted(o, events, k) && Accepted(o, events[k])
  {
    if NoneAccepted(o, events, n - 1) {
      k := n - 1;
    } else {
      k := FirstAccepted(o, events, n - 1);
    }
  }

  /** When the first available server is accepted, the earliest claim that meets the minimum wins. */
  lemma FirstAvailable(o: Opts, events: seq<Event>, k: nat)
    requires o.acceptFirst
    ensures Wins(o, events, k) <==>
      k < |events| && Meets(o, events[k]) && forall j | 0 <= j < k :: !Meets(o, events[j])
  {
    assert forall j | 0 <= j < |events| :: Accepted(o, events[j]) <==> Meets(o, events[j]);
  }

  /** Otherwise, when some claim that meets the minimum reaches the maximum, the earliest such claim wins. */
  lemma MaximumReached(o: Opts, events: seq<Event>, k: nat)
    requires !o.acceptFirst && o.maximum > 0.0
    requires exists j :: 0 <= j < |events| && Meets(o, events[j]) && events[j].claim.affinity >= o.maximum
    ensures Wins(o, events, k) <==>
      k < |events| && Meets(o, events[k]) && events[k].claim.affinity >= o.maximum &&
      forall j | 0 <= j < k && Meets(o, events[j]) :: events[j].claim.affinity < o.maximum
  {
    var j :| 0 <= j < |events| && Meets(o, events[j]) && events[j].claim.affinity >= o.maximum;
    assert Accepted(o, events[j]);
  }

  /** And otherwise a claim wins exactly when it meets the minimum and has the greatest affinity, above zero, and is the
      earliest with it. */
  lemma GreatestWins(o: Opts, events: seq<Event>, k: nat)
    requires !o.acceptFirst
    requires forall j | 0 <= j < |events| && Meets(o, events[j]) ::
      o.maximum <= 0.0 || events[j].claim.affinity < o.maximum
    ensures Wins(o, events, k) <==>
      k < |events| && Meets(o, events[k]) && events[k].claim.affinity > 0.0 &&
      forall j | 0 <= j < |events| && Meets(o, events[j]) ::
        events[j].claim.affinity <= events[k].claim.affinity &&
        (j < k ==> events[j].claim.affinity < events[k].claim.affinity)
  {
    assert NoneAccepted(o, events, |events|);
    assert forall j | 0 <= j < |events| ::
      Candidate(o, events[j]) <==> Meets(o, events[j]) && events[j].claim.affinity > 0.0;
  }

  // ---- what failures report

  lemma {:induction false} BidsCounted(events: seq<Event>, n: nat)
    requires n <= |events|
    ensures Bids(events, n) == |set j | 0 <= j < n && events[j].Bid?|
  {
    if n > 0 {
      BidsCounted(events, n - 1);
      var before := set j | 0 <= j < n - 1 && events[j].Bid?;
      var after := set j | 0 <= j < n && events[j].Bid?;
      assert after == if events[n - 1].Bid? then before + {n - 1} else before;
    }
  }

  /** Position `j` holds the last response that carries an error. */
  ghost predicate LastResponse(events: seq<Event>, j: nat) {
    j < |events| && events[j].Answer? && events[j].error != "" &&
    forall k | j < k < |events| && events[k].Answer? :: events[k].error == ""
  }

  lemma {:induction false} LastErrorIs(events: seq<Event>, n: nat)
    requires n <= |events|
    ensures LastError(events, n).None? <==> forall k | 0 <= k < n && events[k].Answer? :: events[k].error == ""
    ensures LastError(events, n).Some? ==>
      exists j: nat :: LastResponse(events[..n], j) && events[j].error == LastError(events, n).value
  {
    if n > 0 {
      LastErrorIs(events, n - 1);
      var e := events[n - 1];
      if e.Answer? && e.error != "" {
        assert LastResponse(events[..n], n - 1);
      } else if LastError(events, n).Some? {
        var j: nat :| LastResponse(events[..n - 1], j) && events[j].error == LastError(events, n).value;
        LastStays(events, n, j);
      }
    }
  }

  lemma LastStays(events: seq<Event>, n: nat, j: nat)
    requires 0 < n <= |events| && LastResponse(events[..n - 1], j)
    requires events[n - 1].Answer? ==> events[n - 1].error == ""
    ensures LastResponse(events[..n], j)
  {
    forall k | j < k < n && events[..n][k].Answer? ensures events[..n][k].error == "" {
      if k < n - 1 {
        assert events[..n - 1][k] == events[k];
      }
    }
    assert events[..n - 1][j] == events[j] == events[..n][j];
  }

  /** A selection that fails reports the last error response; without one it reports how many claims there were; and
      without any claim that nobody responded. */
  lemma FailureMeans(events: seq<Event>)
    ensures match Failure(events)
      case Response(text) => exists j: nat :: LastResponse(events, j) && events[j].error == text
      case Unavailable(n) =>
        n == (|set j | 0 <= j < |events| && events[j].Bid?|) > 0 && forall e | e in events && e.Answer? :: e.error == ""
      case NoResponse => forall e | e in events :: e == Answer("")
      case Custom(_) => false
  {
    BidsCounted(events, |events|);
    LastErrorIs(events, |events|);
    Silence(events, |events|);
    assert events[..|events|] == events;
  }
}
