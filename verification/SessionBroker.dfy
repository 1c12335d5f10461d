/** The in-memory event broker (session/broker.go): per-session sets of 64-slot subscriber channels.
    `Publish` holds the lock in shared mode only, so several publishers can be inside it at once,
    each offering its event to one channel after another in any order; `Subscribe` and the cancel
    closure need the lock alone. */
module SessionBroker {
  import opened Control
  import opened Sequences
  import LossyChannel

  /** Who publishes: the relay of prompt `k`, or some activity of the control plane itself. */
  datatype Publisher = Relay(prompt: nat) | ControlPlane(n: nat)

  /** An event together with its publisher; the publisher is history. */
  datatype Tagged = Tagged(pub: Publisher, event: Event)

  /** `start` and `end` are history: the span of publications during which it was subscribed. */
  datatype Subscription = Subscription(sessionId: string, channel: LossyChannel.Channel<Tagged>, start: nat, end: nat)

  /** A `Publish` in progress and the channels it has yet to offer to. `at` is history: which publication it is. */
  datatype Flight = Flight(event: Event, remaining: set<nat>, at: nat)

  /** `begun` is history: every publication, in the order the calls took the lock. */
  datatype State = State(
    subs: map<string, set<nat>>, subscriptions: seq<Subscription>, flights: map<Publisher, Flight>,
    begun: seq<Tagged>, crashed: bool)

  datatype Step =
    | Begin(pub: Publisher, event: Event)
    | OfferTo(pub: Publisher, sub: nat)
    | End(pub: Publisher)
    | Subscribe(sessionId: string)
    | Cancel(sub: nat)
    | Take(sub: nat)

  const INIT := State(map[], [], map[], [], false)

  function Channels(s: State, sessionId: string): set<nat> {
    if sessionId in s.subs then s.subs[sessionId] else {}
  }

  predicate Enabled(s: State, step: Step) {
    !s.crashed &&
    match step
    case Begin(pub, _) => pub !in s.flights
    case OfferTo(pub, c) => pub in s.flights && c in s.flights[pub].remaining && c < |s.subscriptions|
    case End(pub) => pub in s.flights && s.flights[pub].remaining == {}
    case Subscribe(_) => s.flights == map[]
    case Cancel(c) => s.flights == map[] && c < |s.subscriptions|
    case Take(c) => c < |s.subscriptions| && s.subscriptions[c].channel.buffer != []
  }

  function Apply(s: State, step: Step): State
    requires Enabled(s, step)
  {
    match step
    case Begin(pub, event) =>
      s.(flights := s.flights[pub := Flight(event, Channels(s, event.sessionId), |s.begun|)],
         begun := s.begun + [Tagged(pub, event)])
    case OfferTo(pub, c) =>
      var sub, flight := s.subscriptions[c], s.flights[pub];
      if sub.channel.closed then s.(crashed := true)
      else s.(flights := s.flights[pub := flight.(remaining := flight.remaining - {c})],
              subscriptions := s.subscriptions[c := sub.(
                channel := LossyChannel.Offer(sub.channel, Tagged(pub, flight.event)))])
    case End(pub) => s.(flights := s.flights - {pub})
    case Subscribe(sessionId) =>
      s.(subs := s.subs[sessionId := Channels(s, sessionId) + {|s.subscriptions|}],
         subscriptions := s.subscriptions + [Subscription(sessionId, LossyChannel.Make(), |s.begun|, |s.begun|)])
    case Cancel(c) =>
      var sub := s.subscriptions[c];
      if sub.channel.closed then s.(crashed := true)
      else s.(subs := s.subs[sub.sessionId := Channels(s, sub.sessionId) - {c}],
              subscriptions := s.subscriptions[c := sub.(channel := LossyChannel.Close(sub.channel), end := |s.begun|)])
    case Take(c) =>
      var sub := s.subscriptions[c];
      s.(subscriptions := s.subscriptions[c := sub.(channel := LossyChannel.Take(sub.channel))])
  }

  function Next(s: State, step: Step): State {
    if Enabled(s, step) then Apply(s, step) else s
  }

  function After(steps: seq<Step>): State {
    if steps == [] then INIT else Next(After(steps[..|steps| - 1]), steps[|steps| - 1])
  }

  /** Each cancel closure runs at most once. */
  predicate Polite(s: State, step: Step) {
    step.Cancel? && step.sub < |s.subscriptions| ==> !s.subscriptions[step.sub].channel.closed
  }

  predicate PoliteRun(steps: seq<Step>) {
    steps == [] || (PoliteRun(steps[..|steps| - 1]) && Polite(After(steps[..|steps| - 1]), steps[|steps| - 1]))
  }

  // ----- The invariant -----

  function ForSession(sessionId: string, events: seq<Tagged>): seq<Tagged> {
    Filter((t: Tagged) => t.event.sessionId == sessionId, events)
  }

  function By(pub: Publisher, events: seq<Tagged>): seq<Tagged> {
    Filter((t: Tagged) => t.pub == pub, events)
  }

  /** The event `pub` is publishing, if channel `c` has yet to be offered it. */
  function OnTheWay(s: State, c: nat, pub: Publisher): seq<Tagged> {
    if pub in s.flights && c in s.flights[pub].remaining then [Tagged(pub, s.flights[pub].event)] else []
  }

  /** The publications to its session while it was subscribed. */
  function Span(s: State, c: nat): seq<Tagged>
    requires c < |s.subscriptions|
  {
    var sub := s.subscriptions[c];
    var hi := if sub.channel.closed then sub.end else |s.begun|;
    if sub.start <= hi <= |s.begun| then ForSession(sub.sessionId, s.begun[sub.start..hi]) else []
  }

  ghost predicate OrderInv(s: State, c: nat, pub: Publisher)
    requires c < |s.subscriptions|
  {
    By(pub, s.subscriptions[c].channel.offered) + OnTheWay(s, c, pub) == By(pub, Span(s, c))
  }

  ghost predicate SubInv(s: State, c: nat)
    requires c < |s.subscriptions|
  {
    var sub := s.subscriptions[c];
    && LossyChannel.Valid(sub.channel)
    && (!sub.channel.closed <==> c in Channels(s, sub.sessionId))
    && sub.start <= sub.end <= |s.begun|
    && (forall pub :: OrderInv(s, c, pub))
  }

  ghost predicate Inv(s: State) {
    && !s.crashed
    && (forall id :: id in s.subs ==>
          forall c :: c in s.subs[id] ==> c < |s.subscriptions| && s.subscriptions[c].sessionId == id)
    && (forall pub :: pub in s.flights ==> s.flights[pub].remaining <= Channels(s, s.flights[pub].event.sessionId))
    && (forall c :: 0 <= c < |s.subscriptions| ==> SubInv(s, c))
  }

  lemma SpanSnoc(s: State, t: State, c: nat, x: Tagged)
    requires Inv(s) && c < |s.subscriptions| == |t.subscriptions|
    requires t.begun == s.begun + [x] && t.subscriptions[c] == s.subscriptions[c]
    ensures Span(t, c) ==
      if !s.subscriptions[c].channel.closed && x.event.sessionId == s.subscriptions[c].sessionId
      then Span(s, c) + [x] else Span(s, c)
  {
    var sub := s.subscriptions[c];
    assert SubInv(s, c);
    if sub.channel.closed {
      assert t.begun[sub.start..sub.end] == s.begun[sub.start..sub.end];
    } else {
      assert t.begun[sub.start..|t.begun|] == s.begun[sub.start..|s.begun|] + [x];
      FilterSnoc((y: Tagged) => y.event.sessionId == sub.sessionId, s.begun[sub.start..|s.begun|], x);
    }
  }

  lemma InvBegin(s: State, pub: Publisher, event: Event)
    requires Inv(s) && Enabled(s, Begin(pub, event))
    ensures Inv(Apply(s, Begin(pub, event)))
  {
    var t := Apply(s, Begin(pub, event));
    var x := Tagged(pub, event);
    forall c | 0 <= c < |t.subscriptions| ensures SubInv(t, c) {
      assert SubInv(s, c);
      SpanSnoc(s, t, c, x);
      forall p ensures OrderInv(t, c, p) {
        assert OrderInv(s, c, p);
        FilterSnoc((y: Tagged) => y.pub == p, Span(s, c), x);
      }
    }
  }

  lemma OfferKeepsOrder(s: State, pub: Publisher, k: nat, c: nat, p: Publisher)
    requires Enabled(s, OfferTo(pub, k)) && !s.subscriptions[k].channel.closed
    requires c < |s.subscriptions| && OrderInv(s, c, p)
    ensures OrderInv(Apply(s, OfferTo(pub, k)), c, p)
  {
    var t := Apply(s, OfferTo(pub, k));
    assert Span(t, c) == Span(s, c);
    if c == k { BySnoc(p, s.subscriptions[c].channel.offered, Tagged(pub, s.flights[pub].event)); }
  }

  lemma InvOffer(s: State, pub: Publisher, k: nat)
    requires Inv(s) && Enabled(s, OfferTo(pub, k))
    ensures Inv(Apply(s, OfferTo(pub, k)))
  {
    assert SubInv(s, k);
    var t := Apply(s, OfferTo(pub, k));
    LossyChannel.OfferValid(s.subscriptions[k].channel, Tagged(pub, s.flights[pub].event));
    forall c | 0 <= c < |t.subscriptions| ensures SubInv(t, c) {
      assert SubInv(s, c);
      forall p ensures OrderInv(t, c, p) { OfferKeepsOrder(s, pub, k, c, p); }
    }
  }

  lemma InvEnd(s: State, pub: Publisher)
    requires Inv(s) && Enabled(s, End(pub))
    ensures Inv(Apply(s, End(pub)))
  {
    var t := Apply(s, End(pub));
    forall c | 0 <= c < |t.subscriptions| ensures SubInv(t, c) {
      assert SubInv(s, c);
      assert Span(t, c) == Span(s, c);
      forall p ensures OrderInv(t, c, p) { assert OrderInv(s, c, p); }
    }
  }

  lemma InvSubscribe(s: State, sessionId: string)
    requires Inv(s) && Enabled(s, Subscribe(sessionId))
    ensures Inv(Apply(s, Subscribe(sessionId)))
  {
    var t := Apply(s, Subscribe(sessionId));
    forall c | 0 <= c < |t.subscriptions| ensures SubInv(t, c) {
      if c < |s.subscriptions| {
        assert SubInv(s, c);
        assert Span(t, c) == Span(s, c);
        forall p ensures OrderInv(t, c, p) { assert OrderInv(s, c, p); }
      } else {
        assert t.begun[|s.begun|..|t.begun|] == [];
        assert Span(t, c) == [];
      }
    }
  }

  lemma InvCancel(s: State, k: nat)
    requires Inv(s) && Enabled(s, Cancel(k)) && !s.subscriptions[k].channel.closed
    ensures Inv(Apply(s, Cancel(k)))
  {
    var t := Apply(s, Cancel(k));
    forall c | 0 <= c < |t.subscriptions| ensures SubInv(t, c) {
      assert SubInv(s, c);
      assert Span(t, c) == Span(s, c);
      forall p ensures OrderInv(t, c, p) { assert OrderInv(s, c, p); }
    }
  }

  lemma InvTake(s: State, k: nat)
    requires Inv(s) && Enabled(s, Take(k))
    ensures Inv(Apply(s, Take(k)))
  {
    var t := Apply(s, Take(k));
    assert SubInv(s, k);
    LossyChannel.TakeValid(s.subscriptions[k].channel);
    forall c | 0 <= c < |t.subscriptions| ensures SubInv(t, c) {
      assert SubInv(s, c);
      assert Span(t, c) == Span(s, c);
      forall p ensures OrderInv(t, c, p) { assert OrderInv(s, c, p); }
    }
  }

  lemma InvStep(s: State, step: Step)
    requires Inv(s) && Polite(s, step)
    ensures Inv(Next(s, step))
  {
    if Enabled(s, step) {
      match step
      case Begin(pub, event) => InvBegin(s, pub, event);
      case OfferTo(pub, c) => InvOffer(s, pub, c);
      case End(pub) => InvEnd(s, pub);
      case Subscribe(id) => InvSubscribe(s, id);
      case Cancel(c) => InvCancel(s, c);
      case Take(c) => InvTake(s, c);
    }
  }

  lemma {:induction false} InvAfter(steps: seq<Step>)
    requires PoliteRun(steps)
    ensures Inv(After(steps))
  {
    if steps != [] {
      InvAfter(steps[..|steps| - 1]);
      InvStep(After(steps[..|steps| - 1]), steps[|steps| - 1]);
    }
  }

  // ----- Whole runs -----

  /** In every reachable state nothing was sent on a closed channel, a channel is registered exactly
      while open, and of each publisher's events to its session since it subscribed, a subscriber
      has received and buffered an in-order, duplicate-free part. */
  lemma SubscriberSeesPublisherInOrder(steps: seq<Step>, c: nat, pub: Publisher)
    requires PoliteRun(steps) && c < |After(steps).subscriptions|
    ensures var s := After(steps); var sub := s.subscriptions[c];
      && !s.crashed
      && (c in Channels(s, sub.sessionId) <==> !sub.channel.closed)
      && |sub.channel.buffer| <= 64
      && Subsequence(By(pub, sub.channel.taken + sub.channel.buffer), By(pub, Span(s, c)))
  {
    InvAfter(steps);
    SubscriberInOrder(After(steps), c, pub);
    assert SubInv(After(steps), c);
  }

  lemma SubscriberInOrder(s: State, c: nat, pub: Publisher)
    requires Inv(s) && c < |s.subscriptions|
    ensures Subsequence(By(pub, s.subscriptions[c].channel.taken + s.subscriptions[c].channel.buffer),
      By(pub, Span(s, c)))
  {
    var channel := s.subscriptions[c].channel;
    assert SubInv(s, c) && OrderInv(s, c, pub);
    LossyChannel.AcceptedFiltered((t: Tagged) => t.pub == pub, channel.offered, channel.depths);
    SubsequencePrefix(By(pub, channel.offered), By(pub, Span(s, c)));
    SubsequenceTrans(By(pub, channel.taken + channel.buffer), By(pub, channel.offered), By(pub, Span(s, c)));
  }

  lemma {:induction false} FilterCounts(pub: Publisher, s: seq<Tagged>, x: Tagged)
    requires x.pub == pub
    ensures multiset(By(pub, s))[x] == multiset(s)[x]
  {
    if s != [] {
      var init, last := s[..|s| - 1], s[|s| - 1];
      assert s == init + [last];
      FilterCounts(pub, init, x);
    }
  }

  lemma SameByPublisher(a: seq<Tagged>, b: seq<Tagged>)
    requires forall pub :: By(pub, a) == By(pub, b)
    ensures multiset(a) == multiset(b) && |a| == |b|
  {
    forall x ensures multiset(a)[x] == multiset(b)[x] {
      FilterCounts(x.pub, a, x);
      FilterCounts(x.pub, b, x);
      assert By(x.pub, a) == By(x.pub, b);
    }
    assert |multiset(a)| == |a| && |multiset(b)| == |b|;
  }

  /** Running a cancel closure is safe exactly while its channel is open. */
  lemma CancelOnceExact(s: State, c: nat)
    requires Inv(s) && s.flights == map[] && c < |s.subscriptions|
    ensures Inv(Next(s, Cancel(c))) <==> !s.subscriptions[c].channel.closed
  {
    if !s.subscriptions[c].channel.closed { InvCancel(s, c); }
  }

  lemma AfterSnoc(steps: seq<Step>, step: Step)
    ensures After(steps + [step]) == Next(After(steps), step)
  {
    assert (steps + [step])[..|steps|] == steps;
  }

  // ----- What is on its way -----

  /** Every flight is the publication it says it is. */
  ghost predicate Dated(s: State) {
    forall pub :: pub in s.flights ==>
      s.flights[pub].at < |s.begun| && s.begun[s.flights[pub].at] == Tagged(pub, s.flights[pub].event)
  }

  lemma DatedStep(s: State, step: Step)
    requires Dated(s)
    ensures Dated(Next(s, step))
  {
  }

  lemma {:induction false} DatedAfter(steps: seq<Step>)
    ensures Dated(After(steps))
  {
    if steps != [] {
      DatedAfter(steps[..|steps| - 1]);
      DatedStep(After(steps[..|steps| - 1]), steps[|steps| - 1]);
    }
  }

  /** Publication number `i` has yet to be offered to channel `c`. */
  predicate Owed(s: State, c: nat, i: nat)
    requires i < |s.begun|
  {
    var pub := s.begun[i].pub;
    pub in s.flights && s.flights[pub].at == i && c in s.flights[pub].remaining
  }

  /** Of the first `n` publications, those still owed to channel `c`, in the order they began. */
  function OwedAmong(s: State, c: nat, n: nat): seq<Tagged>
    requires n <= |s.begun|
  {
    if n == 0 then []
    else if Owed(s, c, n - 1) then OwedAmong(s, c, n - 1) + [s.begun[n - 1]]
    else OwedAmong(s, c, n - 1)
  }

  function AllOwed(s: State, c: nat): seq<Tagged> {
    OwedAmong(s, c, |s.begun|)
  }

  lemma OwedAt(s: State, c: nat, pub: Publisher, i: nat)
    requires Dated(s) && i < |s.begun|
    ensures Owed(s, c, i) && s.begun[i].pub == pub ==>
      pub in s.flights && s.flights[pub].at == i && OnTheWay(s, c, pub) == [s.begun[i]]
    ensures pub in s.flights && s.flights[pub].at == i && !Owed(s, c, i) ==> OnTheWay(s, c, pub) == []
    ensures pub in s.flights && s.flights[pub].at == i ==> s.begun[i].pub == pub
  {
  }

  lemma {:induction false} OwedByPublisher(s: State, c: nat, pub: Publisher, n: nat)
    requires Dated(s) && n <= |s.begun|
    ensures By(pub, OwedAmong(s, c, n)) == if pub in s.flights && s.flights[pub].at < n then OnTheWay(s, c, pub) else []
  {
    if n > 0 {
      OwedByPublisher(s, c, pub, n - 1);
      BySnoc(pub, OwedAmong(s, c, n - 1), s.begun[n - 1]);
      OwedAt(s, c, pub, n - 1);
    }
  }

  /** Over every run a subscriber was offered, or is still owed, exactly the events published to its
      session while subscribed: received + buffered + dropped + on the way is their number. */
  lemma BrokerConserves(steps: seq<Step>, c: nat)
    requires PoliteRun(steps) && c < |After(steps).subscriptions|
    ensures var s := After(steps); var channel := s.subscriptions[c].channel;
      && multiset(channel.offered + AllOwed(s, c)) == multiset(Span(s, c))
      && |channel.taken| + |channel.buffer| + LossyChannel.Dropped(channel.depths) + |AllOwed(s, c)| == |Span(s, c)|
  {
    InvAfter(steps);
    DatedAfter(steps);
    var s := After(steps);
    OfferedOrOwed(s, c);
    assert SubInv(s, c);
    LossyChannel.Conservation(s.subscriptions[c].channel);
  }

  lemma OfferedOrOwed(s: State, c: nat)
    requires Inv(s) && Dated(s) && c < |s.subscriptions|
    ensures multiset(s.subscriptions[c].channel.offered + AllOwed(s, c)) == multiset(Span(s, c))
    ensures |s.subscriptions[c].channel.offered| + |AllOwed(s, c)| == |Span(s, c)|
  {
    var offered, owed := s.subscriptions[c].channel.offered, AllOwed(s, c);
    assert SubInv(s, c);
    forall pub ensures By(pub, offered + owed) == By(pub, Span(s, c)) {
      assert OrderInv(s, c, pub);
      OwedByPublisher(s, c, pub, |s.begun|);
      FilterConcat((t: Tagged) => t.pub == pub, offered, owed);
    }
    SameByPublisher(offered + owed, Span(s, c));
  }

  // ----- Order across publishers -----

  /** Of the publications still on their way to `c`, that of `pub` began first. */
  predicate Earliest(s: State, c: nat, pub: Publisher)
    requires pub in s.flights
  {
    forall q :: q in s.flights && c in s.flights[q].remaining ==> s.flights[pub].at <= s.flights[q].at
  }

  /** If the step offers to `c`, it is for the earliest publication on its way there. */
  predicate Fifo(s: State, step: Step, c: nat) {
    step.OfferTo? && step.sub == c && Enabled(s, step) ==> Earliest(s, c, step.pub)
  }

  predicate FifoRun(steps: seq<Step>, c: nat) {
    steps == [] || (FifoRun(steps[..|steps| - 1], c) && Fifo(After(steps[..|steps| - 1]), steps[|steps| - 1], c))
  }

  /** Offered, then what is owed in the order it began, is all that was published. */
  ghost predicate InOrder(s: State, c: nat)
    requires c < |s.subscriptions|
  {
    s.subscriptions[c].channel.offered + AllOwed(s, c) == Span(s, c)
  }

  lemma {:induction false} OwedSame(s: State, t: State, c: nat, n: nat)
    requires n <= |s.begun| && n <= |t.begun|
    requires forall i :: 0 <= i < n ==> s.begun[i] == t.begun[i] && (Owed(s, c, i) <==> Owed(t, c, i))
    ensures OwedAmong(s, c, n) == OwedAmong(t, c, n)
  {
    if n > 0 { OwedSame(s, t, c, n - 1); }
  }

  lemma {:induction false} NothingOwed(s: State, c: nat, n: nat)
    requires n <= |s.begun| && forall i :: 0 <= i < n ==> !Owed(s, c, i)
    ensures OwedAmong(s, c, n) == []
  {
    if n > 0 { NothingOwed(s, c, n - 1); }
  }

  /** What is owed among the first `n` comes from publications before `n`. */
  lemma {:induction false} OwedIsOlder(s: State, c: nat, n: nat)
    requires n <= |s.begun|
    ensures forall x :: x in OwedAmong(s, c, n) ==> x.pub in s.flights && s.flights[x.pub].at < n
  {
    if n > 0 { OwedIsOlder(s, c, n - 1); }
  }

  lemma {:induction false} OwedGrows(s: State, c: nat, m: nat, n: nat)
    requires m <= n <= |s.begun|
    ensures OwedAmong(s, c, m) <= OwedAmong(s, c, n)
  {
    if m < n { OwedGrows(s, c, m, n - 1); }
  }

  /** Offering the earliest takes the head off what is owed. */
  lemma {:induction false} EarliestIsHead(s: State, pub: Publisher, c: nat, n: nat)
    requires Dated(s) && Enabled(s, OfferTo(pub, c)) && !s.subscriptions[c].channel.closed && Earliest(s, c, pub)
    requires s.flights[pub].at < n <= |s.begun|
    ensures OwedAmong(s, c, n) == [Tagged(pub, s.flights[pub].event)] + OwedAmong(Next(s, OfferTo(pub, c)), c, n)
  {
    var t, at := Next(s, OfferTo(pub, c)), s.flights[pub].at;
    if n == at + 1 {
      NothingOwed(s, c, at);
      NothingOwed(t, c, n);
    } else {
      EarliestIsHead(s, pub, c, n - 1);
      assert Owed(s, c, n - 1) <==> Owed(t, c, n - 1);
    }
  }

  /** If it is not the earliest, what is owed starts with another publisher's event. */
  lemma LaterIsNotHead(s: State, pub: Publisher, c: nat)
    requires Dated(s) && Enabled(s, OfferTo(pub, c)) && !Earliest(s, c, pub)
    ensures AllOwed(s, c) != [] && AllOwed(s, c)[0].pub != pub
  {
    var q :| q in s.flights && c in s.flights[q].remaining && s.flights[q].at < s.flights[pub].at;
    var n := s.flights[pub].at;
    assert Owed(s, c, s.flights[q].at);
    OwedGrows(s, c, s.flights[q].at + 1, n);
    OwedGrows(s, c, n, |s.begun|);
    OwedIsOlder(s, c, n);
    assert AllOwed(s, c)[0] == OwedAmong(s, c, n)[0];
  }

  lemma InOrderBegin(s: State, pub: Publisher, event: Event, c: nat)
    requires Inv(s) && Enabled(s, Begin(pub, event)) && c < |s.subscriptions| && InOrder(s, c)
    ensures InOrder(Next(s, Begin(pub, event)), c)
  {
    var t, x := Next(s, Begin(pub, event)), Tagged(pub, event);
    assert SubInv(s, c);
    SpanSnoc(s, t, c, x);
    OwedSame(s, t, c, |s.begun|);
    assert Owed(t, c, |s.begun|) <==> c in Channels(s, event.sessionId);
    assert c in Channels(s, event.sessionId) ==> s.subscriptions[c].sessionId == event.sessionId;
    assert AllOwed(t, c) == AllOwed(s, c) + if c in Channels(s, event.sessionId) then [x] else [];
    Regroup(s.subscriptions[c].channel.offered, AllOwed(s, c), [x]);
  }

  lemma Regroup(a: seq<Tagged>, b: seq<Tagged>, c: seq<Tagged>)
    ensures a + (b + c) == a + b + c
  {
  }

  /** From order, an offer keeps a prefix exactly when it is for the earliest publication owed. */
  lemma InOrderOffer(s: State, pub: Publisher, c: nat)
    requires Inv(s) && Dated(s) && Enabled(s, OfferTo(pub, c)) && InOrder(s, c)
    ensures var t := Next(s, OfferTo(pub, c));
      && c < |t.subscriptions|
      && (Earliest(s, c, pub) ==> InOrder(t, c))
      && (!Earliest(s, c, pub) ==> !(t.subscriptions[c].channel.offered <= Span(t, c)))
  {
    var t, x := Next(s, OfferTo(pub, c)), Tagged(pub, s.flights[pub].event);
    var offered := s.subscriptions[c].channel.offered;
    assert SubInv(s, c);
    assert Span(t, c) == Span(s, c) && t.subscriptions[c].channel.offered == offered + [x];
    if Earliest(s, c, pub) {
      EarliestIsHead(s, pub, c, |s.begun|);
      Regroup(offered, [x], AllOwed(t, c));
    } else {
      LaterIsNotHead(s, pub, c);
      assert Span(s, c)[|offered|] == AllOwed(s, c)[0];
      assert (offered + [x])[|offered|] == x;
    }
  }

  /** Any other step leaves channel `c` as much in order as it was. */
  lemma InOrderOther(s: State, step: Step, c: nat)
    requires Inv(s) && Polite(s, step) && Enabled(s, step) && c < |s.subscriptions| && InOrder(s, c)
    requires !step.Begin? && !(step.OfferTo? && step.sub == c)
    ensures c < |Next(s, step).subscriptions| && InOrder(Next(s, step), c)
  {
    var t := Next(s, step);
    assert SubInv(s, c);
    if step.OfferTo? { assert SubInv(s, step.sub); }
    assert t.begun == s.begun && Span(t, c) == Span(s, c);
    OwedSame(s, t, c, |s.begun|);
  }

  lemma InOrderNew(s: State, sessionId: string)
    requires Inv(s) && Enabled(s, Subscribe(sessionId))
    ensures InOrder(Next(s, Subscribe(sessionId)), |s.subscriptions|)
  {
    var t, c := Next(s, Subscribe(sessionId)), |s.subscriptions|;
    assert t.begun[|s.begun|..|t.begun|] == [];
    NothingOwed(t, c, |t.begun|);
  }

  /** A channel's offers and the publications meant for it only ever grow. */
  lemma OnlyGrow(s: State, step: Step, c: nat)
    requires Inv(s) && Polite(s, step) && c < |s.subscriptions|
    ensures var t := Next(s, step);
      && c < |t.subscriptions|
      && s.subscriptions[c].channel.offered <= t.subscriptions[c].channel.offered
      && Span(s, c) <= Span(t, c)
  {
    assert SubInv(s, c);
    if Enabled(s, step) {
      if step.Begin? {
        SpanSnoc(s, Next(s, step), c, Tagged(step.pub, step.event));
      } else {
        assert Span(Next(s, step), c) == Span(s, c);
      }
    }
  }

  /** Once out of order, always out of order. */
  lemma NeverAgain(s: State, step: Step, c: nat)
    requires Inv(s) && Dated(s) && Polite(s, step) && c < |s.subscriptions|
    requires !(s.subscriptions[c].channel.offered <= Span(s, c))
    ensures var t := Next(s, step);
      c < |t.subscriptions| && !(t.subscriptions[c].channel.offered <= Span(t, c))
  {
    OnlyGrow(s, step, c);
    OfferedOrOwed(s, c);
    var t := Next(s, step);
    var a, b := s.subscriptions[c].channel.offered, Span(s, c);
    var i :| 0 <= i < |a| && a[i] != b[i];
    assert t.subscriptions[c].channel.offered[i] == a[i] && Span(t, c)[i] == b[i];
  }

  /** One step, from a channel in order. */
  lemma InOrderStep(s: State, step: Step, c: nat)
    requires Inv(s) && Dated(s) && Polite(s, step) && c < |s.subscriptions| && InOrder(s, c)
    ensures var t := Next(s, step);
      && c < |t.subscriptions|
      && (Fifo(s, step, c) ==> InOrder(t, c))
      && (!Fifo(s, step, c) ==> !(t.subscriptions[c].channel.offered <= Span(t, c)))
  {
    if Enabled(s, step) {
      if step.Begin? {
        InOrderBegin(s, step.pub, step.event, c);
      } else if step.OfferTo? && step.sub == c {
        InOrderOffer(s, step.pub, c);
      } else {
        InOrderOther(s, step, c);
      }
    }
  }

  lemma {:induction false} NotYetSubscribed(steps: seq<Step>, c: nat)
    requires |After(steps).subscriptions| <= c
    ensures FifoRun(steps, c)
  {
    if steps != [] {
      assert |After(steps[..|steps| - 1]).subscriptions| <= |After(steps).subscriptions|;
      NotYetSubscribed(steps[..|steps| - 1], c);
    }
  }

  /** Channel `c` is in order, or for ever out of it. */
  ghost predicate OrderState(s: State, c: nat, fifo: bool)
    requires c < |s.subscriptions|
  {
    if fifo then InOrder(s, c) else !(s.subscriptions[c].channel.offered <= Span(s, c))
  }

  lemma OrderStep(s: State, step: Step, c: nat, fifo: bool)
    requires Inv(s) && Dated(s) && Polite(s, step) && c < |s.subscriptions| && OrderState(s, c, fifo)
    ensures c < |Next(s, step).subscriptions| && OrderState(Next(s, step), c, fifo && Fifo(s, step, c))
  {
    if fifo { InOrderStep(s, step, c); } else { NeverAgain(s, step, c); }
  }

  lemma OrderNew(s: State, step: Step, c: nat)
    requires Inv(s) && |s.subscriptions| <= c < |Next(s, step).subscriptions|
    ensures OrderState(Next(s, step), c, true) && Fifo(s, step, c)
  {
    InOrderNew(s, step.sessionId);
  }

  lemma {:induction false} OrderAfter(steps: seq<Step>, c: nat)
    requires PoliteRun(steps) && c < |After(steps).subscriptions|
    ensures OrderState(After(steps), c, FifoRun(steps, c))
  {
    if steps != [] {
      var init, last := steps[..|steps| - 1], steps[|steps| - 1];
      var s := After(init);
      InvAfter(init);
      DatedAfter(init);
      if |s.subscriptions| <= c {
        NotYetSubscribed(init, c);
        OrderNew(s, last, c);
      } else {
        OrderAfter(init, c);
        OrderStep(s, last, c, FifoRun(init, c));
      }
    }
  }

  /** Over every run: a subscriber is offered the events of its session in the order the publications
      began if and only if every offer to it was for the earliest publication then on its way to it. */
  lemma PublicationOrderExact(steps: seq<Step>, c: nat)
    requires PoliteRun(steps) && c < |After(steps).subscriptions|
    ensures After(steps).subscriptions[c].channel.offered <= Span(After(steps), c) <==> FifoRun(steps, c)
  {
    OrderAfter(steps, c);
  }

  /** A publication begins only when none is under way. */
  predicate Alone(s: State, step: Step) {
    step.Begin? ==> s.flights == map[]
  }

  predicate SequentialRun(steps: seq<Step>) {
    steps == [] || (SequentialRun(steps[..|steps| - 1]) && Alone(After(steps[..|steps| - 1]), steps[|steps| - 1]))
  }

  lemma {:induction false} SequentialIsFifo(steps: seq<Step>, c: nat)
    requires SequentialRun(steps)
    ensures FifoRun(steps, c)
    ensures forall p, q :: p in After(steps).flights && q in After(steps).flights ==> p == q
  {
    if steps != [] { SequentialIsFifo(steps[..|steps| - 1], c); }
  }

  /** In particular with publications one at a time; a subscriber then has received and buffered an
      in-order, duplicate-free part of all events published to its session while it was subscribed. */
  lemma SequentialOrder(steps: seq<Step>, c: nat)
    requires PoliteRun(steps) && SequentialRun(steps) && c < |After(steps).subscriptions|
    ensures var s := After(steps); var channel := s.subscriptions[c].channel;
      channel.offered <= Span(s, c) && Subsequence(channel.taken + channel.buffer, Span(s, c))
  {
    SequentialIsFifo(steps, c);
    PublicationOrderExact(steps, c);
    InvAfter(steps);
    var s := After(steps);
    var channel := s.subscriptions[c].channel;
    assert SubInv(s, c);
    LossyChannel.Conservation(channel);
    SubsequencePrefix(channel.offered, Span(s, c));
    SubsequenceTrans(channel.taken + channel.buffer, channel.offered, Span(s, c));
  }

  function CrossedRun(e0: Event, e1: Event): seq<Step> {
    [Subscribe(e0.sessionId)] + [Subscribe(e0.sessionId)] + [Begin(ControlPlane(0), e0)] + [Begin(ControlPlane(1), e1)]
    + [OfferTo(ControlPlane(0), 0)] + [OfferTo(ControlPlane(1), 0)]
    + [OfferTo(ControlPlane(1), 1)] + [OfferTo(ControlPlane(0), 1)]
  }

  lemma TwoPublishersInside(e0: Event, e1: Event)
    requires e0.sessionId == e1.sessionId
    ensures var sub := Subscription(e0.sessionId, LossyChannel.Make(), 0, 0);
      After(CrossedRun(e0, e1)[..4]) ==
      State(map[e0.sessionId := {0, 1}], [sub, sub],
            map[ControlPlane(0) := Flight(e0, {0, 1}, 0), ControlPlane(1) := Flight(e1, {0, 1}, 1)],
            [Tagged(ControlPlane(0), e0), Tagged(ControlPlane(1), e1)], false)
  {
    var r1 := [Subscribe(e0.sessionId)];
    AfterSnoc([], Subscribe(e0.sessionId));
    assert [] + r1 == r1;
    var r2 := r1 + [Subscribe(e0.sessionId)];
    AfterSnoc(r1, Subscribe(e0.sessionId));
    assert {} + {0} == {0} && {0} + {1} == {0, 1};
    AfterSnoc(r2, Begin(ControlPlane(0), e0));
    AfterSnoc(r2 + [Begin(ControlPlane(0), e0)], Begin(ControlPlane(1), e1));
    assert CrossedRun(e0, e1)[..4] == r2 + [Begin(ControlPlane(0), e0)] + [Begin(ControlPlane(1), e1)];
  }

  /** The first channel takes the two events in one order. */
  lemma FirstChannelOffered(e0: Event, e1: Event)
    requires e0.sessionId == e1.sessionId
    ensures var s := After(CrossedRun(e0, e1)[..6]);
      && |s.subscriptions| == 2 && !s.crashed
      && s.subscriptions[0].channel.buffer == [Tagged(ControlPlane(0), e0), Tagged(ControlPlane(1), e1)]
      && s.subscriptions[1].channel == LossyChannel.Make()
      && s.flights == map[ControlPlane(0) := Flight(e0, {1}, 0), ControlPlane(1) := Flight(e1, {1}, 1)]
  {
    var p0, p1 := ControlPlane(0), ControlPlane(1);
    TwoPublishersInside(e0, e1);
    var r4 := CrossedRun(e0, e1)[..4];
    assert {0, 1} - {0} == {1};
    AfterSnoc(r4, OfferTo(p0, 0));
    assert After(r4 + [OfferTo(p0, 0)]).flights == map[p0 := Flight(e0, {1}, 0), p1 := Flight(e1, {0, 1}, 1)];
    AfterSnoc(r4 + [OfferTo(p0, 0)], OfferTo(p1, 0));
    assert CrossedRun(e0, e1)[..6] == r4 + [OfferTo(p0, 0)] + [OfferTo(p1, 0)];
  }

  /** Without it, two subscribers of one session can see two publications in opposite orders. */
  lemma ConcurrentPublishersCross(e0: Event, e1: Event)
    requires e0.sessionId == e1.sessionId
    ensures var s := After(CrossedRun(e0, e1));
      && |s.subscriptions| == 2
      && s.subscriptions[0].channel.buffer == [Tagged(ControlPlane(0), e0), Tagged(ControlPlane(1), e1)]
      && s.subscriptions[1].channel.buffer == [Tagged(ControlPlane(1), e1), Tagged(ControlPlane(0), e0)]
  {
    var p0, p1 := ControlPlane(0), ControlPlane(1);
    FirstChannelOffered(e0, e1);
    var r6 := CrossedRun(e0, e1)[..6];
    AfterSnoc(r6, OfferTo(p1, 1));
    AfterSnoc(r6 + [OfferTo(p1, 1)], OfferTo(p0, 1));
    assert CrossedRun(e0, e1) == r6 + [OfferTo(p1, 1)] + [OfferTo(p0, 1)];
  }

  // ----- The broker object -----

  /** `after` is `before` with `x` offered once to each channel in `done`. */
  ghost predicate FannedOut(before: seq<Subscription>, after: seq<Subscription>, done: set<nat>, x: Tagged) {
    && |after| == |before|
    && (forall c :: 0 <= c < |after| ==>
          after[c] == if c in done then before[c].(channel := LossyChannel.Offer(before[c].channel, x)) else before[c])
  }

  /** `t` is `s` after a publication that nobody interrupted. */
  ghost predicate PublishedAll(s: State, t: State, x: Tagged) {
    && x.pub !in s.flights
    && t == s.(begun := s.begun + [x], subscriptions := t.subscriptions)
    && FannedOut(s.subscriptions, t.subscriptions, Channels(s, x.event.sessionId), x)
  }

  lemma PublishSpan(s: State, t: State, x: Tagged, c: nat)
    requires Inv(s) && PublishedAll(s, t, x) && c < |s.subscriptions|
    ensures Span(t, c) == if c in Channels(s, x.event.sessionId) then Span(s, c) + [x] else Span(s, c)
  {
    assert SubInv(s, c);
    SpanSnoc(s, s.(begun := t.begun), c, x);
    assert Span(t, c) == Span(s.(begun := t.begun), c);
    if c in Channels(s, x.event.sessionId) { assert s.subscriptions[c].sessionId == x.event.sessionId; }
  }

  lemma PublishOrderInside(s: State, t: State, x: Tagged, c: nat, p: Publisher)
    requires Inv(s) && PublishedAll(s, t, x) && c < |s.subscriptions| && c in Channels(s, x.event.sessionId)
    ensures OrderInv(t, c, p)
  {
    assert OrderInv(s, c, p) by { assert SubInv(s, c); }
    PublishSpan(s, t, x, c);
    var offered, span, owed := s.subscriptions[c].channel.offered, Span(s, c), OnTheWay(s, c, p);
    assert t.subscriptions[c].channel.offered == offered + [x] && OnTheWay(t, c, p) == owed;
    BySnoc(p, offered, x);
    BySnoc(p, span, x);
    if p == x.pub { assert owed == []; }
  }

  lemma PublishOrder(s: State, t: State, x: Tagged, c: nat, p: Publisher)
    requires Inv(s) && PublishedAll(s, t, x) && c < |s.subscriptions|
    ensures OrderInv(t, c, p)
  {
    if c in Channels(s, x.event.sessionId) {
      PublishOrderInside(s, t, x, c, p);
    } else {
      assert OrderInv(s, c, p) by { assert SubInv(s, c); }
      PublishSpan(s, t, x, c);
      assert t.subscriptions[c] == s.subscriptions[c] && OnTheWay(t, c, p) == OnTheWay(s, c, p);
    }
  }

  lemma BySnoc(pub: Publisher, s: seq<Tagged>, x: Tagged)
    ensures By(pub, s + [x]) == if x.pub == pub then By(pub, s) + [x] else By(pub, s)
  {
    FilterSnoc((t: Tagged) => t.pub == pub, s, x);
  }

  lemma InvPublish(s: State, t: State, x: Tagged)
    requires Inv(s) && PublishedAll(s, t, x)
    ensures Inv(t)
  {
    forall c | 0 <= c < |t.subscriptions| ensures SubInv(t, c) {
      assert SubInv(s, c);
      LossyChannel.OfferValid(s.subscriptions[c].channel, x);
      forall p ensures OrderInv(t, c, p) { PublishOrder(s, t, x, c, p); }
    }
  }

  lemma ChannelsOpen(s: State, sessionId: string)
    requires Inv(s)
    ensures forall c :: c in Channels(s, sessionId) ==> c < |s.subscriptions| && !s.subscriptions[c].channel.closed
  {
    forall c | c in Channels(s, sessionId) ensures c < |s.subscriptions| && !s.subscriptions[c].channel.closed {
      assert c in s.subs[sessionId] && c < |s.subscriptions|;
      assert SubInv(s, c);
    }
  }

  class MemoryBroker {
    var subs: map<string, set<nat>>
    var subscriptions: seq<Subscription>
    var flights: map<Publisher, Flight>
    var begun: seq<Tagged>

    ghost function View(): State
      reads this
    {
      State(subs, subscriptions, flights, begun, false)
    }

    ghost predicate Valid()
      reads this
    {
      Inv(View())
    }

    constructor ()
      ensures View() == INIT && Valid()
    {
      subs, subscriptions, flights, begun := map[], [], map[], [];
    }

    method Subscribe(sessionId: string) returns (c: nat)
      requires Valid() && flights == map[]
      modifies this
      ensures View() == Next(old(View()), Step.Subscribe(sessionId)) && Valid()
      ensures c == |old(subscriptions)|
    {
      InvStep(View(), Step.Subscribe(sessionId));
      c := |subscriptions|;
      if sessionId !in subs {
        subs := subs[sessionId := {}];
      }
      subs := subs[sessionId := subs[sessionId] + {c}];
      subscriptions := subscriptions + [Subscription(sessionId, LossyChannel.Make(), |begun|, |begun|)];
    }

    /** The closure `Subscribe` returns. */
    method Cancel(c: nat)
      requires Valid() && flights == map[] && c < |subscriptions| && !subscriptions[c].channel.closed
      modifies this
      ensures View() == Next(old(View()), Step.Cancel(c)) && Valid()
    {
      assert SubInv(View(), c);
      InvStep(View(), Step.Cancel(c));
      var sub := subscriptions[c];
      subs := subs[sub.sessionId := subs[sub.sessionId] - {c}];
      subscriptions := subscriptions[c := sub.(channel := LossyChannel.Close(sub.channel), end := |begun|)];
    }

    /** A whole `Publish` with no other publisher in between: every registered channel of the
        session, visited in any order, is offered the event once; no other channel changes. */
    method Publish(pub: Publisher, event: Event)
      requires Valid() && pub !in flights
      modifies `subscriptions, `begun
      ensures Valid() && begun == old(begun) + [Tagged(pub, event)]
      ensures FannedOut(old(subscriptions), subscriptions, Channels(old(View()), event.sessionId), Tagged(pub, event))
    {
      ChannelsOpen(View(), event.sessionId);
      var all := if event.sessionId in subs then subs[event.sessionId] else {};
      subscriptions := OfferAll(subscriptions, all, Tagged(pub, event));
      begun := begun + [Tagged(pub, event)];
      InvPublish(old(View()), View(), Tagged(pub, event));
    }
  }

  /** The loop of `Publish`: a non-blocking send to each channel, none of them closed. */
  method OfferAll(before: seq<Subscription>, all: set<nat>, x: Tagged) returns (after: seq<Subscription>)
    requires forall c :: c in all ==> c < |before| && !before[c].channel.closed
    ensures FannedOut(before, after, all, x)
  {
    after := before;
    var remaining := all;
    while remaining != {}
      invariant remaining <= all
      invariant FannedOut(before, after, all - remaining, x)
      decreases remaining
    {
      var c :| c in remaining;
      var channel := after[c].channel;
      if |channel.buffer| < LossyChannel.CAPACITY {
        channel := channel.(offered := channel.offered + [x], depths := channel.depths + [|channel.buffer|],
                            buffer := channel.buffer + [x]);
      } else {
        channel := channel.(offered := channel.offered + [x], depths := channel.depths + [|channel.buffer|]);
      }
      after := after[c := after[c].(channel := channel)];
      remaining := remaining - {c};
    }
    assert all - {} == all;
  }
}
