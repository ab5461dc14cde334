/** The replay-and-broadcast hub behind the repair and publishing event streams. */
module EventHub {

  type Event = nat
  type Conn = string

  // ---- The hub as an object ----

  /** The log stops growing at its cap. */
  function Logged(log: seq<Event>, e: Event, cap: nat): seq<Event> {
    if |log| < cap then log + [e] else log
  }

  /** A full channel drops the event. */
  function Buffered(buffer: seq<Event>, e: Event, cap: nat): seq<Event> {
    if |buffer| < cap then buffer + [e] else buffer
  }

  datatype Channel = Channel(buffer: seq<Event>, open: bool)

  type Channels = map<Conn, Channel>

  function Broadcast(subs: Channels, e: Event, cap: nat): Channels {
    map c | c in subs :: subs[c].(buffer := Buffered(subs[c].buffer, e, cap))
  }

  function LogOf(logs: map<string, seq<Event>>, session: string): seq<Event> {
    if session in logs then logs[session] else []
  }

  function SubscribersOf(hub: map<string, Channels>, session: string): Channels {
    if session in hub then hub[session] else map[]
  }

  /** Each channel with room got the event behind what it held; full ones, and what is open, are as before. */
  ghost predicate SentToEach(before: Channels, after: Channels, e: Event, cap: nat) {
    && after.Keys == before.Keys
    && forall c :: c in before ==>
         && after[c].open == before[c].open
         && after[c].buffer == before[c].buffer + if |before[c].buffer| < cap then [e] else []
  }

  class Handlers {
    const logCap: nat
    const channelCap: nat
    var eventLog: map<string, seq<Event>>
    var wsHub: map<string, Channels>

    constructor (logCap: nat, channelCap: nat)
      ensures this.logCap == logCap && this.channelCap == channelCap && eventLog == map[] && wsHub == map[]
    {
      this.logCap, this.channelCap := logCap, channelCap;
      eventLog, wsHub := map[], map[];
    }

    /** Sessions are listed while they have subscribers, and every listed channel is open. */
    ghost predicate Valid()
      reads this
    {
      forall s :: s in wsHub ==> wsHub[s] != map[] && forall c :: c in wsHub[s] ==> wsHub[s][c].open
    }

    /** Append, then send to whoever is listening; other sessions see nothing. */
    method Publish(session: string, e: Event)
      requires Valid()
      modifies this
      ensures Valid()
      ensures var log := if session in old(eventLog) then old(eventLog)[session] else [];
              if |log| < logCap then eventLog == old(eventLog)[session := log + [e]] else eventLog == old(eventLog)
      ensures wsHub.Keys == old(wsHub).Keys
      ensures forall s :: s in wsHub && s != session ==> wsHub[s] == old(wsHub)[s]
      ensures session in old(wsHub) ==> SentToEach(old(wsHub)[session], wsHub[session], e, channelCap)
      ensures LogOf(eventLog, session) == Logged(LogOf(old(eventLog), session), e, logCap)
      ensures SubscribersOf(wsHub, session) == Broadcast(SubscribersOf(old(wsHub), session), e, channelCap)
    {
      var log := LogOf(eventLog, session);
      if |log| < logCap {
        eventLog := eventLog[session := log + [e]];
      }
      if session in wsHub {
        var subs := SendToAll(wsHub[session], e);
        wsHub := wsHub[session := subs];
      }
    }

    /** One channel after the other; a full one is skipped. */
    method SendToAll(before: Channels, e: Event) returns (subs: Channels)
      requires before != map[]
      ensures subs == Broadcast(before, e, channelCap) && SentToEach(before, subs, e, channelCap) && subs != map[]
    {
      var waiting := before.Keys;
      subs := before;
      while waiting != {}
        invariant waiting <= before.Keys && subs.Keys == before.Keys
        invariant forall c :: c in before && c in waiting ==> subs[c] == before[c]
        invariant forall c :: c in before && c !in waiting ==> subs[c] == Broadcast(before, e, channelCap)[c]
      {
        var c :| c in waiting;
        if |subs[c].buffer| < channelCap {
          subs := subs[c := subs[c].(buffer := subs[c].buffer + [e])];
        }
        waiting := waiting - {c};
      }
      assert subs == Broadcast(before, e, channelCap);
      assert before.Keys != {};
    }

    method AddSubscriber(session: string, conn: Conn)
      requires Valid()
      modifies this`wsHub
      ensures Valid()
      ensures wsHub == old(wsHub)[session := SubscribersOf(old(wsHub), session)[conn := Channel([], true)]]
      ensures session in old(wsHub) ==> wsHub[session] == old(wsHub)[session][conn := Channel([], true)]
      ensures session !in old(wsHub) ==> wsHub[session] == map[conn := Channel([], true)]
    {
      if session !in wsHub {
        wsHub := wsHub[session := map[]];
      }
      wsHub := wsHub[session := wsHub[session][conn := Channel([], true)]];
      assert conn in wsHub[session];
    }

    /** Unlist and close; the session goes with its last subscriber. */
    method RemoveSubscriber(session: string, conn: Conn) returns (closed: seq<Channel>)
      requires Valid()
      modifies this`wsHub
      ensures Valid()
      ensures SubscribersOf(wsHub, session) == SubscribersOf(old(wsHub), session) - {conn}
      ensures session in old(wsHub) && old(wsHub)[session].Keys != {conn} ==>
                wsHub == old(wsHub)[session := old(wsHub)[session] - {conn}]
      ensures session !in old(wsHub) ==> wsHub == old(wsHub)
      ensures forall s :: s != session ==> SubscribersOf(wsHub, s) == SubscribersOf(old(wsHub), s)
      ensures var subs := SubscribersOf(old(wsHub), session);
              closed == if conn in subs then [subs[conn].(open := false)] else []
    {
      closed := [];
      if session !in wsHub {
        return;
      }
      var subs := wsHub[session];
      if conn in subs {
        closed := [subs[conn].(open := false)];
        subs := subs - {conn};
      }
      assert forall d :: d in old(wsHub)[session] && d != conn ==> d in subs;
      wsHub := if subs == map[] then wsHub - {session} else wsHub[session := subs];
    }

    method Replay(session: string) returns (events: seq<Event>)
      ensures events == LogOf(eventLog, session)
      ensures if session in eventLog then events == eventLog[session] else events == []
    {
      events := if session in eventLog then eventLog[session] else [];
    }
  }

  // ---- One session under concurrency ----

  /** A publish call: the event is logged, then sent to one channel after the other under the shared
      lock, then done. `sentAt` is when each channel had its turn. */
  datatype Phase = Waiting | Sending(pending: set<Conn>) | Sent

  datatype Publication = Publication(phase: Phase, appendedAt: nat, begunAt: nat, sentAt: map<Conn, nat>)

  /** A subscriber: registered, then given a copy of the log to write out first, then reading its
      channel. `sent` is everything ever put into the channel, `dropped` every event whose send found
      this channel full. `missed` are the events the log had lost when it was copied. */
  datatype Subscriber = Subscriber(registeredAt: nat, snapAt: nat, snapped: bool, replay: seq<Event>,
                                   unwritten: seq<Event>,
                                   sent: seq<Event>, buffer: seq<Event>, delivered: seq<Event>, open: bool,
                                   missed: set<Event>, dropped: set<Event>)

  /** `unlogged` are the events that found the log full or were cleaned up with it. */
  datatype State = State(clock: nat, log: seq<Event>, publications: map<Event, Publication>,
                         subscribers: map<Conn, Subscriber>, hub: set<Conn>, unlogged: set<Event>, panicked: bool)

  const Fresh := State(0, [], map[], map[], {}, {}, false)

  datatype Caps = Caps(log: nat, channel: nat)

  datatype Action =
    | Append(e: Event)
    | Begin(e: Event)
    | Send(e: Event, c: Conn)
    | End(e: Event)
    | Register(c: Conn)
    | Snapshot(c: Conn)
    | Deliver(c: Conn)
    | Remove(c: Conn)
    | Cleanup

  /** Some publish call holds the shared lock. */
  ghost predicate Broadcasting(s: State) {
    exists e :: e in s.publications && s.publications[e].phase.Sending?
  }

  function AfterAppend(s: State, e: Event, caps: Caps): State {
    if e in s.publications then s
    else s.(log := Logged(s.log, e, caps.log), unlogged := if |s.log| >= caps.log then s.unlogged + {e} else s.unlogged,
            publications := s.publications[e := Publication(Waiting, s.clock, 0, map[])])
  }

  function AfterBegin(s: State, e: Event): State {
    if e in s.publications && s.publications[e].phase.Waiting? then
      s.(publications := s.publications[e := s.publications[e].(phase := Sending(s.hub), begunAt := s.clock)])
    else s
  }

  /** What a send makes of the subscriber. */
  function SentTo(sub: Subscriber, e: Event, cap: nat): Subscriber {
    sub.(buffer := Buffered(sub.buffer, e, cap), sent := if |sub.buffer| < cap then sub.sent + [e] else sub.sent,
         dropped := if |sub.buffer| < cap then sub.dropped else sub.dropped + {e})
  }

  function SentBy(p: Publication, c: Conn, clock: nat): Publication
    requires p.phase.Sending?
  {
    p.(phase := Sending(p.phase.pending - {c}), sentAt := p.sentAt[c := clock])
  }

  function AfterSend(s: State, e: Event, c: Conn, caps: Caps): State {
    if e in s.publications && s.publications[e].phase.Sending? && c in s.publications[e].phase.pending
       && c in s.subscribers
    then
      var p, sub := s.publications[e], s.subscribers[c];
      s.(publications := s.publications[e := SentBy(p, c, s.clock)],
         subscribers := s.subscribers[c := SentTo(sub, e, caps.channel)],
         panicked := s.panicked || !sub.open)
    else s
  }

  function AfterEnd(s: State, e: Event): State {
    if e in s.publications && s.publications[e].phase == Sending({}) then
      s.(publications := s.publications[e := s.publications[e].(phase := Sent)])
    else s
  }

  /** Registration takes the lock exclusively. */
  ghost function AfterRegister(s: State, c: Conn): State {
    if c in s.subscribers || Broadcasting(s) then s
    else s.(subscribers := s.subscribers[c := Subscriber(s.clock, 0, false, [], [], [], [], [], true, {}, {})],
            hub := s.hub + {c})
  }

  function AfterSnapshot(s: State, c: Conn): State {
    if c in s.subscribers && !s.subscribers[c].snapped then
      s.(subscribers := s.subscribers[c := s.subscribers[c].(snapped := true, snapAt := s.clock, replay := s.log,
                                                             unwritten := s.log, missed := s.unlogged)])
    else s
  }

  /** The replay is written before the channel is read. */
  function Delivered(sub: Subscriber): Subscriber {
    if !sub.snapped then sub
    else if sub.unwritten != [] then
      sub.(delivered := sub.delivered + [sub.unwritten[0]], unwritten := sub.unwritten[1..])
    else if sub.buffer != [] then sub.(delivered := sub.delivered + [sub.buffer[0]], buffer := sub.buffer[1..])
    else sub
  }

  function AfterDeliver(s: State, c: Conn): State {
    if c in s.subscribers then s.(subscribers := s.subscribers[c := Delivered(s.subscribers[c])]) else s
  }

  /** So does removal, which closes the channel. */
  ghost function AfterRemove(s: State, c: Conn): State {
    if c !in s.hub || c !in s.subscribers || Broadcasting(s) then s
    else s.(subscribers := s.subscribers[c := s.subscribers[c].(open := false)], hub := s.hub - {c})
  }

  ghost function Step(s: State, a: Action, caps: Caps): State {
    match a
    case Append(e) => AfterAppend(s, e, caps)
    case Begin(e) => AfterBegin(s, e)
    case Send(e, c) => AfterSend(s, e, c, caps)
    case End(e) => AfterEnd(s, e)
    case Register(c) => AfterRegister(s, c)
    case Snapshot(c) => AfterSnapshot(s, c)
    case Deliver(c) => AfterDeliver(s, c)
    case Remove(c) => AfterRemove(s, c)
    case Cleanup => s.(log := [], unlogged := s.publications.Keys)
  }

  ghost function Run(actions: seq<Action>, caps: Caps): State {
    if actions == [] then Fresh else
      var before := Run(actions[..|actions| - 1], caps);
      Step(before, actions[|actions| - 1], caps).(clock := before.clock + 1)
  }

  // ---- What every interleaving keeps ----

  function Count(events: seq<Event>, e: Event): nat {
    multiset(events)[e]
  }

  lemma CountAppend(events: seq<Event>, more: seq<Event>, e: Event)
    ensures Count(events + more, e) == Count(events, e) + Count(more, e)
  {
  }

  /** Owed by the replay: appended before the snapshot. */
  predicate InReplay(p: Publication, sub: Subscriber) {
    sub.snapped && p.appendedAt < sub.snapAt
  }

  /** Owed by the channel: registered before the broadcast began. */
  predicate OnAir(p: Publication, sub: Subscriber, c: Conn) {
    !p.phase.Waiting? && sub.registeredAt < p.begunAt && !(p.phase.Sending? && c in p.phase.pending)
  }

  function One(b: bool): nat {
    if b then 1 else 0
  }

  predicate PublicationFits(p: Publication, clock: nat, hub: set<Conn>) {
    && p.appendedAt < clock
    && (!p.phase.Waiting? ==> p.appendedAt < p.begunAt < clock)
    && (p.phase.Sending? ==> p.phase.pending <= hub)
  }

  predicate SubscriberFits(sub: Subscriber, clock: nat) {
    && sub.registeredAt < clock
    && (sub.snapped ==> sub.registeredAt < sub.snapAt < clock)
    && sub.delivered + sub.unwritten + sub.buffer == sub.replay + sub.sent
    && (!sub.snapped ==> sub.replay == sub.unwritten == sub.delivered == [])
  }

  /** The copies of an event a subscriber was given: one in the replay if it was in the log then, and, while
      it is connected, one broadcast if its channel had room. */
  predicate CopiesFit(p: Publication, sub: Subscriber, c: Conn, e: Event) {
    && Count(sub.replay, e) == One(InReplay(p, sub) && e !in sub.missed)
    && Count(sub.sent, e) <= One(OnAir(p, sub, c))
    && (sub.open ==> Count(sub.sent, e) == One(OnAir(p, sub, c) && e !in sub.dropped))
    && (e in sub.dropped ==> OnAir(p, sub, c))
    && (p.phase.Sending? && c in p.phase.pending ==> sub.registeredAt < p.begunAt)
  }

  type Publications = map<Event, Publication>

  type Subscribers = map<Conn, Subscriber>

  ghost predicate PublicationsFit(pubs: Publications, clock: nat, hub: set<Conn>) {
    forall e :: e in pubs ==> PublicationFits(pubs[e], clock, hub)
  }

  ghost predicate SubscribersFit(subs: Subscribers, hub: set<Conn>, clock: nat) {
    && hub <= subs.Keys
    && forall c :: c in subs ==> SubscriberFits(subs[c], clock) && (subs[c].open <==> c in hub)
  }

  predicate LogFits(log: seq<Event>, known: set<Event>, lost: set<Event>, e: Event) {
    Count(log, e) == One(e in known && e !in lost)
  }

  ghost predicate LogsFit(log: seq<Event>, known: set<Event>, lost: set<Event>) {
    lost <= known && forall e :: LogFits(log, known, lost, e)
  }

  ghost predicate EventFits(p: Publication, subs: Subscribers, e: Event) {
    forall c :: c in subs ==> CopiesFit(p, subs[c], c, e)
  }

  ghost predicate AllCopiesFit(pubs: Publications, subs: Subscribers) {
    forall e :: e in pubs ==> EventFits(pubs[e], subs, e)
  }

  predicate NoCopies(sub: Subscriber, e: Event) {
    Count(sub.replay, e) == 0 && Count(sub.sent, e) == 0 && e !in sub.dropped
  }

  /** Nothing is delivered that was not published. */
  ghost predicate NothingInvented(known: set<Event>, subs: Subscribers) {
    forall c :: c in subs ==> NothingInventedFor(known, subs[c])
  }

  ghost predicate NothingInventedFor(known: set<Event>, sub: Subscriber) {
    forall e :: e !in known ==> NoCopies(sub, e)
  }

  ghost predicate TimesFit(s: State, clock: nat) {
    PublicationsFit(s.publications, clock, s.hub) && SubscribersFit(s.subscribers, s.hub, clock) && !s.panicked
  }

  ghost predicate CountsFit(s: State) {
    && LogsFit(s.log, s.publications.Keys, s.unlogged) && AllCopiesFit(s.publications, s.subscribers)
    && NothingInvented(s.publications.Keys, s.subscribers)
  }

  ghost predicate Sound(s: State) {
    TimesFit(s, s.clock) && CountsFit(s)
  }

  // ---- Times ----

  lemma ChangedPublicationFits(s: State, e: Event, p: Publication)
    requires TimesFit(s, s.clock) && PublicationFits(p, s.clock + 1, s.hub)
    ensures TimesFit(s.(publications := s.publications[e := p]), s.clock + 1)
  {
    forall x | x in s.publications && x != e ensures PublicationFits(s.publications[x], s.clock + 1, s.hub) {
      assert PublicationFits(s.publications[x], s.clock, s.hub);
    }
  }

  lemma ChangedSubscriberFits(s: State, c: Conn, sub: Subscriber, clock: nat)
    requires SubscribersFit(s.subscribers, s.hub, clock)
    requires SubscriberFits(sub, clock) && (sub.open <==> c in s.hub)
    ensures SubscribersFit(s.subscribers[c := sub], s.hub, clock)
  {
  }

  lemma TimePasses(s: State)
    requires TimesFit(s, s.clock)
    ensures TimesFit(s, s.clock + 1)
  {
    forall x | x in s.publications ensures PublicationFits(s.publications[x], s.clock + 1, s.hub) {
      assert PublicationFits(s.publications[x], s.clock, s.hub);
    }
  }

  lemma SentFits(sub: Subscriber, clock: nat, e: Event, cap: nat)
    requires SubscriberFits(sub, clock)
    ensures SubscriberFits(SentTo(sub, e, cap), clock)
  {
    assert sub.delivered + sub.unwritten + (sub.buffer + [e]) == (sub.delivered + sub.unwritten + sub.buffer) + [e];
    assert (sub.replay + sub.sent) + [e] == sub.replay + (sub.sent + [e]);
  }

  lemma SendKeepsTimes(s: State, e: Event, c: Conn, caps: Caps)
    requires TimesFit(s, s.clock)
    ensures TimesFit(AfterSend(s, e, c, caps), s.clock + 1)
  {
    var next := AfterSend(s, e, c, caps);
    TimePasses(s);
    if next != s {
      assert PublicationFits(s.publications[e], s.clock, s.hub) && SubscriberFits(s.subscribers[c], s.clock);
      ChangedPublicationFits(s, e, next.publications[e]);
      SentFits(s.subscribers[c], s.clock + 1, e, caps.channel);
      ChangedSubscriberFits(s, c, next.subscribers[c], s.clock + 1);
    }
  }

  lemma SnapshotKeepsTimes(s: State, c: Conn)
    requires TimesFit(s, s.clock)
    ensures TimesFit(AfterSnapshot(s, c), s.clock + 1)
  {
    TimePasses(s);
    if c in s.subscribers && !s.subscribers[c].snapped {
      var sub := s.subscribers[c];
      assert SubscriberFits(sub, s.clock);
      assert [] + [] + sub.buffer == sub.buffer && [] + sub.sent == sub.sent;
      assert [] + s.log + sub.buffer == s.log + sub.sent;
      ChangedSubscriberFits(s, c, AfterSnapshot(s, c).subscribers[c], s.clock + 1);
    }
  }

  lemma DeliveredFits(sub: Subscriber, clock: nat)
    requires SubscriberFits(sub, clock)
    ensures SubscriberFits(Delivered(sub), clock)
  {
    if sub.snapped && sub.unwritten != [] {
      assert sub.delivered + sub.unwritten == (sub.delivered + [sub.unwritten[0]]) + sub.unwritten[1..];
    } else if sub.snapped && sub.buffer != [] {
      assert sub.delivered + sub.unwritten + sub.buffer ==
          (sub.delivered + [sub.buffer[0]]) + sub.unwritten + sub.buffer[1..];
    }
  }

  lemma DeliverKeepsTimes(s: State, c: Conn)
    requires TimesFit(s, s.clock)
    ensures TimesFit(AfterDeliver(s, c), s.clock + 1)
  {
    TimePasses(s);
    if c in s.subscribers {
      var sub := s.subscribers[c];
      assert SubscriberFits(sub, s.clock);
      DeliveredFits(sub, s.clock + 1);
      ChangedSubscriberFits(s, c, Delivered(sub), s.clock + 1);
    }
  }

  lemma HubMayChange(s: State, hub: set<Conn>)
    requires PublicationsFit(s.publications, s.clock, s.hub) && !Broadcasting(s)
    ensures PublicationsFit(s.publications, s.clock + 1, hub)
  {
    forall x | x in s.publications ensures PublicationFits(s.publications[x], s.clock + 1, hub) {
      assert PublicationFits(s.publications[x], s.clock, s.hub);
    }
  }

  /** Registration and removal move nobody else, as no broadcast is under way. */
  lemma RegistrationKeepsTimes(s: State, c: Conn)
    requires TimesFit(s, s.clock)
    ensures TimesFit(AfterRegister(s, c), s.clock + 1) && TimesFit(AfterRemove(s, c), s.clock + 1)
  {
    TimePasses(s);
    if !Broadcasting(s) {
      HubMayChange(s, s.hub + {c});
      HubMayChange(s, s.hub - {c});
    }
  }

  lemma StepKeepsTimes(s: State, a: Action, caps: Caps)
    requires TimesFit(s, s.clock)
    ensures TimesFit(Step(s, a, caps), s.clock + 1)
  {
    TimePasses(s);
    match a
    case Append(e) => ChangedPublicationFits(s, e, Publication(Waiting, s.clock, 0, map[]));
    case Begin(e) =>
      if e in s.publications {
        assert PublicationFits(s.publications[e], s.clock, s.hub);
        ChangedPublicationFits(s, e, s.publications[e].(phase := Sending(s.hub), begunAt := s.clock));
      }
    case Send(e, c) => SendKeepsTimes(s, e, c, caps);
    case End(e) =>
      if e in s.publications && s.publications[e].phase.Sending? {
        assert PublicationFits(s.publications[e], s.clock, s.hub);
        ChangedPublicationFits(s, e, s.publications[e].(phase := Sent));
      }
    case Register(c) => RegistrationKeepsTimes(s, c);
    case Snapshot(c) => SnapshotKeepsTimes(s, c);
    case Deliver(c) => DeliverKeepsTimes(s, c);
    case Remove(c) => RegistrationKeepsTimes(s, c);
    case Cleanup =>
  }

  // ---- Counts ----

  /** One publication changes, or is new. */
  lemma ChangedEventFits(pubs: Publications, subs: Subscribers, e: Event, p: Publication)
    requires AllCopiesFit(pubs, subs) && EventFits(p, subs, e)
    ensures AllCopiesFit(pubs[e := p], subs)
  {
  }

  /** One subscriber changes, or is new. */
  lemma ChangedConnFits(pubs: Publications, subs: Subscribers, c: Conn, sub: Subscriber)
    requires AllCopiesFit(pubs, subs) && forall e :: e in pubs ==> CopiesFit(pubs[e], sub, c, e)
    ensures AllCopiesFit(pubs, subs[c := sub])
  {
    forall e | e in pubs ensures EventFits(pubs[e], subs[c := sub], e) {
      assert EventFits(pubs[e], subs, e);
    }
  }

  lemma AppendKeepsLog(log: seq<Event>, known: set<Event>, lost: set<Event>, e: Event, cap: nat)
    requires LogsFit(log, known, lost) && e !in known
    ensures LogsFit(Logged(log, e, cap), known + {e}, if |log| >= cap then lost + {e} else lost)
  {
    var after, all, loss := Logged(log, e, cap), known + {e}, if |log| >= cap then lost + {e} else lost;
    forall x ensures LogFits(after, all, loss, x) {
      assert LogFits(log, known, lost, x);
      CountAppend(log, [e], x);
    }
  }

  lemma AppendKeepsCounts(s: State, e: Event, caps: Caps)
    requires Sound(s)
    ensures CountsFit(AfterAppend(s, e, caps))
  {
    if e !in s.publications {
      var p := Publication(Waiting, s.clock, 0, map[]);
      AppendKeepsLog(s.log, s.publications.Keys, s.unlogged, e, caps.log);
      assert s.publications[e := p].Keys == s.publications.Keys + {e};
      forall c | c in s.subscribers ensures CopiesFit(p, s.subscribers[c], c, e) {
        assert NothingInventedFor(s.publications.Keys, s.subscribers[c]);
        assert NoCopies(s.subscribers[c], e) && SubscriberFits(s.subscribers[c], s.clock);
      }
      ChangedEventFits(s.publications, s.subscribers, e, p);
      forall c | c in s.subscribers ensures NothingInventedFor(s.publications.Keys + {e}, s.subscribers[c]) {
        assert NothingInventedFor(s.publications.Keys, s.subscribers[c]);
      }
    }
  }

  lemma BeginKeepsCounts(s: State, e: Event)
    requires Sound(s)
    ensures CountsFit(AfterBegin(s, e))
  {
    if e in s.publications && s.publications[e].phase.Waiting? {
      var p := s.publications[e].(phase := Sending(s.hub), begunAt := s.clock);
      assert s.publications[e := p].Keys == s.publications.Keys;
      assert EventFits(s.publications[e], s.subscribers, e);
      forall c | c in s.subscribers ensures CopiesFit(p, s.subscribers[c], c, e) {
        assert CopiesFit(s.publications[e], s.subscribers[c], c, e);
      }
      ChangedEventFits(s.publications, s.subscribers, e, p);
    }
  }

  lemma EndKeepsCounts(s: State, e: Event)
    requires Sound(s)
    ensures CountsFit(AfterEnd(s, e))
  {
    if e in s.publications && s.publications[e].phase == Sending({}) {
      var p := s.publications[e].(phase := Sent);
      assert s.publications[e := p].Keys == s.publications.Keys;
      assert EventFits(s.publications[e], s.subscribers, e);
      forall c | c in s.subscribers ensures CopiesFit(p, s.subscribers[c], c, e) {
        assert CopiesFit(s.publications[e], s.subscribers[c], c, e);
      }
      ChangedEventFits(s.publications, s.subscribers, e, p);
    }
  }

  /** One send, seen from the event sent and from any other. */
  lemma SentEventFits(p: Publication, sub: Subscriber, c: Conn, e: Event, cap: nat, clock: nat)
    requires CopiesFit(p, sub, c, e) && p.phase.Sending? && c in p.phase.pending
    ensures CopiesFit(SentBy(p, c, clock), SentTo(sub, e, cap), c, e)
  {
    CountAppend(sub.sent, [e], e);
  }

  lemma OtherEventFits(p: Publication, sub: Subscriber, c: Conn, e: Event, x: Event, cap: nat)
    requires CopiesFit(p, sub, c, x) && x != e
    ensures CopiesFit(p, SentTo(sub, e, cap), c, x)
  {
    CountAppend(sub.sent, [e], x);
  }

  lemma SentCopiesFit(pubs: Publications, subs: Subscribers, e: Event, c: Conn, cap: nat, clock: nat, x: Event)
    requires x in pubs && EventFits(pubs[x], subs, x)
    requires e in pubs && pubs[e].phase.Sending? && c in pubs[e].phase.pending && c in subs
    ensures EventFits(if x == e then SentBy(pubs[e], c, clock) else pubs[x], subs[c := SentTo(subs[c], e, cap)], x)
  {
    var p := if x == e then SentBy(pubs[e], c, clock) else pubs[x];
    var after := subs[c := SentTo(subs[c], e, cap)];
    if x == e {
      SentEventFits(pubs[e], subs[c], c, e, cap, clock);
    } else {
      OtherEventFits(pubs[x], subs[c], c, e, x, cap);
    }
    forall d | d in after ensures CopiesFit(p, after[d], d, x) {
      assert CopiesFit(pubs[x], subs[d], d, x);
    }
  }

  lemma SendInventsNothing(known: set<Event>, subs: Subscribers, e: Event, c: Conn, cap: nat)
    requires NothingInvented(known, subs) && e in known && c in subs
    ensures NothingInvented(known, subs[c := SentTo(subs[c], e, cap)])
  {
    var after := SentTo(subs[c], e, cap);
    forall x | x !in known ensures NoCopies(after, x) {
      assert NoCopies(subs[c], x);
      CountAppend(subs[c].sent, [e], x);
    }
    assert NothingInventedFor(known, after);
  }

  lemma SendKeepsCounts(s: State, e: Event, c: Conn, caps: Caps)
    requires Sound(s)
    ensures CountsFit(AfterSend(s, e, c, caps))
  {
    var next := AfterSend(s, e, c, caps);
    if next != s {
      assert next.publications.Keys == s.publications.Keys;
      forall x | x in next.publications ensures EventFits(next.publications[x], next.subscribers, x) {
        SentCopiesFit(s.publications, s.subscribers, e, c, caps.channel, s.clock, x);
      }
      SendKeepsLog(s, next);
      SendInventsNothing(s.publications.Keys, s.subscribers, e, c, caps.channel);
    }
  }

  lemma SendKeepsLog(s: State, next: State)
    requires LogsFit(s.log, s.publications.Keys, s.unlogged) && s.unlogged == next.unlogged
    requires next.log == s.log && next.publications.Keys == s.publications.Keys
    ensures LogsFit(next.log, next.publications.Keys, next.unlogged)
  {
    forall x ensures LogFits(next.log, next.publications.Keys, next.unlogged, x) {
      assert LogFits(s.log, s.publications.Keys, s.unlogged, x);
    }
  }

  lemma RegisterKeepsCounts(s: State, c: Conn)
    requires Sound(s)
    ensures CountsFit(AfterRegister(s, c))
  {
    if c !in s.subscribers && !Broadcasting(s) {
      var sub := Subscriber(s.clock, 0, false, [], [], [], [], [], true, {}, {});
      forall e | e in s.publications ensures CopiesFit(s.publications[e], sub, c, e) {
        assert PublicationFits(s.publications[e], s.clock, s.hub);
      }
      ChangedConnFits(s.publications, s.subscribers, c, sub);
      assert NothingInventedFor(s.publications.Keys, sub);
    }
  }

  lemma SnapshotKeepsCounts(s: State, c: Conn)
    requires Sound(s)
    ensures CountsFit(AfterSnapshot(s, c))
  {
    if c in s.subscribers && !s.subscribers[c].snapped {
      var sub := s.subscribers[c];
      var after := sub.(snapped := true, snapAt := s.clock, replay := s.log, unwritten := s.log, missed := s.unlogged);
      forall e | e in s.publications ensures CopiesFit(s.publications[e], after, c, e) {
        assert EventFits(s.publications[e], s.subscribers, e);
        assert CopiesFit(s.publications[e], sub, c, e);
        assert PublicationFits(s.publications[e], s.clock, s.hub) && LogFits(s.log, s.publications.Keys, s.unlogged, e);
      }
      ChangedConnFits(s.publications, s.subscribers, c, after);
      assert NothingInventedFor(s.publications.Keys, sub);
      forall e | e !in s.publications.Keys ensures NoCopies(after, e) {
        assert NoCopies(sub, e) && LogFits(s.log, s.publications.Keys, s.unlogged, e);
      }
    }
  }

  /** Changes that leave what was sent, the replay and the registration alone. */
  lemma QuietChangeKeepsCounts(s: State, c: Conn, after: Subscriber, hub: set<Conn>)
    requires Sound(s) && c in s.subscribers
    requires var sub := s.subscribers[c];
             && after.replay == sub.replay && after.sent == sub.sent && after.registeredAt == sub.registeredAt
             && after.snapped == sub.snapped && after.snapAt == sub.snapAt && (after.open ==> sub.open)
             && after.missed == sub.missed && after.dropped == sub.dropped
    ensures CountsFit(s.(subscribers := s.subscribers[c := after], hub := hub))
  {
    var sub := s.subscribers[c];
    forall e | e in s.publications ensures CopiesFit(s.publications[e], after, c, e) {
      assert EventFits(s.publications[e], s.subscribers, e);
      assert CopiesFit(s.publications[e], sub, c, e);
    }
    ChangedConnFits(s.publications, s.subscribers, c, after);
    assert NothingInventedFor(s.publications.Keys, sub);
    forall e | e !in s.publications.Keys ensures NoCopies(after, e) {
      assert NoCopies(sub, e);
    }
  }

  lemma CleanupKeepsCounts(s: State)
    requires Sound(s)
    ensures CountsFit(s.(log := [], unlogged := s.publications.Keys))
  {
  }

  lemma StepKeepsCounts(s: State, a: Action, caps: Caps)
    requires Sound(s)
    ensures CountsFit(Step(s, a, caps))
  {
    match a
    case Append(e) => AppendKeepsCounts(s, e, caps);
    case Begin(e) => BeginKeepsCounts(s, e);
    case Send(e, c) => SendKeepsCounts(s, e, c, caps);
    case End(e) => EndKeepsCounts(s, e);
    case Register(c) => RegisterKeepsCounts(s, c);
    case Snapshot(c) => SnapshotKeepsCounts(s, c);
    case Deliver(c) =>
      if c in s.subscribers {
        QuietChangeKeepsCounts(s, c, Delivered(s.subscribers[c]), s.hub);
      }
    case Remove(c) =>
      if c in s.subscribers {
        QuietChangeKeepsCounts(s, c, s.subscribers[c].(open := false), s.hub - {c});
      }
    case Cleanup => CleanupKeepsCounts(s);
  }

  lemma {:induction false} EveryRunIsSound(actions: seq<Action>, caps: Caps)
    ensures Sound(Run(actions, caps))
  {
    if actions != [] {
      var before, a := Run(actions[..|actions| - 1], caps), actions[|actions| - 1];
      EveryRunIsSound(actions[..|actions| - 1], caps);
      StepKeepsTimes(before, a, caps);
      StepKeepsCounts(before, a, caps);
    }
  }

  // ---- Order ----

  /** Published one after the other. */
  ghost predicate InAppendOrder(events: seq<Event>, pubs: Publications) {
    && (forall i :: 0 <= i < |events| ==> events[i] in pubs)
    && forall i, j :: 0 <= i < j < |events| ==> pubs[events[i]].appendedAt < pubs[events[j]].appendedAt
  }

  ghost predicate SentToAt(pubs: Publications, e: Event, c: Conn, clock: nat) {
    e in pubs && c in pubs[e].sentAt && pubs[e].sentAt[c] < clock
  }

  /** Sent to this channel one after the other. */
  ghost predicate InSendOrder(events: seq<Event>, c: Conn, pubs: Publications, clock: nat) {
    && (forall i :: 0 <= i < |events| ==> SentToAt(pubs, events[i], c, clock))
    && forall i, j :: 0 <= i < j < |events| ==> pubs[events[i]].sentAt[c] < pubs[events[j]].sentAt[c]
  }

  ghost predicate SubscriberInOrder(sub: Subscriber, c: Conn, pubs: Publications, clock: nat) {
    InAppendOrder(sub.replay, pubs) && InSendOrder(sub.sent, c, pubs, clock)
  }

  ghost predicate OrderKept(s: State, clock: nat) {
    && InAppendOrder(s.log, s.publications)
    && SubscribersInOrder(s.subscribers, s.publications, clock)
  }

  /** Publications are only added, and keep when they were appended and sent. */
  ghost predicate KeepsTimes(before: Publications, after: Publications) {
    forall e :: e in before ==>
      && e in after && after[e].appendedAt == before[e].appendedAt
      && forall c :: c in before[e].sentAt ==> c in after[e].sentAt && after[e].sentAt[c] == before[e].sentAt[c]
  }

  lemma AppendOrderStays(events: seq<Event>, before: Publications, after: Publications)
    requires InAppendOrder(events, before)
    requires forall e :: e in before ==> e in after && after[e].appendedAt == before[e].appendedAt
    ensures InAppendOrder(events, after)
  {
  }

  lemma OrderStays(s: State, pubs: Publications, clock: nat)
    requires OrderKept(s, clock) && KeepsTimes(s.publications, pubs)
    ensures OrderKept(s.(publications := pubs), clock + 1)
  {
    AppendOrderStays(s.log, s.publications, pubs);
    forall c | c in s.subscribers ensures SubscriberInOrder(s.subscribers[c], c, pubs, clock + 1) {
      var sub := s.subscribers[c];
      assert SubscriberInOrder(sub, c, s.publications, clock);
      AppendOrderStays(sub.replay, s.publications, pubs);
      forall i | 0 <= i < |sub.sent| ensures SentToAt(pubs, sub.sent[i], c, clock + 1) {
        assert SentToAt(s.publications, sub.sent[i], c, clock);
      }
    }
  }

  lemma AppendKeepsOrder(s: State, e: Event, caps: Caps)
    requires Sound(s) && OrderKept(s, s.clock)
    ensures OrderKept(AfterAppend(s, e, caps), s.clock + 1)
  {
    var next := AfterAppend(s, e, caps);
    OrderStays(s, next.publications, s.clock);
    if e !in s.publications {
      var n := |s.log|;
      forall i | 0 <= i < n ensures s.log[i] in s.publications && s.publications[s.log[i]].appendedAt < s.clock {
        assert PublicationFits(s.publications[s.log[i]], s.clock, s.hub);
      }
    }
  }

  /** The event sent joins the others of this channel at the end. */
  lemma SentJoins(sent: seq<Event>, e: Event, c: Conn, pubs: Publications, clock: nat)
    requires InSendOrder(sent, c, pubs, clock) && e in pubs && pubs[e].phase.Sending? && e !in sent
    ensures InSendOrder(sent, c, pubs[e := SentBy(pubs[e], c, clock)], clock + 1)
    ensures InSendOrder(sent + [e], c, pubs[e := SentBy(pubs[e], c, clock)], clock + 1)
  {
    forall i | 0 <= i < |sent| ensures SentToAt(pubs, sent[i], c, clock) && sent[i] != e {
    }
  }

  lemma OthersSent(sent: seq<Event>, e: Event, c: Conn, d: Conn, pubs: Publications, clock: nat)
    requires InSendOrder(sent, d, pubs, clock) && e in pubs && pubs[e].phase.Sending? && d != c
    ensures InSendOrder(sent, d, pubs[e := SentBy(pubs[e], c, clock)], clock + 1)
  {
    forall i | 0 <= i < |sent| ensures SentToAt(pubs, sent[i], d, clock) {
    }
  }

  lemma NotYetSent(s: State, e: Event, c: Conn)
    requires Sound(s) && c in s.subscribers && e in s.publications
    requires s.publications[e].phase.Sending? && c in s.publications[e].phase.pending
    ensures e !in s.subscribers[c].sent
  {
    assert EventFits(s.publications[e], s.subscribers, e) && CopiesFit(s.publications[e], s.subscribers[c], c, e);
  }

  lemma SendKeepsOneInOrder(sub: Subscriber, d: Conn, e: Event, c: Conn, pubs: Publications, clock: nat, cap: nat)
    requires SubscriberInOrder(sub, d, pubs, clock) && e in pubs && pubs[e].phase.Sending?
    requires d == c ==> e !in sub.sent
    ensures SubscriberInOrder(if d == c then SentTo(sub, e, cap) else sub, d, pubs[e := SentBy(pubs[e], c, clock)],
                              clock + 1)
  {
    AppendOrderStays(sub.replay, pubs, pubs[e := SentBy(pubs[e], c, clock)]);
    if d == c {
      SentJoins(sub.sent, e, c, pubs, clock);
    } else {
      OthersSent(sub.sent, e, c, d, pubs, clock);
    }
  }

  ghost predicate SubscribersInOrder(subs: Subscribers, pubs: Publications, clock: nat) {
    forall c :: c in subs ==> SubscriberInOrder(subs[c], c, pubs, clock)
  }

  lemma SendKeepsAllInOrder(subs: Subscribers, pubs: Publications, clock: nat, e: Event, c: Conn, cap: nat)
    requires SubscribersInOrder(subs, pubs, clock) && e in pubs && pubs[e].phase.Sending?
    requires c in subs && e !in subs[c].sent
    ensures SubscribersInOrder(subs[c := SentTo(subs[c], e, cap)], pubs[e := SentBy(pubs[e], c, clock)], clock + 1)
  {
    var after, next := subs[c := SentTo(subs[c], e, cap)], pubs[e := SentBy(pubs[e], c, clock)];
    forall d | d in after ensures SubscriberInOrder(after[d], d, next, clock + 1) {
      SendKeepsOneInOrder(subs[d], d, e, c, pubs, clock, cap);
    }
  }

  lemma SendKeepsOrder(s: State, e: Event, c: Conn, caps: Caps)
    requires Sound(s) && OrderKept(s, s.clock)
    ensures OrderKept(AfterSend(s, e, c, caps), s.clock + 1)
  {
    OrderStays(s, s.publications, s.clock);
    if AfterSend(s, e, c, caps) != s {
      NotYetSent(s, e, c);
      AppendOrderStays(s.log, s.publications, s.publications[e := SentBy(s.publications[e], c, s.clock)]);
      SendKeepsAllInOrder(s.subscribers, s.publications, s.clock, e, c, caps.channel);
    }
  }

  /** Changes of one subscriber that leave what was sent alone; the replay may become the log. */
  lemma SubscriberKeepsOrder(s: State, c: Conn, after: Subscriber, hub: set<Conn>)
    requires OrderKept(s, s.clock) && (c in s.subscribers || after.sent == after.replay == [])
    requires c in s.subscribers ==>
               after.sent == s.subscribers[c].sent && after.replay in {s.log, s.subscribers[c].replay}
    ensures OrderKept(s.(subscribers := s.subscribers[c := after], hub := hub), s.clock + 1)
  {
    OrderStays(s, s.publications, s.clock);
    var next := s.subscribers[c := after];
    forall d | d in next ensures SubscriberInOrder(next[d], d, s.publications, s.clock + 1) {
      assert d in s.subscribers ==> SubscriberInOrder(s.subscribers[d], d, s.publications, s.clock + 1);
    }
  }

  lemma StepKeepsOrder(s: State, a: Action, caps: Caps)
    requires Sound(s) && OrderKept(s, s.clock)
    ensures OrderKept(Step(s, a, caps), s.clock + 1)
  {
    OrderStays(s, s.publications, s.clock);
    match a
    case Append(e) => AppendKeepsOrder(s, e, caps);
    case Begin(e) => OrderStays(s, AfterBegin(s, e).publications, s.clock);
    case Send(e, c) => SendKeepsOrder(s, e, c, caps);
    case End(e) => OrderStays(s, AfterEnd(s, e).publications, s.clock);
    case Register(c) =>
      if c !in s.subscribers {
        SubscriberKeepsOrder(s, c, Subscriber(s.clock, 0, false, [], [], [], [], [], true, {}, {}), s.hub + {c});
      }
    case Snapshot(c) =>
      if c in s.subscribers && !s.subscribers[c].snapped {
        SubscriberKeepsOrder(s, c, AfterSnapshot(s, c).subscribers[c], s.hub);
      }
    case Deliver(c) =>
      if c in s.subscribers {
        SubscriberKeepsOrder(s, c, Delivered(s.subscribers[c]), s.hub);
      }
    case Remove(c) =>
      if c in s.subscribers {
        SubscriberKeepsOrder(s, c, s.subscribers[c].(open := false), s.hub - {c});
      }
    case Cleanup =>
  }

  /** In every run the log, and the replay each subscriber was given, hold events in the order in which they
      were published, and each channel got its events in the order in which they were sent to it. */
  lemma {:induction false} EveryRunKeepsOrder(actions: seq<Action>, caps: Caps)
    ensures OrderKept(Run(actions, caps), Run(actions, caps).clock)
  {
    if actions != [] {
      EveryRunIsSound(actions[..|actions| - 1], caps);
      EveryRunKeepsOrder(actions[..|actions| - 1], caps);
      StepKeepsOrder(Run(actions[..|actions| - 1], caps), actions[|actions| - 1], caps);
    }
  }

  /** No run sends to a closed channel. */
  lemma NeverSendsToClosed(actions: seq<Action>, caps: Caps)
    ensures !Run(actions, caps).panicked
  {
    EveryRunIsSound(actions, caps);
  }

  /** In every run, a subscriber is given no event more than twice, and twice only if the event was
      appended before its snapshot and broadcast after its registration. */
  lemma DuplicatesOnlyAtTheSeam(actions: seq<Action>, caps: Caps, e: Event, c: Conn)
    requires c in Run(actions, caps).subscribers
    ensures var s := Run(actions, caps);
            var sub := s.subscribers[c];
            var copies := Count(sub.delivered + sub.unwritten + sub.buffer, e);
            && (e !in s.publications ==> copies == 0)
            && (e in s.publications ==>
                  copies <= One(InReplay(s.publications[e], sub)) + One(OnAir(s.publications[e], sub, c)))
  {
    EveryRunIsSound(actions, caps);
    var s := Run(actions, caps);
    var sub := s.subscribers[c];
    CountAppend(sub.replay, sub.sent, e);
    assert SubscriberFits(sub, s.clock);
    assert NothingInventedFor(s.publications.Keys, sub);
    if e in s.publications {
      assert EventFits(s.publications[e], s.subscribers, e);
    } else {
      assert NoCopies(sub, e);
    }
  }

  /** An event a connected subscriber was given from the log. */
  predicate Replayed(p: Publication, sub: Subscriber, e: Event) {
    p.appendedAt < sub.snapAt && e !in sub.missed
  }

  /** And one it was given from the air. */
  predicate Aired(p: Publication, sub: Subscriber, e: Event) {
    sub.registeredAt < p.begunAt && e !in sub.dropped
  }

  /** A connected subscriber that has read everything out has received an event whose publishing finished
      once for the replay, if the event was in the log when that was copied, and once from the air, if it
      was broadcast after the registration into a channel with room. It is lost exactly when it was not in
      the replay given and either found this subscriber's channel full or was broadcast before the
      registration, and in the latter case only if the log had lost it. */
  lemma EventIsLostIff(actions: seq<Action>, caps: Caps, e: Event, c: Conn)
    requires var s := Run(actions, caps);
             && c in s.subscribers && e in s.publications && s.publications[e].phase.Sent?
             && s.subscribers[c].open && s.subscribers[c].snapped
                 && s.subscribers[c].unwritten == s.subscribers[c].buffer == []
    ensures var s := Run(actions, caps);
            var p, sub := s.publications[e], s.subscribers[c];
            && Count(sub.delivered, e) == One(Replayed(p, sub, e)) + One(Aired(p, sub, e))
            && (e !in sub.delivered <==>
                !Replayed(p, sub, e) && (e in sub.dropped || (p.begunAt <= sub.registeredAt && e in sub.missed)))
  {
    EveryRunIsSound(actions, caps);
    var s := Run(actions, caps);
    var p, sub := s.publications[e], s.subscribers[c];
    assert SubscriberFits(sub, s.clock) && PublicationFits(p, s.clock, s.hub) && EventFits(p, s.subscribers, e);
    assert CopiesFit(p, sub, c, e);
    assert sub.delivered + sub.unwritten + sub.buffer == sub.delivered;
    CountAppend(sub.replay, sub.sent, e);
  }

  /** What a subscriber receives is the replay, then the broadcasts, each in order and without gaps. */
  lemma ReplayThenBroadcasts(actions: seq<Action>, caps: Caps, c: Conn)
    requires c in Run(actions, caps).subscribers
    ensures var sub := Run(actions, caps).subscribers[c]; sub.delivered <= sub.replay + sub.sent
  {
    EveryRunIsSound(actions, caps);
    var s := Run(actions, caps);
    var sub := s.subscribers[c];
    assert SubscriberFits(sub, s.clock);
    assert sub.replay + sub.sent == sub.delivered + (sub.unwritten + sub.buffer);
  }
}
