/** The live fan-out hub (internal/delivery/http/handler.go). The connection
    set is the `clients` map of the source; each arm of the `select` in
    Hub.Run is a sequential method. A connection's write outcome for a
    broadcast is given as a predicate. Besides the set, the model keeps what
    the connections observe: the close calls made on each, and the messages
    successfully written to each, in order. */
module LiveHub {
  import opened Wrappers

  /** A websocket connection handle. */
  datatype Conn = Conn(id: nat)

  /** A broadcast payload: the bytes of one record of the alerts topic. */
  type Message = string

  datatype HubState = HubState(
    clients: set<Conn>,
    closes: multiset<Conn>,
    sent: map<Conn, seq<Message>>)

  function SentTo(sent: map<Conn, seq<Message>>, c: Conn): seq<Message> {
    if c in sent then sent[c] else []
  }

  /** Append `msg` to what each connection of `to` has received. */
  function Deliver(sent: map<Conn, seq<Message>>, to: set<Conn>, msg: Message): map<Conn, seq<Message>> {
    map c | c in sent.Keys + to :: SentTo(sent, c) + (if c in to then [msg] else [])
  }

  lemma DeliverToNone(sent: map<Conn, seq<Message>>, msg: Message)
    ensures Deliver(sent, {}, msg) == sent
  {
    var d := Deliver(sent, {}, msg);
    assert d.Keys == sent.Keys;
    forall c | c in sent.Keys
      ensures d[c] == sent[c]
    {
    }
  }

  /** Delivering to one more connection appends to its history only. */
  lemma DeliverOneMore(sent: map<Conn, seq<Message>>, to: set<Conn>, c: Conn, msg: Message)
    requires c !in to
    ensures Deliver(sent, to + {c}, msg)
         == Deliver(sent, to, msg)[c := SentTo(Deliver(sent, to, msg), c) + [msg]]
  {
    var a := Deliver(sent, to + {c}, msg);
    var b := Deliver(sent, to, msg)[c := SentTo(Deliver(sent, to, msg), c) + [msg]];
    assert a.Keys == b.Keys;
    forall x | x in a.Keys
      ensures a[x] == b[x]
    {
    }
  }

  lemma FailingOneMore(done: set<Conn>, c: Conn, ok: Conn -> bool)
    requires c !in done
    ensures !ok(c) ==> Failing(done + {c}, ok) == Failing(done, ok) + {c}
    ensures ok(c) ==> Failing(done + {c}, ok) == Failing(done, ok)
    ensures multiset(Failing(done, ok) + {c}) == multiset(Failing(done, ok)) + multiset{c}
  {
  }

  /** The connections whose write fails. */
  function Failing(clients: set<Conn>, ok: Conn -> bool): set<Conn> {
    set c | c in clients && !ok(c)
  }

  /** The register arm: nil is ignored; only the given connection can join,
      and nothing is closed or written. */
  function AfterRegister(s: HubState, c: Option<Conn>): (r: HubState)
    ensures s.clients <= r.clients
    ensures forall x :: x in r.clients && x !in s.clients ==> c == Some(x)
    ensures r.closes == s.closes && r.sent == s.sent
  {
    if c.None? then s else s.(clients := s.clients + {c.value})
  }

  /** The unregister arm: a present connection is closed and removed; nil or
      an absent connection changes nothing. A connection is closed only as it
      leaves the set, and nothing is written. */
  function AfterUnregister(s: HubState, c: Option<Conn>): (r: HubState)
    ensures r.clients <= s.clients && s.closes <= r.closes
    ensures forall x :: r.closes[x] > s.closes[x] ==> x in s.clients && x !in r.clients
    ensures r.sent == s.sent
  {
    if c.None? || c.value !in s.clients then s
    else s.(clients := s.clients - {c.value}, closes := s.closes + multiset{c.value})
  }

  /** The broadcast arm: one write per connection; each failing connection is
      closed and removed. No connection joins, a connection is closed only as
      it leaves the set, and a history only grows, by the message, for the
      connections that stay. */
  function AfterBroadcast(s: HubState, msg: Message, ok: Conn -> bool): (r: HubState)
    ensures r.clients <= s.clients && s.closes <= r.closes
    ensures forall x :: r.closes[x] > s.closes[x] ==> x in s.clients && x !in r.clients
    ensures forall x :: SentTo(s.sent, x) <= SentTo(r.sent, x)
    ensures forall x :: SentTo(r.sent, x) != SentTo(s.sent, x) ==> x in r.clients
  {
    var failed := Failing(s.clients, ok);
    var d := Deliver(s.sent, s.clients - failed, msg);
    assert forall x :: SentTo(d, x) == SentTo(s.sent, x) + (if x in s.clients - failed then [msg] else []);
    HubState(s.clients - failed, s.closes + multiset(failed), d)
  }

  /** What the select loop receives next. */
  datatype HubEvent =
    | Done
    | RegisterEvent(conn: Option<Conn>)
    | UnregisterEvent(conn: Option<Conn>)
    | BroadcastEvent(msg: Message, ok: Conn -> bool)

  /** The state after the select loop has taken `events` in order; it returns
      at `Done`. Over any run, close calls are only added and each
      connection's history is only extended. */
  function RunEvents(s: HubState, events: seq<HubEvent>): (r: HubState)
    ensures s.closes <= r.closes
    ensures forall x :: SentTo(s.sent, x) <= SentTo(r.sent, x)
    decreases |events|
  {
    if events == [] then s
    else match events[0]
      case Done => s
      case RegisterEvent(c) => RunEvents(AfterRegister(s, c), events[1..])
      case UnregisterEvent(c) => RunEvents(AfterUnregister(s, c), events[1..])
      case BroadcastEvent(msg, ok) => RunEvents(AfterBroadcast(s, msg, ok), events[1..])
  }

  class Hub {
    var clients: set<Conn>
    var closes: multiset<Conn>
    var sent: map<Conn, seq<Message>>

    function State(): HubState
      reads this
    {
      HubState(clients, closes, sent)
    }

    /** NewHub: no clients. */
    constructor ()
      ensures State() == HubState({}, multiset{}, map[])
    {
      clients := {};
      closes := multiset{};
      sent := map[];
    }

    method Register(c: Option<Conn>)
      modifies this
      ensures State() == AfterRegister(old(State()), c)
    {
      if c.None? {
        return;
      }
      clients := clients + {c.value};
    }

    method Unregister(c: Option<Conn>)
      modifies this
      ensures State() == AfterUnregister(old(State()), c)
    {
      if c.None? {
        return;
      }
      if c.value in clients {
        closes := closes + multiset{c.value};
        clients := clients - {c.value};
      }
    }

    /** Write `msg` to every connection, closing and removing each whose
        write fails, in whatever order the set is walked. */
    method Broadcast(msg: Message, ok: Conn -> bool)
      modifies this
      ensures State() == AfterBroadcast(old(State()), msg, ok)
    {
      var todo := clients;
      ghost var done: set<Conn> := {};
      PartialBroadcastNone(State(), msg, ok);
      while todo != {}
        invariant todo <= old(clients) && done == old(clients) - todo
        invariant State() == PartialBroadcast(old(State()), done, msg, ok)
        decreases todo
      {
        var c :| c in todo;
        PartialBroadcastStep(old(State()), done, c, msg, ok);
        if ok(c) {
          sent := sent[c := SentTo(sent, c) + [msg]];
        } else {
          closes := closes + multiset{c};
          clients := clients - {c};
        }
        todo := todo - {c};
        done := done + {c};
      }
    }

    /** Run: take the events in order until `Done`. */
    method Run(events: seq<HubEvent>)
      modifies this
      ensures State() == RunEvents(old(State()), events)
    {
      var i := 0;
      while i < |events|
        invariant 0 <= i <= |events|
        invariant RunEvents(old(State()), events) == RunEvents(State(), events[i..])
        decreases |events| - i
      {
        assert events[i..][1..] == events[i + 1..];
        match events[i] {
          case Done =>
            return;
          case RegisterEvent(c) =>
            Register(c);
          case UnregisterEvent(c) =>
            Unregister(c);
          case BroadcastEvent(msg, ok) =>
            Broadcast(msg, ok);
        }
        i := i + 1;
      }
    }
  }

  /** The state once the broadcast loop has written to the connections of
      `done`. */
  function PartialBroadcast(s: HubState, done: set<Conn>, msg: Message, ok: Conn -> bool): HubState {
    var failed := Failing(done, ok);
    HubState(s.clients - failed, s.closes + multiset(failed), Deliver(s.sent, done - failed, msg))
  }

  lemma PartialBroadcastNone(s: HubState, msg: Message, ok: Conn -> bool)
    ensures PartialBroadcast(s, {}, msg, ok) == s
  {
    DeliverToNone(s.sent, msg);
    assert Failing({}, ok) == {};
  }

  /** One write of the broadcast loop. */
  lemma PartialBroadcastStep(s: HubState, done: set<Conn>, c: Conn, msg: Message, ok: Conn -> bool)
    requires c !in done
    ensures var p := PartialBroadcast(s, done, msg, ok);
      PartialBroadcast(s, done + {c}, msg, ok)
      == if ok(c) then p.(sent := p.sent[c := SentTo(p.sent, c) + [msg]])
         else p.(clients := p.clients - {c}, closes := p.closes + multiset{c})
  {
    var failed := Failing(done, ok);
    FailingOneMore(done, c, ok);
    if ok(c) {
      DeliverOneMore(s.sent, done - failed, c, msg);
      assert done + {c} - failed == done - failed + {c};
    } else {
      assert done + {c} - (failed + {c}) == done - failed;
    }
  }

  // ---------------------------------------------------------------------
  // Properties

  lemma RegisterAdds(s: HubState, c: Option<Conn>)
    ensures c.None? ==> AfterRegister(s, c) == s
    ensures c.Some? ==> (AfterRegister(s, c).clients == s.clients + {c.value}
                      && AfterRegister(s, c).closes == s.closes && AfterRegister(s, c).sent == s.sent)
  {
  }

  /** Unregistering twice is unregistering once; a present connection is
      closed exactly once. */
  lemma UnregisterIdempotent(s: HubState, c: Option<Conn>)
    ensures AfterUnregister(AfterUnregister(s, c), c) == AfterUnregister(s, c)
    ensures c.Some? && c.value in s.clients ==>
      c.value !in AfterUnregister(s, c).clients && AfterUnregister(s, c).closes[c.value] == s.closes[c.value] + 1
  {
  }

  /** After a broadcast the set is the old set minus the failing connections,
      each of which is closed once; the others receive the message; no
      connection is added. */
  lemma BroadcastPrunes(s: HubState, msg: Message, ok: Conn -> bool, c: Conn)
    ensures var t := AfterBroadcast(s, msg, ok);
      && t.clients <= s.clients
      && (c in t.clients <==> c in s.clients && ok(c))
      && t.closes[c] == s.closes[c] + (if c in s.clients && !ok(c) then 1 else 0)
      && SentTo(t.sent, c) == SentTo(s.sent, c) + (if c in s.clients && ok(c) then [msg] else [])
  {
  }

  predicate AllBroadcasts(events: seq<HubEvent>) {
    forall i :: 0 <= i < |events| ==> events[i].BroadcastEvent?
  }

  function Payloads(events: seq<HubEvent>): seq<Message>
    requires AllBroadcasts(events)
  {
    if events == [] then [] else [events[0].msg] + Payloads(events[1..])
  }

  /** One step of a run of broadcasts. */
  lemma RunBroadcastStep(s: HubState, events: seq<HubEvent>)
    requires AllBroadcasts(events) && events != []
    ensures AllBroadcasts(events[1..])
    ensures RunEvents(s, events) == RunEvents(AfterBroadcast(s, events[0].msg, events[0].ok), events[1..])
    ensures Payloads(events) == [events[0].msg] + Payloads(events[1..])
  {
    assert forall i :: 0 <= i < |events[1..]| ==> events[1..][i] == events[i + 1];
  }

  lemma AppendAssociates(a: seq<Message>, b: seq<Message>, c: seq<Message>)
    ensures (a + b) + c == a + (b + c)
  {
  }

  /** N broadcasts: a registered connection whose writes all succeed stays
      registered and receives all N messages, in order. */
  lemma {:induction false} LiveConnectionReceivesAll(s: HubState, events: seq<HubEvent>, c: Conn)
    requires AllBroadcasts(events)
    requires c in s.clients
    requires forall i :: 0 <= i < |events| ==> events[i].ok(c)
    ensures c in RunEvents(s, events).clients
    ensures SentTo(RunEvents(s, events).sent, c) == SentTo(s.sent, c) + Payloads(events)
    decreases |events|
  {
    if events != [] {
      var e := events[0];
      var rest := events[1..];
      var t := AfterBroadcast(s, e.msg, e.ok);
      RunBroadcastStep(s, events);
      assert e.ok(c);
      BroadcastPrunes(s, e.msg, e.ok, c);
      assert forall i :: 0 <= i < |rest| ==> rest[i].ok(c) by {
        forall i | 0 <= i < |rest| ensures rest[i].ok(c) {
          assert rest[i] == events[i + 1];
        }
      }
      LiveConnectionReceivesAll(t, rest, c);
      AppendAssociates(SentTo(s.sent, c), [e.msg], Payloads(rest));
    }
  }

  /** N broadcasts: a connection that is not registered (for instance one
      pruned by a failed write) stays out and receives nothing more. */
  lemma {:induction false} PrunedConnectionReceivesNothing(s: HubState, events: seq<HubEvent>, c: Conn)
    requires AllBroadcasts(events)
    requires c !in s.clients
    ensures c !in RunEvents(s, events).clients
    ensures SentTo(RunEvents(s, events).sent, c) == SentTo(s.sent, c)
    decreases |events|
  {
    if events != [] {
      var e := events[0];
      var t := AfterBroadcast(s, e.msg, e.ok);
      BroadcastPrunes(s, e.msg, e.ok, c);
      assert forall i :: 0 <= i < |events[1..]| ==> events[1..][i] == events[i + 1];
      PrunedConnectionReceivesNothing(t, events[1..], c);
    }
  }

  /** The loop returns once the context is done: later events are not
      taken. */
  lemma DoneStops(s: HubState, events: seq<HubEvent>)
    ensures RunEvents(s, [Done] + events) == s
  {
  }
}
