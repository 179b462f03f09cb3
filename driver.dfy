/** The driver of `main.rs`: it builds the earlier state machine for a
    fixed server, feeds it `Connect` from the loop condition while it is
    in `Start`, and otherwise one event per pass read from the
    connection, until it finishes, fails or the counter reaches 11. */
module Driver {
  import opened Wrappers
  import Stream
  import opened Utf8
  import opened StateEvents
  import opened EarlyMachine

  const Host: string := "smtp.azurecomm.net"
  const Port: Stream.u16 := 587
  /** The counter value at which the loop gives up. */
  const Ceiling: int := 11

  /** The loop condition's arms after `Start`: stop when finished within
      ten passes, when the counter reached the ceiling, or when failed. */
  predicate KeepGoing(s: State, counter: int) {
    if s == Finished && counter <= 10 then false
    else if counter >= Ceiling then false
    else s != Failed
  }

  /** The loop goes on exactly when the machine is neither failed nor
      finished and the counter is below the ceiling. */
  lemma KeepGoingMeaning(s: State, counter: int)
    ensures KeepGoing(s, counter) <==> s != Failed && s != Finished && counter < Ceiling
  {
  }

  /** The condition of the `while`: in `Start` it hands `Connect` to the
      machine and goes on, before looking at the counter; otherwise it
      is `KeepGoing`. */
  method LoopCondition(m: StateMachine, counter: int, net: Stream.Network) returns (go: bool)
    modifies m`state, m.conn`stream, m.conn`log
    ensures old(m.state) == Start ==>
      && go
      && var r := Transition(Start, Connect, m.Fields(old(m.conn.stream)), net);
      && m.state == r.state && m.conn.stream == r.stream && m.conn.log == old(m.conn.log) + r.writes
    ensures old(m.state) != Start ==>
      && go == KeepGoing(m.state, counter)
      && m.state == old(m.state) && m.conn.stream == old(m.conn.stream) && m.conn.log == old(m.conn.log)
  {
    if m.state == Start {
      m.HandleEvent(Connect, net);
      go := true;
    } else {
      go := KeepGoing(m.state, counter);
    }
  }

  /** One pass as `main` runs it: the machine in `s` over `stream`
      takes event `e` under `net` and is left in `s'` over `stream'`. */
  predicate Passed(s: State, stream: Stream.Stream, e: Event, net: Stream.Network, s': State, stream': Stream.Stream) {
    var r := Transition(s, e, Conn(stream, None, None), net);
    s' == r.state && stream' == r.stream
  }

  /** Pass `k + 1` of a run: the loop went on after pass `k`, the event
      `e` is what `get_event` returns for what the server sent at that
      pass, and the machine moves from `s` over `stream` to `s'` over
      `stream'` as `handle_event` says. */
  predicate Ran(k: nat, s: State, stream: Stream.Stream, e: Event, s': State, stream': Stream.Stream,
                nets: nat -> Stream.Network, incoming: nat -> Stream.Incoming, decode: seq<byte> -> string)
  {
    && (k > 0 ==> KeepGoing(s, k))
    && e == Delivered(stream, incoming(k + 1), decode)
    && Passed(s, stream, e, nets(k + 1), s', stream')
  }

  /** The connection attempt from `Start` and then the first `n` passes
      of a run, one after the other. */
  predicate Trace(events: seq<Event>, states: seq<State>, streams: seq<Stream.Stream>, n: nat, connectNet: Stream.Network,
                  nets: nat -> Stream.Network, incoming: nat -> Stream.Incoming, decode: seq<byte> -> string)
    requires n <= |events| && n < |states| && n < |streams|
    decreases n, 0
  {
    if n == 0 then Passed(Start, Stream.NoStream, Connect, connectNet, states[0], streams[0])
    else TraceThrough(events, states, streams, n - 1, connectNet, nets, incoming, decode)
  }

  /** A trace up to pass `k + 1`. */
  predicate TraceThrough(events: seq<Event>, states: seq<State>, streams: seq<Stream.Stream>, k: nat, connectNet: Stream.Network,
                         nets: nat -> Stream.Network, incoming: nat -> Stream.Incoming, decode: seq<byte> -> string)
    requires k < |events| && k + 1 < |states| && k + 1 < |streams|
    decreases k, 1
  {
    Trace(events, states, streams, k, connectNet, nets, incoming, decode) && Ran(k, states[k], streams[k], events[k], states[k + 1], streams[k + 1], nets, incoming, decode)
  }

  /** A trace is the connection attempt and every one of its passes. */
  lemma {:induction false} TraceMeans(events: seq<Event>, states: seq<State>, streams: seq<Stream.Stream>, n: nat,
                                      connectNet: Stream.Network, nets: nat -> Stream.Network,
                                      incoming: nat -> Stream.Incoming, decode: seq<byte> -> string)
    requires n <= |events| && n < |states| && n < |streams|
    ensures Trace(events, states, streams, n, connectNet, nets, incoming, decode)
        <==> && Passed(Start, Stream.NoStream, Connect, connectNet, states[0], streams[0])
             && forall k :: 0 <= k < n ==> Ran(k, states[k], streams[k], events[k], states[k + 1], streams[k + 1], nets, incoming, decode)
  {
    if n > 0 {
      TraceMeans(events, states, streams, n - 1, connectNet, nets, incoming, decode);
      var last := Ran(n - 1, states[n - 1], streams[n - 1], events[n - 1], states[n], streams[n], nets, incoming, decode);
      assert Trace(events, states, streams, n, connectNet, nets, incoming, decode)
          == (Trace(events, states, streams, n - 1, connectNet, nets, incoming, decode) && last);
      if forall k :: 0 <= k < n - 1 ==> Ran(k, states[k], streams[k], events[k], states[k + 1], streams[k + 1], nets, incoming, decode) {
        if last {
          assert forall k :: 0 <= k < n ==> Ran(k, states[k], streams[k], events[k], states[k + 1], streams[k + 1], nets, incoming, decode);
        }
      }
    }
  }

  /** Recording one more pass keeps the passes already recorded. */
  lemma {:induction false} TraceGrows(events: seq<Event>, states: seq<State>, streams: seq<Stream.Stream>, n: nat,
                                      e: Event, s: State, stream: Stream.Stream, connectNet: Stream.Network,
                                      nets: nat -> Stream.Network, incoming: nat -> Stream.Incoming, decode: seq<byte> -> string)
    requires n <= |events| && n < |states| && n < |streams|
    requires Trace(events, states, streams, n, connectNet, nets, incoming, decode)
    ensures Trace(events + [e], states + [s], streams + [stream], n, connectNet, nets, incoming, decode)
    decreases n
  {
    if n > 0 {
      TraceGrows(events, states, streams, n - 1, e, s, stream, connectNet, nets, incoming, decode);
      var k := n - 1;
      assert (events + [e])[k] == events[k] && (states + [s])[k] == states[k] && (states + [s])[k + 1] == states[k + 1];
      assert (streams + [stream])[k] == streams[k] && (streams + [stream])[k + 1] == streams[k + 1];
    } else {
      assert (states + [s])[0] == states[0] && (streams + [stream])[0] == streams[0];
    }
  }

  /** Given what the server sends and what the network does, a trace
      is fixed: two traces of `n` passes end in the same state over the
      same stream. */
  lemma {:induction false} TraceDetermined(events: seq<Event>, states: seq<State>, streams: seq<Stream.Stream>,
                                           events2: seq<Event>, states2: seq<State>, streams2: seq<Stream.Stream>, n: nat,
                                           connectNet: Stream.Network, nets: nat -> Stream.Network,
                                           incoming: nat -> Stream.Incoming, decode: seq<byte> -> string)
    requires n <= |events| && n < |states| && n < |streams|
    requires n <= |events2| && n < |states2| && n < |streams2|
    requires Trace(events, states, streams, n, connectNet, nets, incoming, decode)
    requires Trace(events2, states2, streams2, n, connectNet, nets, incoming, decode)
    ensures states[n] == states2[n] && streams[n] == streams2[n]
    decreases n
  {
    if n > 0 {
      TraceDetermined(events, states, streams, events2, states2, streams2, n - 1, connectNet, nets, incoming, decode);
    }
  }

  /** The body of the loop of `main` at pass `k`, the loop having gone
      on after pass `n = k - 1` (`n` is passed on its own so that the
      caller's facts about the trace so far are met as written), and
      the loop condition after it: exactly one event from `get_event`,
      handed unchanged to `handle_event`; the trace gains that pass. */
  method Step(m: StateMachine, ghost events: seq<Event>, ghost states: seq<State>, ghost streams: seq<Stream.Stream>,
              ghost n: nat, k: nat, connectNet: Stream.Network, nets: nat -> Stream.Network,
              incoming: nat -> Stream.Incoming, decode: seq<byte> -> string)
    returns (event: Event, go: bool, ghost events': seq<Event>, ghost states': seq<State>, ghost streams': seq<Stream.Stream>)
    requires k == n + 1
    requires |events| == n && |states| == n + 1 && |streams| == n + 1
    requires Trace(events, states, streams, n, connectNet, nets, incoming, decode)
    requires m.state == states[n] && m.conn.stream == streams[n]
    requires n > 0 ==> KeepGoing(m.state, n)
    requires m.state != Start && Coherent(m.state, m.conn.stream)
    requires m.conn.username.None? && m.conn.password.None?
    modifies m`state, m.conn`stream, m.conn`log
    ensures events' == events + [event] && states' == states + [m.state] && streams' == streams + [m.conn.stream]
    ensures |events'| == k && |states'| == k + 1 && |streams'| == k + 1
    ensures Trace(events', states', streams', k, connectNet, nets, incoming, decode)
    ensures m.state == states'[k] && m.conn.stream == streams'[k]
    ensures m.state != Start && m.state != Finished && Coherent(m.state, m.conn.stream)
    ensures go == KeepGoing(m.state, k)
  {
    event := GetEvent(m.conn, incoming(k), decode);
    NeverStartOrHelloAccepted(m.state, event, m.Fields(m.conn.stream), nets(k));
    FinishedIffComplete(m.state, event, m.Fields(m.conn.stream), nets(k));
    CoherentPreserved(m.state, event, m.Fields(m.conn.stream), nets(k));
    m.HandleEvent(event, nets(k));
    TraceGrows(events, states, streams, n, event, m.state, m.conn.stream, connectNet, nets, incoming, decode);
    events', states', streams' := events + [event], states + [m.state], streams + [m.conn.stream];
    assert Ran(n, states'[n], streams'[n], events'[n], states'[n + 1], streams'[n + 1], nets, incoming, decode);
    go := LoopCondition(m, k, nets(k));
  }

  /** The first evaluation of the loop condition, on the fresh machine:
      it connects, and the loop goes on to its first pass. */
  method Open(m: StateMachine, connectNet: Stream.Network, nets: nat -> Stream.Network,
              incoming: nat -> Stream.Incoming, decode: seq<byte> -> string)
    returns (go: bool, ghost events: seq<Event>, ghost states: seq<State>, ghost streams: seq<Stream.Stream>)
    requires m.state == Start && m.conn.stream == Stream.NoStream
    requires m.conn.username.None? && m.conn.password.None?
    modifies m`state, m.conn`stream, m.conn`log
    ensures go && events == [] && states == [m.state] && streams == [m.conn.stream]
    ensures Trace(events, states, streams, 0, connectNet, nets, incoming, decode)
    ensures m.state != Start && m.state != Finished && Coherent(m.state, m.conn.stream)
  {
    NeverStartOrHelloAccepted(Start, Connect, m.Fields(Stream.NoStream), connectNet);
    FinishedIffComplete(Start, Connect, m.Fields(Stream.NoStream), connectNet);
    CoherentPreserved(Start, Connect, m.Fields(Stream.NoStream), connectNet);
    go := LoopCondition(m, 0, connectNet);
    events, states, streams := [], [m.state], [m.conn.stream];
  }

  /** `main`: the machine for `smtp.azurecomm.net:587`, then the loop.
      Pass `k` (counted from 1) reads `incoming(k)` and runs its
      transition under `nets(k)`; `connectNet` is what the connection
      attempt from `Start` meets. `states[k]` and `streams[k]` are the
      machine after pass `k` (after the connection attempt for `k = 0`)
      and `events[k]` is the event of pass `k + 1`; `Trace` says that
      each pass went on from the one before, took exactly one event from
      `get_event` and handed it unchanged to `handle_event`. The stream
      always fits the state (`Coherent`). The loop ends after at most 11
      passes with the machine failed or the counter at the ceiling: the
      events it reads never include `Complete`, so it never finishes. */
  method Run(connectNet: Stream.Network, nets: nat -> Stream.Network,
             incoming: nat -> Stream.Incoming, decode: seq<byte> -> string)
    returns (final: State, counter: int, ghost events: seq<Event>, ghost states: seq<State>, ghost streams: seq<Stream.Stream>)
    ensures 1 <= counter <= Ceiling
    ensures |events| == counter && |states| == counter + 1 && |streams| == counter + 1
    ensures Trace(events, states, streams, counter, connectNet, nets, incoming, decode)
    ensures final == states[counter]
    ensures final != Start && final != Finished
    ensures final == Failed || counter == Ceiling
    ensures !KeepGoing(final, counter)
  {
    var m := new StateMachine.New(Host, Port);
    counter := 0;
    var current := m.state;
    var go;
    go, events, states, streams := Open(m, connectNet, nets, incoming, decode);
    while go
      invariant 0 <= counter <= Ceiling
      invariant m.state != Start && m.state != Finished
      invariant Coherent(m.state, m.conn.stream)
      invariant m.conn.username.None? && m.conn.password.None?
      invariant counter > 0 ==> current == m.state
      invariant go ==> counter < Ceiling
      invariant go == (counter == 0 || KeepGoing(m.state, counter))
      invariant |events| == counter && |states| == counter + 1 && |streams| == counter + 1
      invariant Trace(events, states, streams, counter, connectNet, nets, incoming, decode)
      invariant m.state == states[counter] && m.conn.stream == streams[counter]
      decreases Ceiling - counter
    {
      ghost var done := counter;
      counter := counter + 1;
      var event;
      event, go, events, states, streams := Step(m, events, states, streams, done, counter, connectNet, nets, incoming, decode);
      if current != m.state {
        current := m.state;
      }
    }
    final := m.state;
  }
}
