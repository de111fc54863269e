/** The server-sent-event log hub of the MQTT test page: a buffer of the
    last 100 log lines, replayed to every new listener, and the set of open
    listener streams, each of which is dropped as soon as a send to it
    fails. Stream controllers are identified by numbers; which of them fail
    on a given send, and the clock, are parameters. */
module TestLogs {

  const MaxLogs: nat := 100

  /** What is sent on a stream. */
  datatype Event =
    | LogLine(message: string, timestamp: int)
    | Replayed(message: string)
    | Heartbeat(timestamp: int)
    | MqttData(data: string, timestamp: int)

  /** `recentLogs.push(m)` followed by `slice(-MAX_LOGS)` when too long. */
  function Appended(logs: seq<string>, m: string): (r: seq<string>)
    ensures |r| == if |logs| + 1 > MaxLogs then MaxLogs else |logs| + 1
    ensures r == (logs + [m])[|logs| + 1 - |r|..]
    ensures r[|r| - 1] == m
  {
    var all := logs + [m];
    if |all| > MaxLogs then all[|all| - MaxLogs..] else all
  }

  /** The streams of s not in gone, in order. */
  function Without(s: seq<nat>, gone: set<nat>): (r: seq<nat>)
    ensures |r| <= |s|
  {
    if s == [] then []
    else Without(s[..|s| - 1], gone) + (if s[|s| - 1] in gone then [] else [s[|s| - 1]])
  }

  /** The streams of s in failing, in order. */
  function Failed(s: seq<nat>, failing: set<nat>): seq<nat> {
    if s == [] then []
    else Failed(s[..|s| - 1], failing) + (if s[|s| - 1] in failing then [s[|s| - 1]] else [])
  }

  /** One send of ev to each of the streams, in order. */
  function Sends(streams: seq<nat>, ev: Event): (r: seq<(nat, Event)>)
    ensures |r| == |streams|
    ensures forall i :: 0 <= i < |streams| ==> r[i] == (streams[i], ev)
  {
    seq(|streams|, i requires 0 <= i < |streams| => (streams[i], ev))
  }

  /** The elements of a sequence, as a set. */
  function Elems(s: seq<nat>): set<nat> {
    if s == [] then {} else Elems(s[..|s| - 1]) + {s[|s| - 1]}
  }

  lemma {:induction false} ElemsMembers(s: seq<nat>, y: nat)
    ensures y in Elems(s) <==> y in s
  {
    if s != [] {
      ElemsMembers(s[..|s| - 1], y);
      assert s == s[..|s| - 1] + [s[|s| - 1]];
    }
  }

  lemma {:induction false} WithoutMembers(s: seq<nat>, gone: set<nat>, y: nat)
    ensures y in Without(s, gone) <==> y in s && y !in gone
  {
    if s != [] {
      WithoutMembers(s[..|s| - 1], gone, y);
      assert s == s[..|s| - 1] + [s[|s| - 1]];
    }
  }

  lemma {:induction false} FailedMembers(s: seq<nat>, failing: set<nat>, y: nat)
    ensures y in Failed(s, failing) <==> y in s && y in failing
  {
    if s != [] {
      FailedMembers(s[..|s| - 1], failing, y);
      assert s == s[..|s| - 1] + [s[|s| - 1]];
    }
  }

  /** Deleting one more stream after a batch is deleting both. */
  lemma {:induction false} WithoutOneMore(s: seq<nat>, gone: set<nat>, x: nat)
    ensures Without(Without(s, gone), {x}) == Without(s, gone + {x})
  {
    if s != [] {
      var init := s[..|s| - 1];
      WithoutOneMore(init, gone, x);
      var tail := if s[|s| - 1] in gone then [] else [s[|s| - 1]];
      WithoutAppend(Without(init, gone), tail, {x});
    }
  }

  lemma {:induction false} WithoutAppend(a: seq<nat>, b: seq<nat>, gone: set<nat>)
    ensures Without(a + b, gone) == Without(a, gone) + Without(b, gone)
    decreases |b|
  {
    if b == [] {
      assert a + b == a;
    } else {
      assert (a + b)[..|a + b| - 1] == a + b[..|b| - 1];
      assert (a + b)[|a + b| - 1] == b[|b| - 1];
      WithoutAppend(a, b[..|b| - 1], gone);
    }
  }

  lemma {:induction false} WithoutNothing(s: seq<nat>)
    ensures Without(s, {}) == s
  {
    if s != [] {
      WithoutNothing(s[..|s| - 1]);
      assert s == s[..|s| - 1] + [s[|s| - 1]];
    }
  }

  /** Only the members of s matter to Without. */
  lemma {:induction false} WithoutOnlyMembers(s: seq<nat>, a: set<nat>, b: set<nat>)
    requires forall y :: y in s ==> (y in a <==> y in b)
    ensures Without(s, a) == Without(s, b)
  {
    if s != [] {
      assert forall y :: y in s[..|s| - 1] ==> y in s;
      WithoutOnlyMembers(s[..|s| - 1], a, b);
    }
  }

  lemma {:induction false} WithoutNoDup(s: seq<nat>, gone: set<nat>)
    requires forall i, j :: 0 <= i < j < |s| ==> s[i] != s[j]
    ensures forall i, j :: 0 <= i < j < |Without(s, gone)| ==> Without(s, gone)[i] != Without(s, gone)[j]
  {
    if s != [] {
      var init := s[..|s| - 1];
      WithoutNoDup(init, gone);
      WithoutMembers(init, gone, s[|s| - 1]);
      assert s[|s| - 1] !in init;
    }
  }

  class LogHub {
    var recentLogs: seq<string>
    /** sseConnections, in insertion order (the order forEach visits). */
    var connections: seq<nat>
    /** Everything enqueued so far, stream by stream. */
    var sent: seq<(nat, Event)>

    ghost predicate Valid()
      reads this
    {
      |recentLogs| <= MaxLogs
      && forall i, j :: 0 <= i < j < |connections| ==> connections[i] != connections[j]
    }

    constructor()
      ensures Valid()
      ensures recentLogs == [] && connections == [] && sent == []
    {
      recentLogs := [];
      connections := [];
      sent := [];
    }

    /** The shared half of broadcastLog and broadcastMqttData: send ev to
        every open stream, collecting the ones whose send throws, then
        delete those. */
    method Broadcast(ev: Event, failing: set<nat>)
      requires Valid()
      modifies this`connections, this`sent
      ensures Valid()
      ensures connections == Without(old(connections), failing)
      ensures sent == old(sent) + Sends(Without(old(connections), failing), ev)
    {
      var dead := SendToAll(ev, failing);
      ghost var streams := connections;
      DeleteAll(dead);
      forall y | y in streams
        ensures y in Elems(dead) <==> y in failing
      {
        FailedMembers(streams, failing, y);
        ElemsMembers(dead, y);
      }
      WithoutOnlyMembers(streams, Elems(dead), failing);
      WithoutNoDup(streams, failing);
    }

    /** The first forEach: one send per open stream, in order. */
    method SendToAll(ev: Event, failing: set<nat>) returns (dead: seq<nat>)
      modifies this`sent
      ensures dead == Failed(connections, failing)
      ensures sent == old(sent) + Sends(Without(connections, failing), ev)
    {
      dead := [];
      for i := 0 to |connections|
        invariant dead == Failed(connections[..i], failing)
        invariant sent == old(sent) + Sends(Without(connections[..i], failing), ev)
      {
        assert connections[..i + 1][..i] == connections[..i];
        if connections[i] in failing {
          dead := dead + [connections[i]];
        } else {
          sent := sent + [(connections[i], ev)];
        }
      }
      assert connections[..|connections|] == connections;
    }

    /** The second forEach: `sseConnections.delete` of each dead stream. */
    method DeleteAll(dead: seq<nat>)
      modifies this`connections
      ensures connections == Without(old(connections), Elems(dead))
    {
      WithoutNothing(connections);
      for j := 0 to |dead|
        invariant connections == Without(old(connections), Elems(dead[..j]))
      {
        WithoutOneMore(old(connections), Elems(dead[..j]), dead[j]);
        assert dead[..j + 1][..j] == dead[..j];
        connections := Without(connections, {dead[j]});
      }
      assert dead[..|dead|] == dead;
    }

    /** broadcastLog: remember the line (keeping the last 100), then send it
        to every open stream. */
    method BroadcastLog(message: string, failing: set<nat>, now: int)
      requires Valid()
      modifies this
      ensures Valid()
      ensures recentLogs == Appended(old(recentLogs), message)
      ensures connections == Without(old(connections), failing)
      ensures sent == old(sent) + Sends(Without(old(connections), failing), LogLine(message, now))
    {
      recentLogs := recentLogs + [message];
      if |recentLogs| > MaxLogs {
        recentLogs := recentLogs[|recentLogs| - MaxLogs..];
      }
      Broadcast(LogLine(message, now), failing);
    }

    /** broadcastMqttData: the same, without touching the log buffer. */
    method BroadcastMqttData(data: string, failing: set<nat>, now: int)
      requires Valid()
      modifies this
      ensures Valid()
      ensures recentLogs == old(recentLogs)
      ensures connections == Without(old(connections), failing)
      ensures sent == old(sent) + Sends(Without(old(connections), failing), MqttData(data, now))
    {
      Broadcast(MqttData(data, now), failing);
    }

    /** GET: register the new stream, then replay the buffer to it in order;
        a replay send that throws is skipped and the stream stays. */
    method Open(c: nat, fails: bool)
      requires Valid()
      modifies this
      ensures Valid()
      ensures c in connections
      ensures connections == if c in old(connections) then old(connections) else old(connections) + [c]
      ensures sent == old(sent) + (if fails then [] else Replay(c, old(recentLogs)))
      ensures recentLogs == old(recentLogs)
    {
      if c !in connections {
        connections := connections + [c];
      }
      var logs := recentLogs;
      for i := 0 to |logs|
        invariant sent == old(sent) + (if fails then [] else Replay(c, logs[..i]))
        invariant recentLogs == logs && connections == old(connections) + (if c in old(connections) then [] else [c])
      {
        assert logs[..i + 1][..i] == logs[..i];
        if !fails {
          sent := sent + [(c, Replayed(logs[i]))];
        }
      }
      assert logs[..|logs|] == logs;
    }

    /** The 30-second heartbeat of one stream: a failed send removes it. */
    method Beat(c: nat, fails: bool, now: int)
      requires Valid()
      modifies this
      ensures Valid()
      ensures fails ==> connections == Without(old(connections), {c}) && sent == old(sent)
      ensures !fails ==> connections == old(connections) && sent == old(sent) + [(c, Heartbeat(now))]
      ensures recentLogs == old(recentLogs)
    {
      if fails {
        WithoutNoDup(connections, {c});
        connections := Without(connections, {c});
      } else {
        sent := sent + [(c, Heartbeat(now))];
      }
    }

    /** The request's abort: the stream is removed. */
    method Abort(c: nat)
      requires Valid()
      modifies this`connections
      ensures Valid()
      ensures connections == Without(old(connections), {c})
    {
      WithoutNoDup(connections, {c});
      connections := Without(connections, {c});
    }
  }

  /** The replay of logs to stream c. */
  function Replay(c: nat, logs: seq<string>): (r: seq<(nat, Event)>)
    ensures |r| == |logs|
    ensures forall i :: 0 <= i < |logs| ==> r[i] == (c, Replayed(logs[i]))
  {
    if logs == [] then [] else Replay(c, logs[..|logs| - 1]) + [(c, Replayed(logs[|logs| - 1]))]
  }

  /** A broadcast keeps exactly the streams whose send did not throw, and
      every kept stream received the event. */
  lemma BroadcastKeepsLiveStreams(conns: seq<nat>, failing: set<nat>, ev: Event, c: nat)
    ensures c in Without(conns, failing) <==> c in conns && c !in failing
    ensures c in conns && c !in failing ==> (c, ev) in Sends(Without(conns, failing), ev)
  {
    WithoutMembers(conns, failing, c);
    if c in conns && c !in failing {
      var i :| 0 <= i < |Without(conns, failing)| && Without(conns, failing)[i] == c;
      assert Sends(Without(conns, failing), ev)[i] == (c, ev);
    }
  }

  /** The buffer after a run of log lines is the last (at most) 100 of the
      old buffer followed by them. */
  lemma {:induction false} AppendedIsLastN(logs: seq<string>, ms: seq<string>)
    requires |logs| <= MaxLogs
    ensures var all := logs + ms;
      AppendAll(logs, ms) == all[if |all| > MaxLogs then |all| - MaxLogs else 0..]
  {
    if ms == [] {
      assert logs + ms == logs;
    } else {
      var init := ms[..|ms| - 1];
      var m := ms[|ms| - 1];
      AppendedIsLastN(logs, init);
      var l := logs + init;
      var k := if |l| > MaxLogs then |l| - MaxLogs else 0;
      var r := l[k..];
      assert r + [m] == (l + [m])[k..];
      assert l + [m] == logs + ms;
    }
  }

  function AppendAll(logs: seq<string>, ms: seq<string>): seq<string> {
    if ms == [] then logs else Appended(AppendAll(logs, ms[..|ms| - 1]), ms[|ms| - 1])
  }
}
