/** The MQTT test launcher route: a registry of running test-device
    processes, keyed by id in insertion order, that admits one start at a
    time and a stop that signals every live process. Spawning, signals and
    the clock are inputs; what the route logs goes to the log hub. */
module TestRunner {
  import opened Common
  import opened Folds
  import opened TestLogs

  /** A spawned process as the route sees it. */
  datatype Process = Process(pid: int, killed: bool)

  datatype Reply =
    | Started(processId: string, pid: int)
    | AlreadyRunning
    | NothingToStop
    | Stopped(count: nat)
    | InvalidAction
    | ServerError
    | StatusReport(running: bool, processes: seq<(string, int, bool)>)

  function StatusCode(r: Reply): int {
    match r
    case AlreadyRunning => 409
    case InvalidAction => 400
    case ServerError => 500
    case _ => 200
  }

  predicate Live(e: (string, Process)) {
    !e.1.killed
  }

  /** The line of GET for one entry: id, pid and `!killed`. */
  function StatusRows(entries: seq<(string, Process)>): (r: seq<(string, int, bool)>)
    ensures |r| == |entries|
    ensures forall i :: 0 <= i < |entries| ==>
      r[i] == (entries[i].0, entries[i].1.pid, !entries[i].1.killed)
  {
    seq(|entries|, i requires 0 <= i < |entries| => (entries[i].0, entries[i].1.pid, !entries[i].1.killed))
  }

  /** The pids of the live entries, in order. */
  function LivePids(entries: seq<(string, Process)>): (r: seq<int>)
    ensures forall p :: p in r ==> exists e :: e in entries && Live(e) && e.1.pid == p
  {
    if entries == [] then []
    else
      LivePids(entries[..|entries| - 1]) + (if Live(entries[|entries| - 1]) then [entries[|entries| - 1].1.pid] else [])
  }

  /** One pid per live entry, and every live entry's pid among them: the
      stop signals each live process. */
  lemma {:induction false} LivePidsExact(entries: seq<(string, Process)>)
    ensures |LivePids(entries)| == Count(entries, Live)
    ensures forall e :: e in entries && Live(e) ==> e.1.pid in LivePids(entries)
  {
    if entries != [] {
      var init, last := entries[..|entries| - 1], entries[|entries| - 1];
      assert entries == init + [last];
      LivePidsExact(init);
      CountSnoc(init, last, Live);
      forall e | e in entries && Live(e) ensures e.1.pid in LivePids(entries) {
        if e != last {
          assert e in init;
        }
      }
    }
  }

  /** `activeProcesses.delete(id)` */
  function Delete(entries: seq<(string, Process)>, id: string): (r: seq<(string, Process)>)
    ensures forall e :: e in r <==> e in entries && e.0 != id
  {
    if entries == [] then []
    else if entries[0].0 == id then Delete(entries[1..], id)
    else [entries[0]] + Delete(entries[1..], id)
  }

  class Runner {
    /** activeProcesses, in insertion order. */
    var entries: seq<(string, Process)>
    /** The pids sent SIGTERM, in order. */
    var signalled: seq<int>
    const hub: LogHub

    ghost predicate Valid()
      reads this, hub
    {
      hub.Valid() && DistinctKeys(entries)
    }

    constructor(hub: LogHub)
      requires hub.Valid()
      ensures Valid()
      ensures this.hub == hub && entries == [] && signalled == []
    {
      this.hub := hub;
      entries := [];
      signalled := [];
    }

    /** GET */
    function Get(): (r: Reply)
      reads this
      ensures r.StatusReport?
      ensures r.running <==> entries != []
      ensures |r.processes| == |entries|
      ensures forall i :: 0 <= i < |entries| ==>
        r.processes[i].0 == entries[i].0 && (r.processes[i].2 <==> !entries[i].1.killed)
    {
      StatusReport(entries != [], StatusRows(entries))
    }

    /** POST: 'start' and 'stop' dispatch; any other action is refused; a
        body that does not parse is a server error. */
    method Post(body: Option<Option<string>>, wrapperExists: bool, spawnFails: bool, pid: int,
                processId: string, cwd: string, show: int -> string, failing: set<nat>, now: int)
      returns (r: Reply)
      requires Valid()
      modifies this, hub
      ensures Valid()
      ensures body == None ==> r == ServerError && entries == old(entries) && signalled == old(signalled)
      ensures body.Some? && body.value != Some("start") && body.value != Some("stop") ==>
        r == InvalidAction && entries == old(entries) && signalled == old(signalled)
      ensures body == Some(Some("start")) ==>
        (old(entries) != [] ==> r == AlreadyRunning && entries == old(entries))
        && (old(entries) == [] && spawnFails ==> r == ServerError && entries == [])
        && (old(entries) == [] && !spawnFails ==> r == Started(processId, pid) && entries == [(processId, Process(pid, false))])
      ensures body == Some(Some("stop")) ==>
        entries == [] && (old(entries) == [] ==> r == NothingToStop)
        && (old(entries) != [] ==> r == Stopped(Count(old(entries), Live)))
    {
      if body == None {
        return ServerError;
      }
      var action := body.value;
      if action == Some("start") {
        r := Start(wrapperExists, spawnFails, pid, processId, cwd, show, failing, now);
      } else if action == Some("stop") {
        r := Stop();
      } else {
        r := InvalidAction;
      }
    }

    /** startMQTTTest: refused while any process is registered; otherwise
        announce the launcher, spawn, register exactly one entry and announce
        the pid. */
    method Start(wrapperExists: bool, spawnFails: bool, pid: int, processId: string, cwd: string,
                 show: int -> string, failing: set<nat>, now: int)
      returns (r: Reply)
      requires Valid()
      modifies this, hub
      ensures Valid()
      ensures old(entries) != [] ==> r == AlreadyRunning && entries == old(entries)
                                     && hub.recentLogs == old(hub.recentLogs)
      ensures old(entries) == [] && spawnFails ==> r == ServerError && entries == []
      ensures old(entries) == [] && !spawnFails ==>
        r == Started(processId, pid) && entries == [(processId, Process(pid, false))]
        && hub.recentLogs == Appended(Appended(old(hub.recentLogs), LauncherLine(wrapperExists, cwd)),
                                      "🚀 Démarrage du test MQTT (PID: " + show(pid) + ")")
      ensures signalled == old(signalled)
    {
      if entries != [] {
        return AlreadyRunning;
      }
      hub.BroadcastLog(LauncherLine(wrapperExists, cwd), failing, now);
      if spawnFails {
        return ServerError;
      }
      entries := entries + [(processId, Process(pid, false))];
      hub.BroadcastLog("🚀 Démarrage du test MQTT (PID: " + show(pid) + ")", failing, now);
      r := Started(processId, pid);
    }

    /** stopMQTTTest: SIGTERM to every process not already killed, counting
        them, and delete every entry. */
    method Stop() returns (r: Reply)
      requires Valid()
      modifies this
      ensures Valid()
      ensures old(entries) == [] ==> r == NothingToStop && signalled == old(signalled)
      ensures old(entries) != [] ==> r == Stopped(Count(old(entries), Live))
                                     && signalled == old(signalled) + LivePids(old(entries))
      ensures forall e :: e in old(entries) && Live(e) ==> e.1.pid in signalled
      ensures entries == []
    {
      if entries == [] {
        return NothingToStop;
      }
      var all := entries;
      var stopped: nat := 0;
      for i := 0 to |all|
        invariant entries == all[i..]
        invariant stopped == Count(all[..i], Live)
        invariant signalled == old(signalled) + LivePids(all[..i])
      {
        StopStep(all, i);
        if !all[i].1.killed {
          signalled := signalled + [all[i].1.pid];
          stopped := stopped + 1;
        }
        entries := entries[1..];
      }
      assert all[..|all|] == all;
      LivePidsExact(all);
      r := Stopped(stopped);
    }

    /** The process's 'close' or 'error' event: announce it and delete its
        own entry. */
    method OnExit(processId: string, line: string, failing: set<nat>, now: int)
      requires Valid()
      modifies this, hub
      ensures Valid()
      ensures entries == Delete(old(entries), processId)
      ensures hub.recentLogs == Appended(old(hub.recentLogs), line)
      ensures signalled == old(signalled)
    {
      hub.BroadcastLog(line, failing, now);
      DeleteKeepsDistinct(entries, processId);
      entries := Delete(entries, processId);
    }

    /** A chunk on the process's stdout or stderr is forwarded as a log
        line. */
    method OnOutput(output: string, isError: bool, failing: set<nat>, now: int)
      requires Valid()
      modifies hub
      ensures Valid()
      ensures hub.recentLogs == Appended(old(hub.recentLogs), (if isError then "❌ Erreur: " else "📤 ") + output)
    {
      hub.BroadcastLog((if isError then "❌ Erreur: " else "📤 ") + output, failing, now);
    }
  }

  /** One more entry visited by the stop loop. */
  lemma StopStep(all: seq<(string, Process)>, i: nat)
    requires i < |all|
    ensures Count(all[..i + 1], Live) == Count(all[..i], Live) + (if Live(all[i]) then 1 else 0)
    ensures LivePids(all[..i + 1]) == LivePids(all[..i]) + (if Live(all[i]) then [all[i].1.pid] else [])
  {
    assert all[..i + 1] == all[..i] + [all[i]];
    CountSnoc(all[..i], all[i], Live);
  }

  /** The first log line of a start: the wrapper script when it exists,
      python3 otherwise. */
  function LauncherLine(wrapperExists: bool, cwd: string): string {
    if wrapperExists then "🔧 Utilisation du wrapper script: " + cwd + "/run-mqtt-test.sh"
    else "🐍 Utilisation directe de python3: " + cwd + "/test-mqtt.py"
  }

  lemma {:induction false} DeleteKeepsDistinct(entries: seq<(string, Process)>, id: string)
    requires DistinctKeys(entries)
    ensures DistinctKeys(Delete(entries, id))
  {
    if entries != [] {
      assert DistinctKeys(entries[1..]) by {
        forall i, j | 0 <= i < j < |entries| - 1 ensures entries[1..][i].0 != entries[1..][j].0 {
          assert entries[1..][i] == entries[i + 1] && entries[1..][j] == entries[j + 1];
        }
      }
      DeleteKeepsDistinct(entries[1..], id);
      if entries[0].0 != id {
        var r := Delete(entries[1..], id);
        forall j | 0 <= j < |r| ensures r[j].0 != entries[0].0 {
          assert r[j] in entries[1..];
          var k :| 0 <= k < |entries[1..]| && entries[1..][k] == r[j];
          assert entries[1..][k] == entries[k + 1];
        }
      }
    }
  }
}
