/** The Python test device: every iteration builds one telemetry record and
    publishes it, and sometimes simulates a jam, publishing a stop status and
    then, after a pause, the same status object switched back to running.
    The random draws and the clock are inputs of each iteration; the pauses
    are not modelled. */
module TelemetryPublisher {
  import opened Common
  import opened Records
  import MqttService

  const TopicData: string := "production/ligne1/data"
  const TopicStatus: string := "production/ligne1/status"

  /** One call of `client.publish`. */
  datatype Publication = Publication(topic: string, payload: Message, qos: int)

  /** The draws of one iteration: the two `randint`s, the defect and fault
      `random()`s, and the rounded temperature and pressure. */
  datatype Draws = Draws(rate: int, count: int, defectDraw: real, faultDraw: real,
                         temperature: real, pressure: real)

  /** What `randint(100, 130)`, `randint(1, 3)` and `random()` can return,
      and the rounded `22 + uniform(-1, 2)` and `2.5 + uniform(-0.2, 0.2)`. */
  predicate ValidDraws(d: Draws) {
    100 <= d.rate <= 130 && 1 <= d.count <= 3 && 0.0 <= d.defectDraw < 1.0 && 0.0 <= d.faultDraw < 1.0
    && 21.0 <= d.temperature <= 24.0 && 2.3 <= d.pressure <= 2.7
  }

  /** The telemetry record of one iteration. */
  function Record(d: Draws, now: int): Message {
    Message(Some(now), Some(d.count), Some(d.rate), Some(120), Some(if d.defectDraw < 0.02 then 1 else 0),
            Some(true), Some(d.temperature), Some(d.pressure), None, None, None, None, None, None)
  }

  /** The stop status of a simulated jam. */
  const StopStatus: Message :=
    Message(None, None, None, None, None, Some(false), None, None, Some("PANNE"), Some("Bourrage ligne détecté"),
            None, None, None, None)

  /** The restart status: the stop status object with two keys overwritten. */
  const RestartStatus: Message := StopStatus.(running := Some(true), message := Some("Machine redémarrée"))

  /** The publications of one iteration, in order. */
  function IterationPublications(d: Draws, now: int): seq<Publication> {
    [Publication(TopicData, Record(d, now), 1)]
    + (if d.faultDraw < 0.05 then [Publication(TopicStatus, StopStatus, 1), Publication(TopicStatus, RestartStatus, 1)]
       else [])
  }

  /** What one iteration publishes: the record first, on the data topic,
      with rate in [100, 130], count in [1, 3], target 120, at most one
      defect and the line running; then, on a fault draw below 0.05, exactly
      two status messages, the stop and then the restart, which still
      carries reason "PANNE"; every publication uses qos 1. */
  lemma IterationShape(d: Draws, now: int)
    requires ValidDraws(d)
    ensures var p := IterationPublications(d, now);
      |p| == (if d.faultDraw < 0.05 then 3 else 1)
      && p[0].topic == TopicData
      && 100 <= p[0].payload.rate.value <= 130 && 1 <= p[0].payload.count.value <= 3
      && p[0].payload.targetRate == Some(120) && p[0].payload.defects.value in {0, 1}
      && p[0].payload.running == Some(true)
      && 21.0 <= p[0].payload.temperature.value <= 24.0 && 2.3 <= p[0].payload.pressure.value <= 2.7
      && (forall i :: 1 <= i < |p| ==> p[i].topic == TopicStatus)
      && (|p| == 3 ==> p[1].payload.running == Some(false) && p[2].payload.running == Some(true)
                       && p[1].payload.reason == Some("PANNE") && p[2].payload.reason == Some("PANNE"))
      && (forall i :: 0 <= i < |p| ==> p[i].qos == 1)
  {
  }

  /** The server-side service files the record under production data and
      the statuses under status updates; the stop is a stop with a reason,
      which it categorises as a breakdown, and the restart resolves the open
      stops. */
  lemma ServiceUnderstandsEpisode(d: Draws, now: int)
    ensures MqttService.RouteOf(TopicData) == MqttService.ToProduction
    ensures MqttService.RouteOf(TopicStatus) == MqttService.ToStatus
    ensures MqttService.IsStop(StopStatus) && !MqttService.IsStop(RestartStatus)
    ensures MqttService.CategorizeDowntime(StopStatus.reason.value) == "breakdown"
  {
    assert TopicData[|TopicData| - 5..] == "/data";
    assert TopicStatus[|TopicStatus| - 7..] == "/status";
    assert ToLower("PANNE") == "panne";
    assert OccursAt("panne", "panne", 0);
  }

  /** The device: an iteration counter and the publications made so far. */
  class Publisher {
    var counter: nat
    var published: seq<Publication>
    var connected: bool

    constructor()
      ensures counter == 0 && published == [] && !connected
    {
      counter := 0;
      published := [];
      connected := false;
    }

    /** on_connect: success iff the return code is 0. */
    method OnConnect(rc: int) returns (ok: bool)
      modifies this`connected
      ensures ok <==> rc == 0
      ensures connected == (old(connected) || rc == 0)
    {
      ok := rc == 0;
      if ok {
        connected := true;
      }
    }

    /** One turn of the `while True` loop. */
    method Iterate(d: Draws, now: int)
      requires ValidDraws(d)
      modifies this`counter, this`published
      ensures counter == old(counter) + 1
      ensures published == old(published) + IterationPublications(d, now)
    {
      counter := counter + 1;
      var data := Record(d, now);
      published := published + [Publication(TopicData, data, 1)];
      if d.faultDraw < 0.05 {
        var status := StopStatus;
        published := published + [Publication(TopicStatus, status, 1)];
        status := status.(running := Some(true));
        status := status.(message := Some("Machine redémarrée"));
        published := published + [Publication(TopicStatus, status, 1)];
      }
    }

    /** A run of several iterations: the counter counts them and the
        publications are the iterations' publications in order. */
    method Run(draws: seq<Draws>, times: seq<int>)
      requires |draws| == |times|
      requires forall i :: 0 <= i < |draws| ==> ValidDraws(draws[i])
      modifies this`counter, this`published
      ensures counter == old(counter) + |draws|
      ensures published == old(published) + RunPublications(draws, times)
    {
      for i := 0 to |draws|
        invariant counter == old(counter) + i
        invariant published == old(published) + RunPublications(draws[..i], times[..i])
      {
        Iterate(draws[i], times[i]);
        assert draws[..i + 1][..i] == draws[..i] && times[..i + 1][..i] == times[..i];
      }
      assert draws[..|draws|] == draws && times[..|times|] == times;
    }

    /** The KeyboardInterrupt path: stop the loop and disconnect. */
    method Shutdown()
      modifies this`connected
      ensures !connected
    {
      connected := false;
    }
  }

  function RunPublications(draws: seq<Draws>, times: seq<int>): seq<Publication>
    requires |draws| == |times|
  {
    if draws == [] then []
    else RunPublications(draws[..|draws| - 1], times[..|times| - 1])
         + IterationPublications(draws[|draws| - 1], times[|times| - 1])
  }

  /** Over a whole run every publication uses qos 1, and the data
      publications are exactly one per iteration. */
  lemma {:induction false} RunShape(draws: seq<Draws>, times: seq<int>)
    requires |draws| == |times|
    requires forall i :: 0 <= i < |draws| ==> ValidDraws(draws[i])
    ensures forall p :: p in RunPublications(draws, times) ==> p.qos == 1
    ensures DataCount(RunPublications(draws, times)) == |draws|
  {
    if draws != [] {
      var n := |draws| - 1;
      RunShape(draws[..n], times[..n]);
      IterationShape(draws[n], times[n]);
      var it := IterationPublications(draws[n], times[n]);
      assert TopicStatus != TopicData by {
        assert |TopicStatus| != |TopicData|;
      }
      assert DataCount(it) == 1 by {
        if |it| == 3 {
          assert it[1..][1..][1..] == [];
          assert DataCount(it[1..][1..]) == 0;
          assert DataCount(it[1..]) == 0;
        } else {
          assert it[1..] == [];
        }
      }
      assert draws[..n] + [draws[n]] == draws;
      DataCountAppend(RunPublications(draws[..n], times[..n]), IterationPublications(draws[n], times[n]));
    }
  }

  /** The number of publications on the data topic. */
  function DataCount(p: seq<Publication>): nat {
    if p == [] then 0 else (if p[0].topic == TopicData then 1 else 0) + DataCount(p[1..])
  }

  lemma {:induction false} DataCountAppend(a: seq<Publication>, b: seq<Publication>)
    ensures DataCount(a + b) == DataCount(a) + DataCount(b)
  {
    if a == [] {
      assert a + b == b;
    } else {
      assert (a + b)[1..] == a[1..] + b;
      DataCountAppend(a[1..], b);
    }
  }
}
