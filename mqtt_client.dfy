/** The browser-facing MQTT client wrapper: topic routing by substring,
    field defaults for incoming production points, machine stops and
    restarts, free-form alerts, the publish guard and the
    connect/reconnect/disconnect state. The clock and the local hour are
    parameters. */
module MqttClient {
  import opened Common
  import opened Shifts
  import opened Records
  import MqttService

  datatype Route = ToProduction | ToStatus | ToAlert | Ignored

  /** handleMessage: the first of "/data", "/status", "/alert" contained in
      the topic decides. */
  function RouteOf(topic: string): (r: Route)
    ensures r == ToProduction <==> Contains(topic, "/data")
    ensures r == ToStatus <==> !Contains(topic, "/data") && Contains(topic, "/status")
    ensures r == ToAlert <==> !Contains(topic, "/data") && !Contains(topic, "/status") && Contains(topic, "/alert")
  {
    if Contains(topic, "/data") then ToProduction
    else if Contains(topic, "/status") then ToStatus
    else if Contains(topic, "/alert") then ToAlert
    else Ignored
  }

  /** A suffix is contained: every topic the server-side service treats as
      production data is production data here as well. */
  lemma EndsWithContains(topic: string, suffix: string)
    requires EndsWith(topic, suffix)
    ensures Contains(topic, suffix)
  {
    var i: nat := |topic| - |suffix|;
    assert OccursAt(topic, suffix, i);
  }

  /** The row saveProductionData inserts: every falsy field takes its
      default; the line counts as running unless `running` is exactly
      false. */
  function DefaultedRow(data: Message, now: int, hour: int): (row: ProductionRow)
    ensures row.timestamp == (if TruthyInt(data.timestamp) then data.timestamp.value else now)
    ensures row.bottlesProduced == (if data.count.Some? then data.count.value else 0)
    ensures row.targetRate == (if TruthyInt(data.targetRate) then data.targetRate.value else 120)
    ensures row.actualRate == (if data.rate.Some? then data.rate.value else 0)
    ensures row.defectCount == (if data.defects.Some? then data.defects.value else 0)
    ensures !row.isRunning <==> data.running == Some(false)
    ensures row.shiftId in {"MATIN", "APRES_MIDI", "NUIT"}
  {
    ProductionRow(OrInt(data.timestamp, now), OrInt(data.count, 0), OrInt(data.targetRate, 120),
                  OrInt(data.rate, 0), OrInt(data.defects, 0), data.running != Some(false),
                  ShiftName(CurrentShift(hour)),
                  if TruthyReal(data.temperature) then data.temperature else None,
                  if TruthyReal(data.pressure) then data.pressure else None)
  }

  /** On a complete message the two ingestion paths store the same row,
      unless the timestamp or target rate is 0: the client then falls back
      to now and to 120 where the service keeps the 0. */
  lemma AgreesWithService(data: Message, now: int, hour: int)
    requires MqttService.Complete(data)
    ensures DefaultedRow(data, now, hour) == MqttService.ProductionRowOf(data, hour)
            <==> (data.timestamp.value != 0 || now == 0) && data.targetRate.value != 0
  {
  }

  /** The downtime a stop message records. */
  function StopRow(data: Message, now: int): (d: DowntimeRow)
    ensures d.reason == (if TruthyStr(data.reason) then data.reason.value else "PANNE")
    ensures d.category == "NON_PLANIFIE" && !d.resolved && d.startTime == now
    ensures d.endTime == None && d.duration == None
  {
    DowntimeRow(now, None, None, OrStr(data.reason, "PANNE"), "NON_PLANIFIE",
                Some(OrStr(data.message, "Arrêt détecté via MQTT")), false)
  }

  /** The updateMany of a restart: rows with no end and not resolved get the
      end now and are resolved; their duration stays as it was. */
  function CloseOpen(rows: seq<DowntimeRow>, now: int): (r: seq<DowntimeRow>)
    ensures |r| == |rows|
    ensures forall i :: 0 <= i < |rows| ==>
      r[i] == if rows[i].endTime == None && !rows[i].resolved
              then rows[i].(endTime := Some(now), resolved := true) else rows[i]
  {
    seq(|rows|, i requires 0 <= i < |rows| =>
      if rows[i].endTime == None && !rows[i].resolved then rows[i].(endTime := Some(now), resolved := true)
      else rows[i])
  }

  predicate Open(d: DowntimeRow) {
    d.endTime == None && !d.resolved
  }

  /** After a restart no row is open, and closing again changes nothing. */
  lemma CloseOpenCloses(rows: seq<DowntimeRow>, now: int)
    ensures forall i :: 0 <= i < |rows| ==> !Open(CloseOpen(rows, now)[i])
    ensures CloseOpen(CloseOpen(rows, now), now) == CloseOpen(rows, now)
  {
  }

  /** The alert createAlert inserts, with its defaults. */
  function DefaultedAlert(data: Message, now: int): (a: AlertRow)
    ensures a.kind == (if TruthyStr(data.kind) then data.kind.value else "QUALITY_ISSUE")
    ensures a.severity == (if TruthyStr(data.severity) then data.severity.value else "MEDIUM")
    ensures a.message == (if TruthyStr(data.message) then data.message.value else "Alerte MQTT")
    ensures a.threshold.Some? ==> a.threshold == data.threshold && a.threshold.value != 0.0
    ensures !a.isResolved && a.timestamp == now
  {
    AlertRow(now, OrStr(data.kind, "QUALITY_ISSUE"), OrStr(data.severity, "MEDIUM"), OrStr(data.message, "Alerte MQTT"),
             if TruthyReal(data.threshold) then data.threshold else None,
             if TruthyReal(data.actualValue) then data.actualValue else None, false)
  }

  /** The topics subscribeToTopics subscribes to, in order. */
  const Topics: seq<string> := ["production/+/data", "production/+/status", "production/+/alert", "production/#"]

  const MaxReconnectAttempts: int := 5

  datatype Stats = Stats(connected: bool, reconnectAttempts: int, hasClient: bool)

  class MQTTClient {
    var hasClient: bool
    var isConnected: bool
    var reconnectAttempts: int
    /** Subscriptions requested, in order. */
    var subscriptions: seq<string>
    /** Messages the broker accepted, in order. */
    var published: seq<(string, Message)>
    const db: Database

    /** The reconnect counter never rests at the maximum: reaching it
        disconnects, which resets it. */
    ghost predicate Valid()
      reads this
    {
      0 <= reconnectAttempts < MaxReconnectAttempts && (isConnected ==> hasClient)
    }

    constructor(db: Database)
      ensures Valid()
      ensures this.db == db && !hasClient && !isConnected && reconnectAttempts == 0
      ensures subscriptions == [] && published == []
    {
      this.db := db;
      hasClient := false;
      isConnected := false;
      reconnectAttempts := 0;
      subscriptions := [];
      published := [];
    }

    /** disconnect: nothing without a client; otherwise drop it and reset
        the connection flag and the counter. */
    method Disconnect()
      requires Valid()
      modifies this
      ensures Valid()
      ensures old(hasClient) ==> !hasClient && !isConnected && reconnectAttempts == 0
      ensures !old(hasClient) ==>
        hasClient == old(hasClient) && isConnected == old(isConnected) && reconnectAttempts == old(reconnectAttempts)
      ensures subscriptions == old(subscriptions) && published == old(published)
    {
      if hasClient {
        hasClient := false;
        isConnected := false;
        reconnectAttempts := 0;
      }
    }

    /** connect: an existing client is disconnected first; when creating the
        new one throws, the error propagates (ok is false) and no client is
        left. */
    method Connect(creationFails: bool) returns (ok: bool)
      requires Valid()
      modifies this
      ensures Valid()
      ensures ok <==> !creationFails
      ensures hasClient == ok && !isConnected
      ensures reconnectAttempts == (if old(hasClient) then 0 else old(reconnectAttempts))
      ensures subscriptions == old(subscriptions) && published == old(published)
    {
      Disconnect();
      if creationFails {
        ok := false;
      } else {
        hasClient := true;
        ok := true;
      }
    }

    /** The 'connect' event: connected, counter reset, topics subscribed. */
    method OnConnect()
      requires Valid() && hasClient
      modifies this
      ensures Valid()
      ensures isConnected && reconnectAttempts == 0 && hasClient
      ensures subscriptions == old(subscriptions) + Topics && published == old(published)
    {
      isConnected := true;
      reconnectAttempts := 0;
      SubscribeToTopics();
    }

    /** subscribeToTopics: only with a connected client. */
    method SubscribeToTopics()
      requires Valid()
      modifies this`subscriptions
      ensures subscriptions == old(subscriptions) + (if hasClient && isConnected then Topics else [])
    {
      if hasClient && isConnected {
        subscriptions := subscriptions + Topics;
      }
    }

    /** The 'error' and 'close' events. */
    method OnErrorOrClose()
      requires Valid()
      modifies this
      ensures Valid()
      ensures !isConnected
      ensures hasClient == old(hasClient) && reconnectAttempts == old(reconnectAttempts)
      ensures subscriptions == old(subscriptions) && published == old(published)
    {
      isConnected := false;
    }

    /** The 'reconnect' event: count the attempt; at the fifth, disconnect,
        which resets the count. */
    method OnReconnect()
      requires Valid() && hasClient
      modifies this
      ensures Valid()
      ensures old(reconnectAttempts) + 1 < MaxReconnectAttempts ==>
        reconnectAttempts == old(reconnectAttempts) + 1 && hasClient && isConnected == old(isConnected)
      ensures old(reconnectAttempts) + 1 >= MaxReconnectAttempts ==>
        reconnectAttempts == 0 && !hasClient && !isConnected
      ensures subscriptions == old(subscriptions) && published == old(published)
    {
      reconnectAttempts := reconnectAttempts + 1;
      if reconnectAttempts >= MaxReconnectAttempts {
        hasClient := false;
        isConnected := false;
        reconnectAttempts := 0;
      }
    }

    /** publish: refused without a connected client; otherwise the message
        is handed over with qos 1 (sendThrows models a synchronous failure
        of the library call). */
    method Publish(topic: string, message: Message, sendThrows: bool) returns (sent: bool)
      modifies this`published
      ensures sent <==> hasClient && isConnected && !sendThrows
      ensures published == old(published) + if sent then [(topic, message)] else []
    {
      if !hasClient || !isConnected {
        return false;
      }
      if sendThrows {
        return false;
      }
      published := published + [(topic, message)];
      sent := true;
    }

    /** isClientConnected: the flag, a client, and the library's own view. */
    function IsClientConnected(libraryConnected: bool): (b: bool)
      reads this
      ensures b <==> isConnected && hasClient && libraryConnected
    {
      isConnected && hasClient && libraryConnected
    }

    function GetStats(): (s: Stats)
      reads this
      ensures s.connected == isConnected && s.reconnectAttempts == reconnectAttempts && s.hasClient == hasClient
    {
      Stats(isConnected, reconnectAttempts, hasClient)
    }

    /** saveProductionData */
    method SaveProductionData(data: Message, now: int, hour: int)
      modifies db
      ensures db.production == old(db.production) + [DefaultedRow(data, now, hour)]
      ensures db.downtimes == old(db.downtimes) && db.alerts == old(db.alerts)
      ensures db.thresholds == old(db.thresholds) && db.snapshot == old(db.snapshot)
    {
      db.production := db.production + [DefaultedRow(data, now, hour)];
    }

    /** updateMachineStatus: `running === false` records a stop; any other
        value closes the open stops. */
    method UpdateMachineStatus(data: Message, now: int)
      modifies db
      ensures data.running == Some(false) ==> db.downtimes == old(db.downtimes) + [StopRow(data, now)]
      ensures data.running != Some(false) ==> db.downtimes == CloseOpen(old(db.downtimes), now)
      ensures db.production == old(db.production) && db.alerts == old(db.alerts)
      ensures db.thresholds == old(db.thresholds) && db.snapshot == old(db.snapshot)
    {
      if data.running == Some(false) {
        db.downtimes := db.downtimes + [StopRow(data, now)];
      } else {
        db.downtimes := CloseOpen(db.downtimes, now);
      }
    }

    /** createAlert */
    method CreateAlert(data: Message, now: int)
      modifies db
      ensures db.alerts == old(db.alerts) + [DefaultedAlert(data, now)]
      ensures db.production == old(db.production) && db.downtimes == old(db.downtimes)
      ensures db.thresholds == old(db.thresholds) && db.snapshot == old(db.snapshot)
    {
      db.alerts := db.alerts + [DefaultedAlert(data, now)];
    }

    /** handleMessage: exactly one table grows or is updated, chosen by the
        route. */
    method HandleMessage(topic: string, data: Message, now: int, hour: int)
      modifies db
      ensures RouteOf(topic) == ToProduction ==> db.production == old(db.production) + [DefaultedRow(data, now, hour)]
      ensures RouteOf(topic) != ToProduction ==> db.production == old(db.production)
      ensures RouteOf(topic) == ToAlert ==> db.alerts == old(db.alerts) + [DefaultedAlert(data, now)]
      ensures RouteOf(topic) != ToAlert ==> db.alerts == old(db.alerts)
      ensures RouteOf(topic) == ToStatus ==>
        db.downtimes == if data.running == Some(false) then old(db.downtimes) + [StopRow(data, now)]
                        else CloseOpen(old(db.downtimes), now)
      ensures RouteOf(topic) != ToStatus ==> db.downtimes == old(db.downtimes)
      ensures db.thresholds == old(db.thresholds) && db.snapshot == old(db.snapshot)
    {
      match RouteOf(topic)
      case ToProduction => SaveProductionData(data, now, hour);
      case ToStatus => UpdateMachineStatus(data, now);
      case ToAlert => CreateAlert(data, now);
      case Ignored =>
    }
  }

  /** The module-level singleton of getMQTTClient. */
  class ClientHolder {
    var instance: MQTTClient?

    constructor()
      ensures instance == null
    {
      instance := null;
    }

    method GetMQTTClient(db: Database) returns (c: MQTTClient)
      modifies this
      ensures old(instance) != null ==> c == old(instance)
      ensures old(instance) == null ==> fresh(c) && c.db == db && !c.hasClient
      ensures instance == c
    {
      if instance == null {
        instance := new MQTTClient(db);
      }
      c := instance;
    }
  }
}
