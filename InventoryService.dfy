/** The dashboard's `InventoryService`: subscribes to `InventoryChannel`,
    tracks whether the channel is connected, falls back to one-shot fetches
    of the inventory endpoint, and holds the latest inventory and alerts for
    the components. */
module InventoryService {
  import opened Wire

  /** The presentation attributes `transformAlerts` adds to an alert. */
  datatype Style = Style(color: string, icon: string, iconColor: string)

  /** An alert as the alerts subject holds it: the payload's fields, plus the
      presentation attributes when `transformAlerts` added them. */
  datatype ShownAlert = ShownAlert(message: string, severity: string, style: Option<Style>)

  /** The `switch` on severity. */
  function StyleFor(severity: string): (st: Style)
    ensures severity == "high" ==> st == Style("alert-danger", "alert-circle", "text-danger")
    ensures severity == "medium" ==> st == Style("alert-warning", "alert-triangle", "text-warning")
    ensures severity != "high" && severity != "medium" ==> st == Style("alert-info", "info", "text-info")
    ensures st.color == "alert-danger" <==> severity == "high"
    ensures st.color == "alert-warning" <==> severity == "medium"
  {
    match severity
    case "high" => Style("alert-danger", "alert-circle", "text-danger")
    case "medium" => Style("alert-warning", "alert-triangle", "text-warning")
    case _ => Style("alert-info", "info", "text-info")
  }

  /** `transformAlerts`: same length and order, each alert keeps its message
      and severity and gains the style of its severity. */
  function TransformAlerts(alerts: seq<Alert>): (r: seq<ShownAlert>)
    ensures |r| == |alerts|
    ensures forall i :: 0 <= i < |alerts| ==>
      r[i].message == alerts[i].message && r[i].severity == alerts[i].severity &&
      r[i].style == Some(StyleFor(alerts[i].severity))
  {
    seq(|alerts|, i requires 0 <= i < |alerts| =>
      ShownAlert(alerts[i].message, alerts[i].severity, Some(StyleFor(alerts[i].severity))))
  }

  /** Alerts published as fetched, without presentation attributes. */
  function AsFetched(alerts: seq<Alert>): (r: seq<ShownAlert>)
    ensures |r| == |alerts|
    ensures forall i :: 0 <= i < |alerts| ==>
      r[i] == ShownAlert(alerts[i].message, alerts[i].severity, None)
  {
    seq(|alerts|, i requires 0 <= i < |alerts| => ShownAlert(alerts[i].message, alerts[i].severity, None))
  }

  /** Drop the presentation attributes. */
  function Strip(shown: seq<ShownAlert>): (r: seq<Alert>)
    ensures |r| == |shown|
    ensures forall i :: 0 <= i < |shown| ==> r[i] == Alert(shown[i].message, shown[i].severity)
  {
    seq(|shown|, i requires 0 <= i < |shown| => Alert(shown[i].message, shown[i].severity))
  }

  /** The transform only adds: removing the attributes gives the input. */
  lemma TransformRoundTrip(alerts: seq<Alert>)
    ensures Strip(TransformAlerts(alerts)) == alerts
    ensures Strip(AsFetched(alerts)) == alerts
  {
    var t, f := Strip(TransformAlerts(alerts)), Strip(AsFetched(alerts));
    assert |t| == |alerts| && forall i :: 0 <= i < |alerts| ==> t[i] == alerts[i];
    assert |f| == |alerts| && forall i :: 0 <= i < |alerts| ==> f[i] == alerts[i];
  }

  /** What the HTTP pull of the inventory endpoint delivers. */
  datatype FetchResult = Fetched(inventory: Snapshot, alerts: seq<Alert>) | FetchFailed

  class Service {
    /** `actionCableConnected`. */
    var connected: bool
    /** Whether `fallbackTimeout` is set and has neither fired nor been
        cleared. */
    var timerPending: bool
    /** The values the inventory and alerts subjects hold. */
    var inventory: Snapshot
    var alerts: seq<ShownAlert>
    /** Fallback requests sent, and those whose outcome was handled. */
    var fetches: nat
    var answered: nat
    /** Requests sent to the "start ingestion" endpoint. */
    var notifications: nat

    ghost predicate Valid()
      reads this
    {
      answered <= fetches
    }

    /** Construction subscribes to the channel and arms the fallback timer;
        both subjects start empty. */
    constructor ()
      ensures Valid()
      ensures !connected && timerPending
      ensures inventory == [] && alerts == []
      ensures fetches == 0 && answered == 0 && notifications == 0
    {
      connected := false;
      inventory, alerts := [], [];
      fetches, answered, notifications := 0, 0, 0;
      timerPending := true;
    }

    /** `fetchInventoryFallback`: send one request; its outcome arrives
        later through `FallbackOutcome`. */
    method FetchInventoryFallback()
      modifies this
      ensures fetches == old(fetches) + 1
      ensures connected == old(connected) && timerPending == old(timerPending)
      ensures inventory == old(inventory) && alerts == old(alerts)
      ensures answered == old(answered) && notifications == old(notifications)
    {
      fetches := fetches + 1;
    }

    /** `notifyBackendOfConnection`: fire and forget; a failure is only
        logged. */
    method NotifyBackendOfConnection()
      modifies this
      ensures notifications == old(notifications) + 1
      ensures connected == old(connected) && timerPending == old(timerPending)
      ensures inventory == old(inventory) && alerts == old(alerts)
      ensures fetches == old(fetches) && answered == old(answered)
    {
      notifications := notifications + 1;
    }

    /** The channel's `connected` callback. */
    method Connected()
      requires Valid()
      modifies this
      ensures Valid()
      ensures connected && !timerPending
      ensures notifications == old(notifications) + 1
      ensures inventory == old(inventory) && alerts == old(alerts)
      ensures fetches == old(fetches) && answered == old(answered)
    {
      connected := true;
      NotifyBackendOfConnection();
      if timerPending {
        timerPending := false;
      }
    }

    /** The channel's `disconnected` callback: exactly one fallback fetch. */
    method Disconnected()
      requires Valid()
      modifies this
      ensures Valid()
      ensures !connected && timerPending == old(timerPending)
      ensures fetches == old(fetches) + 1
      ensures inventory == old(inventory) && alerts == old(alerts)
      ensures answered == old(answered) && notifications == old(notifications)
    {
      connected := false;
      FetchInventoryFallback();
    }

    /** The channel's `received` callback. */
    method Received(data: Payload)
      requires Valid()
      modifies this
      ensures Valid()
      ensures connected == old(connected) && timerPending == old(timerPending)
      ensures answered == old(answered) && notifications == old(notifications)
      ensures data.ErrorSignal? ==>
        fetches == old(fetches) + 1 && inventory == old(inventory) && alerts == old(alerts)
      ensures data.Normal? ==>
        fetches == old(fetches) && inventory == data.inventory && alerts == TransformAlerts(data.alerts)
    {
      match data
      case ErrorSignal(_) =>
        FetchInventoryFallback();
      case Normal(inv, al) =>
        inventory := inv;
        alerts := TransformAlerts(al);
    }

    /** The fallback timer fires (once): fetch iff still not connected. */
    method TimerFires()
      requires Valid() && timerPending
      modifies this
      ensures Valid()
      ensures !timerPending && connected == old(connected)
      ensures fetches == old(fetches) + (if old(connected) then 0 else 1)
      ensures inventory == old(inventory) && alerts == old(alerts)
      ensures answered == old(answered) && notifications == old(notifications)
    {
      timerPending := false;
      if !connected {
        FetchInventoryFallback();
      }
    }

    /** The outcome of one pending fallback request: a failure publishes an
        empty inventory and no alerts; a success publishes what came back,
        alerts untransformed. */
    method FallbackOutcome(result: FetchResult)
      requires Valid() && answered < fetches
      modifies this
      ensures Valid()
      ensures answered == old(answered) + 1
      ensures connected == old(connected) && timerPending == old(timerPending)
      ensures fetches == old(fetches) && notifications == old(notifications)
      ensures result.FetchFailed? ==> inventory == [] && alerts == []
      ensures result.Fetched? ==> inventory == result.inventory && alerts == AsFetched(result.alerts)
    {
      answered := answered + 1;
      var data := match result
        case FetchFailed => Fetched([], [])
        case Fetched(_, _) => result;
      inventory := data.inventory;
      alerts := AsFetched(data.alerts);
    }
  }

  /** The channel connects before the fallback timer expires: the timer is
      cancelled and nothing is fetched. */
  method ConnectBeforeTimeout() returns (fetches: nat, timerPending: bool)
    ensures fetches == 0 && !timerPending
  {
    var service := new Service();
    service.Connected();
    fetches, timerPending := service.fetches, service.timerPending;
  }

  /** The channel never connects: the timer's expiry fetches exactly once. */
  method TimeoutWithoutChannel() returns (fetches: nat)
    ensures fetches == 1
  {
    var service := new Service();
    service.TimerFires();
    fetches := service.fetches;
  }

  /** A disconnect after a connect: exactly one fetch, flag cleared. */
  method ConnectThenDisconnect() returns (fetches: nat, connected: bool)
    ensures fetches == 1 && !connected
  {
    var service := new Service();
    service.Connected();
    service.Disconnected();
    fetches, connected := service.fetches, service.connected;
  }

  /** The same alerts reaching the service by the channel and by the fallback
      fetch are held with the same messages and severities, but only the
      channel's copy carries presentation attributes. */
  method SameAlertsBothPaths(inv: Snapshot, al: seq<Alert>) returns (viaChannel: seq<ShownAlert>, viaFetch: seq<ShownAlert>)
    ensures Strip(viaChannel) == al && Strip(viaFetch) == al
    ensures al != [] ==> viaChannel != viaFetch
  {
    var service := new Service();
    service.Received(Normal(inv, al));
    viaChannel := service.alerts;
    service.Disconnected();
    service.FallbackOutcome(Fetched(inv, al));
    viaFetch := service.alerts;
    TransformRoundTrip(al);
    if al != [] {
      assert viaChannel[0].style.Some? && viaFetch[0].style.None?;
    }
  }
}
