/**
 * The observation accumulator: `GpsData` holds, per report tag, the latest
 * report received in the current window.
 */
module Observations {
  import opened Wrappers
  import opened Gpsd

  /** The value of a `GpsData`: its timestamp and its five report slots. */
  datatype Observation = Observation(
    timestamp: string,
    device: Option<ResponseData>,
    tpv: Option<ResponseData>,
    sky: Option<ResponseData>,
    pps: Option<ResponseData>,
    gst: Option<ResponseData>)
  {
    /** The slot that holds reports of kind `t`. */
    function Slot(t: Tag): Option<ResponseData> {
      match t
      case DeviceTag => device
      case TpvTag => tpv
      case SkyTag => sky
      case PpsTag => pps
      case GstTag => gst
    }
  }

  /** An observation is determined by its timestamp and its slots. */
  lemma SlotsDetermine(a: Observation, b: Observation)
    requires a.timestamp == b.timestamp
    requires forall t :: a.Slot(t) == b.Slot(t)
    ensures a == b
  {
    assert a.Slot(DeviceTag) == b.Slot(DeviceTag);
    assert a.Slot(TpvTag) == b.Slot(TpvTag);
    assert a.Slot(SkyTag) == b.Slot(SkyTag);
    assert a.Slot(PpsTag) == b.Slot(PpsTag);
    assert a.Slot(GstTag) == b.Slot(GstTag);
  }

  /** `GpsData::new`: the timestamp is the clock reading `now`, every slot is empty. */
  function Fresh(now: string): (o: Observation)
    ensures o.timestamp == now
    ensures forall t :: o.Slot(t) == None
  {
    Observation(now, None, None, None, None, None)
  }

  /** `receive`: the report goes into the slot of its own kind, replacing what was there. */
  function Received(o: Observation, msg: ResponseData): (r: Observation)
    ensures r.Slot(msg.Kind()) == Some(msg)
    ensures forall t :: t != msg.Kind() ==> r.Slot(t) == o.Slot(t)
    ensures r.timestamp == o.timestamp
  {
    match msg
    case Device(_) => o.(device := Some(msg))
    case Tpv(_) => o.(tpv := Some(msg))
    case Sky(_) => o.(sky := Some(msg))
    case Pps(_) => o.(pps := Some(msg))
    case Gst(_) => o.(gst := Some(msg))
  }

  /** Of two reports of the same kind only the later one is kept: replace, not merge. */
  lemma ReceivedLastWins(o: Observation, first: ResponseData, second: ResponseData)
    requires first.Kind() == second.Kind()
    ensures Received(Received(o, first), second) == Received(o, second)
  {
    SlotsDetermine(Received(Received(o, first), second), Received(o, second));
  }

  /** Reports of different kinds land in independent slots, so their order does not matter. */
  lemma ReceivedCommutes(o: Observation, a: ResponseData, b: ResponseData)
    requires a.Kind() != b.Kind()
    ensures Received(Received(o, a), b) == Received(Received(o, b), a)
  {
    SlotsDetermine(Received(Received(o, a), b), Received(Received(o, b), a));
  }

  /** One turn of the loop in `observe`: a report is received, an error is skipped. */
  function Step(o: Observation, e: Reading): (r: Observation)
    ensures r.timestamp == o.timestamp
    ensures forall t :: IsReportOf(e, t) ==> r.Slot(t) == Some(e.value)
    ensures forall t :: !IsReportOf(e, t) ==> r.Slot(t) == o.Slot(t)
  {
    match e
    case Ok(msg) => Received(o, msg)
    case Err(_) => o
  }

  /**
   * What `observe` makes of `o` when `get_data` yields `events` during the
   * window. The timestamp is the one fixed at creation, not at the window's end.
   */
  function Accumulated(o: Observation, events: seq<Reading>): (r: Observation)
    ensures r.timestamp == o.timestamp
    decreases |events|
  {
    if events == [] then o
    else Step(Accumulated(o, events[..|events| - 1]), events[|events| - 1])
  }

  /** Event `e` is a successfully received report of kind `t`. */
  predicate IsReportOf(e: Reading, t: Tag) {
    e.Ok? && e.value.Kind() == t
  }

  /** No report of kind `t` arrived among `events`. */
  ghost predicate NoneOfKind(events: seq<Reading>, t: Tag) {
    forall j :: 0 <= j < |events| ==> !IsReportOf(events[j], t)
  }

  /** `events[i]` is the last report of kind `t` among `events`. */
  ghost predicate IsLastOfKind(events: seq<Reading>, t: Tag, i: int) {
    && 0 <= i < |events|
    && IsReportOf(events[i], t)
    && forall j :: i < j < |events| ==> !IsReportOf(events[j], t)
  }

  /** Events are handled in order, so a stream may be cut anywhere. */
  lemma {:induction false} AccumulatedAppend(o: Observation, a: seq<Reading>, b: seq<Reading>)
    ensures Accumulated(o, a + b) == Accumulated(Accumulated(o, a), b)
    decreases |b|
  {
    if b == [] {
      assert a + b == a;
    } else {
      var n := |b| - 1;
      assert (a + b)[..|a + b| - 1] == a + b[..n];
      assert (a + b)[|a + b| - 1] == b[n];
      AccumulatedAppend(o, a, b[..n]);
    }
  }

  /** An error changes nothing, and the reports after it are still taken in. */
  lemma ErrorSkipped(o: Observation, before: seq<Reading>, e: GpsdError, after: seq<Reading>)
    ensures Accumulated(o, before + [Err(e)] + after) == Accumulated(o, before + after)
  {
    var err: seq<Reading> := [Err(e)];
    AccumulatedAppend(o, before + err, after);
    AccumulatedAppend(o, before, err);
    assert Accumulated(o, before + err) == Accumulated(o, before) by {
      assert Accumulated(Accumulated(o, before), err)
          == Step(Accumulated(Accumulated(o, before), []), Err(e));
    }
    AccumulatedAppend(o, before, after);
  }

  /** A slot no report of its kind reaches keeps its value. */
  lemma {:induction false} AccumulatedKeepsSlot(o: Observation, events: seq<Reading>, t: Tag)
    requires NoneOfKind(events, t)
    ensures Accumulated(o, events).Slot(t) == o.Slot(t)
    ensures Accumulated(o, events).timestamp == o.timestamp
    decreases |events|
  {
    if events != [] {
      var n := |events| - 1;
      assert !IsReportOf(events[n], t);
      AccumulatedKeepsSlot(o, events[..n], t);
    }
  }

  /** A slot ends holding the last report of its kind. */
  lemma {:induction false} AccumulatedLastWins(o: Observation, events: seq<Reading>, t: Tag, i: int)
    requires IsLastOfKind(events, t, i)
    ensures Accumulated(o, events).Slot(t) == Some(events[i].value)
    decreases |events|
  {
    var n := |events| - 1;
    if i == n {
      assert events[..n] + [events[n]] == events;
    } else {
      assert !IsReportOf(events[n], t);
      assert IsLastOfKind(events[..n], t, i);
      AccumulatedLastWins(o, events[..n], t, i);
    }
  }

  /** A report of kind `t` among `events` means there is a last one. */
  lemma {:induction false} LastOfKindExists(events: seq<Reading>, t: Tag)
    requires !NoneOfKind(events, t)
    ensures exists i :: IsLastOfKind(events, t, i)
    decreases |events|
  {
    var n := |events| - 1;
    if IsReportOf(events[n], t) {
      assert IsLastOfKind(events, t, n);
    } else {
      LastOfKindExists(events[..n], t);
      var i :| IsLastOfKind(events[..n], t, i);
      assert IsLastOfKind(events, t, i);
    }
  }

  /**
   * `observe` from `GpsData::new`: each slot is empty exactly when no report of
   * its kind arrived, and otherwise holds the last such report.
   */
  lemma ObservedSlot(now: string, events: seq<Reading>, t: Tag)
    ensures Accumulated(Fresh(now), events).timestamp == now
    ensures Accumulated(Fresh(now), events).Slot(t) == None <==> NoneOfKind(events, t)
    ensures forall i :: IsLastOfKind(events, t, i) ==>
              Accumulated(Fresh(now), events).Slot(t) == Some(events[i].value)
  {
    var o := Fresh(now);
    if NoneOfKind(events, t) {
      AccumulatedKeepsSlot(o, events, t);
    } else {
      LastOfKindExists(events, t);
      var i :| IsLastOfKind(events, t, i);
      AccumulatedLastWins(o, events, t, i);
    }
    forall i | IsLastOfKind(events, t, i)
      ensures Accumulated(o, events).Slot(t) == Some(events[i].value)
    {
      AccumulatedLastWins(o, events, t, i);
    }
  }

  /** `GpsData`: the observation being accumulated, updated in place. */
  class GpsData {
    var timestamp: string
    var device: Option<ResponseData>
    var tpv: Option<ResponseData>
    var sky: Option<ResponseData>
    var pps: Option<ResponseData>
    var gst: Option<ResponseData>

    /** The observation the fields hold. */
    function Value(): Observation
      reads this
    {
      Observation(timestamp, device, tpv, sky, pps, gst)
    }

    /** `GpsData::new`, with the clock reading `now` passed in. */
    constructor (now: string)
      ensures Value() == Fresh(now)
    {
      timestamp := now;
      device, tpv, sky, pps, gst := None, None, None, None, None;
    }

    /** `receive`: store `msg` in the slot of its kind. */
    method Receive(msg: ResponseData)
      modifies this
      ensures Value() == Received(old(Value()), msg)
    {
      match msg
      case Device(_) => device := Some(msg);
      case Tpv(_) => tpv := Some(msg);
      case Sky(_) => sky := Some(msg);
      case Pps(_) => pps := Some(msg);
      case Gst(_) => gst := Some(msg);
    }

    /**
     * `observe`: take in every result `get_data` yields during the window,
     * skipping errors and carrying on after them.
     */
    method Observe(events: seq<Reading>)
      modifies this
      ensures Value() == Accumulated(old(Value()), events)
    {
      var i := 0;
      while i < |events|
        invariant 0 <= i <= |events|
        invariant Value() == Accumulated(old(Value()), events[..i])
      {
        var e := events[i];
        i := i + 1;
        assert events[..i][..i - 1] == events[..i - 1];
        match e {
          case Ok(msg) =>
            Receive(msg);
          case Err(_) =>
            continue;
        }
      }
      assert events[..i] == events;
    }
  }
}
