/**
 * The Prometheus side of the exporter (prom-client.js): one gauge,
 * `zwave_value`, whose samples are keyed by a fixed five-label tuple, and the
 * handler that turns a zwave-js "value updated" event into a write to it.
 *
 * The HTTP `/metrics` server and the prom-client registry are not modelled;
 * the gauge is the map from label tuple to its latest value.
 */
module Prom {
  import opened JsValues

  /** The label names the gauge is declared with, in declaration order. */
  const LabelNames: seq<string> := ["node_id", "command_class", "property", "property_key", "endpoint"]

  /** The values of the five labels of one sample. */
  datatype LabelTuple = LabelTuple(
    nodeId: JsValue,
    commandClass: JsValue,
    property: JsValue,
    propertyKey: JsValue,
    endpoint: JsValue)

  /** The gauge's samples: the latest value per label tuple. */
  type GaugeValues = map<LabelTuple, real>

  /** The first element of a zwave-js event's `args`; a missing field is `Undefined`. */
  datatype ValueArgs = ValueArgs(
    commandClass: JsValue,
    endpoint: JsValue,
    property: JsValue,
    propertyKey: JsValue,
    newValue: JsValue)

  /** A zwave-js event object. A missing `args`, or an empty one, is `[]`. */
  datatype ZwEvent = ZwEvent(source: JsValue, event: JsValue, nodeId: JsValue, args: seq<ValueArgs>)

  /** The labels object handed to the gauge, as label name to label value.
      Every write goes through a LabelTuple, whose five fields are the five
      declared names, so no write can use any other label set. */
  function LabelObject(t: LabelTuple): (m: map<string, JsValue>)
    ensures m.Keys == set n | n in LabelNames
    ensures ReadLabels(m) == t
  {
    map["node_id" := t.nodeId, "command_class" := t.commandClass, "property" := t.property,
        "property_key" := t.propertyKey, "endpoint" := t.endpoint]
  }

  /** Reads a label tuple back out of a labels object holding the gauge's five names. */
  function ReadLabels(m: map<string, JsValue>): LabelTuple
    requires forall n :: n in LabelNames ==> n in m
  {
    LabelTuple(m["node_id"], m["command_class"], m["property"], m["property_key"], m["endpoint"])
  }

  /** The sample value the handler records for `newValue`, or None where it returns early. */
  function Coerce(v: JsValue): (r: Option<real>)
    ensures r.Some? <==> TypeOf(v) == "boolean" || TypeOf(v) == "number"
    ensures v == Bool(true) ==> r == Some(1.0)
    ensures v == Bool(false) ==> r == Some(0.0)
    ensures TypeOf(v) == "number" ==> r == Some(v.n)
  {
    match v
    case Bool(b) => Some(if b then 1.0 else 0.0)
    case Num(n) => Some(n)
    case _ => None
  }

  /** The label tuple the handler builds from the event's node id and first argument. */
  function BuildLabels(nodeId: JsValue, a: ValueArgs): (t: LabelTuple)
    ensures t.nodeId == nodeId && t.commandClass == a.commandClass && t.property == a.property
    ensures Truthy(a.propertyKey) ==> t.propertyKey == a.propertyKey
    ensures !Truthy(a.propertyKey) ==> t.propertyKey == Str("")
    ensures Truthy(a.endpoint) ==> t.endpoint == a.endpoint
    ensures !Truthy(a.endpoint) ==> t.endpoint == Num(0.0)
  {
    LabelTuple(nodeId, a.commandClass, a.property, Or(a.propertyKey, Str("")), Or(a.endpoint, Num(0.0)))
  }

  /** The filter of the handler: a node event whose name is "value updated". */
  predicate IsValueUpdate(e: ZwEvent) {
    e.source == Str("node") && e.event == Str("value updated")
  }

  /** What handling one event does to the gauge. */
  datatype Effect =
    | Ignored                                 // not a node "value updated" event
    | Skipped                                 // the new value is neither boolean nor number
    | Write(labels: LabelTuple, value: real)  // one `set` on the gauge
    | Failed(error: Exception)                // the handler threw before writing

  /** The effect of handling `ev`; None stands for an undefined or null event. */
  function Translate(ev: Option<ZwEvent>): (r: Effect)
    ensures r.Failed? <==> ev.None? || (IsValueUpdate(ev.value) && |ev.value.args| == 0)
    ensures r.Failed? ==> r.error == TypeError
    ensures r.Ignored? <==> ev.Some? && !IsValueUpdate(ev.value)
    ensures r.Skipped? <==> ev.Some? && IsValueUpdate(ev.value) && |ev.value.args| > 0
                             && Coerce(ev.value.args[0].newValue).None?
    ensures r.Write? ==> ev.Some? && |ev.value.args| > 0
                         && r.labels == BuildLabels(ev.value.nodeId, ev.value.args[0])
                         && Coerce(ev.value.args[0].newValue) == Some(r.value)
  {
    match ev
    case None => Failed(TypeError)
    case Some(e) =>
      if !IsValueUpdate(e) then Ignored
      else if |e.args| == 0 then Failed(TypeError)
      else
        match Coerce(e.args[0].newValue)
        case None => Skipped
        case Some(v) => Write(BuildLabels(e.nodeId, e.args[0]), v)
  }

  /** The gauge after handling `ev`. */
  function Apply(g: GaugeValues, ev: Option<ZwEvent>): (r: GaugeValues)
    ensures g.Keys <= r.Keys
    ensures forall k :: k in r && (k !in g || r[k] != g[k]) ==> Translate(ev) == Write(k, r[k])
  {
    match Translate(ev)
    case Write(labels, v) => g[labels := v]
    case _ => g
  }

  /** The gauge after handling each event of `evs` in turn. */
  function ApplyAll(g: GaugeValues, evs: seq<Option<ZwEvent>>): GaugeValues
    decreases |evs|
  {
    if evs == [] then g else ApplyAll(Apply(g, evs[0]), evs[1..])
  }

  /** The value of the last write to `k` among `evs`, if any. */
  function LastWrite(evs: seq<Option<ZwEvent>>, k: LabelTuple): Option<real>
    decreases |evs|
  {
    if evs == [] then None
    else
      var e := Translate(evs[|evs| - 1]);
      if e.Write? && e.labels == k then Some(e.value) else LastWrite(evs[..|evs| - 1], k)
  }

  /** An event that is not a node "value updated" event leaves the gauge as it was. */
  lemma FilteredEventLeavesGauge(g: GaugeValues, e: ZwEvent)
    requires e.source != Str("node") || e.event != Str("value updated")
    ensures Translate(Some(e)) == Ignored
    ensures Apply(g, Some(e)) == g
  {
  }

  /** A boolean new value is recorded as 1 when true and 0 when false, under the built labels. */
  lemma BooleanRecordedAsOneOrZero(g: GaugeValues, e: ZwEvent)
    requires IsValueUpdate(e) && |e.args| > 0 && e.args[0].newValue.Bool?
    ensures var k := BuildLabels(e.nodeId, e.args[0]);
      k in Apply(g, Some(e)) && Apply(g, Some(e))[k] == (if e.args[0].newValue.b then 1.0 else 0.0)
  {
  }

  /** A numeric new value is recorded unchanged, under the built labels. */
  lemma NumberRecordedUnchanged(g: GaugeValues, e: ZwEvent)
    requires IsValueUpdate(e) && |e.args| > 0 && TypeOf(e.args[0].newValue) == "number"
    ensures var k := BuildLabels(e.nodeId, e.args[0]);
      k in Apply(g, Some(e)) && Apply(g, Some(e))[k] == e.args[0].newValue.n
  {
  }

  /** A new value that is neither boolean nor number makes the handler return
      early: no gauge entry is created or modified, and nothing is thrown. */
  lemma NonNumericValueWritesNothing(g: GaugeValues, e: ZwEvent)
    requires IsValueUpdate(e) && |e.args| > 0
    requires TypeOf(e.args[0].newValue) != "boolean" && TypeOf(e.args[0].newValue) != "number"
    ensures Translate(Some(e)) == Skipped
    ensures Apply(g, Some(e)) == g
  {
  }

  /** A property key of 0 is falsy, so it is recorded as the empty string. */
  lemma ZeroPropertyKeyBecomesEmpty(nodeId: JsValue, a: ValueArgs)
    requires a.propertyKey == Num(0.0)
    ensures BuildLabels(nodeId, a).propertyKey == Str("")
  {
  }

  /** Because of that default, a property key of 0 and a missing property key
      write the same gauge entry. */
  lemma ZeroAndMissingPropertyKeysCollide(nodeId: JsValue, a: ValueArgs)
    requires a.propertyKey == Num(0.0)
    ensures BuildLabels(nodeId, a) == BuildLabels(nodeId, a.(propertyKey := Undefined))
  {
  }

  /** A write is a plain overwrite: its key holds exactly the new value and
      every other entry is as it was. */
  lemma WriteOverwrites(g: GaugeValues, ev: Option<ZwEvent>)
    requires Translate(ev).Write?
    ensures var w := Translate(ev);
      && Apply(g, ev).Keys == g.Keys + {w.labels}
      && Apply(g, ev)[w.labels] == w.value
      && forall k :: k in g && k != w.labels ==> Apply(g, ev)[k] == g[k]
  {
  }

  /** Handling the same event twice leaves the gauge as handling it once. */
  lemma HandlingTwiceIsHandlingOnce(g: GaugeValues, ev: Option<ZwEvent>)
    ensures Apply(Apply(g, ev), ev) == Apply(g, ev)
  {
  }

  /** Handling a list of events one more event long is handling the last one afterwards. */
  lemma {:induction false} ApplyAllSnoc(g: GaugeValues, evs: seq<Option<ZwEvent>>, ev: Option<ZwEvent>)
    ensures ApplyAll(g, evs + [ev]) == Apply(ApplyAll(g, evs), ev)
    decreases |evs|
  {
    if evs == [] {
      assert evs + [ev] == [ev];
    } else {
      assert (evs + [ev])[1..] == evs[1..] + [ev];
      ApplyAllSnoc(Apply(g, evs[0]), evs[1..], ev);
    }
  }

  /** After a run of events, each label tuple holds the value of the last write
      to it, and a tuple nobody wrote keeps its old entry or stays absent. */
  lemma {:induction false} LastWriteWins(g: GaugeValues, evs: seq<Option<ZwEvent>>, k: LabelTuple)
    ensures LastWrite(evs, k).Some? ==> k in ApplyAll(g, evs) && ApplyAll(g, evs)[k] == LastWrite(evs, k).value
    ensures LastWrite(evs, k).None? ==> (k in ApplyAll(g, evs) <==> k in g)
    ensures LastWrite(evs, k).None? && k in g ==> ApplyAll(g, evs)[k] == g[k]
    decreases |evs|
  {
    if evs != [] {
      var init, last := evs[..|evs| - 1], evs[|evs| - 1];
      assert evs == init + [last];
      ApplyAllSnoc(g, init, last);
      LastWriteWins(g, init, k);
    }
  }

  /** The gauge never loses a label tuple. */
  lemma {:induction false} GaugeOnlyGrows(g: GaugeValues, evs: seq<Option<ZwEvent>>)
    ensures g.Keys <= ApplyAll(g, evs).Keys
    decreases |evs|
  {
    if evs != [] {
      GaugeOnlyGrows(Apply(g, evs[0]), evs[1..]);
    }
  }

  /** The object that owns the gauge (class PromClient). */
  class PromClient {
    /** The `zwave_value` gauge. */
    var gauge: GaugeValues
    /** Every event handed to HandleEvent, in order; a proof device with no counterpart in the source. */
    ghost var received: seq<Option<ZwEvent>>

    constructor ()
      ensures gauge == map[] && received == []
    {
      gauge := map[];
      received := [];
    }

    /** handleEvent: filter, coerce, label, write. */
    method HandleEvent(ev: Option<ZwEvent>) returns (o: Outcome)
      modifies this
      ensures gauge == Apply(old(gauge), ev)
      ensures received == old(received) + [ev]
      ensures o == if Translate(ev).Failed? then Threw(TypeError) else Completed
    {
      received := received + [ev];
      if ev.None? {
        return Threw(TypeError);
      }
      var event := ev.value;
      if event.source == Str("node") && event.event == Str("value updated") {
        if |event.args| == 0 {
          return Threw(TypeError);
        }
        var a := event.args[0];
        var value: real;
        if TypeOf(a.newValue) == "boolean" {
          value := if a.newValue.b then 1.0 else 0.0;
        } else if TypeOf(a.newValue) != "number" {
          return Completed;
        } else {
          value := a.newValue.n;
        }
        var labels := BuildLabels(event.nodeId, a);
        gauge := gauge[labels := value];
      }
      return Completed;
    }
  }
}
