/**
 * The device's polling cycle as a pure state machine, in the sequential
 * reading where every request completes before the next timer tick.
 *
 * The device object keeps two flags, "discovery pending" and "state refresh
 * pending"; at every quiet point exactly one of them is set, so the cycle has
 * two phases. A tick in the Discovery phase asks for the device info and, once
 * that answers, asks for the state right away; a tick in the Refresh phase asks
 * for the state only. Any failed request sends the cycle back to Discovery and
 * keeps the last power value read.
 */
module Polling {
  import opened JsValues

  /**
   * A poll request's outcome as the device object sees it. Answered carries the
   * value of the reply's `POWER` field (Undefined when the field is absent).
   */
  datatype Reply = Failed | Answered(power: Value)

  /**
   * `data['POWER'] == 'ON'`, as read by the info phase. The comparison is
   * JavaScript's loose equality with a string: a number or a boolean is
   * compared with the number 'ON' converts to (NaN), so only the string "ON"
   * is equal to it.
   */
  function InfoPower(v: Value): (on: bool)
    ensures on <==> v == Str("ON")
  {
    match v
    case Str(s) => s == "ON"
    case _ => false
  }

  /** `v == undefined` in JavaScript's loose sense: true for both undefined and null. */
  predicate IsNullish(v: Value) {
    v == Undefined || v == Null
  }

  /**
   * The power value the state phase reads: an absent field reads as off,
   * otherwise the field is compared with 'ON' as the info phase does.
   */
  function StatePower(v: Value): (on: bool)
    ensures on <==> v == Str("ON")
    ensures on == InfoPower(v)
  {
    if IsNullish(v) then false else InfoPower(v)
  }

  datatype Phase = Discovery | Refresh

  /** The polling state: which phase the next tick runs, and the cached power value. */
  datatype Poll = Poll(phase: Phase, power: bool)

  /** A fresh device: discovery pending, power off. */
  const Initial: Poll := Poll(Discovery, false)

  /** The state phase completing with reply `r`. */
  function StateStep(power: bool, r: Reply): (q: Poll)
    ensures r.Failed? ==> q == Poll(Discovery, power)
    ensures r.Answered? ==> q.phase == Refresh && (q.power <==> r.power == Str("ON"))
  {
    match r
    case Failed => Poll(Discovery, power)
    case Answered(v) => Poll(Refresh, StatePower(v))
  }

  /** The info phase completing with `info`, chaining into the state phase on success. */
  function InfoStep(power: bool, info: Reply, state: Reply): (q: Poll)
    ensures info.Failed? || state.Failed? ==> q == Poll(Discovery, power)
    ensures info.Answered? && state.Answered? ==> q == Poll(Refresh, state.power == Str("ON"))
  {
    match info
    case Failed => Poll(Discovery, power)
    case Answered(_) => StateStep(power, state)
  }

  /**
   * The power values one tick reads successfully, which are also the values it
   * pushes to the host: none, or the one value of its state request.
   */
  function TickReads(p: Poll, first: Reply, second: Reply): (r: seq<bool>)
    ensures |r| <= 1
    ensures r != [] <==>
      (if p.phase == Discovery then first.Answered? && second.Answered? else first.Answered?)
    ensures r != [] ==>
      (r[0] <==> (if p.phase == Discovery then second else first).power == Str("ON"))
  {
    match p.phase
    case Discovery => if first.Answered? && second.Answered? then [StatePower(second.power)] else []
    case Refresh => if first.Answered? then [StatePower(first.power)] else []
  }

  /** How many requests one tick sends to the device. */
  function TickRequests(p: Poll, first: Reply): (n: nat)
    ensures 1 <= n <= 2
    ensures n == 2 <==> p.phase == Discovery && first.Answered?
  {
    match p.phase
    case Discovery => if first.Answered? then 2 else 1
    case Refresh => 1
  }

  /**
   * One timer tick. The tick ends in Refresh exactly when it read a power value,
   * and then caches that value; a tick that read nothing ends in Discovery and
   * keeps the cached value.
   */
  function TickStep(p: Poll, first: Reply, second: Reply): (q: Poll)
    ensures TickReads(p, first, second) == [] ==> q == Poll(Discovery, p.power)
    ensures TickReads(p, first, second) != [] ==> q == Poll(Refresh, TickReads(p, first, second)[0])
  {
    match p.phase
    case Discovery => InfoStep(p.power, first, second)
    case Refresh => StateStep(p.power, first)
  }

  /** The replies one tick receives: the first request's, and the chained state request's. */
  datatype TickInput = TickInput(first: Reply, second: Reply)

  /** The state after a sequence of ticks. */
  function Run(p: Poll, ts: seq<TickInput>): Poll
    decreases |ts|
  {
    if ts == [] then p else Run(TickStep(p, ts[0].first, ts[0].second), ts[1..])
  }

  /** Every power value read successfully during a sequence of ticks, in order. */
  function Reads(p: Poll, ts: seq<TickInput>): seq<bool>
    decreases |ts|
  {
    if ts == [] then []
    else TickReads(p, ts[0].first, ts[0].second) + Reads(TickStep(p, ts[0].first, ts[0].second), ts[1..])
  }

  /** Failures never change the cached power: it is the last value read, or the starting one. */
  lemma {:induction false} RetainsLastKnown(p: Poll, ts: seq<TickInput>)
    ensures var rs := Reads(p, ts);
      Run(p, ts).power == if rs == [] then p.power else rs[|rs| - 1]
    decreases |ts|
  {
    if ts != [] {
      var q := TickStep(p, ts[0].first, ts[0].second);
      RetainsLastKnown(q, ts[1..]);
    }
  }

  /** A device that has never been read successfully reports off. */
  lemma {:induction false} NeverReadMeansOff(ts: seq<TickInput>)
    requires Reads(Initial, ts) == []
    ensures !Run(Initial, ts).power
  {
    RetainsLastKnown(Initial, ts);
  }

  /** Both replies of a tick answered. */
  predicate Answers(t: TickInput) {
    t.first.Answered? && t.second.Answered?
  }

  /**
   * A device that answers every request reaches the Refresh phase on the first
   * tick and stays there, reading (and pushing) one value per tick.
   */
  lemma {:induction false} SteadyState(p: Poll, ts: seq<TickInput>)
    requires forall i :: 0 <= i < |ts| ==> Answers(ts[i])
    ensures |Reads(p, ts)| == |ts|
    ensures ts != [] ==> Run(p, ts).phase == Refresh
    decreases |ts|
  {
    if ts != [] {
      var q := TickStep(p, ts[0].first, ts[0].second);
      SteadyState(q, ts[1..]);
    }
  }

  /** Both replies of a tick say `POWER` is "ON". */
  predicate AnswersOn(t: TickInput) {
    t.first == Answered(Str("ON")) && t.second == Answered(Str("ON"))
  }

  /** An outlet that always answers "ON" is cached as on, in Refresh, after any non-empty run. */
  lemma {:induction false} AlwaysOn(p: Poll, ts: seq<TickInput>)
    requires ts != []
    requires forall i :: 0 <= i < |ts| ==> AnswersOn(ts[i])
    ensures Run(p, ts) == Poll(Refresh, true)
    decreases |ts|
  {
    var q := TickStep(p, ts[0].first, ts[0].second);
    if |ts| > 1 {
      AlwaysOn(q, ts[1..]);
    }
  }
}
