/**
 * The acquisition loop of `calibracion_ble_wrapper` with the BLE link reduced to events: the
 * loop walks the 16 calibration weights, waits for the user's confirmation, collects
 * "Calib..." notifications into a buffer and appends at most `samples` rows per weight to
 * the run's CSV file.
 */
module Acquisition {
  import opened Wrappers
  import opened Strings
  import opened Paths
  import opened CalibrationFiles

  /**
   * What the loop can observe while it sleeps. Every `asyncio.sleep` of the loop delivers at
   * most one event; a sleep on an exhausted input delivers nothing.
   */
  datatype Event =
    | Tick                  // nothing happened during the sleep
    | Notify(data: string)  // a notification on the result characteristic, already decoded
    | Confirm               // the user confirmed that the weight is in place
    | Cancel                // the user set the cancel event

  /** One data row of the run's CSV file: `[Sensor, Peso_g, Lectura]`. */
  datatype Row = Row(sensor: string, peso: int, reading: string)

  /** The check that first observed the cancel event. */
  datatype Stage =
    | BeforeWeight  // the check at the top of the weight loop
    | ConfirmWait   // the confirmation wait, the only check that sets `calibration_canceled`
    | Sampling      // the checks of the sample loop, the response wait and the countdown

  /** How a wait for a sample ends. */
  datatype WaitEnd = Arrived | SawCancel | InputEnded

  /** How one pass of the weight loop or the sample loop ends. */
  datatype StepEnd = Next | Stop | Stalled

  /** How a run ends. */
  datatype Outcome =
    | NotConnected        // raised before anything is touched
    | Saved(path: string) // the run's CSV path is returned
    | Discarded           // the file is removed and `None` returned
    | Waiting             // the input ended while the loop waits for a confirmation or a sample

  /** The calibration weights in grams, `range(250, 4001, 250)`. */
  function Weights(): (w: seq<int>)
    ensures |w| == 16 && w[0] == 250 && w[15] == 4000
    ensures forall i, j :: 0 <= i < j < |w| ==> w[i] < w[j]
    ensures forall i :: 0 <= i < |w| ==> w[i] % 250 == 0
  {
    seq(16, k => 250 * (k + 1))
  }

  /** The notification handler: the stripped message is kept only if it starts with "Calib". */
  function Handled(e: Event): seq<string>
  {
    if e.Notify? && StartsWith(Strip(e.data), "Calib") then [Strip(e.data)] else []
  }

  /** Everything the handler appends to the buffer while `evs` arrive, in arrival order. */
  function Notified(evs: seq<Event>): (r: seq<string>)
    ensures |r| <= |evs|
  {
    if evs == [] then [] else Notified(evs[..|evs| - 1]) + Handled(evs[|evs| - 1])
  }

  /** The handler keeps only messages that start with "Calib". */
  lemma {:induction false} NotifiedAreCalib(evs: seq<Event>)
    ensures forall m :: m in Notified(evs) ==> StartsWith(m, "Calib")
    decreases |evs|
  {
    if evs != [] {
      NotifiedAreCalib(evs[..|evs| - 1]);
    }
  }

  lemma {:induction false} NotifiedAppend(a: seq<Event>, b: seq<Event>)
    ensures Notified(a + b) == Notified(a) + Notified(b)
    decreases |b|
  {
    if b == [] {
      assert a + b == a;
    } else {
      var b' := b[..|b| - 1];
      assert (a + b)[..|a + b| - 1] == a + b';
      assert (a + b)[|a + b| - 1] == b[|b| - 1];
      NotifiedAppend(a, b');
    }
  }

  /** The handler buffers the messages of a first event ahead of the rest. */
  lemma NotifiedCons(e: Event, t: seq<Event>)
    ensures Notified([e] + t) == Handled(e) + Notified(t)
  {
    NotifiedAppend([e], t);
    assert Notified([e]) == Notified([]) + Handled(e);
  }

  /** Event `e` is a notification whose stripped text is `m`, and `m` starts with "Calib". */
  predicate Buffers(e: Event, m: string)
  {
    e.Notify? && Strip(e.data) == m && StartsWith(m, "Calib")
  }

  /** A message is buffered exactly when one of the events is a notification buffering it. */
  lemma NotifiedExactly(evs: seq<Event>, m: string)
    ensures m in Notified(evs) <==> exists i :: 0 <= i < |evs| && Buffers(evs[i], m)
  {
    if m in Notified(evs) {
      var i := NotifiedFrom(evs, m);
    }
    if exists i :: 0 <= i < |evs| && Buffers(evs[i], m) {
      var i :| 0 <= i < |evs| && Buffers(evs[i], m);
      NotifiedHas(evs, i, m);
    }
  }

  /** A buffered message comes from some event that buffers it. */
  lemma {:induction false} NotifiedFrom(evs: seq<Event>, m: string) returns (i: nat)
    requires m in Notified(evs)
    ensures i < |evs| && Buffers(evs[i], m)
    decreases |evs|
  {
    var init := evs[..|evs| - 1];
    if m in Notified(init) {
      i := NotifiedFrom(init, m);
      assert evs[i] == init[i];
    } else {
      i := |evs| - 1;
      assert m in Handled(evs[i]);
    }
  }

  /** Every event that buffers a message puts it in the buffer. */
  lemma {:induction false} NotifiedHas(evs: seq<Event>, i: nat, m: string)
    requires i < |evs| && Buffers(evs[i], m)
    ensures m in Notified(evs)
    decreases |evs|
  {
    var init := evs[..|evs| - 1];
    if i < |evs| - 1 {
      assert init[i] == evs[i];
      NotifiedHas(init, i, m);
    } else {
      assert Handled(evs[i]) == [m];
    }
  }

  /** `t` is what is left of `s` after some events were consumed from its front. */
  predicate IsSuffix(t: seq<Event>, s: seq<Event>)
  {
    |t| <= |s| && t == s[|s| - |t|..]
  }

  /** The events consumed in going from `s` to its suffix `t`. */
  function Consumed(s: seq<Event>, t: seq<Event>): seq<Event>
    requires |t| <= |s|
  {
    s[..|s| - |t|]
  }

  lemma NotifiedAcross(s: seq<Event>, t: seq<Event>, u: seq<Event>)
    requires IsSuffix(t, s) && IsSuffix(u, t)
    ensures IsSuffix(u, s)
    ensures Notified(Consumed(s, u)) == Notified(Consumed(s, t)) + Notified(Consumed(t, u))
  {
    assert Consumed(s, u) == Consumed(s, t) + Consumed(t, u);
    NotifiedAppend(Consumed(s, t), Consumed(t, u));
  }

  /** A cancel was consumed across two consecutive stretches of input when it was consumed in either. */
  lemma CancelAcross(s: seq<Event>, t: seq<Event>, u: seq<Event>)
    requires IsSuffix(t, s) && IsSuffix(u, t)
    ensures IsSuffix(u, s)
    ensures Cancel in Consumed(s, u) <==> Cancel in Consumed(s, t) || Cancel in Consumed(t, u)
  {
    assert Consumed(s, u) == Consumed(s, t) + Consumed(t, u);
  }

  /** Only a cancel that was in the input can be consumed from it. */
  lemma CancelConsumedFrom(s: seq<Event>, t: seq<Event>)
    requires IsSuffix(t, s)
    ensures Cancel in Consumed(s, t) ==> Cancel in s
  {
    assert Consumed(s, t) <= s;
  }

  /** A buffer that grew by the messages of two consecutive stretches of input grew by those of both. */
  lemma BufferAcross(b0: seq<string>, b1: seq<string>, b2: seq<string>, s: seq<Event>, t: seq<Event>, u: seq<Event>)
    requires IsSuffix(t, s) && IsSuffix(u, t)
    requires b1 == b0 + Notified(Consumed(s, t)) && b2 == b1 + Notified(Consumed(t, u))
    ensures IsSuffix(u, s) && b2 == b0 + Notified(Consumed(s, u))
  {
    NotifiedAcross(s, t, u);
    AppendAssoc(b0, Notified(Consumed(s, t)), Notified(Consumed(t, u)));
  }

  /** Concatenation of messages is associative. */
  lemma AppendAssoc(a: seq<string>, b: seq<string>, c: seq<string>)
    ensures (a + b) + c == a + (b + c)
  {
  }

  /** The same for a buffer that was empty when the first stretch began. */
  lemma FreshBufferAcross(b1: seq<string>, b2: seq<string>, s: seq<Event>, t: seq<Event>, u: seq<Event>)
    requires IsSuffix(t, s) && IsSuffix(u, t)
    requires b1 == Notified(Consumed(s, t)) && b2 == b1 + Notified(Consumed(t, u))
    ensures IsSuffix(u, s) && b2 == Notified(Consumed(s, u))
  {
    NotifiedAcross(s, t, u);
  }

  /** `msg.split(':')[-1].strip()`. */
  function Reading(msg: string): string
  {
    Strip(AfterLastColon(msg))
  }

  /** `buffer[:n]`. */
  function Take(buffer: seq<string>, n: nat): (r: seq<string>)
    ensures |r| <= n && |r| <= |buffer| && r == buffer[..|r|]
    ensures |buffer| >= n ==> |r| == n
  {
    if |buffer| <= n then buffer else buffer[..n]
  }

  /** The rows written for one weight. */
  function RowsFor(sensor: string, peso: int, msgs: seq<string>): seq<Row>
  {
    seq(|msgs|, i requires 0 <= i < |msgs| => Row(sensor, peso, Reading(msgs[i])))
  }

  /** The rows of the file when batch `k` of `batches` was saved for the k-th weight. */
  function RowsOf(sensor: string, batches: seq<seq<string>>): seq<Row>
    requires |batches| <= 16
  {
    if batches == [] then
      []
    else
      RowsOf(sensor, batches[..|batches| - 1])
        + RowsFor(sensor, Weights()[|batches| - 1], batches[|batches| - 1])
  }

  /** The file's rows run through the weights in ascending order, one weight per saved batch. */
  lemma {:induction false} RowsOfOrdered(sensor: string, batches: seq<seq<string>>)
    requires |batches| <= 16
    ensures forall i, j :: 0 <= i < j < |RowsOf(sensor, batches)| ==>
      RowsOf(sensor, batches)[i].peso <= RowsOf(sensor, batches)[j].peso
    ensures forall i :: 0 <= i < |RowsOf(sensor, batches)| ==>
      RowsOf(sensor, batches)[i].peso in Weights()[..|batches|]
    decreases |batches|
  {
    if batches != [] {
      var init := batches[..|batches| - 1];
      var w := Weights();
      RowsOfOrdered(sensor, init);
      var r0 := RowsOf(sensor, init);
      var r := RowsOf(sensor, batches);
      forall i | 0 <= i < |r|
        ensures r[i].peso in w[..|batches|]
        ensures r[i].peso <= w[|batches| - 1]
      {
        if i < |r0| {
          assert r[i] == r0[i];
          var k :| 0 <= k < |init| && w[k] == r0[i].peso;
          assert w[..|batches|][k] == r[i].peso;
        } else {
          assert r[i].peso == w[|batches| - 1];
          assert w[..|batches|][|batches| - 1] == r[i].peso;
        }
      }
      forall i, j | 0 <= i < j < |r|
        ensures r[i].peso <= r[j].peso
      {
        if j < |r0| {
          assert r[i] == r0[i] && r[j] == r0[j];
        } else {
          assert r[j].peso == w[|batches| - 1];
        }
      }
    }
  }

  /** Every message of every batch starts with "Calib". */
  predicate OnlyCalib(batches: seq<seq<string>>)
  {
    forall j, m :: 0 <= j < |batches| && m in batches[j] ==> StartsWith(m, "Calib")
  }

  /** Going from `s` to `t` and then to `u` consumes the events of both stretches, in order. */
  lemma ConsumedAcross(s: seq<Event>, t: seq<Event>, u: seq<Event>)
    requires IsSuffix(t, s) && IsSuffix(u, t)
    ensures IsSuffix(u, s) && Consumed(s, u) == Consumed(s, t) + Consumed(t, u)
  {
  }

  /**
   * Whether the cancel event is set once the input went from `s` to its suffix `t`, given
   * whether it was set at `s`.
   */
  function Pending(requested: bool, s: seq<Event>, t: seq<Event>): bool
  {
    requested || (|t| <= |s| && Cancel in Consumed(s, t))
  }

  /** The cancel event over two consecutive stretches of input. */
  lemma PendingAcross(r: bool, s: seq<Event>, t: seq<Event>, u: seq<Event>)
    requires IsSuffix(t, s) && IsSuffix(u, t)
    ensures IsSuffix(u, s) && Pending(Pending(r, s, t), t, u) == Pending(r, s, u)
  {
    ConsumedAcross(s, t, u);
  }

  /** Neither a confirmation nor a cancel is among `evs`. */
  predicate Quiet(evs: seq<Event>)
  {
    Confirm !in evs && Cancel !in evs
  }

  /**
   * The position of the first confirmation or cancel in `evs`: the event on which a
   * confirmation wait started on `evs` ends.
   */
  function FirstSignal(evs: seq<Event>): (r: Option<nat>)
    ensures r.None? <==> Quiet(evs)
    ensures r.Some? ==> r.value < |evs| && (evs[r.value] == Confirm || evs[r.value] == Cancel)
    ensures r.Some? ==> Quiet(evs[..r.value])
  {
    if evs == [] then
      None
    else if evs[0] == Confirm || evs[0] == Cancel then
      assert evs[0] in evs;
      Some(0)
    else
      var rest := FirstSignal(evs[1..]);
      assert evs == [evs[0]] + evs[1..];
      if rest.None? then
        None
      else
        assert evs[..rest.value + 1] == [evs[0]] + evs[1..][..rest.value];
        Some(rest.value + 1)
  }

  /** The first signal of `evs` is `e`. */
  predicate SignalIs(evs: seq<Event>, e: Event)
  {
    FirstSignal(evs).Some? && evs[FirstSignal(evs).value] == e
  }

  /** What is left of `evs` once its first signal is consumed. */
  function AfterSignal(evs: seq<Event>): (r: seq<Event>)
    requires FirstSignal(evs).Some?
    ensures IsSuffix(r, evs) && |r| < |evs|
  {
    evs[FirstSignal(evs).value + 1..]
  }

  /** A signal with none before it is the first. */
  lemma FirstSignalAt(evs: seq<Event>, k: nat)
    requires k < |evs| && (evs[k] == Confirm || evs[k] == Cancel) && Quiet(evs[..k])
    ensures FirstSignal(evs) == Some(k)
  {
    var r := FirstSignal(evs);
    assert evs[k] in evs;
    QuietPrefix(evs, k);
    if r.Some? {
      QuietPrefix(evs, r.value);
    }
  }

  lemma QuietPrefix(evs: seq<Event>, k: nat)
    requires k <= |evs| && Quiet(evs[..k])
    ensures forall i :: 0 <= i < k ==> evs[i] != Confirm && evs[i] != Cancel
  {
    forall i | 0 <= i < k
      ensures evs[i] != Confirm && evs[i] != Cancel
    {
      assert evs[..k][i] == evs[i];
    }
  }

  /** No event of `evs` but possibly its last is a signal. */
  predicate QuietButLast(evs: seq<Event>)
  {
    evs == [] || Quiet(evs[..|evs| - 1])
  }

  /** One more event after a quiet stretch leaves at most the last consumed event a signal. */
  lemma QuietThenOne(s: seq<Event>, t: seq<Event>, u: seq<Event>)
    requires IsSuffix(t, s) && IsSuffix(u, t) && |t| - |u| <= 1 && Quiet(Consumed(s, t))
    ensures IsSuffix(u, s) && QuietButLast(Consumed(s, u))
  {
    if |u| < |t| {
      assert Consumed(s, u)[..|Consumed(s, u)| - 1] == Consumed(s, t);
    } else {
      assert Consumed(s, u) == Consumed(s, t);
    }
  }

  /**
   * A confirmation wait begun on `s` that consumed no signal but possibly its last event
   * stands, at `t`, just after the first signal of `s` once it consumed a signal, and has
   * found no signal in `s` once the input is exhausted without one.
   */
  lemma WaitedFor(s: seq<Event>, t: seq<Event>)
    requires IsSuffix(t, s) && QuietButLast(Consumed(s, t))
    ensures !Quiet(Consumed(s, t)) ==> FirstSignal(s).Some? && t == AfterSignal(s)
    ensures Confirm in Consumed(s, t) <==> !Quiet(Consumed(s, t)) && SignalIs(s, Confirm)
    ensures Cancel in Consumed(s, t) <==> !Quiet(Consumed(s, t)) && SignalIs(s, Cancel)
    ensures Quiet(Consumed(s, t)) && t == [] ==> FirstSignal(s).None?
  {
    var c := Consumed(s, t);
    if !Quiet(c) {
      var k := |c| - 1;
      assert c == c[..k] + [c[k]];
      assert s[..k] == c[..k] && s[k] == c[k];
      FirstSignalAt(s, k);
    }
    if t == [] {
      assert c == s;
    }
  }

  /** The input left after the two sleeps of a run's set-up. */
  function AfterSetup(evs: seq<Event>): seq<Event>
  {
    if |evs| <= 2 then [] else evs[2..]
  }

  /** Two sleeps, each consuming the next event if there is one, leave `AfterSetup`. */
  lemma SetupSleeps(s: seq<Event>, t: seq<Event>, u: seq<Event>, r0: bool, r1: bool, r2: bool)
    requires IsSuffix(t, s) && |s| - |t| <= 1 && (s != [] ==> t == s[1..])
    requires IsSuffix(u, t) && |t| - |u| <= 1 && (t != [] ==> u == t[1..])
    requires r1 == (r0 || Cancel in Consumed(s, t)) && r2 == (r1 || Cancel in Consumed(t, u))
    ensures IsSuffix(u, s) && u == AfterSetup(s) && r2 == (r0 || Cancel in Consumed(s, u))
  {
    CancelAcross(s, t, u);
    if |s| > 2 {
      assert u == s[2..];
    }
  }

  /** What delivering one event does to the sample loop: whether it sets the cancel event and how many messages it buffers. */
  datatype Effect = Effect(cancel: bool, gain: nat)

  function EffectOf(e: Event): (f: Effect)
    ensures f.cancel <==> e.Cancel?
    ensures f.gain <= 1 && (f.gain == 1 <==> e.Notify? && StartsWith(Strip(e.data), "Calib"))
  {
    Effect(e == Cancel, |Handled(e)|)
  }

  /** The effects of the events of `s`, in order. */
  function Effects(s: seq<Event>): (r: seq<Effect>)
    ensures |r| == |s|
  {
    seq(|s|, k requires 0 <= k < |s| => EffectOf(s[k]))
  }

  /** The first `k` events are the first one, then the next `k - 1`. */
  lemma PrefixCons(s: seq<Event>, k: nat)
    requires 0 < k <= |s|
    ensures s[1..][k - 1..] == s[k..]
    ensures Cancel in s[..k] <==> s[0] == Cancel || Cancel in s[1..][..k - 1]
    ensures |Notified(s[..k])| == |Handled(s[0])| + |Notified(s[1..][..k - 1])|
  {
    assert s[..k] == [s[0]] + s[1..][..k - 1];
    NotifiedCons(s[0], s[1..][..k - 1]);
  }

  /** One sleep delivers the first event of the input. */
  lemma DeliverEvent(s: seq<Event>, pending: bool, got: nat)
    requires s != []
    ensures Deliver(Probe(Effects(s), pending, got))
      == Probe(Effects(s[1..]), pending || s[0] == Cancel, got + |Handled(s[0])|)
  {
    EffectsTail(s);
  }

  /** The effects of a non-empty input: its first event's, then the rest's. */
  lemma EffectsTail(s: seq<Event>)
    requires s != []
    ensures Effects(s)[0] == EffectOf(s[0]) && Effects(s)[1..] == Effects(s[1..])
  {
  }

  /**
   * What the sample loop depends on: the effects of the input not yet delivered, whether the
   * cancel event is set, and how many messages the buffer holds.
   */
  datatype Probe = Probe(rest: seq<Effect>, pending: bool, got: nat)

  /** One sleep: the next event, if there is one, is delivered to the handler or the flags. */
  function Deliver(p: Probe): Probe
  {
    if p.rest == [] then p
    else Probe(p.rest[1..], p.pending || p.rest[0].cancel, p.got + p.rest[0].gain)
  }

  /** `k` sleeps in a row. */
  function Delivered(p: Probe, k: nat): (q: Probe)
    ensures |q.rest| == if k < |p.rest| then |p.rest| - k else 0
    decreases k
  {
    if k == 0 then p else Delivered(Deliver(p), k - 1)
  }

  /** The wait for sample `i` may end: the sample is in the buffer or the cancel event is set. */
  predicate Answered(p: Probe, i: nat)
  {
    p.got > i || p.pending
  }

  /** The wait for sample `i`: a check, then a sleep, until the wait may end or the input does. */
  function ResponseWait(p: Probe, i: nat): (q: Probe)
    ensures |q.rest| <= |p.rest|
    decreases |p.rest|
  {
    if Answered(p, i) || p.rest == [] then p else ResponseWait(Deliver(p), i)
  }

  /** The countdown between two samples: up to `n` one-second sleeps, each after a cancel check. */
  function CountdownOf(p: Probe, n: nat): (q: Probe)
    ensures |q.rest| <= |p.rest|
    decreases n
  {
    if n == 0 || p.pending then p else CountdownOf(Deliver(p), n - 1)
  }

  /**
   * One pass of the sample loop for sample `i`: the cancel check, the wait for the sample,
   * then the countdown unless this is the last sample.
   */
  function SampleStep(p: Probe, i: nat, samples: nat): (q: Probe)
    ensures |q.rest| <= |p.rest|
  {
    if p.pending then p
    else if i + 1 < samples then CountdownOf(ResponseWait(p, i), 10)
    else ResponseWait(p, i)
  }

  /** The sample loop from sample `i` on. */
  function SampleLoop(p: Probe, i: nat, samples: nat): (q: Probe)
    ensures |q.rest| <= |p.rest|
    decreases samples - i
  {
    if i >= samples then p else SampleLoop(SampleStep(p, i, samples), i + 1, samples)
  }

  /** The sample loop begun on input `c` with an empty buffer and no cancel pending. */
  function Sampled(c: seq<Event>, samples: nat): (q: Probe)
    ensures |q.rest| <= |c|
  {
    SampleLoop(Probe(Effects(c), false, 0), 0, samples)
  }

  /** The sample loop ended without waiting out the input: a cancel is set or every sample came. */
  predicate Collected(q: Probe, samples: nat)
  {
    q.pending || q.got >= samples
  }

  /** Once the cancel event is set or the input is exhausted, the countdown changes nothing. */
  lemma {:induction false} CountdownIdle(p: Probe, n: nat)
    requires p.pending || p.rest == []
    ensures CountdownOf(p, n) == p
    decreases n
  {
    if n > 0 && !p.pending {
      CountdownIdle(Deliver(p), n - 1);
    }
  }

  /** Once the cancel event is set or the input is exhausted, the sample loop changes nothing. */
  lemma {:induction false} SampleLoopIdle(p: Probe, i: nat, samples: nat)
    requires p.pending || p.rest == []
    ensures SampleLoop(p, i, samples) == p
    decreases samples - i
  {
    if i < samples {
      CountdownIdle(p, 10);
      SampleLoopIdle(SampleStep(p, i, samples), i + 1, samples);
    }
  }

  /** A countdown of `n` seconds without a cancel pending is one sleep followed by the rest. */
  lemma CountdownStep(p: Probe, q: Probe, n: nat, k: nat)
    requires n == k + 1 && !p.pending && q == Deliver(p)
    ensures CountdownOf(p, n) == CountdownOf(q, k)
  {
  }

  /** A countdown of no seconds changes nothing. */
  lemma CountdownDone(p: Probe)
    ensures CountdownOf(p, 0) == p
  {
  }

  /** The sample loop from sample `i` is one step of it followed by the loop from `i + 1`. */
  lemma SampleLoopStep(p: Probe, q: Probe, i: nat, samples: nat)
    requires i < samples && q == SampleStep(p, i, samples)
    ensures SampleLoop(p, i, samples) == SampleLoop(q, i + 1, samples)
  {
  }

  /** The sample loop past its last sample changes nothing. */
  lemma SampleLoopDone(p: Probe, samples: nat)
    ensures SampleLoop(p, samples, samples) == p
  {
  }

  /**
   * `k` sleeps deliver the first `k` events: the cancel event is set when it was or one of
   * them is a cancel, and the buffer gains the messages they notify.
   */
  lemma {:induction false} DeliveredEvents(s: seq<Event>, pending: bool, got: nat, k: nat)
    requires k <= |s|
    ensures Delivered(Probe(Effects(s), pending, got), k)
      == Probe(Effects(s[k..]), pending || Cancel in s[..k], got + |Notified(s[..k])|)
    decreases k
  {
    if k == 0 {
      assert s[..0] == [] && s[0..] == s;
    } else {
      var p := Probe(Effects(s), pending, got);
      var t, c, g := s[1..], pending || s[0] == Cancel, got + |Handled(s[0])|;
      DeliverEvent(s, pending, got);
      assert Delivered(p, k) == Delivered(Probe(Effects(t), c, g), k - 1);
      DeliveredEvents(t, c, g, k - 1);
      PrefixCons(s, k);
    }
  }

  /** Sleeping `a` times and then `b` times is sleeping `a + b` times. */
  lemma {:induction false} DeliveredDelivered(p: Probe, a: nat, b: nat)
    ensures Delivered(Delivered(p, a), b) == Delivered(p, a + b)
    decreases a
  {
    if a > 0 {
      DeliveredDelivered(Deliver(p), a - 1, b);
    }
  }

  /** Sleeps never clear the cancel event nor remove a message, and keep an exhausted input so. */
  lemma {:induction false} DeliveredGrows(p: Probe, k: nat)
    ensures p.pending ==> Delivered(p, k).pending
    ensures Delivered(p, k).got >= p.got
    ensures p.rest == [] ==> Delivered(p, k) == p
    decreases k
  {
    if k > 0 {
      DeliveredGrows(Deliver(p), k - 1);
    }
  }

  /**
   * The response wait stops on the first sleep after which the sample is in the buffer or the
   * cancel event is set, or when the input is exhausted; it sleeps no more than it must.
   */
  lemma {:induction false} ResponseWaitStops(p: Probe, i: nat)
    ensures ResponseWait(p, i) == Delivered(p, |p.rest| - |ResponseWait(p, i).rest|)
    ensures Answered(ResponseWait(p, i), i) || ResponseWait(p, i).rest == []
    ensures |p.rest| - |ResponseWait(p, i).rest| > 0 ==>
      !Answered(Delivered(p, |p.rest| - |ResponseWait(p, i).rest| - 1), i)
    ensures CancelLast(p, |p.rest| - |ResponseWait(p, i).rest|)
    decreases |p.rest|
  {
    if !Answered(p, i) && p.rest != [] {
      ResponseWaitStops(Deliver(p), i);
    }
  }

  /** Of `k` sleeps from `p`, only the last can have set the cancel event. */
  predicate CancelLast(p: Probe, k: nat)
  {
    k > 0 && Delivered(p, k).pending ==> !Delivered(p, k - 1).pending
  }

  /** Two runs of sleeps, each setting the cancel event only with its last sleep, make one. */
  lemma CancelLastAcross(p: Probe, a: nat, b: nat)
    requires CancelLast(p, a) && CancelLast(Delivered(p, a), b)
    ensures CancelLast(p, a + b)
  {
    DeliveredDelivered(p, a, b);
    if b > 0 {
      DeliveredDelivered(p, a, b - 1);
    }
  }

  /** Sleeps from `p` to `r` and on to `q`, each run setting the cancel event only last, make one run. */
  lemma DeliveredChain(p: Probe, r: Probe, q: Probe, k1: nat, k2: nat)
    requires k1 <= |p.rest| && r == Delivered(p, k1) && CancelLast(p, k1)
    requires k2 <= |r.rest| && q == Delivered(r, k2) && CancelLast(r, k2)
    ensures |q.rest| <= |p.rest| && q == Delivered(p, |p.rest| - |q.rest|)
    ensures CancelLast(p, |p.rest| - |q.rest|)
  {
    DeliveredDelivered(p, k1, k2);
    CancelLastAcross(p, k1, k2);
    assert |r.rest| == |p.rest| - k1;
  }

  /**
   * The countdown sleeps `n` times, or as often as a shorter input allows, unless the cancel
   * event is set: then it stops right after the first cancel, or sleeps not at all when one
   * is pending.
   */
  lemma {:induction false} CountdownStops(p: Probe, n: nat)
    ensures CountdownOf(p, n) == Delivered(p, |p.rest| - |CountdownOf(p, n).rest|)
    ensures |p.rest| - |CountdownOf(p, n).rest| <= n
    ensures CountdownOf(p, n).pending ||
      |p.rest| - |CountdownOf(p, n).rest| == if n < |p.rest| then n else |p.rest|
    ensures CancelLast(p, |p.rest| - |CountdownOf(p, n).rest|)
    decreases n
  {
    if n == 0 || p.pending {
    } else if p.rest == [] {
      CountdownStops(p, n - 1);
      DeliveredGrows(p, n);
    } else {
      CountdownStops(Deliver(p), n - 1);
    }
  }

  /**
   * One pass of the sample loop stops right after the first cancel it consumes; when it ends
   * without a cancel, sample `i` is in the buffer or the input is exhausted.
   */
  lemma SampleStepStops(p: Probe, i: nat, samples: nat)
    ensures SampleStep(p, i, samples) == Delivered(p, |p.rest| - |SampleStep(p, i, samples).rest|)
    ensures CancelLast(p, |p.rest| - |SampleStep(p, i, samples).rest|)
    ensures !SampleStep(p, i, samples).pending ==>
      SampleStep(p, i, samples).got > i || SampleStep(p, i, samples).rest == []
  {
    if !p.pending {
      var w := ResponseWait(p, i);
      var kw := |p.rest| - |w.rest|;
      ResponseWaitStops(p, i);
      assert CancelLast(p, kw);
      if i + 1 < samples {
        WaitThenCount(p, w, kw, i);
      }
    }
  }

  /** The countdown after the response wait ends, as `SampleStepStops` states it. */
  lemma WaitThenCount(p: Probe, w: Probe, kw: nat, i: nat)
    requires kw <= |p.rest| && w == Delivered(p, kw) && CancelLast(p, kw)
    requires Answered(w, i) || w.rest == []
    ensures var r := CountdownOf(w, 10);
      |r.rest| <= |p.rest| && r == Delivered(p, |p.rest| - |r.rest|) && CancelLast(p, |p.rest| - |r.rest|)
      && (!r.pending ==> r.got > i || r.rest == [])
  {
    var r := CountdownOf(w, 10);
    CountdownStops(w, 10);
    DeliveredChain(p, w, r, kw, |w.rest| - |r.rest|);
    CountdownKeeps(w, i, 10);
  }

  /** A countdown begun once sample `i` is in, a cancel set or the input exhausted, keeps it so. */
  lemma {:induction false} CountdownKeeps(w: Probe, i: nat, n: nat)
    requires Answered(w, i) || w.rest == []
    ensures var r := CountdownOf(w, n); !r.pending ==> r.got > i || r.rest == []
    decreases n
  {
    if n > 0 && !w.pending {
      CountdownKeeps(Deliver(w), i, n - 1);
    }
  }

  /** The sample loop stops right after the first cancel it consumes. */
  lemma {:induction false} SampleLoopStops(p: Probe, i: nat, samples: nat)
    ensures SampleLoop(p, i, samples) == Delivered(p, |p.rest| - |SampleLoop(p, i, samples).rest|)
    ensures CancelLast(p, |p.rest| - |SampleLoop(p, i, samples).rest|)
    decreases samples - i
  {
    if i < samples {
      var r := SampleStep(p, i, samples);
      SampleStepStops(p, i, samples);
      SampleLoopStops(r, i + 1, samples);
      DeliveredChain(p, r, SampleLoop(r, i + 1, samples), |p.rest| - |r.rest|, |r.rest| - |SampleLoop(r, i + 1, samples).rest|);
    }
  }

  /** The sample loop misses a sample only when the input is exhausted. */
  lemma {:induction false} SampleLoopMisses(p: Probe, i: nat, samples: nat)
    requires i < samples
    ensures !Collected(SampleLoop(p, i, samples), samples) ==> SampleLoop(p, i, samples).rest == []
    decreases samples - i
  {
    var r := SampleStep(p, i, samples);
    SampleStepStops(p, i, samples);
    if i + 1 < samples {
      SampleLoopMisses(r, i + 1, samples);
    } else {
      assert SampleLoop(r, i + 1, samples) == r;
    }
  }

  /**
   * The input over one saved weight: `begin` when its pass started, `confirmed` once the
   * confirmation was consumed and `end` once its samples were collected.
   */
  datatype Stretch = Stretch(begin: seq<Event>, confirmed: seq<Event>, end: seq<Event>)

  /** The input left once the sample loop begun on `c` has ended. */
  function SampledEnd(c: seq<Event>, samples: nat): (e: seq<Event>)
    ensures IsSuffix(e, c)
  {
    c[|c| - |Sampled(c, samples).rest|..]
  }

  /** A sample loop begun on `c` that leaves the input `e` ends at `SampledEnd(c, samples)`. */
  lemma LoopEnd(c: seq<Event>, e: seq<Event>, q: Probe, samples: nat)
    requires IsSuffix(e, c) && q == Sampled(c, samples) && q.rest == Effects(e)
    ensures e == SampledEnd(c, samples)
  {
  }

  /**
   * `m` is the input of a weight that saved `batch`: its confirmation wait ends on the first
   * signal, a confirmation; its sample loop ends where the loop begun there ends, with every
   * sample in or a cancel consumed; and the batch is the first `samples` messages notified in
   * between.
   */
  predicate Pass(m: Stretch, batch: seq<string>, samples: nat)
  {
    SignalIs(m.begin, Confirm) && m.confirmed == AfterSignal(m.begin)
    && m.end == SampledEnd(m.confirmed, samples) && Collected(Sampled(m.confirmed, samples), samples)
    && batch == Take(Notified(Consumed(m.confirmed, m.end)), samples)
  }

  /**
   * A pass of the weight loop begun on `s`, with the cancel event set exactly when `r`, saves
   * its weight: no cancel is pending, the first signal confirms the weight and the sample loop
   * does not wait out the input.
   */
  predicate Completes(s: seq<Event>, r: bool, samples: nat)
  {
    !r && SignalIs(s, Confirm) && Collected(Sampled(AfterSignal(s), samples), samples)
  }

  /** The input of the pass begun on `s` whose first signal confirms the weight. */
  function PassFrom(s: seq<Event>, samples: nat): (m: Stretch)
    requires SignalIs(s, Confirm)
    ensures m.begin == s && IsSuffix(m.end, m.confirmed)
  {
    Stretch(s, AfterSignal(s), SampledEnd(AfterSignal(s), samples))
  }

  /** The pass begun on `s` that saves its weight is a pass, with the batch it saves. */
  lemma PassFromPasses(s: seq<Event>, samples: nat)
    requires Completes(s, false, samples)
    ensures var m := PassFrom(s, samples); Pass(m, Take(Notified(Consumed(m.confirmed, m.end)), samples), samples)
  {
  }

  /**
   * The passes that save a weight when the weight loop, begun on `s` with the cancel event
   * set exactly when `r`, has `weights` still to calibrate: each begins where the last ended,
   * and the loop stops at the first pass that does not save its weight.
   */
  function PassesFrom(s: seq<Event>, r: bool, samples: nat, weights: seq<int>): (ms: seq<Stretch>)
    ensures |ms| <= |weights|
  {
    if weights == [] || !Completes(s, r, samples) then []
    else
      var m := PassFrom(s, samples);
      [m] + PassesFrom(m.end, Pending(r, s, m.end), samples, weights[1..])
  }

  /**
   * The passes that save a weight in a run on the input `input`, with the cancel event set
   * exactly when `requested` beforehand: the weight loop starts once the set-up has slept.
   */
  function RunPasses(input: seq<Event>, requested: bool, samples: nat): seq<Stretch>
  {
    PassesFrom(AfterSetup(input), Pending(requested, input, AfterSetup(input)), samples, Weights())
  }

  /** The passes the weight loop makes from the end of the set-up are the run's passes. */
  lemma PlannedRun(input: seq<Event>, requested: bool, samples: nat, begun: seq<Event>, marks: seq<Stretch>)
    requires begun == AfterSetup(input)
    requires marks == PassesFrom(begun, Pending(requested, input, begun), samples, Weights())
    ensures marks == RunPasses(input, requested, samples)
  { }

  /** No cancel was pending when the last of the passes `marks`, started on `start`, began. */
  predicate Unpended(marks: seq<Stretch>, start: seq<Event>, requested: bool)
  {
    marks != [] ==> !Pending(requested, start, marks[|marks| - 1].begin)
  }

  /**
   * Consecutive passes that saved their weights, with no cancel pending when the last began,
   * and after which the weight loop stopped, having run `n` passes or met one that does not
   * save its weight, are exactly the passes the input determines.
   */
  lemma {:induction false} ChainedPasses(
    batches: seq<seq<string>>, marks: seq<Stretch>, samples: nat, start: seq<Event>, requested: bool,
    weights: seq<int>)
    requires Chained(batches, marks, samples, start) && Unpended(marks, start, requested) && |marks| <= |weights|
    requires |marks| == |weights| ||
      !Completes(After(marks, start), Pending(requested, start, After(marks, start)), samples)
    ensures marks == PassesFrom(start, requested, samples, weights)
    decreases |marks|
  {
    if marks == [] {
      assert Consumed(start, start) == [];
      assert Pending(requested, start, start) == requested;
      PassesNone(start, requested, samples, weights);
      assert PassesFrom(start, requested, samples, weights) == [];
    } else {
      ChainedRest(batches, marks, samples, start, requested, weights);
      ChainedPasses(batches[1..], marks[1..], samples, marks[0].end, Pending(requested, start, marks[0].end), weights[1..]);
      ChainedHead(batches, marks, samples, start, requested);
      PassesJoin(start, requested, samples, weights, marks);
    }
  }

  /** A first pass that saves its weight followed by the passes after it are the passes. */
  lemma PassesJoin(start: seq<Event>, requested: bool, samples: nat, weights: seq<int>, marks: seq<Stretch>)
    requires weights != [] && marks != [] && Completes(start, requested, samples)
    requires marks[0] == PassFrom(start, samples)
    requires marks[1..] == PassesFrom(marks[0].end, Pending(requested, start, marks[0].end), samples, weights[1..])
    ensures marks == PassesFrom(start, requested, samples, weights)
  {
    PassesCons(start, requested, samples, weights, marks[0]);
    assert marks == [marks[0]] + marks[1..];
  }

  /** The passes after the first meet, from where the first ended, what all of them met. */
  lemma ChainedRest(
    batches: seq<seq<string>>, marks: seq<Stretch>, samples: nat, start: seq<Event>, requested: bool,
    weights: seq<int>)
    requires Chained(batches, marks, samples, start) && Unpended(marks, start, requested) && marks != []
    requires |marks| <= |weights|
    requires |marks| == |weights| ||
      !Completes(After(marks, start), Pending(requested, start, After(marks, start)), samples)
    ensures var s2 := marks[0].end; var r2 := Pending(requested, start, s2); var rest := weights[1..];
      Chained(batches[1..], marks[1..], samples, s2) && Unpended(marks[1..], s2, r2) && |marks[1..]| <= |rest|
      && (|marks[1..]| == |rest| || !Completes(After(marks[1..], s2), Pending(r2, s2, After(marks[1..], s2)), samples))
  {
    ChainedTail(batches, marks, samples, start, requested);
  }

  /** The first of consecutive saved passes, begun with no cancel pending, is the input's first pass. */
  lemma ChainedHead(batches: seq<seq<string>>, marks: seq<Stretch>, samples: nat, start: seq<Event>, requested: bool)
    requires Chained(batches, marks, samples, start) && Unpended(marks, start, requested) && marks != []
    ensures Completes(start, requested, samples) && marks[0] == PassFrom(start, samples)
  {
    var m := marks[0];
    assert m.begin == start && Pass(m, batches[0], samples);
    ChainedSuffixAt(batches, marks, samples, start, |marks| - 1);
    assert !Pending(requested, start, marks[|marks| - 1].begin);
  }

  /** With a pass that saves its weight first, the passes are that pass and those after it. */
  lemma PassesCons(s: seq<Event>, r: bool, samples: nat, weights: seq<int>, m: Stretch)
    requires weights != [] && Completes(s, r, samples) && m == PassFrom(s, samples)
    ensures PassesFrom(s, r, samples, weights) == [m] + PassesFrom(m.end, Pending(r, s, m.end), samples, weights[1..])
  {
  }

  /** Without a pass that saves its weight first, there are no passes. */
  lemma PassesNone(s: seq<Event>, r: bool, samples: nat, weights: seq<int>)
    requires weights == [] || !Completes(s, r, samples)
    ensures PassesFrom(s, r, samples, weights) == []
  {
  }

  /** The passes after the first are consecutive passes started where the first ended. */
  lemma ChainedTail(batches: seq<seq<string>>, marks: seq<Stretch>, samples: nat, start: seq<Event>, requested: bool)
    requires Chained(batches, marks, samples, start) && Unpended(marks, start, requested) && marks != []
    ensures Chained(batches[1..], marks[1..], samples, marks[0].end)
    ensures Unpended(marks[1..], marks[0].end, Pending(requested, start, marks[0].end))
    ensures After(marks[1..], marks[0].end) == After(marks, start)
    ensures Pending(Pending(requested, start, marks[0].end), marks[0].end, After(marks, start))
      == Pending(requested, start, After(marks, start))
  {
    UnpendedTail(batches, marks, samples, start, requested);
    PendingTail(batches, marks, samples, start, requested);
    var bs, ms := batches[1..], marks[1..];
    if ms != [] {
      assert ms[0].begin == marks[0].end;
    }
    forall i, k | 0 <= i < k < |ms| && k == i + 1
      ensures ms[k].begin == ms[i].end
    {
      assert ms[k] == marks[k + 1] && ms[i] == marks[i + 1];
    }
    forall i | 0 <= i < |ms|
      ensures Pass(ms[i], bs[i], samples)
    {
      assert ms[i] == marks[i + 1] && bs[i] == batches[i + 1];
    }
  }

  /** No cancel was pending, restated from where the first pass ended, when the last pass began. */
  lemma UnpendedTail(batches: seq<seq<string>>, marks: seq<Stretch>, samples: nat, start: seq<Event>, requested: bool)
    requires Chained(batches, marks, samples, start) && Unpended(marks, start, requested) && marks != []
    ensures Unpended(marks[1..], marks[0].end, Pending(requested, start, marks[0].end))
  {
    var m := marks[0];
    if |marks| > 1 {
      var last := marks[|marks| - 1];
      PassSuffix(m, batches[0], samples);
      LinkedSuffix(batches, marks, samples, start, 0, |marks| - 1);
      PendingAcross(requested, start, m.end, last.begin);
      assert marks[1..][|marks| - 2] == last;
    }
  }

  /** The cancel event over the passes after the first, restated from where the first ended. */
  lemma PendingTail(batches: seq<seq<string>>, marks: seq<Stretch>, samples: nat, start: seq<Event>, requested: bool)
    requires Chained(batches, marks, samples, start) && marks != []
    ensures Pending(Pending(requested, start, marks[0].end), marks[0].end, After(marks, start))
      == Pending(requested, start, After(marks, start))
  {
    var m, at := marks[0], After(marks, start);
    PassSuffix(m, batches[0], samples);
    assert IsSuffix(m.end, start) by { assert m.begin == start; }
    if |marks| > 1 {
      var last := marks[|marks| - 1];
      LinkedSuffix(batches, marks, samples, start, 0, |marks| - 1);
      PassSuffix(last, batches[|marks| - 1], samples);
      ConsumedAcross(m.end, last.begin, last.end);
      assert IsSuffix(at, m.end);
    } else {
      assert at == m.end && m.end[|m.end| - |m.end|..] == m.end;
    }
    PendingAcross(requested, start, m.end, at);
  }

  /** A pass consumes its input in order: the confirmation wait, then the sample loop. */
  lemma PassSuffix(m: Stretch, batch: seq<string>, samples: nat)
    requires Pass(m, batch, samples)
    ensures IsSuffix(m.confirmed, m.begin) && IsSuffix(m.end, m.confirmed) && IsSuffix(m.end, m.begin)
  {
    ConsumedAcross(m.begin, m.confirmed, m.end);
  }

  /** Each pass ends no later than a later pass begins. */
  lemma {:induction false} LinkedSuffix(
    batches: seq<seq<string>>, marks: seq<Stretch>, samples: nat, start: seq<Event>, i: nat, k: nat)
    requires Chained(batches, marks, samples, start) && i < k < |marks|
    ensures IsSuffix(marks[k].begin, marks[i].end)
    decreases k - i
  {
    assert marks[i + 1].begin == marks[i].end;
    if i + 1 < k {
      LinkedSuffix(batches, marks, samples, start, i + 1, k);
      var m := marks[i + 1];
      assert Pass(m, batches[i + 1], samples);
      ConsumedAcross(m.begin, m.confirmed, m.end);
      ConsumedAcross(m.begin, m.end, marks[k].begin);
    }
  }

  /** A cancel pending once the input reached `t` is still pending at its suffix `u`. */
  lemma PendingMonotone(r: bool, s: seq<Event>, t: seq<Event>, u: seq<Event>)
    requires IsSuffix(t, s) && IsSuffix(u, t)
    ensures Pending(r, s, t) ==> Pending(r, s, u)
  {
    ConsumedAcross(s, t, u);
  }

  /** A cancel was consumed while the weight of `m` was sampled. */
  predicate CanceledWhileSampling(m: Stretch)
  {
    |m.end| <= |m.confirmed| && Cancel in Consumed(m.confirmed, m.end)
  }

  /** The input left once the passes `marks`, started on `start`, consumed theirs. */
  function After(marks: seq<Stretch>, start: seq<Event>): seq<Event>
  {
    if marks == [] then start else marks[|marks| - 1].end
  }

  /** `marks` are consecutive passes of the weight loop started on `start`, saving `batches`. */
  ghost predicate Chained(batches: seq<seq<string>>, marks: seq<Stretch>, samples: nat, start: seq<Event>)
  {
    |batches| == |marks|
    && (marks != [] ==> marks[0].begin == start)
    && (forall i, k :: 0 <= i < k < |marks| && k == i + 1 ==> marks[k].begin == marks[i].end)
    && (forall i {:trigger Pass(marks[i], batches[i], samples)} ::
          0 <= i < |marks| ==> Pass(marks[i], batches[i], samples))
  }

  /** Every pass up to the `k`th consumes its input in order, from `start`. */
  lemma {:induction false} ChainedSuffixAt(
    batches: seq<seq<string>>, marks: seq<Stretch>, samples: nat, start: seq<Event>, k: nat)
    requires Chained(batches, marks, samples, start) && k < |marks|
    ensures IsSuffix(marks[k].begin, start) && IsSuffix(marks[k].end, start)
    decreases k
  {
    var m := marks[k];
    if k > 0 {
      ChainedSuffixAt(batches, marks, samples, start, k - 1);
      assert m.begin == marks[k - 1].end;
    }
    assert Pass(m, batches[k], samples);
    ConsumedAcross(start, m.begin, m.confirmed);
    ConsumedAcross(start, m.confirmed, m.end);
  }

  /** The passes consume their input in order, from `start`. */
  lemma ChainedSuffix(batches: seq<seq<string>>, marks: seq<Stretch>, samples: nat, start: seq<Event>)
    requires Chained(batches, marks, samples, start)
    ensures IsSuffix(After(marks, start), start)
  {
    if marks != [] {
      ChainedSuffixAt(batches, marks, samples, start, |marks| - 1);
    }
  }

  /** Every saved message is a "Calib" notification. */
  lemma ChainedAreCalib(batches: seq<seq<string>>, marks: seq<Stretch>, samples: nat, start: seq<Event>)
    requires Chained(batches, marks, samples, start)
    ensures OnlyCalib(batches)
  {
    forall j | 0 <= j < |batches|
      ensures forall msg :: msg in batches[j] ==> StartsWith(msg, "Calib")
    {
      PassAreCalib(marks[j], batches[j], samples);
    }
  }

  /** Every reading kept by one pass is a calibration notification. */
  lemma PassAreCalib(m: Stretch, batch: seq<string>, samples: nat)
    requires Pass(m, batch, samples)
    ensures forall msg :: msg in batch ==> StartsWith(msg, "Calib")
  {
    var msgs := Notified(Consumed(m.confirmed, m.end));
    NotifiedAreCalib(Consumed(m.confirmed, m.end));
    forall msg | msg in batch
      ensures StartsWith(msg, "Calib")
    {
      var i :| 0 <= i < |batch| && batch[i] == msg;
      assert msg == msgs[i];
    }
  }

  /** A pass started where the others ended extends the chain. */
  lemma ChainedExtend(
    batches: seq<seq<string>>, marks: seq<Stretch>, samples: nat, start: seq<Event>,
    batch: seq<string>, m: Stretch)
    requires Chained(batches, marks, samples, start)
    requires m.begin == After(marks, start) && Pass(m, batch, samples)
    ensures Chained(batches + [batch], marks + [m], samples, start)
    ensures After(marks + [m], start) == m.end
  {
    var bs, ms := batches + [batch], marks + [m];
    forall i | 0 <= i < |ms|
      ensures Pass(ms[i], bs[i], samples)
    {
      if i < |marks| {
        assert ms[i] == marks[i] && bs[i] == batches[i];
      }
    }
    forall i, k | 0 <= i < k < |ms| && k == i + 1
      ensures ms[k].begin == ms[i].end
    {
      assert ms[i] == marks[i];
      if k < |marks| {
        assert ms[k] == marks[k];
      } else {
        assert ms[k] == m && i == |marks| - 1;
      }
    }
  }

  /** A cancel consumed while the `j`th weight was sampled was consumed by the end of the `k`th. */
  lemma {:induction false} ChainedCancelAt(
    batches: seq<seq<string>>, marks: seq<Stretch>, samples: nat, start: seq<Event>, j: nat, k: nat)
    requires Chained(batches, marks, samples, start) && j <= k < |marks| && CanceledWhileSampling(marks[j])
    ensures IsSuffix(marks[k].end, start) && Cancel in Consumed(start, marks[k].end)
    decreases k
  {
    ChainedSuffixAt(batches, marks, samples, start, k);
    if k == j {
      PassCancel(marks[k], batches[k], samples, start);
    } else {
      ChainedCancelAt(batches, marks, samples, start, j, k - 1);
      assert marks[k].begin == marks[k - 1].end;
      PassCancel(marks[k], batches[k], samples, start);
    }
  }

  /** A cancel consumed while some saved weight was sampled was consumed by the passes. */
  lemma ChainedCancel(
    batches: seq<seq<string>>, marks: seq<Stretch>, samples: nat, start: seq<Event>, j: nat)
    requires Chained(batches, marks, samples, start) && j < |marks| && CanceledWhileSampling(marks[j])
    ensures IsSuffix(After(marks, start), start) && Cancel in Consumed(start, After(marks, start))
  {
    ChainedCancelAt(batches, marks, samples, start, j, |marks| - 1);
  }

  /** A cancel consumed before or while the weight of `m` was sampled was consumed by its end. */
  lemma PassCancel(m: Stretch, batch: seq<string>, samples: nat, start: seq<Event>)
    requires Pass(m, batch, samples) && IsSuffix(m.begin, start)
    ensures IsSuffix(m.end, start)
    ensures CanceledWhileSampling(m) || Cancel in Consumed(start, m.begin) ==> Cancel in Consumed(start, m.end)
  {
    CancelAcross(m.begin, m.confirmed, m.end);
    CancelAcross(start, m.begin, m.end);
  }

  /**
   * The record of the weight loop: consecutive saved passes from `start`, the last begun with no
   * cancel pending, at most 16 batches of at most `samples` messages, and the file's rows.
   */
  ghost predicate Kept(
    sensor: string, batches: seq<seq<string>>, marks: seq<Stretch>, rows: seq<Row>,
    samples: nat, start: seq<Event>, requested: bool)
  {
    Chained(batches, marks, samples, start) && Unpended(marks, start, requested)
    && |batches| <= 16 && rows == RowsOf(sensor, batches) && AtMost(batches, samples)
  }

  /** `k * s` by repeated addition, which keeps the session's step arithmetic linear. */
  function Times(k: nat, s: nat): nat
  {
    if k == 0 then 0 else Times(k - 1, s) + s
  }

  lemma {:induction false} TimesIsProduct(k: nat, s: nat)
    ensures Times(k, s) == k * s
  {
    if k > 0 {
      TimesIsProduct(k - 1, s);
    }
  }

  lemma {:induction false} TimesMonotone(j: nat, k: nat, s: nat)
    requires j <= k
    ensures Times(j, s) <= Times(k, s)
    decreases k
  {
    if j < k {
      TimesMonotone(j, k - 1, s);
    }
  }

  /** No batch holds more than `samples` messages. */
  predicate AtMost(batches: seq<seq<string>>, samples: nat)
  {
    forall j :: 0 <= j < |batches| ==> |batches[j]| <= samples
  }

  /** Every batch holds exactly `samples` messages. */
  predicate Exactly(batches: seq<seq<string>>, samples: nat)
  {
    forall j :: 0 <= j < |batches| ==> |batches[j]| == samples
  }

  /** Saving one more batch appends its rows for the next weight and keeps the batch sizes. */
  lemma BatchAppended(sensor: string, done: seq<seq<string>>, batch: seq<string>, samples: nat)
    requires |done| < 16
    ensures RowsOf(sensor, done + [batch]) == RowsOf(sensor, done) + RowsFor(sensor, Weights()[|done|], batch)
    ensures AtMost(done, samples) && |batch| <= samples ==> AtMost(done + [batch], samples)
    ensures Exactly(done, samples) && |batch| == samples ==> Exactly(done + [batch], samples)
  {
    assert (done + [batch])[..|done|] == done;
    forall j | 0 <= j < |done|
      ensures (done + [batch])[j] == done[j]
    {
    }
  }

  /** Each saved batch adds its own size to the file; full batches give `samples` rows per weight. */
  lemma {:induction false} RowsOfLength(sensor: string, batches: seq<seq<string>>, samples: nat)
    requires |batches| <= 16
    ensures AtMost(batches, samples) ==> |RowsOf(sensor, batches)| <= Times(|batches|, samples)
    ensures Exactly(batches, samples) ==> |RowsOf(sensor, batches)| == Times(|batches|, samples)
    decreases |batches|
  {
    if batches != [] {
      var init, last := batches[..|batches| - 1], batches[|batches| - 1];
      assert batches == init + [last];
      BatchAppended(sensor, init, last, samples);
      RowsOfLength(sensor, init, samples);
      if AtMost(batches, samples) {
        assert AtMost(init, samples) by {
          forall j | 0 <= j < |init| ensures |init[j]| <= samples {
            assert init[j] == batches[j];
          }
        }
      }
      if Exactly(batches, samples) {
        assert Exactly(init, samples) by {
          forall j | 0 <= j < |init| ensures |init[j]| == samples {
            assert init[j] == batches[j];
          }
        }
      }
    }
  }

  /**
   * The state `calibracion_ble_wrapper` keeps in module globals and in the progress handler,
   * together with the remaining input and the rows of the run's file.
   */
  class Session {
    var events: seq<Event>      // input not yet delivered
    var buffer: seq<string>     // buffer_datos
    var canceled: bool          // calibration_canceled
    var cancelRequested: bool   // the cancel event is set
    var confirmed: bool         // _progress_handler.confirmed
    var currentStep: nat        // current_step
    var fileExists: bool        // the run's CSV file exists
    var rows: seq<Row>          // its data rows, after the header
    ghost var batches: seq<seq<string>>  // the messages saved for each weight so far
    ghost var marks: seq<Stretch>        // the input each saved weight consumed
    ghost var cancelSeen: Option<Stage>  // the check that first observed the cancel event

    /** A cancel observed by a check was requested, and only the confirmation wait sets the flag. */
    ghost predicate Coherent()
      reads this
    {
      (cancelSeen.Some? ==> cancelRequested) && (canceled ==> cancelSeen == Some(ConfirmWait))
    }

    constructor (input: seq<Event>)
      ensures events == input && buffer == [] && !canceled && !cancelRequested && !confirmed
      ensures currentStep == 0 && !fileExists && rows == [] && batches == [] && marks == []
      ensures cancelSeen == None
    {
      events := input;
      buffer := [];
      canceled := false;
      cancelRequested := false;
      confirmed := false;
      currentStep := 0;
      fileExists := false;
      rows := [];
      batches := [];
      marks := [];
      cancelSeen := None;
    }

    /** What the sample loop depends on, read off the session. */
    ghost function Probed(): Probe
      reads this
    {
      Probe(Effects(events), cancelRequested, |buffer|)
    }

    /** One sleep: the next event, if any, is delivered to the handler or the GUI flags. */
    method Sleep()
      modifies this
      ensures Probed() == Deliver(old(Probed()))
      ensures IsSuffix(events, old(events)) && |old(events)| - |events| <= 1
      ensures old(events) != [] ==> events == old(events)[1..]
      ensures buffer == old(buffer) + Notified(Consumed(old(events), events))
      ensures cancelRequested == (old(cancelRequested) || Cancel in Consumed(old(events), events))
      ensures confirmed == (old(confirmed) || Confirm in Consumed(old(events), events))
      ensures cancelRequested && !old(cancelRequested) ==> buffer == old(buffer) && confirmed == old(confirmed)
      ensures canceled == old(canceled) && currentStep == old(currentStep)
      ensures fileExists == old(fileExists) && rows == old(rows)
      ensures batches == old(batches) && marks == old(marks) && cancelSeen == old(cancelSeen)
    {
      if events != [] {
        var e := events[0];
        assert Consumed(events, events[1..]) == [e];
        assert Notified([e]) == Notified([]) + Handled(e);
        EffectsTail(events);
        events := events[1..];
        buffer := buffer + Handled(e);
        if e.Confirm? {
          confirmed := true;
        } else if e.Cancel? {
          cancelRequested := true;
        }
      }
    }

    /** Since the input was `start` and the buffer `b0`, every consumed event has been delivered. */
    ghost predicate Since(start: seq<Event>, b0: seq<string>, requested: bool)
      reads this
    {
      IsSuffix(events, start) && buffer == b0 + Notified(Consumed(start, events))
      && cancelRequested == (requested || Cancel in Consumed(start, events))
    }

    /** One sleep inside a wait that began with input `start` and buffer `b0`. */
    method Listen(ghost start: seq<Event>, ghost b0: seq<string>, ghost requested: bool)
      requires Since(start, b0, requested)
      modifies this
      ensures Since(start, b0, requested)
      ensures Probed() == Deliver(old(Probed()))
      ensures IsSuffix(events, old(events))
      ensures |old(events)| - |events| == if old(events) == [] then 0 else 1
      ensures confirmed == (old(confirmed) || Confirm in Consumed(old(events), events))
      ensures cancelRequested && !old(cancelRequested) ==> buffer == old(buffer) && confirmed == old(confirmed)
      ensures canceled == old(canceled) && currentStep == old(currentStep)
      ensures fileExists == old(fileExists) && rows == old(rows)
      ensures batches == old(batches) && marks == old(marks) && cancelSeen == old(cancelSeen)
    {
      ghost var before, mid := events, buffer;
      Sleep();
      BufferAcross(b0, mid, buffer, start, before, events);
      CancelAcross(start, before, events);
    }

    /** The confirmation wait observes the cancel event and sets `calibration_canceled`. */
    method SetCanceled()
      modifies this
      ensures canceled && cancelSeen == Some(ConfirmWait)
      ensures events == old(events) && buffer == old(buffer) && cancelRequested == old(cancelRequested)
      ensures confirmed == old(confirmed) && currentStep == old(currentStep)
      ensures fileExists == old(fileExists) && rows == old(rows)
      ensures batches == old(batches) && marks == old(marks)
    {
      canceled := true;
      cancelSeen := Some(ConfirmWait);
    }

    /** A new confirmation wait starts unconfirmed. */
    method ClearConfirmed()
      modifies this
      ensures !confirmed
      ensures events == old(events) && buffer == old(buffer) && cancelRequested == old(cancelRequested)
      ensures canceled == old(canceled) && cancelSeen == old(cancelSeen) && currentStep == old(currentStep)
      ensures fileExists == old(fileExists) && rows == old(rows)
      ensures batches == old(batches) && marks == old(marks)
    {
      confirmed := false;
    }

    /**
     * Waits for the user's confirmation. The wait consumes the input up to its first signal and
     * ends there, setting the canceled flag exactly when that signal is a cancel, or when the
     * cancel event was already set; a cancel seen here is the only one that sets the flag.
     */
    method AwaitConfirmation() returns (stalled: bool)
      requires Coherent() && !canceled && cancelSeen.None?
      modifies this
      ensures Coherent()
      ensures IsSuffix(events, old(events))
      ensures buffer == old(buffer) + Notified(Consumed(old(events), events))
      ensures cancelRequested == (old(cancelRequested) || Cancel in Consumed(old(events), events))
      ensures currentStep == old(currentStep) && fileExists == old(fileExists)
      ensures rows == old(rows) && batches == old(batches) && marks == old(marks)
      ensures canceled <==> cancelSeen == Some(ConfirmWait)
      ensures cancelSeen.None? || cancelSeen == Some(ConfirmWait)
      ensures old(cancelRequested) ==> canceled && events == old(events)
      ensures !old(cancelRequested) && FirstSignal(old(events)).None? ==> stalled && events == []
      ensures !old(cancelRequested) && FirstSignal(old(events)).Some? ==>
        !stalled && events == AfterSignal(old(events)) && (canceled <==> SignalIs(old(events), Cancel))
      ensures stalled ==> events == [] && !canceled && !cancelRequested
      ensures !stalled ==> (canceled <==> cancelRequested) && (canceled <==> !confirmed)
    {
      ClearConfirmed();
      stalled := false;
      while !confirmed && !canceled
        invariant Coherent()
        invariant Since(old(events), old(buffer), old(cancelRequested))
        invariant confirmed == (Confirm in Consumed(old(events), events))
        invariant !old(cancelRequested) ==> QuietButLast(Consumed(old(events), events))
        invariant old(cancelRequested) ==> events == old(events)
        invariant currentStep == old(currentStep) && fileExists == old(fileExists)
        invariant rows == old(rows) && batches == old(batches) && marks == old(marks)
        invariant canceled <==> cancelSeen == Some(ConfirmWait)
        invariant cancelSeen.None? || cancelSeen == Some(ConfirmWait)
        invariant canceled ==> !confirmed && cancelRequested
        decreases |events|
      {
        if cancelRequested {
          SetCanceled();
          break;
        }
        if events == [] {
          stalled := true;
          break;
        }
        ghost var before := events;
        Listen(old(events), old(buffer), old(cancelRequested));
        ConsumedAcross(old(events), before, events);
        QuietThenOne(old(events), before, events);
      }
      WaitedFor(old(events), events);
    }

    /**
     * Waits until the buffer holds more than `i` messages; the wait also ends when a cancel is
     * seen, which the response-wait check does not record in the canceled flag.
     */
    method AwaitResponse(i: nat) returns (end: WaitEnd)
      requires Coherent() && !canceled
      modifies this
      ensures Coherent() && !canceled
      ensures IsSuffix(events, old(events))
      ensures buffer == old(buffer) + Notified(Consumed(old(events), events))
      ensures cancelRequested == (old(cancelRequested) || Cancel in Consumed(old(events), events))
      ensures currentStep == old(currentStep) && fileExists == old(fileExists)
      ensures rows == old(rows) && batches == old(batches) && marks == old(marks)
      ensures cancelSeen == old(cancelSeen)
      ensures end.Arrived? <==> |buffer| > i
      ensures end.SawCancel? <==> cancelRequested && |buffer| <= i
      ensures end.Arrived? && cancelRequested ==> old(cancelRequested)
      ensures end.InputEnded? ==> events == [] && !cancelRequested
      ensures Probed() == ResponseWait(old(Probed()), i)
    {
      end := Arrived;
      while |buffer| <= i
        invariant Coherent() && !canceled
        invariant ResponseWait(Probed(), i) == ResponseWait(old(Probed()), i)
        invariant Since(old(events), old(buffer), old(cancelRequested))
        invariant currentStep == old(currentStep) && fileExists == old(fileExists)
        invariant rows == old(rows) && batches == old(batches) && marks == old(marks)
        invariant cancelSeen == old(cancelSeen)
        invariant cancelRequested ==> old(cancelRequested) || |buffer| <= i
        decreases |events|
      {
        if canceled || cancelRequested {
          return SawCancel;
        }
        if events == [] {
          return InputEnded;
        }
        Listen(old(events), old(buffer), old(cancelRequested));
      }
    }

    /**
     * The ten one-second sleeps between two samples, cut short by a cancel: without a cancel
     * they consume ten events, or the rest of the input when it is shorter.
     */
    method Countdown()
      requires Coherent() && !canceled
      modifies this
      ensures Coherent() && !canceled
      ensures IsSuffix(events, old(events))
      ensures buffer == old(buffer) + Notified(Consumed(old(events), events))
      ensures cancelRequested == (old(cancelRequested) || Cancel in Consumed(old(events), events))
      ensures currentStep == old(currentStep) && fileExists == old(fileExists)
      ensures rows == old(rows) && batches == old(batches) && marks == old(marks)
      ensures cancelSeen == old(cancelSeen) || (old(cancelSeen).None? && cancelSeen == Some(Sampling))
      ensures old(cancelRequested) ==> events == old(events) && cancelSeen.Some?
      ensures !cancelRequested ==>
        |old(events)| - |events| == if |old(events)| < 10 then |old(events)| else 10
      ensures Probed() == CountdownOf(old(Probed()), 10)
    {
      ghost var target := CountdownOf(Probed(), 10);
      var sec := CountdownLoop(old(events), old(buffer), old(cancelRequested), target);
      if sec == 0 {
        CountdownDone(Probed());
      } else {
        CountdownIdle(Probed(), sec);
        NoteSamplingCancel();
      }
    }

    /** A check of the sample loop has observed the cancel event; only a first observation is recorded. */
    ghost method NoteSamplingCancel()
      requires cancelRequested
      modifies this
      ensures cancelSeen == if old(cancelSeen).None? then Some(Sampling) else old(cancelSeen)
      ensures events == old(events) && buffer == old(buffer) && cancelRequested == old(cancelRequested)
      ensures canceled == old(canceled) && confirmed == old(confirmed) && currentStep == old(currentStep)
      ensures fileExists == old(fileExists) && rows == old(rows)
      ensures batches == old(batches) && marks == old(marks)
    {
      if cancelSeen.None? {
        cancelSeen := Some(Sampling);
      }
    }

    /**
     * The loop of `Countdown`: a cancel check and a sleep per second until the ten seconds
     * have passed or the cancel event is set; `sec` is the number of seconds left.
     */
    method CountdownLoop(ghost e0: seq<Event>, ghost b0: seq<string>, ghost r0: bool, ghost target: Probe)
      returns (sec: nat)
      requires CountingDown(10, e0, b0, r0, target)
      modifies this
      ensures CountingDown(sec, e0, b0, r0, target) && (sec == 0 || cancelRequested)
      ensures currentStep == old(currentStep) && fileExists == old(fileExists)
      ensures rows == old(rows) && batches == old(batches) && marks == old(marks)
      ensures cancelSeen == old(cancelSeen)
      ensures r0 ==> sec == 10
    {
      sec := 10;
      while sec > 0
        invariant CountingDown(sec, e0, b0, r0, target)
        invariant currentStep == old(currentStep) && fileExists == old(fileExists)
        invariant rows == old(rows) && batches == old(batches) && marks == old(marks)
        invariant cancelSeen == old(cancelSeen)
      {
        if canceled || cancelRequested {
          return;
        }
        sec := CountdownSecond(sec, e0, b0, r0, target);
      }
    }

    /**
     * The countdown begun on input `e0` with buffer `b0` and cancel event `r0` has `sec`
     * seconds left: every consumed event was delivered, one per elapsed second unless the
     * cancel was set first, and what is left of the countdown ends where the whole one does.
     */
    ghost predicate CountingDown(sec: nat, e0: seq<Event>, b0: seq<string>, r0: bool, target: Probe)
      reads this
    {
      && sec <= 10 && Coherent() && !canceled && Since(e0, b0, r0)
      && (r0 ==> sec == 10 && events == e0)
      && (!cancelRequested ==> |e0| - |events| == if |e0| < 10 - sec then |e0| else 10 - sec)
      && CountdownOf(Probed(), sec) == target
    }

    /** One second of the countdown with no cancel set: a sleep, and `left`, one second less, to go. */
    method CountdownSecond(sec: nat, ghost e0: seq<Event>, ghost b0: seq<string>, ghost r0: bool, ghost target: Probe)
      returns (left: nat)
      requires 0 < sec && !cancelRequested && CountingDown(sec, e0, b0, r0, target)
      modifies this
      ensures left == sec - 1 && CountingDown(left, e0, b0, r0, target)
      ensures currentStep == old(currentStep) && fileExists == old(fileExists)
      ensures rows == old(rows) && batches == old(batches) && marks == old(marks)
      ensures cancelSeen == old(cancelSeen)
    {
      ghost var p := Probed();
      Listen(e0, b0, r0);
      left := sec - 1;
      CountdownStep(p, Probed(), sec, left);
    }

    /**
     * One pass of the sample loop: the cancel check, one more step, the request for sample
     * `i` and the wait for it, then the countdown unless this is the last sample.
     */
    method TakeSample(i: nat, samples: nat) returns (end: StepEnd)
      requires Coherent() && !canceled && (cancelSeen.None? || cancelSeen == Some(Sampling))
      modifies this
      ensures Coherent() && !canceled
      ensures IsSuffix(events, old(events))
      ensures buffer == old(buffer) + Notified(Consumed(old(events), events))
      ensures cancelRequested == (old(cancelRequested) || Cancel in Consumed(old(events), events))
      ensures fileExists == old(fileExists) && rows == old(rows)
      ensures batches == old(batches) && marks == old(marks)
      ensures cancelSeen.None? || cancelSeen == Some(Sampling)
      ensures old(cancelRequested) ==> end.Stop?
      ensures end.Stop? ==> currentStep == old(currentStep) && cancelSeen == Some(Sampling)
      ensures !end.Stop? ==> currentStep == old(currentStep) + 1
      ensures end.Next? && cancelSeen.None? ==> |buffer| > i
      ensures end.Next? && i + 1 >= samples ==> (cancelSeen.Some? <==> cancelRequested)
      ensures end.Stalled? ==> events == [] && cancelSeen.None? && !cancelRequested && |buffer| <= i
      ensures Probed() == SampleStep(old(Probed()), i, samples)
    {
      if canceled || cancelRequested {
        if cancelSeen.None? {
          cancelSeen := Some(Sampling);
        }
        return Stop;
      }
      currentStep := currentStep + 1;
      ghost var before, mid := events, buffer;
      var wait := AwaitResponse(i);
      BufferAcross(old(buffer), mid, buffer, old(events), before, events);
      CancelAcross(old(events), before, events);
      if wait.InputEnded? {
        CountdownIdle(Probed(), 10);
        return Stalled;
      }
      if wait.SawCancel? {
        cancelSeen := Some(Sampling);
      }
      // the flag test after the wait never fires: only the confirmation wait sets the flag
      if i < samples - 1 {
        before, mid := events, buffer;
        Countdown();
        BufferAcross(old(buffer), mid, buffer, old(events), before, events);
        CancelAcross(old(events), before, events);
      }
      return Next;
    }

    /**
     * Clears the buffer and collects `samples` messages, one step per started sample. Unless a
     * cancel is seen, every sample arrives and the step counter advances by `samples`; a
     * cancel that arrives while sampling is seen before the loop ends.
     */
    method CollectSamples(samples: nat) returns (stalled: bool)
      requires Coherent() && !canceled && cancelSeen.None?
      modifies this
      ensures Coherent() && !canceled
      ensures IsSuffix(events, old(events))
      ensures buffer == Notified(Consumed(old(events), events))
      ensures cancelRequested == (old(cancelRequested) || Cancel in Consumed(old(events), events))
      ensures fileExists == old(fileExists) && rows == old(rows)
      ensures batches == old(batches) && marks == old(marks)
      ensures old(currentStep) <= currentStep <= old(currentStep) + samples
      ensures cancelSeen.None? || cancelSeen == Some(Sampling)
      ensures samples > 0 || !old(cancelRequested) ==> (cancelSeen.Some? <==> cancelRequested)
      ensures stalled ==> events == [] && cancelSeen.None?
      ensures !stalled && cancelSeen.None? ==> currentStep == old(currentStep) + samples && |buffer| >= samples
      ensures Probed() == SampleLoop(Probe(Effects(old(events)), old(cancelRequested), 0), 0, samples)
      ensures stalled <==> !Collected(Probed(), samples)
    {
      buffer := [];
      stalled := false;
      ghost var loop := SampleLoop(Probe(Effects(old(events)), old(cancelRequested), 0), 0, samples);
      assert Probed() == Probe(Effects(old(events)), old(cancelRequested), 0);
      var i := 0;
      while i < samples
        invariant 0 <= i <= samples
        invariant Collecting(i, samples, old(events), old(cancelRequested), old(currentStep), loop)
        invariant fileExists == old(fileExists) && rows == old(rows)
        invariant batches == old(batches) && marks == old(marks)
        invariant i == 0 ==> cancelRequested == old(cancelRequested) && cancelSeen.None?
      {
        var end, next := SampleRound(i, samples, old(events), old(cancelRequested), old(currentStep), loop);
        if end.Stalled? {
          return true;
        }
        if end.Stop? {
          break;
        }
        i := next;
      }
      if i == samples {
        SampleLoopDone(Probed(), samples);
        assert Collected(loop, samples);
      }
    }

    /**
     * The sample loop begun on input `e0` with the cancel event `r0` and step counter `step0`
     * has started `i` samples: the buffer holds every message consumed since, the cancel event
     * is set exactly when it was or a cancel was consumed, the counter advanced once per
     * started sample, and what is left of the loop ends where the whole loop does.
     */
    ghost predicate Collecting(i: nat, samples: nat, e0: seq<Event>, r0: bool, step0: nat, loop: Probe)
      reads this
    {
      && i <= samples && Coherent() && !canceled
      && IsSuffix(events, e0) && buffer == Notified(Consumed(e0, events))
      && cancelRequested == (r0 || Cancel in Consumed(e0, events))
      && step0 <= currentStep <= step0 + i
      && (cancelSeen.None? || cancelSeen == Some(Sampling))
      && (cancelSeen.None? ==> currentStep == step0 + i && |buffer| >= i)
      && (i > 0 && i == samples ==> (cancelSeen.Some? <==> cancelRequested))
      && SampleLoop(Probed(), i, samples) == loop
    }

    /**
     * One pass of the sample loop, `TakeSample` for sample `i`, seen from the loop: a pass that
     * goes on keeps the loop's state one sample further; one that stops or stalls ends the loop.
     */
    method SampleRound(i: nat, samples: nat, ghost e0: seq<Event>, ghost r0: bool, ghost step0: nat, ghost loop: Probe)
      returns (end: StepEnd, next: nat)
      requires i < samples && Collecting(i, samples, e0, r0, step0, loop)
      modifies this
      ensures fileExists == old(fileExists) && rows == old(rows)
      ensures batches == old(batches) && marks == old(marks)
      ensures old(cancelRequested) ==> end.Stop?
      ensures next == i + 1
      ensures end.Next? ==> Collecting(i + 1, samples, e0, r0, step0, loop)
      ensures end.Stop? ==> Collecting(i, samples, e0, r0, step0, loop)
      ensures end.Stop? ==> cancelSeen == Some(Sampling) && Probed() == loop && Collected(loop, samples)
      ensures end.Stalled? ==> Coherent() && !canceled && IsSuffix(events, e0)
      ensures end.Stalled? ==> buffer == Notified(Consumed(e0, events))
      ensures end.Stalled? ==> cancelRequested == (r0 || Cancel in Consumed(e0, events))
      ensures end.Stalled? ==> step0 <= currentStep <= step0 + samples
      ensures end.Stalled? ==> events == [] && cancelSeen.None? && !cancelRequested && |buffer| <= i
      ensures end.Stalled? ==> Probed() == loop && !Collected(loop, samples)
    {
      ghost var before, mid, p := events, buffer, Probed();
      end := TakeSample(i, samples);
      ghost var q := Probed();
      SampleLoopStep(p, q, i, samples);
      FreshBufferAcross(mid, buffer, e0, before, events);
      CancelAcross(e0, before, events);
      if end.Stalled? {
        assert q.rest == [];
        SampleLoopIdle(q, i + 1, samples);
      } else if end.Stop? {
        SampleLoopIdle(q, i, samples);
      }
      next := i + 1;
    }

    /** Appends `[sensor, peso, reading]` for the first `samples` buffered messages. */
    method SaveRows(sensor: string, peso: int, samples: nat)
      modifies this
      ensures rows == old(rows) + RowsFor(sensor, peso, Take(buffer, samples))
      ensures batches == old(batches) + [Take(buffer, samples)]
      ensures events == old(events) && buffer == old(buffer) && canceled == old(canceled)
      ensures cancelRequested == old(cancelRequested) && confirmed == old(confirmed)
      ensures currentStep == old(currentStep) && fileExists == old(fileExists)
      ensures marks == old(marks) && cancelSeen == old(cancelSeen)
    {
      rows := rows + RowsFor(sensor, peso, Take(buffer, samples));
      batches := batches + [Take(buffer, samples)];
    }

    /** Records the input a saved weight consumed. */
    ghost method RecordPass(m: Stretch)
      modifies this
      ensures marks == old(marks) + [m]
      ensures events == old(events) && buffer == old(buffer) && cancelRequested == old(cancelRequested)
      ensures canceled == old(canceled) && cancelSeen == old(cancelSeen) && confirmed == old(confirmed)
      ensures currentStep == old(currentStep) && fileExists == old(fileExists) && rows == old(rows)
      ensures batches == old(batches)
    {
      marks := marks + [m];
    }

    /**
     * One pass of the weight loop for weight `peso`: the cancel check, the confirmation wait,
     * the sample collection and the saving of the first `samples` buffered messages. The pass
     * stops exactly when the cancel event is already set or the first signal it meets is a
     * cancel; otherwise the first signal confirms the weight and `pass` records where.
     */
    method CalibrateWeight(sensor: string, peso: int, samples: nat) returns (end: StepEnd, ghost pass: Stretch)
      requires Coherent() && !canceled && (cancelSeen.None? || cancelSeen == Some(Sampling))
      modifies this
      ensures Coherent() && fileExists == old(fileExists)
      ensures IsSuffix(events, old(events))
      ensures cancelRequested == (old(cancelRequested) || Cancel in Consumed(old(events), events))
      ensures cancelSeen.Some? <==> cancelRequested
      ensures old(cancelRequested) ==> end.Stop?
      ensures end.Stop? <==> old(cancelRequested) || SignalIs(old(events), Cancel)
      ensures canceled <==> !old(cancelRequested) && SignalIs(old(events), Cancel)
      ensures old(cancelSeen).Some? ==> cancelSeen == old(cancelSeen) && buffer == old(buffer)
      ensures end.Next? ==> pass.begin == old(events) && pass.end == events
      ensures end.Next? <==> Completes(old(events), old(cancelRequested), samples)
      ensures end.Next? ==> SignalIs(old(events), Confirm) && pass == PassFrom(old(events), samples)
      ensures end.Next? ==> Pass(pass, Take(buffer, samples), samples)
      ensures end.Next? ==> marks == old(marks) + [pass] && batches == old(batches) + [Take(buffer, samples)]
      ensures end.Next? ==> rows == old(rows) + RowsFor(sensor, peso, Take(buffer, samples))
      ensures end.Next? ==> old(currentStep) <= currentStep <= old(currentStep) + samples
      ensures end.Next? && cancelSeen.None? ==>
        currentStep == old(currentStep) + samples && |Take(buffer, samples)| == samples
      ensures end.Next? ==> cancelSeen.None? || cancelSeen == Some(Sampling)
      ensures !end.Next? ==> batches == old(batches) && marks == old(marks) && rows == old(rows)
      ensures end.Stop? ==> currentStep == old(currentStep)
      ensures end.Stop? ==> cancelSeen.Some? && (canceled <==> cancelSeen == Some(ConfirmWait))
      ensures end.Stop? && !canceled ==> cancelSeen == old(cancelSeen) || cancelSeen == Some(BeforeWeight)
      ensures end.Stalled? ==> events == [] && cancelSeen.None?
      ensures end.Stalled? ==> old(currentStep) <= currentStep <= old(currentStep) + samples
    {
      pass := Stretch(old(events), old(events), old(events));
      if canceled || cancelRequested {
        if cancelSeen.None? {
          cancelSeen := Some(BeforeWeight);
        }
        return Stop, pass;
      }
      var stalled := AwaitConfirmation();
      if stalled {
        return Stalled, pass;
      }
      if canceled {
        return Stop, pass;
      }
      ghost var confirmedAt := events;
      stalled := CollectSamples(samples);
      CancelAcross(old(events), confirmedAt, events);
      LoopEnd(confirmedAt, events, Probed(), samples);
      if stalled {
        return Stalled, pass;
      }
      // the flag test after the sample loop never fires: only the confirmation wait sets the flag
      SaveRows(sensor, peso, samples);
      pass := Stretch(old(events), confirmedAt, events);
      RecordPass(pass);
      return Next, pass;
    }

    /**
     * What the weight loop keeps on every pass, however it ends: the input consumed since
     * `start`, the cancel request it carried, the passes of the saved weights and the file's
     * rows as their batches.
     */
    ghost predicate Tracked(sensor: string, samples: nat, start: seq<Event>, requested: bool)
      reads this
    {
      Coherent() && IsSuffix(events, start)
      && cancelRequested == (requested || Cancel in Consumed(start, events))
      && Kept(sensor, batches, marks, rows, samples, start, requested) && IsSuffix(events, After(marks, start))
      && (canceled <==> cancelSeen == Some(ConfirmWait))
      && (cancelSeen == Some(Sampling) ==> |batches| > 0 && batches[|batches| - 1] == Take(buffer, samples))
    }

    /** The weight loop after `k` weights were saved without the flag being set. */
    ghost predicate Weighed(sensor: string, samples: nat, k: nat, start: seq<Event>, requested: bool)
      reads this
    {
      Tracked(sensor, samples, start, requested) && !canceled && |batches| == k
      && events == After(marks, start) && currentStep <= Times(k, samples)
      && (cancelSeen.None? || cancelSeen == Some(Sampling))
      && (cancelSeen.None? ==> currentStep == Times(k, samples) && Exactly(batches, samples))
      && (k > 0 ==> (cancelSeen.Some? <==> cancelRequested))
    }

    /** The facts `CalibrateWeight` leaves after saving the `k`-th weight give the next pass's. */
    lemma NextWeighed(
      sensor: string, samples: nat, k: nat, start: seq<Event>, requested: bool,
      done: seq<seq<string>>, marked: seq<Stretch>, step: nat, pass: Stretch)
      requires k < 16 && |done| == k && step == Times(k, samples) && Exactly(done, samples)
      requires Chained(done, marked, samples, start) && IsSuffix(pass.begin, start)
      requires pass.begin == After(marked, start) && pass.end == events && IsSuffix(events, pass.begin)
      requires !Pending(requested, start, pass.begin)
      requires Coherent() && !canceled && (cancelSeen.None? || cancelSeen == Some(Sampling))
      requires cancelSeen.Some? <==> cancelRequested
      requires cancelRequested == (requested || Cancel in Consumed(start, events))
      requires Pass(pass, Take(buffer, samples), samples)
      requires marks == marked + [pass] && batches == done + [Take(buffer, samples)]
      requires rows == RowsOf(sensor, done) + RowsFor(sensor, Weights()[k], Take(buffer, samples))
      requires step <= currentStep <= step + samples
      requires cancelSeen.None? ==> currentStep == step + samples && |Take(buffer, samples)| == samples
      ensures Weighed(sensor, samples, k + 1, start, requested)
    {
      var batch := Take(buffer, samples);
      ChainedExtend(done, marked, samples, start, batch, pass);
      BatchAppended(sensor, done, batch, samples);
      assert Times(k + 1, samples) == step + samples;
      ChainedSuffix(batches, marks, samples, start);
      assert Chained(batches, marks, samples, start) && IsSuffix(events, After(marks, start));
      assert rows == RowsOf(sensor, batches) && AtMost(batches, samples);
      assert cancelSeen.None? ==> Exactly(batches, samples);
    }

    /**
     * The weight loop stopped at the `k`-th weight without saving it: the pass began where the
     * saved passes ended and does not complete, so the loop discards the run exactly when no
     * cancel was pending and the pass's first signal is a cancel, and the input ended in a
     * wait exactly when neither holds.
     */
    ghost predicate Halted(sensor: string, samples: nat, k: nat, start: seq<Event>, requested: bool, end: StepEnd)
      reads this
    {
      var at := After(marks, start);
      Tracked(sensor, samples, start, requested) && |batches| == k && !end.Next?
      && (canceled <==> !Pending(requested, start, at) && SignalIs(at, Cancel))
      && (end.Stalled? <==> !Pending(requested, start, at) && !SignalIs(at, Cancel))
      && !Completes(at, Pending(requested, start, at), samples)
      && (cancelSeen.Some? <==> cancelRequested)
      && (end.Stop? ==> currentStep <= Times(k, samples) && cancelSeen.Some?)
      && (end.Stalled? ==> events == [] && cancelSeen.None? && currentStep <= Times(k + 1, samples))
    }

    /** The facts `CalibrateWeight` leaves after a pass that does not save its weight give `Halted`. */
    lemma Halts(
      sensor: string, samples: nat, k: nat, start: seq<Event>, requested: bool,
      e0: seq<Event>, r0: bool, step0: nat, cs0: Option<Stage>, buf0: seq<string>, end: StepEnd)
      requires Kept(sensor, batches, marks, rows, samples, start, requested) && |batches| == k
      requires e0 == After(marks, start) && IsSuffix(e0, start)
      requires r0 == (requested || Cancel in Consumed(start, e0))
      requires step0 <= Times(k, samples) && (cs0.None? || cs0 == Some(Sampling))
      requires cs0 == Some(Sampling) ==> |batches| > 0 && batches[|batches| - 1] == Take(buf0, samples)
      requires k > 0 ==> (cs0.Some? <==> r0)
      requires !end.Next? && !Completes(e0, r0, samples)
      requires Coherent() && IsSuffix(events, e0) && cancelRequested == (r0 || Cancel in Consumed(e0, events))
      requires cancelSeen.Some? <==> cancelRequested
      requires end.Stop? <==> r0 || SignalIs(e0, Cancel)
      requires canceled <==> !r0 && SignalIs(e0, Cancel)
      requires cs0.Some? ==> cancelSeen == cs0 && buffer == buf0
      requires end.Stop? ==> currentStep == step0 && cancelSeen.Some? && (canceled <==> cancelSeen == Some(ConfirmWait))
      requires end.Stop? && !canceled ==> cancelSeen == cs0 || cancelSeen == Some(BeforeWeight)
      requires end.Stalled? ==> events == [] && cancelSeen.None? && currentStep <= step0 + samples
      ensures Halted(sensor, samples, k, start, requested, end)
    {
      CancelAcross(start, e0, events);
      assert Pending(requested, start, e0) == r0;
      assert Times(k + 1, samples) == Times(k, samples) + samples;
    }

    /** One pass of the weight loop, for the `k`-th weight, with the loop's bookkeeping. */
    method WeighNext(sensor: string, samples: nat, k: nat, ghost start: seq<Event>, ghost requested: bool)
      returns (end: StepEnd)
      requires k < 16 && Weighed(sensor, samples, k, start, requested)
      modifies this
      ensures fileExists == old(fileExists)
      ensures end.Next? ==> Weighed(sensor, samples, k + 1, start, requested)
      ensures !end.Next? ==> Halted(sensor, samples, k, start, requested, end)
    {
      ghost var before, done, marked, step, r0 := events, batches, marks, currentStep, cancelRequested;
      ghost var cs0, buf0 := cancelSeen, buffer;
      ghost var pass: Stretch;
      end, pass := CalibrateWeight(sensor, Weights()[k], samples);
      if end.Next? {
        CancelAcross(start, before, events);
        NextWeighed(sensor, samples, k, start, requested, done, marked, step, pass);
      } else {
        Halts(sensor, samples, k, start, requested, before, r0, step, cs0, buf0, end);
      }
    }

    /** Before the first weight, nothing is saved and no input is consumed. */
    lemma Unweighed(sensor: string, samples: nat)
      requires Coherent() && !canceled && cancelSeen.None?
      requires batches == [] && marks == [] && rows == [] && currentStep == 0
      ensures Weighed(sensor, samples, 0, events, cancelRequested)
    {
      assert Consumed(events, events) == [];
    }

    /** Where the weight loop stops, what it kept gives what `WeighAll` promises. */
    lemma Settled(sensor: string, samples: nat, start: seq<Event>, requested: bool, k: nat, end: StepEnd)
      requires end.Next? ==> k == 16 && Weighed(sensor, samples, 16, start, requested)
      requires !end.Next? ==> k < 16 && Halted(sensor, samples, k, start, requested, end)
      ensures Tracked(sensor, samples, start, requested) && |batches| == k
      ensures marks == PassesFrom(start, requested, samples, Weights())
      ensures |batches| < 16 ==>
        !Completes(After(marks, start), Pending(requested, start, After(marks, start)), samples)
      ensures cancelSeen.Some? <==> cancelRequested
      ensures canceled <==>
        |batches| < 16 && !Pending(requested, start, After(marks, start)) && SignalIs(After(marks, start), Cancel)
      ensures end.Stalled? <==>
        |batches| < 16 && !Pending(requested, start, After(marks, start)) && !SignalIs(After(marks, start), Cancel)
      ensures forall j :: 0 <= j < |batches| ==> |batches[j]| <= samples
      ensures currentStep <= 16 * samples
      ensures cancelSeen == Some(BeforeWeight) || cancelSeen == Some(Sampling) ==> !end.Stalled?
      ensures !end.Stalled? && cancelSeen.None? ==>
        |batches| == 16 && |rows| == 16 * samples && currentStep == 16 * samples
    {
      TimesIsProduct(16, samples);
      ChainedPasses(batches, marks, samples, start, requested, Weights());
      if end.Next? {
        RowsOfLength(sensor, batches, samples);
      } else {
        TimesMonotone(if end.Stalled? then k + 1 else k, 16, samples);
      }
    }

    /**
     * The weight loop: the 16 weights in ascending order, until a cancel is seen or the input
     * ends in a wait. Returns whether the input ended in a wait. Every saved batch comes from
     * the stretch of input its weight consumed, and the loop discards the run exactly when
     * the weight after the saved ones meets no pending cancel and a cancel as its first signal.
     */
    method WeighAll(sensor: string, samples: nat) returns (stalled: bool)
      requires Coherent() && !canceled && cancelSeen.None?
      requires batches == [] && marks == [] && rows == [] && currentStep == 0
      modifies this
      ensures Coherent() && fileExists == old(fileExists)
      ensures IsSuffix(events, old(events))
      ensures cancelRequested == (old(cancelRequested) || Cancel in Consumed(old(events), events))
      ensures cancelSeen.Some? <==> cancelRequested
      ensures Chained(batches, marks, samples, old(events)) && IsSuffix(events, After(marks, old(events)))
      ensures marks == PassesFrom(old(events), old(cancelRequested), samples, Weights())
      ensures |batches| < 16 ==>
        !Completes(After(marks, old(events)), Pending(old(cancelRequested), old(events), After(marks, old(events))), samples)
      ensures canceled <==>
        |batches| < 16 && !Pending(old(cancelRequested), old(events), After(marks, old(events)))
        && SignalIs(After(marks, old(events)), Cancel)
      ensures stalled <==>
        |batches| < 16 && !Pending(old(cancelRequested), old(events), After(marks, old(events)))
        && !SignalIs(After(marks, old(events)), Cancel)
      ensures |batches| <= 16 && rows == RowsOf(sensor, batches)
      ensures forall j :: 0 <= j < |batches| ==> |batches[j]| <= samples
      ensures currentStep <= 16 * samples
      ensures canceled <==> cancelSeen == Some(ConfirmWait)
      ensures stalled ==> events == [] && cancelSeen.None?
      ensures cancelSeen == Some(BeforeWeight) || cancelSeen == Some(Sampling) ==> !stalled
      ensures cancelSeen == Some(Sampling) ==> |batches| > 0 && batches[|batches| - 1] == Take(buffer, samples)
      ensures !stalled && cancelSeen.None? ==>
        |batches| == 16 && |rows| == 16 * samples && currentStep == 16 * samples
    {
      ghost var start, requested := events, cancelRequested;
      Unweighed(sensor, samples);
      var k, end := WeighEach(sensor, samples, start, requested);
      Settled(sensor, samples, start, requested, k, end);
      return end.Stalled?;
    }

    /**
     * The loop over the weights itself: it stops after the pass that does not end in `Next`,
     * having saved `k` weights, or after all 16.
     */
    method WeighEach(sensor: string, samples: nat, ghost start: seq<Event>, ghost requested: bool)
      returns (k: nat, end: StepEnd)
      requires Weighed(sensor, samples, 0, start, requested)
      modifies this
      ensures fileExists == old(fileExists)
      ensures end.Next? ==> k == 16 && Weighed(sensor, samples, 16, start, requested)
      ensures !end.Next? ==> k < 16 && Halted(sensor, samples, k, start, requested, end)
    {
      k := 0;
      end := Next;
      ghost var file := fileExists;
      while k < 16
        invariant k <= 16 && Weighed(sensor, samples, k, start, requested)
        invariant fileExists == file
        invariant end.Next?
      {
        end := WeighNext(sensor, samples, k, start, requested);
        if !end.Next? {
          return;
        }
        k := k + 1;
      }
    }

    /** Clears the buffer and the canceled flag, and starts a fresh record of the run. */
    method Reset()
      modifies this
      ensures buffer == [] && !canceled && batches == [] && marks == [] && cancelSeen.None?
      ensures events == old(events) && cancelRequested == old(cancelRequested) && confirmed == old(confirmed)
      ensures currentStep == old(currentStep) && fileExists == old(fileExists) && rows == old(rows)
    {
      buffer := [];
      canceled := false;
      batches := [];
      marks := [];
      cancelSeen := None;
    }

    /** Creates the run's file with its header row and no data rows. */
    method CreateFile()
      modifies this
      ensures fileExists && rows == []
      ensures events == old(events) && buffer == old(buffer) && canceled == old(canceled)
      ensures cancelRequested == old(cancelRequested) && confirmed == old(confirmed)
      ensures currentStep == old(currentStep) && batches == old(batches) && marks == old(marks)
      ensures cancelSeen == old(cancelSeen)
    {
      fileExists := true;
      rows := [];
    }

    /** Starts the progress count of the weight loop. */
    method StartProgress()
      modifies this
      ensures currentStep == 0
      ensures events == old(events) && buffer == old(buffer) && canceled == old(canceled)
      ensures cancelRequested == old(cancelRequested) && confirmed == old(confirmed)
      ensures fileExists == old(fileExists) && rows == old(rows)
      ensures batches == old(batches) && marks == old(marks) && cancelSeen == old(cancelSeen)
    {
      currentStep := 0;
    }

    /** Deletes the run's file. */
    method Discard()
      modifies this
      ensures !fileExists
      ensures events == old(events) && buffer == old(buffer) && canceled == old(canceled)
      ensures cancelRequested == old(cancelRequested) && confirmed == old(confirmed)
      ensures currentStep == old(currentStep) && rows == old(rows)
      ensures batches == old(batches) && marks == old(marks) && cancelSeen == old(cancelSeen)
    {
      fileExists := false;
    }

    /**
     * The set-up of a run: the buffer and the flag are reset, the sensor is selected and the
     * run's file is created (or truncated), holding only its header, under the index
     * `next_calibration_index` returns as written, which is always 1. Its two sleeps consume
     * the first two events.
     */
    method Begin(sensor: string, listing: seq<string>) returns (path: string)
      modifies this
      ensures path == Join(SensorFolder(sensor), NewRunName(sensor, NextCalibrationIndexAsWritten(sensor, listing)))
      ensures path == Join(SensorFolder(sensor), NewRunName(sensor, 1))
      ensures Coherent() && !canceled && cancelSeen.None?
      ensures fileExists && batches == [] && marks == [] && rows == [] && currentStep == 0
      ensures IsSuffix(events, old(events)) && events == AfterSetup(old(events))
      ensures cancelRequested == (old(cancelRequested) || Cancel in Consumed(old(events), events))
    {
      ghost var input, requested0 := events, cancelRequested;
      Reset();
      Sleep();  // after selecting the sensor
      ghost var selected, requested := events, cancelRequested;
      var n := NextCalibrationIndexAsWritten(sensor, listing);
      NextCalibrationIndexAsWrittenIsOne(sensor, listing);
      path := Join(SensorFolder(sensor), NewRunName(sensor, n));
      CreateFile();
      Sleep();  // after entering calibration mode
      StartProgress();
      SetupSleeps(input, selected, events, requested0, requested, cancelRequested);
    }

    /** What the weight loop leaves, restated from the start of the run. */
    lemma Concluded(s: seq<Event>, begun: seq<Event>, r0: bool, samples: nat, stalled: bool)
      requires begun == AfterSetup(s) && IsSuffix(begun, s) && IsSuffix(events, begun)
      requires cancelRequested == (Pending(r0, s, begun) || Cancel in Consumed(begun, events))
      requires Chained(batches, marks, samples, begun) && IsSuffix(events, After(marks, begun))
      requires canceled <==>
        |batches| < 16 && !Pending(Pending(r0, s, begun), begun, After(marks, begun))
        && SignalIs(After(marks, begun), Cancel)
      requires stalled ==> !cancelRequested
      requires stalled <==>
        |batches| < 16 && !Pending(Pending(r0, s, begun), begun, After(marks, begun))
        && !SignalIs(After(marks, begun), Cancel)
      requires |batches| < 16 ==>
        !Completes(After(marks, begun), Pending(Pending(r0, s, begun), begun, After(marks, begun)), samples)
      ensures IsSuffix(events, s) && cancelRequested == (r0 || Cancel in Consumed(s, events))
      ensures stalled <==>
        |batches| < 16 && !Pending(r0, s, After(marks, begun)) && !SignalIs(After(marks, begun), Cancel)
      ensures |batches| < 16 ==> !Completes(After(marks, begun), Pending(r0, s, After(marks, begun)), samples)
      ensures OnlyCalib(batches)
      ensures canceled <==>
        |batches| < 16 && !Pending(r0, s, After(marks, begun)) && SignalIs(After(marks, begun), Cancel)
      ensures !Pending(r0, s, begun) && SignalIs(begun, Cancel) ==> canceled
      ensures (exists j :: 0 <= j < |marks| && CanceledWhileSampling(marks[j])) ==> !canceled && !stalled
      ensures !r0 && Cancel !in s ==> !cancelRequested
    {
      ChainedSuffix(batches, marks, samples, begun);
      PendingAcross(r0, s, begun, After(marks, begun));
      CancelAcross(s, begun, events);
      CancelConsumedFrom(s, events);
      ChainedAreCalib(batches, marks, samples, begun);
      if marks != [] {
        assert marks[0].begin == begun && Pass(marks[0], batches[0], samples);
      }
      if exists j :: 0 <= j < |marks| && CanceledWhileSampling(marks[j]) {
        var j :| 0 <= j < |marks| && CanceledWhileSampling(marks[j]);
        ChainedCancel(batches, marks, samples, begun, j);
        CancelAcross(begun, After(marks, begun), events);
      }
    }

    /**
     * One calibration run on the connected sensor. The run's file is always run 1 of the
     * sensor, as `next_calibration_index` is written. A cancel that is the first signal of a
     * confirmation wait discards the file; a cancel consumed anywhere else keeps it with the
     * rows saved so far, including the partial batch of the weight being sampled. Every saved
     * batch is the first `samples` "Calib" notifications after its weight's confirmation.
     */
    method Run(connected: bool, samples: nat, sensor: string, listing: seq<string>)
      returns (outcome: Outcome)
      modifies this
      ensures outcome.NotConnected? <==> !connected
      ensures !connected ==> events == old(events) && fileExists == old(fileExists) && rows == old(rows)
      ensures connected ==> Coherent() && |batches| <= 16 && rows == RowsOf(sensor, batches)
      ensures connected ==> forall j :: 0 <= j < |batches| ==> |batches[j]| <= samples
      ensures connected ==> Chained(batches, marks, samples, AfterSetup(old(events))) && OnlyCalib(batches)
      ensures connected ==> marks == RunPasses(old(events), old(cancelRequested), samples)
      ensures connected && |batches| < 16 ==>
        !Completes(After(marks, AfterSetup(old(events))),
                   Pending(old(cancelRequested), old(events), After(marks, AfterSetup(old(events)))), samples)
      ensures connected ==> currentStep <= 16 * samples
      ensures connected ==> IsSuffix(events, old(events))
      ensures connected ==> cancelRequested == (old(cancelRequested) || Cancel in Consumed(old(events), events))
      ensures connected ==> (cancelSeen.Some? <==> cancelRequested)
      ensures outcome.Discarded? <==> connected && cancelSeen == Some(ConfirmWait)
      ensures outcome.Discarded? <==>
        (connected && |batches| < 16
         && !Pending(old(cancelRequested), old(events), After(marks, AfterSetup(old(events))))
         && SignalIs(After(marks, AfterSetup(old(events))), Cancel))
      ensures (connected && !Pending(old(cancelRequested), old(events), AfterSetup(old(events)))
               && SignalIs(AfterSetup(old(events)), Cancel)) ==> outcome.Discarded?
      ensures connected && (exists j :: 0 <= j < |marks| && CanceledWhileSampling(marks[j])) ==> outcome.Saved?
      ensures outcome.Discarded? ==> !fileExists
      ensures outcome.Saved? ==>
        fileExists && outcome.path == Join(SensorFolder(sensor), NewRunName(sensor, NextCalibrationIndexAsWritten(sensor, listing)))
      ensures outcome.Saved? ==> outcome.path == Join(SensorFolder(sensor), NewRunName(sensor, 1))
      ensures connected && !old(cancelRequested) && Cancel !in old(events) ==>
        cancelSeen.None? && (outcome.Saved? || outcome.Waiting?)
      ensures connected && !old(cancelRequested) && Cancel !in old(events) && outcome.Saved? ==>
        |batches| == 16 && |rows| == 16 * samples
      ensures outcome.Waiting? <==>
        (connected && |batches| < 16
         && !Pending(old(cancelRequested), old(events), After(marks, AfterSetup(old(events))))
         && !SignalIs(After(marks, AfterSetup(old(events))), Cancel))
      ensures outcome.Waiting? ==> fileExists && events == [] && !cancelRequested
      ensures connected && cancelSeen == Some(BeforeWeight) ==> outcome.Saved?
      ensures connected && cancelSeen == Some(Sampling) ==>
        outcome.Saved? && |batches| > 0 && batches[|batches| - 1] == Take(buffer, samples)
      ensures outcome.Saved? && cancelSeen.None? ==>
        |batches| == 16 && |rows| == 16 * samples && currentStep == 16 * samples
    {
      if !connected {
        return NotConnected;
      }
      var path := Begin(sensor, listing);
      ghost var begun := events;
      assert cancelRequested == Pending(old(cancelRequested), old(events), begun);
      var stalled := WeighAll(sensor, samples);
      PlannedRun(old(events), old(cancelRequested), samples, begun, marks);
      Concluded(old(events), begun, old(cancelRequested), samples, stalled);
      if stalled {
        outcome := Waiting;
      } else if canceled {
        Discard();
        outcome := Discarded;
      } else {
        outcome := Saved(path);
      }
    }
  }

  /** Two set-up sleeps, then a cancel as the first signal of the first wait: the run is discarded. */
  method FirstWaitCancelDiscards() returns (outcome: Outcome)
    ensures outcome == Discarded
  {
    var session := new Session([Tick, Tick, Cancel]);
    outcome := session.Run(true, 1, "0", []);
  }

  /** A cancel while the only sample is awaited: the pass of the first weight is the only one and leaves the cancel pending. */
  lemma CancelWhileSamplingPlan(input: seq<Event>)
    requires input == [Tick, Tick, Confirm, Cancel]
    ensures |RunPasses(input, false, 1)| == 1
    ensures Pending(false, input, After(RunPasses(input, false, 1), AfterSetup(input)))
  {
    var begun := [Confirm, Cancel];
    SetupConsumed(input, begun);
    CancelledRun(begun);
    assert input[3] == Cancel;
    PendingAll(input);
  }

  /** Once all of an input holding a cancel is consumed, the cancel event is set. */
  lemma PendingAll(s: seq<Event>)
    requires Cancel in s
    ensures Pending(false, s, [])
  {
    assert Consumed(s, []) == s;
  }

  /** A weight loop begun on a confirmation and a cancel saves that one weight and consumes both. */
  lemma CancelledRun(begun: seq<Event>)
    requires begun == [Confirm, Cancel]
    ensures PassesFrom(begun, false, 1, Weights()) == [PassFrom(begun, 1)] && PassFrom(begun, 1).end == []
  {
    CancelledPass(begun);
    var m := PassFrom(begun, 1);
    PassesNone([], Pending(false, begun, []), 1, Weights()[1..]);
    PassesCons(begun, false, 1, Weights(), m);
  }

  /** A pass whose only sample wait consumes a cancel saves its weight and consumes the rest. */
  lemma CancelledPass(begun: seq<Event>)
    requires begun == [Confirm, Cancel]
    ensures Completes(begun, false, 1) && PassFrom(begun, 1).end == []
  {
    assert FirstSignal(begun) == Some(0);
    var c := AfterSignal(begun);
    assert c == [Cancel];
    assert Effects(c) == [Effect(true, 0)];
    var p := Probe([Effect(true, 0)], false, 0);
    assert Deliver(p) == Probe([], true, 0);
    assert ResponseWait(p, 0) == Probe([], true, 0);
    assert Sampled(c, 1) == Probe([], true, 0);
  }

  /** The two set-up sleeps consume the two ticks and no cancel. */
  lemma SetupConsumed(input: seq<Event>, rest: seq<Event>)
    requires input == [Tick, Tick] + rest
    ensures AfterSetup(input) == rest && !Pending(false, input, rest)
  {
    assert Consumed(input, rest) == [Tick, Tick];
  }

  /**
   * A weight loop begun on a confirmation and the notification `x`, followed by a rest that
   * does not begin with a confirmation, saves that one weight and stops where the rest begins.
   */
  lemma OnePass(x: string, rest: seq<Event>)
    requires Handled(Notify(x)) == [x] && !SignalIs(rest, Confirm)
    ensures var begun := [Confirm, Notify(x)] + rest;
      PassesFrom(begun, false, 1, Weights()) == [Stretch(begun, [Notify(x)] + rest, rest)]
  {
    var begun := [Confirm, Notify(x)] + rest;
    OneNotifiedPass(x, rest);
    var m := PassFrom(begun, 1);
    PassesNone(rest, Pending(false, begun, rest), 1, Weights()[1..]);
    PassesCons(begun, false, 1, Weights(), m);
  }

  /**
   * On an input whose first weight saves the notification `x` and whose rest does not begin
   * with a confirmation, the first pass is the only one and leaves that rest.
   */
  lemma OnePassRun(input: seq<Event>, x: string, rest: seq<Event>)
    requires input == [Tick, Tick, Confirm, Notify(x)] + rest && Handled(Notify(x)) == [x]
    requires !SignalIs(rest, Confirm)
    ensures |RunPasses(input, false, 1)| == 1 && After(RunPasses(input, false, 1), AfterSetup(input)) == rest
  {
    var begun := [Confirm, Notify(x)] + rest;
    assert input == [Tick, Tick] + begun;
    SetupConsumed(input, begun);
    OnePass(x, rest);
  }

  /** A cancel consumed while a sample is awaited keeps the file: the run is saved. */
  method CancelWhileSamplingSaves() returns (outcome: Outcome)
    ensures outcome.Saved?
  {
    var input := [Tick, Tick, Confirm, Cancel];
    var session := new Session(input);
    outcome := session.Run(true, 1, "0", []);
    CancelWhileSamplingPlan(input);
  }

  /**
   * One weight saved, then a cancel as the first signal of the next confirmation wait: one
   * pass, after which no cancel is pending and the next signal is the cancel.
   */
  lemma CancelAfterSamplePlan(input: seq<Event>, x: string)
    requires input == [Tick, Tick, Confirm, Notify(x), Cancel] && Handled(Notify(x)) == [x]
    ensures |RunPasses(input, false, 1)| == 1
    ensures var at := After(RunPasses(input, false, 1), AfterSetup(input));
      !Pending(false, input, at) && SignalIs(at, Cancel)
  {
    CancelNext(input, x);
    OnePassRun(input, x, [Cancel]);
  }

  /** The input of `CancelAfterSampleDiscards` ends in a cancel that nothing before it consumed. */
  lemma CancelNext(input: seq<Event>, x: string)
    requires input == [Tick, Tick, Confirm, Notify(x), Cancel]
    ensures input == [Tick, Tick, Confirm, Notify(x)] + [Cancel]
    ensures !SignalIs([Cancel], Confirm) && SignalIs([Cancel], Cancel) && !Pending(false, input, [Cancel])
  {
    assert FirstSignal([Cancel]) == Some(0);
    assert Consumed(input, [Cancel]) == [Tick, Tick, Confirm, Notify(x)];
  }

  /** A cancel as the first signal of the second weight's confirmation wait discards the run. */
  method CancelAfterSampleDiscards() returns (outcome: Outcome)
    ensures outcome == Discarded
  {
    var input := [Tick, Tick, Confirm, Notify("Calib:1"), Cancel];
    var session := new Session(input);
    outcome := session.Run(true, 1, "0", []);
    CalibHandled();
    CancelAfterSamplePlan(input, "Calib:1");
  }

  /**
   * Two weights confirmed, each followed by one "Calib" notification, then the input ends in
   * the third confirmation wait: the file holds one row per weight and the run is waiting.
   */
  method TwoWeightsThenWait() returns (outcome: Outcome, rows: seq<Row>)
    ensures outcome == Waiting
    ensures rows == [Row("0", 250, Reading("Calib:1")), Row("0", 500, Reading("Calib:2"))]
  {
    var input := [Tick, Tick, Confirm, Notify("Calib:1"), Confirm, Notify("Calib:2")];
    var session := new Session(input);
    outcome := session.Run(true, 1, "0", []);
    CalibHandled();
    TwoWeightsSaved(input, "Calib:1", "Calib:2", session.batches, session.marks);
    RowsOfTwo("0", "Calib:1", "Calib:2");
    rows := session.rows;
  }

  /**
   * On the input of `TwoWeightsThenWait`, consecutive saved passes after which the loop stops
   * only at a pass that does not save are the two notified ones, and the input is used up.
   */
  lemma TwoWeightsSaved(input: seq<Event>, x: string, y: string, batches: seq<seq<string>>, marks: seq<Stretch>)
    requires input == [Tick, Tick, Confirm, Notify(x), Confirm, Notify(y)]
    requires Handled(Notify(x)) == [x] && Handled(Notify(y)) == [y]
    requires Chained(batches, marks, 1, AfterSetup(input))
    requires |batches| < 16 ==>
      !Completes(After(marks, AfterSetup(input)), Pending(false, input, After(marks, AfterSetup(input))), 1)
    ensures batches == [[x], [y]]
    ensures After(marks, AfterSetup(input)) == [] && !Pending(false, input, [])
  {
    FirstOfTwo(input, x, y, batches, marks);
    SecondOfTwo(input, x, y, batches, marks);
    NoCancel(input, x, y);
  }

  /** The input of `TwoWeightsThenWait` holds no cancel. */
  lemma NoCancel(input: seq<Event>, x: string, y: string)
    requires input == [Tick, Tick, Confirm, Notify(x), Confirm, Notify(y)]
    ensures !Pending(false, input, [])
  {
    assert Consumed(input, []) == input;
  }

  /** The first pass on the input of `TwoWeightsThenWait` saves the first notification. */
  lemma FirstOfTwo(input: seq<Event>, x: string, y: string, batches: seq<seq<string>>, marks: seq<Stretch>)
    requires input == [Tick, Tick, Confirm, Notify(x), Confirm, Notify(y)]
    requires Handled(Notify(x)) == [x]
    requires Chained(batches, marks, 1, AfterSetup(input))
    requires |batches| < 16 ==>
      !Completes(After(marks, AfterSetup(input)), Pending(false, input, After(marks, AfterSetup(input))), 1)
    ensures |marks| > 0 && marks[0].end == [Confirm, Notify(y)] && batches[0] == [x]
  {
    var begun := AfterSetup(input);
    var rest: seq<Event> := [Confirm, Notify(y)];
    assert begun == [Confirm, Notify(x)] + rest;
    assert !Pending(false, input, begun) by {
      assert Consumed(input, begun) == [Tick, Tick];
    }
    OneNotifiedPass(x, rest);
    ChainedNext(batches, marks, 1, begun, false, input, 0, begun);
    assert Pass(marks[0], batches[0], 1);
    NotifiedOne(x, marks[0].end, marks[0].confirmed, batches[0]);
  }

  /** The second pass on the input of `TwoWeightsThenWait` saves the second notification and is the last. */
  lemma SecondOfTwo(input: seq<Event>, x: string, y: string, batches: seq<seq<string>>, marks: seq<Stretch>)
    requires input == [Tick, Tick, Confirm, Notify(x), Confirm, Notify(y)]
    requires Handled(Notify(y)) == [y]
    requires Chained(batches, marks, 1, AfterSetup(input))
    requires |batches| < 16 ==>
      !Completes(After(marks, AfterSetup(input)), Pending(false, input, After(marks, AfterSetup(input))), 1)
    requires |marks| > 0 && marks[0].end == [Confirm, Notify(y)]
    ensures |marks| == 2 && marks[1].end == [] && batches[1] == [y]
  {
    var rest: seq<Event> := [Confirm, Notify(y)];
    var none: seq<Event> := [];
    assert rest == [Confirm, Notify(y)] + none;
    assert !Pending(false, input, rest) by {
      assert Consumed(input, rest) == [Tick, Tick, Confirm, Notify(x)];
    }
    OneNotifiedPass(y, none);
    ChainedNext(batches, marks, 1, AfterSetup(input), false, input, 1, rest);
    ChainedLast(batches, marks, 1, AfterSetup(input), 1);
    assert Pass(marks[1], batches[1], 1);
    NotifiedOne(y, marks[1].end, marks[1].confirmed, batches[1]);
  }

  /** A pass that ends with the input exhausted is the last recorded one. */
  lemma ChainedLast(batches: seq<seq<string>>, marks: seq<Stretch>, samples: nat, start: seq<Event>, j: nat)
    requires Chained(batches, marks, samples, start) && j < |marks| && marks[j].end == []
    ensures |marks| == j + 1
  {
    if j + 1 < |marks| {
      PassBegins(batches, marks, samples, start, j + 1);
      assert false;
    }
  }

  /** Every recorded pass begins on input holding its confirmation. */
  lemma PassBegins(batches: seq<seq<string>>, marks: seq<Stretch>, samples: nat, start: seq<Event>, k: nat)
    requires Chained(batches, marks, samples, start) && k < |marks|
    ensures marks[k].begin != []
  {
    assert Pass(marks[k], batches[k], samples);
  }

  /**
   * Where the weight loop stopped only at a pass that does not save its weight, a pass that
   * would save it, begun where the `j`th recorded pass begins, is among the recorded ones.
   */
  lemma ChainedNext(
    batches: seq<seq<string>>, marks: seq<Stretch>, samples: nat, start: seq<Event>, requested: bool,
    input: seq<Event>, j: nat, s: seq<Event>)
    requires Chained(batches, marks, samples, start) && j < 16 && j <= |marks|
    requires |batches| < 16 ==> !Completes(After(marks, start), Pending(requested, input, After(marks, start)), samples)
    requires s == if j == 0 then start else marks[j - 1].end
    requires Completes(s, Pending(requested, input, s), samples)
    ensures j < |marks| && marks[j] == PassFrom(s, samples)
  {
    assert j < |marks|;
    assert Pass(marks[j], batches[j], samples);
    if j > 0 {
      assert marks[j].begin == marks[j - 1].end;
    }
  }

  /** A confirmation followed at once by one "Calib" notification saves a weight, with one sample per weight. */
  lemma OneNotifiedPass(x: string, rest: seq<Event>)
    requires Handled(Notify(x)) == [x]
    ensures var s := [Confirm, Notify(x)] + rest;
      Completes(s, false, 1) && PassFrom(s, 1) == Stretch(s, [Notify(x)] + rest, rest)
  {
    var s := [Confirm, Notify(x)] + rest;
    assert FirstSignal(s) == Some(0);
    var c := AfterSignal(s);
    assert c == [Notify(x)] + rest;
    assert Effects(c)[0] == Effect(false, 1) && Effects(c)[1..] == Effects(rest);
    var p := Probe(Effects(c), false, 0);
    var q := Probe(Effects(rest), false, 1);
    assert Deliver(p) == q;
    assert ResponseWait(p, 0) == q;
    assert SampleStep(p, 0, 1) == q;
    assert Sampled(c, 1) == q;
    assert SampledEnd(c, 1) == rest;
  }

  /** The batch of a pass whose sample loop consumed one kept notification is that message. */
  lemma NotifiedOne(x: string, e: seq<Event>, c: seq<Event>, batch: seq<string>)
    requires Handled(Notify(x)) == [x] && c == [Notify(x)] + e
    requires IsSuffix(e, c) && batch == Take(Notified(Consumed(c, e)), 1)
    ensures batch == [x]
  {
    assert Consumed(c, e) == [Notify(x)];
    assert Notified([Notify(x)]) == Notified([]) + Handled(Notify(x));
  }

  /** The rows of two one-message batches: one row at 250 g, then one at 500 g. */
  lemma RowsOfTwo(sensor: string, a: string, b: string)
    ensures RowsOf(sensor, [[a], [b]]) == [Row(sensor, 250, Reading(a)), Row(sensor, 500, Reading(b))]
  {
    var bs := [[a], [b]];
    assert Weights()[0] == 250 && Weights()[1] == 500;
    assert bs[..1] == [[a]] && bs[..1][..0] == [];
    assert RowsOf(sensor, [[a]]) == RowsFor(sensor, 250, [a]) == [Row(sensor, 250, Reading(a))];
    assert RowsOf(sensor, bs) == RowsOf(sensor, [[a]]) + RowsFor(sensor, 500, [b]);
    assert RowsFor(sensor, 500, [b]) == [Row(sensor, 500, Reading(b))];
  }

  /** The handler keeps "Calib:1" and "Calib:2" as they are. */
  lemma CalibHandled()
    ensures Handled(Notify("Calib:1")) == ["Calib:1"] && Handled(Notify("Calib:2")) == ["Calib:2"]
  {
    assert Strip("Calib:1") == "Calib:1" && Strip("Calib:2") == "Calib:2";
  }
}
