/**
  Hot-swapping of the active runtime: requests hold the slot they started on, a replaced slot is
  disposed when its last request ends, and only a runtime that matched the CPU baseline is activated.
 */
module RuntimeManager {
  import opened Wrappers

  datatype Provider = Cpu | Cuda | CoreMl

  // A runtime in use. `output` is what it masked of the parity corpus before it became active.
  datatype Slot = Slot(provider: Provider, output: string, inFlight: nat, retired: bool, disposed: bool)

  // Switches run one after another; requests come and go between their steps.
  datatype Switch = Loading(target: Provider) | Matched(target: Provider, output: string)

  // `disposals` lists the slots whose runtimes were disposed.
  datatype Manager = Manager(
    baseline: string,
    slots: seq<Slot>,
    active: nat,
    verified: set<Provider>,
    switching: Option<Switch>,
    disposals: seq<nat>)

  // The CPU runtime is loaded first, and its output is the baseline.
  function Created(baseline: string): Manager {
    Manager(baseline, [Slot(Cpu, baseline, 0, false, false)], 0, {Cpu}, None, [])
  }

  datatype Event =
    | RequestStarts
    | RequestEnds(slot: nat)
    | SwitchStarts(target: Provider)
    | LoadFails
    | ParityChecked(sameIdentity: bool, output: Option<string>)
    | SwitchEnds(beneficial: bool)

  function DisposeSlot(m: Manager, i: nat): Manager
    requires i < |m.slots|
  {
    if m.slots[i].disposed || m.slots[i].inFlight > 0 then m
    else m.(slots := m.slots[i := m.slots[i].(disposed := true)], disposals := m.disposals + [i])
  }

  function Start(m: Manager): Manager
    requires m.active < |m.slots|
  {
    m.(slots := m.slots[m.active := m.slots[m.active].(inFlight := m.slots[m.active].inFlight + 1)])
  }

  function End(m: Manager, i: nat): Manager
    requires i < |m.slots| && m.slots[i].inFlight > 0
  {
    var released := m.(slots := m.slots[i := m.slots[i].(inFlight := m.slots[i].inFlight - 1)]);
    if released.slots[i].retired && released.slots[i].inFlight == 0 then DisposeSlot(released, i) else released
  }

  // The candidate becomes active and the slot before it retires.
  function Activate(m: Manager, target: Provider, output: string): Manager
    requires m.active < |m.slots|
  {
    var slots := m.slots[m.active := m.slots[m.active].(retired := true)] + [Slot(target, output, 0, false, false)];
    var retiring := m.(slots := slots, active := |m.slots|, switching := None);
    if m.slots[m.active].inFlight == 0 then DisposeSlot(retiring, m.active) else retiring
  }

  function Step(m: Manager, e: Event): Manager
    requires m.active < |m.slots|
  {
    match e
    case RequestStarts => Start(m)
    case RequestEnds(i) => if i < |m.slots| && m.slots[i].inFlight > 0 then End(m, i) else m
    case SwitchStarts(target) =>
      if m.switching.Some? || target == m.slots[m.active].provider then m else m.(switching := Some(Loading(target)))
    case LoadFails => if m.switching.Some? && m.switching.value.Loading? then m.(switching := None) else m
    case ParityChecked(sameIdentity, output) =>
      if !(m.switching.Some? && m.switching.value.Loading?) then m
      else CheckParity(m, m.switching.value.target, sameIdentity, output)
    case SwitchEnds(beneficial) =>
      if !(m.switching.Some? && m.switching.value.Matched?) then m
      else if !beneficial then m.(switching := None)
      else Activate(m, m.switching.value.target, m.switching.value.output)
  }

  // The identity of the loaded candidate and then its output are compared; no output means that parity failed to run.
  function CheckParity(m: Manager, target: Provider, sameIdentity: bool, output: Option<string>): Manager {
    if sameIdentity && output == Some(m.baseline)
    then m.(verified := m.verified + {target}, switching := Some(Matched(target, output.value)))
    else m.(verified := m.verified - {target}, switching := None)
  }

  function Times(disposals: seq<nat>, i: nat): nat {
    if disposals == [] then 0
    else Times(disposals[..|disposals| - 1], i) + if disposals[|disposals| - 1] == i then 1 else 0
  }

  // A slot is retired unless it is active, and disposed, once, exactly when it is retired and idle.
  predicate SlotSettled(m: Manager, i: nat)
    requires i < |m.slots|
  {
    && (m.slots[i].retired <==> i != m.active)
    && (m.slots[i].disposed <==> m.slots[i].retired && m.slots[i].inFlight == 0)
    && (Times(m.disposals, i) == if m.slots[i].disposed then 1 else 0)
    && m.slots[i].output == m.baseline
  }

  predicate Inv(m: Manager) {
    && m.active < |m.slots|
    && (forall i | 0 <= i < |m.slots| :: SlotSettled(m, i))
    && (forall k | 0 <= k < |m.disposals| :: m.disposals[k] < |m.slots|)
    && m.slots[m.active].provider in m.verified
    && (m.switching.Some? ==> m.switching.value.target != m.slots[m.active].provider)
    && (m.switching.Some? && m.switching.value.Matched? ==>
          m.switching.value.target in m.verified && m.switching.value.output == m.baseline)
  }

  lemma OnceMore(disposals: seq<nat>, i: nat, j: nat)
    ensures Times(disposals + [i], j) == Times(disposals, j) + if i == j then 1 else 0
  {
    assert (disposals + [i])[..|disposals|] == disposals;
  }

  lemma {:induction false} NeverListed(disposals: seq<nat>, i: nat)
    requires forall k | 0 <= k < |disposals| :: disposals[k] < i
    ensures Times(disposals, i) == 0
  {
    if disposals != [] {
      NeverListed(disposals[..|disposals| - 1], i);
    }
  }

  lemma EndInv(m: Manager, i: nat)
    requires Inv(m) && i < |m.slots| && m.slots[i].inFlight > 0
    ensures Inv(End(m, i))
  {
    forall j | 0 <= j < |m.slots|
      ensures SlotSettled(End(m, i), j)
    {
      assert SlotSettled(m, j) && SlotSettled(m, i);
      OnceMore(m.disposals, i, j);
    }
  }

  lemma ActivateInv(m: Manager, target: Provider)
    requires Inv(m) && target in m.verified
    ensures Inv(Activate(m, target, m.baseline))
  {
    var t := Activate(m, target, m.baseline);
    NeverListed(m.disposals, |m.slots|);
    forall j | 0 <= j < |t.slots|
      ensures SlotSettled(t, j)
    {
      assert SlotSettled(m, m.active);
      assert j < |m.slots| ==> SlotSettled(m, j);
      OnceMore(m.disposals, m.active, j);
    }
  }

  lemma StepInv(m: Manager, e: Event)
    requires Inv(m)
    ensures Inv(Step(m, e)) && m.disposals <= Step(m, e).disposals && Step(m, e).baseline == m.baseline
  {
    var t := Step(m, e);
    if e.RequestEnds? && e.slot < |m.slots| && m.slots[e.slot].inFlight > 0 {
      EndInv(m, e.slot);
    } else if e.SwitchEnds? && e.beneficial && m.switching.Some? && m.switching.value.Matched? {
      ActivateInv(m, m.switching.value.target);
    } else {
      forall j | 0 <= j < |m.slots|
        ensures SlotSettled(t, j)
      {
        assert SlotSettled(m, j);
      }
    }
  }

  function Run(m: Manager, events: seq<Event>): (t: Manager)
    requires Inv(m)
    ensures Inv(t) && t.baseline == m.baseline
    decreases |events|
  {
    if events == [] then m
    else
      StepInv(m, events[0]);
      Run(Step(m, events[0]), events[1..])
  }

  /**
    Under any interleaving of requests and switches: a slot with a request in flight is not disposed,
    a retired slot without one is, no slot is disposed twice, and every runtime that is or was active,
    itself and not only its provider, gave the CPU baseline.
   */
  lemma SlotsAreDisposedOnce(baseline: string, events: seq<Event>, i: nat)
    requires i < |Run(Created(baseline), events).slots|
    ensures var m := Run(Created(baseline), events);
            && (m.slots[i].inFlight > 0 ==> !m.slots[i].disposed && Times(m.disposals, i) == 0)
            && (i != m.active && m.slots[i].inFlight == 0 ==> Times(m.disposals, i) == 1)
            && (i == m.active ==> !m.slots[i].disposed && Times(m.disposals, i) == 0)
            && (i == m.active ==> m.slots[i].provider in m.verified)
            && m.slots[i].output == baseline
  {
    assert SlotSettled(Run(Created(baseline), events), i);
  }

  // ----- What each event does -----

  predicate OnlySlot(m: Manager, t: Manager, i: nat) {
    && |t.slots| == |m.slots| && t.active == m.active && t.verified == m.verified && t.switching == m.switching
    && forall j | 0 <= j < |m.slots| && j != i :: t.slots[j] == m.slots[j]
  }

  // A request counts on the active slot.
  lemma RequestHolds(m: Manager)
    requires Inv(m)
    ensures var t, before := Step(m, RequestStarts), m.slots[m.active];
            && OnlySlot(m, t, m.active) && t.disposals == m.disposals
            && t.slots[m.active] == Slot(before.provider, before.output, before.inFlight + 1, false, false)
  {
    assert SlotSettled(m, m.active);
  }

  /** The end of a request frees its slot, and the last one of a slot that is no longer active disposes it. */
  lemma RequestLeaves(m: Manager, i: nat)
    requires Inv(m) && i < |m.slots| && m.slots[i].inFlight > 0
    ensures var t, before, last := Step(m, RequestEnds(i)), m.slots[i], i != m.active && m.slots[i].inFlight == 1;
            && OnlySlot(m, t, i) && t.disposals == (if last then m.disposals + [i] else m.disposals)
            && t.slots[i] == Slot(before.provider, before.output, before.inFlight - 1, i != m.active, last)
  {
    assert SlotSettled(m, i);
  }

  // The slots, the requests on them and the active one are as before.
  predicate SameSlots(m: Manager, t: Manager) {
    t.slots == m.slots && t.active == m.active && t.disposals == m.disposals
  }

  // A switch begins unless one is under way or the provider is active already.
  lemma SwitchBegins(m: Manager, target: Provider)
    requires Inv(m)
    ensures var t := Step(m, SwitchStarts(target));
            && SameSlots(m, t) && t.verified == m.verified
            && t.switching == (if m.switching.None? && target != m.slots[m.active].provider then Some(Loading(target))
                               else m.switching)
  {
  }

  // A failed load ends the switch and leaves everything else.
  lemma LoadFailureEnds(m: Manager)
    requires Inv(m) && m.switching.Some? && m.switching.value.Loading?
    ensures var t := Step(m, LoadFails); SameSlots(m, t) && t.verified == m.verified && t.switching.None?
  {
  }

  /** A candidate matches exactly if it has the model's identity and gave the baseline; any other ends the switch. */
  lemma ParityDecides(m: Manager, target: Provider, sameIdentity: bool, output: Option<string>)
    requires Inv(m) && m.switching == Some(Loading(target))
    ensures var t := Step(m, ParityChecked(sameIdentity, output));
            && SameSlots(m, t)
            && (if sameIdentity && output == Some(m.baseline) then
                  t.switching == Some(Matched(target, m.baseline)) && t.verified == m.verified + {target}
                else t.switching.None? && t.verified == m.verified - {target})
  {
  }

  /**
    The end of a switch that matched: if it pays, a new slot with the target is active and the one before is
    retired, disposed now if it is idle; if it does not, the active slot stays.
   */
  lemma SwitchDecides(m: Manager, target: Provider, output: string, beneficial: bool)
    requires Inv(m) && m.switching == Some(Matched(target, output))
    ensures var t, before := Step(m, SwitchEnds(beneficial)), m.slots[m.active];
            && t.switching.None? && t.verified == m.verified
            && (if !beneficial then SameSlots(m, t)
                else
                  && t.active == |m.slots| && |t.slots| == |m.slots| + 1
                  && t.slots[t.active] == Slot(target, m.baseline, 0, false, false)
                  && t.slots[m.active]
                     == Slot(before.provider, before.output, before.inFlight, true, before.inFlight == 0)
                  && t.disposals == (if before.inFlight == 0 then m.disposals + [m.active] else m.disposals)
                  && forall j | 0 <= j < |m.slots| && j != m.active :: t.slots[j] == m.slots[j])
  {
    assert SlotSettled(m, m.active);
  }

  // ----- A whole switch -----

  predicate OnlyRequests(events: seq<Event>) {
    forall k | 0 <= k < |events| :: events[k].RequestStarts? || events[k].RequestEnds?
  }

  // Requests come and go without changing which slot is active or how far the switch is.
  lemma {:induction false} RequestsPass(m: Manager, events: seq<Event>)
    requires Inv(m) && OnlyRequests(events)
    ensures var t := Run(m, events);
            && t.active == m.active && t.switching == m.switching && t.verified == m.verified
            && |t.slots| == |m.slots| && forall i | 0 <= i < |m.slots| :: t.slots[i].provider == m.slots[i].provider
    decreases |events|
  {
    if events != [] {
      StepInv(m, events[0]);
      RequestsPass(Step(m, events[0]), events[1..]);
    }
  }

  lemma {:induction false} RunAppend(m: Manager, a: seq<Event>, b: seq<Event>)
    requires Inv(m)
    ensures Run(m, a + b) == Run(Run(m, a), b)
    decreases |a|
  {
    if a == [] {
      assert a + b == b;
    } else {
      StepInv(m, a[0]);
      assert (a + b)[1..] == a[1..] + b;
      RunAppend(Step(m, a[0]), a[1..], b);
    }
  }

  // Requests, and then one event.
  lemma Later(m: Manager, requests: seq<Event>, e: Event)
    requires Inv(m) && OnlyRequests(requests)
    ensures Run(m, requests + [e]) == Step(Run(m, requests), e)
  {
    RunAppend(m, requests, [e]);
    StepInv(Run(m, requests), e);
    assert [e][1..] == [];
    assert Run(Step(Run(m, requests), e), []) == Step(Run(m, requests), e);
  }

  /**
    A switch to another provider whose candidate matches and pays makes that provider the active one, whatever
    requests come and go meanwhile; one that does not match or does not pay leaves the active slot.
   */
  lemma SwitchSucceeds(
    m: Manager, target: Provider, a: seq<Event>, b: seq<Event>, sameIdentity: bool, output: Option<string>,
    beneficial: bool)
    requires Inv(m) && m.switching.None? && target != m.slots[m.active].provider
    requires OnlyRequests(a) && OnlyRequests(b)
    ensures var loading := Step(m, SwitchStarts(target));
            && Inv(loading)
            && var checked := Run(loading, a + [ParityChecked(sameIdentity, output)]);
               var t := Run(checked, b + [SwitchEnds(beneficial)]);
               && t.switching.None? && t.active < |t.slots|
               && (if sameIdentity && output == Some(m.baseline) && beneficial then
                     && t.slots[t.active].provider == target && target in t.verified
                     && |t.slots| == |m.slots| + 1 && t.slots[m.active].retired
                   else t.active == m.active && |t.slots| == |m.slots|
                        && t.slots[t.active].provider == m.slots[m.active].provider)
  {
    StepInv(m, SwitchStarts(target));
    var loading := Step(m, SwitchStarts(target));
    RequestsPass(loading, a);
    Later(loading, a, ParityChecked(sameIdentity, output));
    ParityDecides(Run(loading, a), target, sameIdentity, output);
    var checked := Run(loading, a + [ParityChecked(sameIdentity, output)]);
    RequestsPass(checked, b);
    Later(checked, b, SwitchEnds(beneficial));
    if sameIdentity && output == Some(m.baseline) {
      SwitchDecides(Run(checked, b), target, m.baseline, beneficial);
    }
  }

  function EndsOf(i: nat, n: nat): seq<Event> {
    seq(n, _ => RequestEnds(i))
  }

  /** A slot that is no longer active is disposed once its requests have ended. */
  lemma {:induction false} RetiredDrains(m: Manager, i: nat)
    requires Inv(m) && i < |m.slots| && i != m.active
    ensures var t := Run(m, EndsOf(i, m.slots[i].inFlight));
            && i < |t.slots| && t.slots[i].inFlight == 0 && t.slots[i].disposed && Times(t.disposals, i) == 1
    decreases m.slots[i].inFlight
  {
    var n := m.slots[i].inFlight;
    assert SlotSettled(m, i);
    if n > 0 {
      RequestLeaves(m, i);
      StepInv(m, RequestEnds(i));
      assert EndsOf(i, n)[1..] == EndsOf(i, n - 1);
      RetiredDrains(Step(m, RequestEnds(i)), i);
    }
  }

  // ----- The manager, updated in place -----

  class PrivacyRuntimeManager {
    const baseline: string
    var slots: seq<Slot>
    var active: nat
    var verified: set<Provider>
    var switching: Option<Switch>
    ghost var disposals: seq<nat>

    ghost function State(): Manager
      reads this
    {
      Manager(baseline, slots, active, verified, switching, disposals)
    }

    constructor (parityBaseline: string)
      ensures State() == Created(parityBaseline) && Inv(State())
      ensures slots == [Slot(Cpu, parityBaseline, 0, false, false)] && active == 0 && baseline == parityBaseline
      ensures verified == {Cpu} && switching.None? && disposals == []
    {
      baseline := parityBaseline;
      slots, active, verified := [Slot(Cpu, parityBaseline, 0, false, false)], 0, {Cpu};
      switching, disposals := None, [];
    }

    method Dispose(i: nat)
      requires i < |slots|
      modifies this`slots, this`disposals
      ensures State() == DisposeSlot(old(State()), i)
    {
      if slots[i].disposed || slots[i].inFlight > 0 {
        return;
      }
      slots := slots[i := slots[i].(disposed := true)];
      disposals := disposals + [i];
    }

    // A request takes the active slot and keeps it until it ends.
    method StartRequest() returns (slot: nat)
      requires Inv(State())
      modifies this`slots
      ensures State() == Step(old(State()), RequestStarts) && Inv(State())
      ensures slot == active && slots[slot].inFlight > 0
    {
      StepInv(State(), RequestStarts);
      slot := active;
      slots := slots[slot := slots[slot].(inFlight := slots[slot].inFlight + 1)];
    }

    method EndRequest(slot: nat)
      requires Inv(State()) && slot < |slots| && slots[slot].inFlight > 0
      modifies this`slots, this`disposals
      ensures State() == Step(old(State()), RequestEnds(slot)) && Inv(State())
    {
      StepInv(State(), RequestEnds(slot));
      slots := slots[slot := slots[slot].(inFlight := slots[slot].inFlight - 1)];
      if slots[slot].retired && slots[slot].inFlight == 0 {
        Dispose(slot);
      }
    }

    // A switch to the provider that is active already ends at once.
    method StartSwitch(target: Provider) returns (loads: bool)
      requires Inv(State()) && switching.None?
      modifies this`switching
      ensures State() == Step(old(State()), SwitchStarts(target)) && Inv(State())
      ensures loads <==> target != slots[active].provider
    {
      StepInv(State(), SwitchStarts(target));
      loads := target != slots[active].provider;
      if loads {
        switching := Some(Loading(target));
      }
    }

    method FailLoad()
      requires Inv(State()) && switching.Some? && switching.value.Loading?
      modifies this`switching
      ensures State() == Step(old(State()), LoadFails) && Inv(State())
    {
      StepInv(State(), LoadFails);
      switching := None;
    }

    // The loaded candidate is compared with the baseline.
    method Compare(sameIdentity: bool, output: Option<string>) returns (matches: bool)
      requires Inv(State()) && switching.Some? && switching.value.Loading?
      modifies this`switching, this`verified
      ensures State() == Step(old(State()), ParityChecked(sameIdentity, output)) && Inv(State())
      ensures matches <==> sameIdentity && output == Some(baseline)
    {
      StepInv(State(), ParityChecked(sameIdentity, output));
      var target := switching.value.target;
      matches := sameIdentity && output.Some? && output.value == baseline;
      if matches {
        verified := verified + {target};
        switching := Some(Matched(target, baseline));
      } else {
        verified := verified - {target};
        switching := None;
      }
    }

    // The end of a switch whose candidate matched the baseline.
    method FinishSwitch(beneficial: bool)
      requires Inv(State()) && switching.Some? && switching.value.Matched?
      modifies this`slots, this`active, this`switching, this`disposals
      ensures State() == Step(old(State()), SwitchEnds(beneficial)) && Inv(State())
    {
      StepInv(State(), SwitchEnds(beneficial));
      if !beneficial {
        switching := None;
        return;
      }
      var previous := active;
      active := |slots|;
      slots := slots + [Slot(switching.value.target, switching.value.output, 0, false, false)];
      slots := slots[previous := slots[previous].(retired := true)];
      switching := None;
      if slots[previous].inFlight == 0 {
        Dispose(previous);
      }
    }
  }
}
