/**
  The scheduler of the mobile client: fair turns over domains and economic turns by
  score take turns, and probes of recovering policies pass one gate. Domains are
  numbered in the order of their names, the empty name being 0; times are reals.
*/
module SchedulerSteps {
  import opened Outcomes

  type Domain = nat
  type Policy = nat
  type ProbeId = nat
  type SelectionId = nat

  const MAX_POLICIES: nat := 256
  const CALIBRATIONS: nat := 32
  const SERIALS: nat := 0x1_0000_0000_0000_0000
  const GATE: real := 0.25

  datatype Probe = Probe(starts: nat, nextDue: real)

  /** A leader of a domain and mask; rows are ranked by their order. */
  datatype Entry = Entry(policy: Policy, domain: Domain, rank: nat, score: real, recovering: bool, due: real,
                         prepared: bool)

  /**
    A choice that was made. The last three components are for the observer: the domains that could have been chosen, in
    order; how many turns there had been; and, once it is taken up, the time at which that was judged.
  */
  datatype Selection = Selection(
    entry: Entry, economic: bool, serial: nat, selectedAt: real, probe: Option<ProbeId>,
    reserved: bool, committed: bool, ready: seq<Domain>, made: nat, reservedAt: real)

  /** An acknowledged probe: when, of which probe, and how many starts that probe has had, up to the limit. */
  datatype Start = Start(time: real, probe: ProbeId, number: nat)

  /** A reservation that succeeded, and at how many turns its choice had been made. */
  datatype Turn = Turn(economic: bool, domain: Domain, ready: seq<Domain>, made: nat)

  /** Probes and selections are objects with an identity. The last two components are for the observer. */
  datatype Scheduler = Scheduler(
    names: seq<Domain>, groups: map<Domain, seq<seq<Entry>>>,
    probes: map<Policy, ProbeId>, heap: map<ProbeId, Probe>, order: seq<Policy>, nextProbe: nat,
    selections: map<SelectionId, Selection>, nextSelection: nat,
    pending: Option<SelectionId>, nextGlobal: real, economic: bool, domainAfter: Domain, serial: nat,
    starts: seq<Start>, turns: seq<Turn>)

  const START: Scheduler :=
    Scheduler([], map[], map[], map[], [], 0, map[], 0, None, 0.0, false, 0, 0, [], [])

  function MaxTime(a: real, b: real): real {
    if a >= b then a else b
  }

  // -----------------------------------------------------------------
  // Probes
  // -----------------------------------------------------------------

  /** The policy of the pending probe. */
  function PendingPolicy(s: Scheduler): Option<Policy> {
    if s.pending.Some? &&
    s.pending.value in s.selections then Some(s.selections[s.pending.value].entry.policy) else None
  }

  /** The oldest place that is not of a policy. */
  function OldestOther(order: seq<Policy>, avoid: Option<Policy>): (i: nat)
    ensures i <= |order| && (i < |order| ==> Some(order[i]) != avoid)
    ensures forall k :: 0 <= k < i ==> Some(order[k]) == avoid
  {
    if order == [] || Some(order[0]) != avoid then 0 else 1 + OldestOther(order[1..], avoid)
  }

  function Cut(order: seq<Policy>, i: nat): seq<Policy>
    requires i < |order|
  {
    order[..i] + order[i + 1..]
  }

  /** Make room for one more policy. */
  function Evicted(s: Scheduler): Scheduler {
    var oldest := OldestOther(s.order, PendingPolicy(s));
    if |s.order| >= MAX_POLICIES && oldest < |s.order|
    then s.(probes := s.probes - {s.order[oldest]}, order := Cut(s.order, oldest)) else s
  }

  /** The scheduler after the probe of a policy is looked up, and created if need be. */
  function Probed(s: Scheduler, policy: Policy): (t: Scheduler)
    ensures policy in t.probes
  {
    if policy in s.probes then s
    else
      var t := Evicted(s);
      t.(probes := t.probes[policy := t.nextProbe], heap := t.heap[t.nextProbe := Probe(0, 0.0)],
         order := t.order + [policy], nextProbe := t.nextProbe + 1)
  }

  function ProbeOf(s: Scheduler, policy: Policy): Probe {
    if policy in s.probes && s.probes[policy] in s.heap then s.heap[s.probes[policy]] else Probe(0, 0.0)
  }

  predicate GateOpen(s: Scheduler, now: real) {
    s.pending == None && now >= s.nextGlobal
  }

  /** The scheduler after asking whether a probe is ready: the probe is looked up only if the gate is open. */
  function Asked(s: Scheduler, policy: Policy, now: real): Scheduler {
    if GateOpen(s, now) then Probed(s, policy) else s
  }

  predicate ProbeReady(s: Scheduler, policy: Policy, now: real) {
    GateOpen(s, now) && now >= ProbeOf(Probed(s, policy), policy).nextDue
  }

  // -----------------------------------------------------------------
  // Choosing
  // -----------------------------------------------------------------

  /** Whether an entry is better than another: by score, then by rank. */
  predicate Better(a: Entry, b: Option<Entry>) {
    b == None || a.score > b.value.score || (a.score == b.value.score && a.rank < b.value.rank)
  }

  /** A state, and the best entry so far. */
  datatype Best = Best(s: Scheduler, best: Option<Entry>)

  function Weigh(b: Best, leader: Entry, now: real): Best {
    if leader.due > now then b
    else
      var s := if leader.recovering then Asked(b.s, leader.policy, now) else b.s;
      var ready := !leader.recovering || ProbeReady(b.s, leader.policy, now);
      if ready && Better(leader, b.best) then Best(s, Some(leader)) else Best(s, b.best)
  }

  /** The best ready leader among lists of entries. */
  function WeighAll(b: Best, masks: seq<seq<Entry>>, now: real): Best
    decreases |masks|
  {
    if masks == [] then b
    else WeighAll(if masks[0] == [] then b else Weigh(b, masks[0][0], now), masks[1..], now)
  }

  /** A state, and what the walk over the domains has found. */
  datatype Found = Found(s: Scheduler, reward: Option<Entry>, first: Option<Entry>, after: Option<Entry>,
                         ready: seq<Domain>)

  function Visit(f: Found, domain: Domain, now: real, prepared: bool): Found {
    var b := WeighAll(Best(f.s, None), if domain in f.s.groups then f.s.groups[domain] else [], now);
    if b.best == None || b.best.value.prepared != prepared then f.(s := b.s)
    else
      var best := b.best.value;
      Found(b.s,
            if f.s.economic && Better(best, f.reward) then Some(best) else f.reward,
            if f.first == None then Some(best) else f.first,
            if f.after == None && domain > f.s.domainAfter then Some(best) else f.after,
            f.ready + [domain])
  }

  function VisitAll(f: Found, names: seq<Domain>, now: real, prepared: bool): Found
    decreases |names|
  {
    if names == [] then f else VisitAll(Visit(f, names[0], now, prepared), names[1..], now, prepared)
  }

  function Chosen(f: Found): Option<Entry> {
    if f.s.economic then f.reward else if f.after.Some? then f.after else f.first
  }

  /** The scheduler after a choice was asked for. */
  function Next(s: Scheduler, now: real, prepared: bool): Scheduler {
    var f := VisitAll(Found(s, None, None, None, []), s.names, now, prepared);
    if Chosen(f) == None then f.s
    else
      var entry := Chosen(f).value;
      var t := if entry.recovering then Probed(f.s, entry.policy) else f.s;
      var probe := if entry.recovering then Some(t.probes[entry.policy]) else None;
      var selection := Selection(entry, t.economic, t.serial, now, probe, false, false, f.ready, |t.turns|, 0.0);
      t.(selections := t.selections[t.nextSelection := selection], nextSelection := t.nextSelection + 1)
  }

  // -----------------------------------------------------------------
  // Reserving, acknowledging, releasing
  // -----------------------------------------------------------------

  function DueOf(s: Scheduler, selection: Selection): real {
    if selection.probe.Some? && selection.probe.value in s.heap then s.heap[selection.probe.value].nextDue else 0.0
  }

  /** Whether a choice may still be taken up. */
  predicate Reservable(s: Scheduler, id: SelectionId, time: real) {
    id in s.selections && !s.selections[id].reserved && s.selections[id].serial == s.serial &&
    (s.selections[id].entry.recovering ==> GateOpen(s, time) && time >= DueOf(s, s.selections[id]))
  }

  /** Serial numbers wrap. */
  function Wrapped(n: nat): nat {
    n % SERIALS
  }

  function Reserve(s: Scheduler, id: SelectionId, time: real): Scheduler {
    if !Reservable(s, id, time) then s
    else
      var selection := s.selections[id];
      s.(selections := s.selections[id := selection.(reserved := true, reservedAt := time)],
         domainAfter := if selection.economic then s.domainAfter else selection.entry.domain,
         economic := !selection.economic,
         serial := Wrapped(s.serial + 1),
         pending := if selection.entry.recovering then Some(id) else s.pending,
         turns := s.turns + [Turn(selection.economic, selection.entry.domain, selection.ready, selection.made)])
  }

  function Gap(number: nat): real {
    if number < CALIBRATIONS then GATE else 60.0
  }

  function Release(s: Scheduler, id: SelectionId): Scheduler {
    if s.pending == Some(id) then s.(pending := None) else s
  }

  /** The order without a policy. */
  function Others(order: seq<Policy>, policy: Policy): seq<Policy> {
    if order == [] then [] else (if order[0] == policy then [] else [order[0]]) + Others(order[1..], policy)
  }

  /** A probe has started: it and the gate are pushed into the future, and its policy becomes the newest. */
  function Started(s: Scheduler, policy: Policy, id: ProbeId, now: real): Scheduler
    requires id in s.heap
  {
    var number := if s.heap[id].starts + 1 < CALIBRATIONS then s.heap[id].starts + 1 else CALIBRATIONS;
    s.(heap := s.heap[id := Probe(number, MaxTime(s.heap[id].nextDue, now + Gap(number)))],
       nextGlobal := MaxTime(s.nextGlobal, now + GATE),
       order := if policy in s.probes && s.probes[policy] == id then Others(s.order, policy) + [policy] else s.order,
       starts := s.starts + [Start(now, id, number)])
  }

  predicate Acknowledgeable(s: Scheduler, id: SelectionId) {
    id in s.selections && s.selections[id].reserved && !s.selections[id].committed
  }

  function Acknowledge(s: Scheduler, id: SelectionId, now: real): Scheduler {
    if !Acknowledgeable(s, id) then s
    else
      var selection := s.selections[id];
      var t := s.(selections := s.selections[id := selection.(committed := true)]);
      var u := if selection.entry.recovering && selection.probe.Some? && selection.probe.value in t.heap
               then Started(t, selection.entry.policy, selection.probe.value, now) else t;
      Release(u, id)
  }

  // -----------------------------------------------------------------
  // Rows
  // -----------------------------------------------------------------

  function ProbedAll(s: Scheduler, policies: seq<Policy>): Scheduler
    decreases |policies|
  {
    if policies == [] then s else ProbedAll(Probed(s, policies[0]), policies[1..])
  }

  /**
    New rows: the admitted recovering policies get their probes, and the groups are replaced. A removed row is new
    groups.
  */
  function Rebuild(s: Scheduler, admitted: seq<Policy>, names: seq<Domain>, groups: map<Domain,
                   seq<seq<Entry>>>): Scheduler {
    ProbedAll(s, admitted).(names := names, groups := groups)
  }

  function Clear(s: Scheduler): Scheduler {
    s.(names := [], groups := map[])
  }

  datatype Call =
    | Choose(now: real, prepared: bool)
    | Take(id: SelectionId, time: real)
    | Confirm(id: SelectionId, now: real)
    | Drop(id: SelectionId)
    | Rows(admitted: seq<Policy>, names: seq<Domain>, groups: map<Domain, seq<seq<Entry>>>)
    | Forget

  function Step(s: Scheduler, call: Call): Scheduler {
    match call
    case Choose(now, prepared) => Next(s, now, prepared)
    case Take(id, time) => Reserve(s, id, time)
    case Confirm(id, now) => Acknowledge(s, id, now)
    case Drop(id) => Release(s, id)
    case Rows(admitted, names, groups) => Rebuild(s, admitted, names, groups)
    case Forget => Clear(s)
  }

  predicate Sorted(names: seq<Domain>) {
    forall i, k :: 0 <= i < k < |names| ==> names[i] < names[k]
  }

  /** A call that acknowledges the start of a probe. */
  predicate Starts(s: Scheduler, call: Call) {
    call.Confirm? && Acknowledgeable(s, call.id) && s.selections[call.id].entry.recovering &&
    s.selections[call.id].probe.Some? && s.selections[call.id].probe.value in s.heap
  }

  /** A start is acknowledged while its probe is still the pending one. */
  predicate Prompt(s: Scheduler, call: Call) {
    Starts(s, call) ==> s.pending == Some(call.id)
  }

  /** A start is dated no earlier than its choice was taken up; when it is acknowledged does not matter. */
  predicate Dated(s: Scheduler, call: Call) {
    Starts(s, call) ==> call.now >= s.selections[call.id].reservedAt
  }
}
