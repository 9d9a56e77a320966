/**
  The pairing server: claim, approve and complete over a first-in first-out chain of durable writes.

  A step is everything the server does between two awaits. Writes are queued with the snapshot taken
  when they were asked for; the code after an await runs in a later `Resume` step. A write may fail
  and leave the old or the new value, and the process may stop at any point.
 */
module Pairing {
  import opened Wrappers
  import opened Sequences

  const MAX_ACTIVE_INVITATIONS := 8
  const COMMIT_RECOVERY_WINDOW_MS := 600_000

  // The canonical request and the label of the joining device.
  datatype Binding = Binding(request: string, deviceLabel: string)

  datatype View = Waiting | Connecting | Completed | Expired | Cancelled | Failed

  // `tokenLive` is false once the bearer token has been erased; nothing can be exchanged after that.
  datatype Pending = Pending(
    view: View,
    binding: Option<Binding>,
    submission: bool,
    claimed: bool,
    approved: bool,
    authorizationExpired: bool,
    recoveryExpiresAt: Option<int>,
    tokenLive: bool)

  datatype Entry = Entry(
    id: nat,
    binding: Binding,
    claimed: bool,
    approved: bool,
    authorizationExpired: bool,
    recoveryExpiresAt: Option<int>,
    completed: bool)

  // What a handler does once the write it awaits has ended.
  datatype After =
    | Nothing
    | ThenWait
    | ReplyApproved
    | FinishClaim
    | ClaimedForApproval
    | FinishApprove
    | FinishComplete(previous: Option<int>)

  datatype Write = Persist(id: nat, entry: Entry, after: After) | Delete(id: nat)

  datatype Wake = Wake(id: nat, after: After, ok: bool)

  datatype Outcome = Stored | KeptOld | LeftNew

  // What the store acknowledged for an invitation.
  datatype Pledge = Pledge(binding: Binding, approved: bool)

  /**
    The history of one invitation. `claim` and `reply` are open promises: a returned claim and a sent
    `approved: true`, until the recovery window closes by force or `fail` is called. `returned` and
    `cancelled` remember that it ever happened, `revived` that a restart restored a cancelled one.
   */
  datatype Record = Record(
    pledge: Option<Pledge>,
    claim: Option<Binding>,
    reply: Option<Binding>,
    returned: bool,
    cancelled: bool,
    revived: bool)

  const BLANK := Record(None, None, None, false, false, false)

  datatype Server = Server(
    up: bool,
    invitations: map<nat, Pending>,
    persisted: seq<Entry>,
    durable: seq<Entry>,
    writes: seq<Write>,
    wakes: seq<Wake>,
    used: set<nat>,
    records: map<nat, Record>)

  const INITIAL := Server(true, map[], [], [], [], [], {}, map[])

  datatype Event =
    | Create(id: nat)
    | Submit(id: nat, binding: Binding)
    | Disconnect(id: nat)
    | Control(id: nat)
    | Complete(id: nat, now: int)
    | ClaimApproval(id: nat, now: int)
    | Approve(id: nat, now: int)
    | Cancel(id: nat)
    | Fail(id: nat)
    | InvitationExpires(id: nat)
    | RecoveryExpires(id: nat)
    | Stop(id: nat)
    | WriteEnds(outcome: Outcome)
    | Resume(n: nat)
    | Crash(applied: bool)
    | Restart(now: int, lapsed: set<nat>, outcome: Outcome)

  // ----- One invitation -----

  // What a step on one invitation changes.
  datatype Effect = Effect(pending: Pending, writes: seq<Write>, wakes: seq<Wake>, record: Record)

  function Unchanged(p: Pending, r: Record): Effect {
    Effect(p, [], [], r)
  }

  predicate Terminal(view: View) {
    view.Expired? || view.Cancelled? || view.Failed?
  }

  function Snapshot(id: nat, p: Pending): Entry
    requires p.binding.Some?
  {
    Entry(id, p.binding.value, p.claimed, p.approved, p.authorizationExpired, p.recoveryExpiresAt, p.view.Completed?)
  }

  // persistPending: without a bound request there is nothing to write and the promise is already resolved.
  function PersistPending(id: nat, p: Pending, r: Record, after: After): Effect {
    if p.binding.None? then Effect(p, [], [Wake(id, after, true)], r)
    else Effect(p, [Persist(id, Snapshot(id, p), after)], [], r)
  }

  function MarkAuthorizationExpired(id: nat, p: Pending, r: Record): Effect {
    PersistPending(id, p.(authorizationExpired := true), r, Nothing)
  }

  // expire; `closes` tells that the recovery window ended, which ends what was promised.
  function Expire(id: nat, p: Pending, r: Record, view: View, force: bool, closes: bool): Effect {
    if (p.view.Completed? && !force) || Terminal(p.view) then Unchanged(p, r)
    else if p.claimed && !force then MarkAuthorizationExpired(id, p, r)
    else
      Effect(
        p.(view := view, binding := None, submission := false, recoveryExpiresAt := None, tokenLive := false),
        [Delete(id)],
        [],
        if closes then r.(pledge := None, claim := None, reply := None)
        else r.(cancelled := r.cancelled || view.Cancelled?))
  }

  // The `request` operation. `settled` tells that no approval write is under way or about to be undone.
  function OnSubmit(id: nat, p: Pending, r: Record, settled: bool, binding: Binding): Effect {
    if !p.tokenLive || p.view.Completed? then Unchanged(p, r)
    else if p.authorizationExpired && !(p.claimed && p.binding == Some(binding)) then Unchanged(p, r)
    else if p.binding.None? then
      Effect(p.(binding := Some(binding), view := Connecting), [], [Wake(id, ThenWait, true)], r)
    else if p.binding.value != binding then Unchanged(p, r)
    else if p.approved then
      if settled then PersistPending(id, p, r, ReplyApproved) else Unchanged(p, r)
    else if !p.claimed || p.submission then Unchanged(p, r)
    else PersistPending(id, p, r, ThenWait)
  }

  // The connection of a waiting joiner closes.
  function OnDisconnect(p: Pending, r: Record): Effect {
    if !p.submission then Unchanged(p, r)
    else if p.claimed then Unchanged(p.(submission := false, view := Connecting), r)
    else Unchanged(p.(submission := false, binding := None, view := Waiting), r)
  }

  // The `control` operation, and the first write of `complete`.
  function OnControl(id: nat, p: Pending, r: Record, settled: bool): Effect {
    if p.tokenLive && p.approved && settled then PersistPending(id, p, r, Nothing) else Unchanged(p, r)
  }

  // completionIsActive: it looks at the state and the deadline, not at the token.
  predicate CompletionIsActive(p: Pending, now: int) {
    !Terminal(p.view) && (p.recoveryExpiresAt.Some? ==> p.recoveryExpiresAt.value > now)
  }

  // The rest of `complete`, once the activation boundary has been checked.
  function OnComplete(id: nat, p: Pending, r: Record, settled: bool, now: int): Effect {
    if !p.approved || !settled || !CompletionIsActive(p, now) then Unchanged(p, r)
    else
      PersistPending(
        id,
        p.(view := Completed, recoveryExpiresAt := Some(now + COMMIT_RECOVERY_WINDOW_MS)),
        r,
        FinishComplete(p.recoveryExpiresAt))
  }

  function Returned(p: Pending, r: Record): Record {
    r.(returned := true, claim := if p.tokenLive && p.binding.Some? then p.binding else r.claim)
  }

  function OnClaim(id: nat, p: Pending, r: Record, now: int): Effect {
    if p.view.Expired? || p.view.Cancelled? then Unchanged(p, r)
    else if p.approved || p.claimed then Unchanged(p, Returned(p, r))
    else if p.binding.None? || !p.submission then Unchanged(p, r)
    else
      PersistPending(
        id, p.(claimed := true, recoveryExpiresAt := Some(now + COMMIT_RECOVERY_WINDOW_MS)), r, FinishClaim)
  }

  function OnApprove(id: nat, p: Pending, r: Record, now: int): Effect {
    if p.view.Expired? || p.view.Cancelled? || p.approved then Unchanged(p, r)
    else if p.binding.None? || (!p.claimed && !p.submission) then Unchanged(p, r)
    else if p.claimed then PersistPending(id, p.(approved := true), r, FinishApprove)
    else
      PersistPending(id, p.(claimed := true, recoveryExpiresAt := Some(now + COMMIT_RECOVERY_WINDOW_MS)), r,
        ClaimedForApproval)
  }

  function OnCancel(id: nat, p: Pending, r: Record): Effect {
    if p.view.Completed? || p.claimed || p.approved then Unchanged(p, r) else Expire(id, p, r, Cancelled, false, false)
  }

  function OnInvitationExpires(id: nat, p: Pending, r: Record): Effect {
    if Terminal(p.view) then Unchanged(p, r)
    else if p.claimed then MarkAuthorizationExpired(id, p, r)
    else Expire(id, p, r, Expired, false, false)
  }

  // The recovery timers exist for claimed invitations only.
  function OnRecoveryExpires(id: nat, p: Pending, r: Record): Effect {
    if p.claimed then Expire(id, p, r, Expired, true, true) else Unchanged(p, r)
  }

  // What `close` does to one invitation.
  function OnStop(id: nat, p: Pending, r: Record): Effect {
    if p.claimed then Unchanged(p.(submission := false), r) else Expire(id, p, r, Cancelled, true, false)
  }

  // The code after an awaited write. A reply needs the token.
  function OnResume(id: nat, p: Pending, r: Record, after: After, ok: bool): Effect {
    match after
    case Nothing => Unchanged(p, r)
    case ThenWait => Unchanged(if ok then p.(submission := true) else p, r)
    case ReplyApproved => Unchanged(p, if ok then Replied(p, r) else r)
    case FinishClaim =>
      if ok then Unchanged(p, Returned(p, r)) else Unchanged(p.(claimed := false, recoveryExpiresAt := None), r)
    case ClaimedForApproval =>
      if ok then PersistPending(id, p.(approved := true), r, FinishApprove)
      else Unchanged(p.(claimed := false, recoveryExpiresAt := None), r)
    case FinishApprove =>
      if !ok then Unchanged(p.(approved := false), r)
      else Unchanged(p.(submission := false), if p.submission then Replied(p, r) else r)
    case FinishComplete(previous) =>
      if ok then Unchanged(p, r) else Unchanged(p.(view := Connecting, recoveryExpiresAt := previous), r)
  }

  function Replied(p: Pending, r: Record): Record {
    if p.tokenLive && p.binding.Some? then r.(reply := p.binding) else r
  }

  // ----- The whole server -----

  function RecordOf(s: Server, id: nat): Record {
    if id in s.records then s.records[id] else BLANK
  }

  function WritesOf(writes: seq<Write>, id: nat): seq<Write> {
    if writes == [] then []
    else if writes[0].id == id then [writes[0]] + WritesOf(writes[1..], id)
    else WritesOf(writes[1..], id)
  }

  function WakesOf(wakes: seq<Wake>, id: nat): seq<Wake> {
    if wakes == [] then []
    else if wakes[0].id == id then [wakes[0]] + WakesOf(wakes[1..], id)
    else WakesOf(wakes[1..], id)
  }

  predicate Approving(w: Write) {
    w.Persist? && w.after.FinishApprove?
  }

  predicate ApprovalUndone(k: Wake) {
    k.after.FinishApprove? && !k.ok
  }

  predicate ApprovalSettled(writes: seq<Write>, wakes: seq<Wake>) {
    && (forall k | 0 <= k < |writes| :: !Approving(writes[k]))
    && (forall k | 0 <= k < |wakes| :: !ApprovalUndone(wakes[k]))
  }

  predicate Claiming(a: After) {
    a.FinishClaim? || a.ClaimedForApproval?
  }

  predicate Calling(a: After) {
    Claiming(a) || a.FinishApprove?
  }

  function AfterOf(w: Write): After {
    if w.Persist? then w.after else Nothing
  }

  predicate ClaimUndone(k: Wake) {
    Claiming(k.after) && !k.ok
  }

  // No claim is being written or about to be undone.
  predicate ClaimSettled(writes: seq<Write>, wakes: seq<Wake>) {
    && (forall k | 0 <= k < |writes| :: !Claiming(AfterOf(writes[k])))
    && (forall k | 0 <= k < |wakes| :: !ClaimUndone(wakes[k]))
  }

  function Apply(s: Server, id: nat, e: Effect): Server {
    s.(invitations := s.invitations[id := e.pending], writes := s.writes + e.writes, wakes := s.wakes + e.wakes,
       records := s.records[id := e.record])
  }

  // What an event does to the invitation it names.
  function OnEvent(id: nat, p: Pending, r: Record, settled: bool, e: Event): Effect {
    match e
    case Submit(_, binding) => OnSubmit(id, p, r, settled, binding)
    case Disconnect(_) => OnDisconnect(p, r)
    case Control(_) => OnControl(id, p, r, settled)
    case Complete(_, now) => OnComplete(id, p, r, settled, now)
    case ClaimApproval(_, now) => OnClaim(id, p, r, now)
    case Approve(_, now) => OnApprove(id, p, r, now)
    case Cancel(_) => OnCancel(id, p, r)
    case Fail(_) => Expire(id, p, r, Failed, true, true)
    case InvitationExpires(_) => OnInvitationExpires(id, p, r)
    case RecoveryExpires(_) => OnRecoveryExpires(id, p, r)
    case Stop(_) => OnStop(id, p, r)
    case _ => Unchanged(p, r)
  }

  predicate NamesInvitation(e: Event) {
    !e.Create? && !e.WriteEnds? && !e.Resume? && !e.Crash? && !e.Restart?
  }

  function Purged(invitations: map<nat, Pending>): map<nat, Pending> {
    map id | id in invitations && !Terminal(invitations[id].view) :: invitations[id]
  }

  const FRESH := Pending(Waiting, None, false, false, false, false, None, true)

  function OnCreate(s: Server, id: nat): Server {
    var kept := Purged(s.invitations);
    if |kept| >= MAX_ACTIVE_INVITATIONS || id in s.used then s.(invitations := kept)
    else
      s.(invitations := kept[id := FRESH], used := s.used + {id})
  }

  // ----- The stored entries, an insertion-ordered map -----

  function Find(entries: seq<Entry>, id: nat): Option<Entry> {
    if entries == [] then None else if entries[0].id == id then Some(entries[0]) else Find(entries[1..], id)
  }

  function Put(entries: seq<Entry>, e: Entry): seq<Entry> {
    if entries == [] then [e]
    else if entries[0].id == e.id then [e] + entries[1..]
    else [entries[0]] + Put(entries[1..], e)
  }

  function Drop(entries: seq<Entry>, id: nat): seq<Entry> {
    if entries == [] then [] else if entries[0].id == id then entries[1..] else [entries[0]] + Drop(entries[1..], id)
  }

  // The value a queued write stores; a delete of something that is not there writes nothing.
  function Attempted(entries: seq<Entry>, w: Write): seq<Entry> {
    if w.Persist? then Put(entries, w.entry) else Drop(entries, w.id)
  }

  predicate Writes(entries: seq<Entry>, w: Write) {
    w.Persist? || Find(entries, w.id).Some?
  }

  // The map in memory after the write ended; a failed delete puts the entry back at the end.
  function Remembered(entries: seq<Entry>, w: Write, outcome: Outcome): seq<Entry> {
    if outcome.Stored? then Attempted(entries, w)
    else if w.Persist? || Find(entries, w.id).None? then entries
    else Drop(entries, w.id) + [Find(entries, w.id).value]
  }

  // The store acknowledges a claim or an approval of an invitation whose token still lives.
  function Acknowledged(p: Option<Pending>, r: Record, w: Write, outcome: Outcome): Record {
    if !outcome.Stored? || !w.Persist? || p.None? || !p.value.tokenLive then r
    else if w.after.FinishClaim? || w.after.ClaimedForApproval? then r.(pledge := Some(Pledge(w.entry.binding, false)))
    else if w.after.FinishApprove? then r.(pledge := Some(Pledge(w.entry.binding, true)))
    else r
  }

  function PendingOf(s: Server, id: nat): Option<Pending> {
    if id in s.invitations then Some(s.invitations[id]) else None
  }

  function OnWriteEnds(s: Server, outcome: Outcome): Server
    requires s.writes != []
  {
    var w := s.writes[0];
    s.(persisted := Remembered(s.persisted, w, outcome),
       durable := if Writes(s.persisted, w) && !outcome.KeptOld? then Attempted(s.persisted, w) else s.durable,
       writes := s.writes[1..],
       wakes := s.wakes + if w.Persist? then [Wake(w.id, w.after, outcome.Stored?)] else [],
       records := s.records[w.id := Acknowledged(PendingOf(s, w.id), RecordOf(s, w.id), w, outcome)])
  }

  function OnWake(s: Server, n: nat): Server
    requires n < |s.wakes|
  {
    var k := s.wakes[n];
    var rest := s.(wakes := s.wakes[..n] + s.wakes[n + 1..]);
    if k.id in s.invitations
    then Apply(rest, k.id, OnResume(k.id, s.invitations[k.id], RecordOf(s, k.id), k.after, k.ok)) else rest
  }

  function OnCrash(s: Server, applied: bool): Server {
    s.(up := false, invitations := map[], persisted := [], writes := [], wakes := [],
       durable := if applied && s.writes != [] && Writes(s.persisted, s.writes[0])
                  then Attempted(s.persisted, s.writes[0]) else s.durable)
  }

  // ----- Restart -----

  predicate Restorable(e: Entry, now: int) {
    && e.claimed && e.recoveryExpiresAt.Some? && e.recoveryExpiresAt.value > now
    && (e.completed ==> e.approved)
  }

  function Refreshed(e: Entry, lapsed: set<nat>): Entry {
    e.(authorizationExpired := e.authorizationExpired || e.id in lapsed)
  }

  function Revived(e: Entry): Pending {
    Pending(
      if e.completed then Completed else Connecting, Some(e.binding), false, true, e.approved,
      e.authorizationExpired, e.recoveryExpiresAt, true)
  }

  // Of the entries read, those that are restored, in order.
  function Restored(entries: seq<Entry>, now: int, lapsed: set<nat>): seq<Entry> {
    if entries == [] then []
    else if Restorable(entries[0], now) then [Refreshed(entries[0], lapsed)] + Restored(entries[1..], now, lapsed)
    else Restored(entries[1..], now, lapsed)
  }

  function FirstEight(entries: seq<Entry>): seq<Entry> {
    if |entries| <= MAX_ACTIVE_INVITATIONS then entries else entries[..MAX_ACTIVE_INVITATIONS]
  }

  // The recovery window of the stored entry is over, which ends what was promised.
  predicate Overdue(e: Option<Entry>, now: int) {
    e.Some? && e.value.recoveryExpiresAt.Some? && e.value.recoveryExpiresAt.value <= now
  }

  function RestartRecord(r: Record, saved: Option<Entry>, restored: Option<Entry>, now: int, up: bool): Record {
    var open := if Overdue(saved, now) then r.(pledge := None, claim := None, reply := None) else r;
    if up && restored.Some?
    then
      open.(pledge := Some(Pledge(restored.value.binding, restored.value.approved)),
            revived := r.revived || r.cancelled)
    else open
  }

  function Ids(entries: seq<Entry>): set<nat> {
    set k | 0 <= k < |entries| :: entries[k].id
  }

  function RevivedOf(restored: seq<Entry>): map<nat, Pending> {
    map id | id in Ids(restored) && Find(restored, id).Some? :: Revived(Find(restored, id).value)
  }

  function OnRestart(s: Server, now: int, lapsed: set<nat>, outcome: Outcome): Server {
    var restored := Restored(FirstEight(s.durable), now, lapsed);
    if outcome.KeptOld? && s.durable != [] then s
    else
      var up := outcome.Stored? || s.durable == [];
      s.(up := up,
         invitations := if up then RevivedOf(restored) else map[],
         persisted := if up then restored else [],
         durable := restored,
         records := map id | id in s.records.Keys + Ids(s.durable) ::
           RestartRecord(RecordOf(s, id), Find(s.durable, id), Find(restored, id), now, up))
  }

  function Step(s: Server, e: Event): Server {
    match e
    case Restart(now, lapsed, outcome) => if s.up then s else OnRestart(s, now, lapsed, outcome)
    case Crash(applied) => if s.up then OnCrash(s, applied) else s
    case Create(id) => if s.up then OnCreate(s, id) else s
    case WriteEnds(outcome) => if s.up && s.writes != [] then OnWriteEnds(s, outcome) else s
    case Resume(n) => if s.up && n < |s.wakes| then OnWake(s, n) else s
    case _ =>
      if s.up && e.id in s.invitations then
        Apply(s, e.id, OnEvent(e.id, s.invitations[e.id], RecordOf(s, e.id),
                               ApprovalSettled(WritesOf(s.writes, e.id), WakesOf(s.wakes, e.id)), e))
      else s
  }

  // ----- One invitation's share of the server -----

  datatype Local = Local(
    up: bool,
    pend: Option<Pending>,
    writes: seq<Write>,
    wakes: seq<Wake>,
    stored: Option<Entry>,
    saved: Option<Entry>,
    record: Record)

  function At(s: Server, id: nat): Local {
    Local(s.up, PendingOf(s, id), WritesOf(s.writes, id), WakesOf(s.wakes, id), Find(s.persisted, id),
      Find(s.durable, id), RecordOf(s, id))
  }

  predicate Alive(l: Local) {
    l.pend.Some? && l.pend.value.tokenLive
  }

  predicate Live(view: View) {
    view.Waiting? || view.Connecting? || view.Completed?
  }

  // An invitation whose token lives is in a live state; one whose token is gone has no request.
  predicate Shaped(p: Pending) {
    && (p.tokenLive ==> Live(p.view))
    && (!p.tokenLive ==> p.binding.None?)
    && (p.tokenLive && p.claimed ==> p.binding.Some? && p.recoveryExpiresAt.Some?)
    && (p.approved ==> p.claimed)
  }

  // What every snapshot is: taken after the claim, with a deadline, and completed only if approved.
  predicate Sealed(e: Entry) {
    e.claimed && e.recoveryExpiresAt.Some? && (e.completed ==> e.approved)
  }

  predicate SealedOrNone(e: Option<Entry>) {
    e.Some? ==> Sealed(e.value)
  }

  predicate GoodAfter(a: After) {
    a.FinishComplete? ==> a.previous.Some?
  }

  predicate GoodWake(w: Wake) {
    w.ok || GoodAfter(w.after)
  }

  predicate GoodWrite(w: Write) {
    w.Persist? ==> Sealed(w.entry) && GoodAfter(w.after)
  }

  predicate GoodQueues(l: Local) {
    && (forall k | 0 <= k < |l.writes| :: GoodWrite(l.writes[k]))
    && (forall k | 0 <= k < |l.wakes| :: GoodWake(l.wakes[k]))
    && SealedOrNone(l.stored) && SealedOrNone(l.saved)
  }

  function CallsIn(writes: seq<Write>): nat {
    if writes == [] then 0 else (if Calling(AfterOf(writes[0])) then 1 else 0) + CallsIn(writes[1..])
  }

  // A call that still has something to do or undo; a stored claim of claimApproval only has to return.
  predicate Unfinished(w: Wake) {
    Calling(w.after) && !(w.after.FinishClaim? && w.ok)
  }

  function CallsAwake(wakes: seq<Wake>): nat {
    if wakes == [] then 0 else (if Unfinished(wakes[0]) then 1 else 0) + CallsAwake(wakes[1..])
  }

  // The calls to claimApproval or approve that are under way.
  function Calls(l: Local): nat {
    CallsIn(l.writes) + CallsAwake(l.wakes)
  }

  predicate Agrees(w: Write, b: Binding, approved: bool) {
    w.Persist? && w.entry.binding == b && (approved ==> w.entry.approved)
  }

  predicate AgreesFrom(writes: seq<Write>, k: nat, b: Binding, approved: bool) {
    forall j | k <= j < |writes| :: Agrees(writes[j], b, approved)
  }

  predicate PledgedApproved(l: Local) {
    l.record.pledge.Some? && l.record.pledge.value.approved
  }

  // A call under way claims or approves; its invitation is not cancelled.
  predicate CallFits(p: Pending, a: After) {
    && (Calling(a) ==> p.claimed && !p.view.Cancelled?)
    && (Claiming(a) ==> !p.approved)
    && (a.FinishApprove? ==> p.approved)
  }

  // A stored claim that has to return: its invitation is claimed, and no other claim is open.
  predicate ReturnFits(l: Local, w: Wake)
    requires l.pend.Some?
  {
    w.after.FinishClaim? && w.ok ==>
      l.pend.value.claimed && !l.pend.value.view.Cancelled? && ClaimSettled(l.writes, l.wakes)
  }

  predicate CallsFit(l: Local) {
    l.pend.Some? ==>
      && (forall k | 0 <= k < |l.writes| :: CallFits(l.pend.value, AfterOf(l.writes[k])))
      && (forall k | 0 <= k < |l.wakes| :: Unfinished(l.wakes[k]) ==> CallFits(l.pend.value, l.wakes[k].after))
      && (forall k | 0 <= k < |l.wakes| :: ReturnFits(l, l.wakes[k]))
  }

  // What a queued write may be, given what is in memory.

  predicate WriteFits(l: Local, k: nat)
    requires k < |l.writes| && l.pend.Some?
  {
    var p, w := l.pend.value, l.writes[k];
    && w.Persist?
    && (Claiming(w.after) ==>
         p.binding.Some? && l.record.pledge.None? && AgreesFrom(l.writes, k, p.binding.value, false))
    && (w.after.FinishApprove? ==>
          && p.binding.Some? && l.record.pledge.Some? && !PledgedApproved(l)
          && AgreesFrom(l.writes, k, p.binding.value, true))
    && (w.after.ReplyApproved? ==> PledgedApproved(l))
  }

  predicate WakeFits(l: Local, w: Wake) {
    && (Claiming(w.after) ==> if w.ok then l.record.pledge.Some? else l.record.pledge.None?)
    && (w.after.FinishApprove? ==> l.record.pledge.Some? && (w.ok <==> PledgedApproved(l)))
    && (w.after.ReplyApproved? && w.ok ==> PledgedApproved(l))
  }

  predicate QueuesFit(l: Local) {
    Alive(l) ==>
      && (forall k | 0 <= k < |l.writes| :: WriteFits(l, k))
      && (forall k | 0 <= k < |l.wakes| :: WakeFits(l, l.wakes[k]))
  }

  // A claim or approval in memory is acknowledged by the store, or its call has not returned.
  predicate Explained(l: Local) {
    Alive(l) ==>
      && (l.pend.value.claimed ==> l.record.pledge.Some? || Calls(l) > 0)
      && (l.pend.value.approved ==> PledgedApproved(l) || !ApprovalSettled(l.writes, l.wakes))
      && (l.pend.value.view.Completed? ==> PledgedApproved(l))
  }

  predicate Keeps(e: Option<Entry>, pledge: Pledge) {
    e.Some? && Sealed(e.value) && e.value.binding == pledge.binding && (pledge.approved ==> e.value.approved)
  }

  // What the store acknowledged is in memory, in the map, in every queued write and in the store.
  predicate PledgeKept(l: Local) {
    l.record.pledge.Some? ==>
      var pledge := l.record.pledge.value;
      && Keeps(l.saved, pledge)
      && (l.up ==>
            && Alive(l) && l.pend.value.claimed && l.pend.value.binding == Some(pledge.binding)
            && (pledge.approved ==> l.pend.value.approved)
            && Keeps(l.stored, pledge) && AgreesFrom(l.writes, 0, pledge.binding, pledge.approved))
  }

  predicate PromisesPledged(r: Record) {
    && (r.claim.Some? ==> r.pledge.Some? && r.pledge.value.binding == r.claim.value)
    && (r.reply.Some? ==> r.pledge.Some? && r.pledge.value.approved && r.pledge.value.binding == r.reply.value)
  }

  // A returned claim is never taken back, and a cancelled invitation is claimed again only after a restart revived it.
  predicate NeverBoth(l: Local) {
    && (l.record.returned && l.pend.Some? ==>
          l.pend.value.claimed && !l.pend.value.view.Cancelled? && ClaimSettled(l.writes, l.wakes))
    && (l.record.cancelled && !l.record.revived ==>
          !l.record.returned && Calls(l) == 0
          && (l.pend.Some? ==> !l.pend.value.claimed && !l.pend.value.approved && !l.pend.value.tokenLive))
  }

  predicate LocalInv(l: Local) {
    && (l.pend.Some? ==> Shaped(l.pend.value))
    && (!l.up ==> l.pend.None? && l.writes == [] && l.wakes == [] && l.stored.None?)
    && GoodQueues(l) && Calls(l) <= 1 && CallsFit(l) && QueuesFit(l) && Explained(l) && PledgeKept(l)
       && PromisesPledged(l.record) && NeverBoth(l)
  }

  function ApplyLocal(l: Local, e: Effect): Local {
    l.(pend := Some(e.pending), writes := l.writes + e.writes, wakes := l.wakes + e.wakes, record := e.record)
  }

  // ----- Each event keeps the invariant of the invitation it names -----

  lemma {:induction false} CallsAppend(a: seq<Write>, b: seq<Write>)
    ensures CallsIn(a + b) == CallsIn(a) + CallsIn(b)
  {
    if a == [] {
      assert a + b == b;
    } else {
      assert (a + b)[1..] == a[1..] + b;
      CallsAppend(a[1..], b);
    }
  }

  lemma {:induction false} AwakeAppend(a: seq<Wake>, b: seq<Wake>)
    ensures CallsAwake(a + b) == CallsAwake(a) + CallsAwake(b)
  {
    if a == [] {
      assert a + b == b;
    } else {
      assert (a + b)[1..] == a[1..] + b;
      AwakeAppend(a[1..], b);
    }
  }

  lemma {:induction false} NoCalls(writes: seq<Write>)
    ensures CallsIn(writes) == 0 <==> forall k | 0 <= k < |writes| :: !Calling(AfterOf(writes[k]))
  {
    if writes != [] {
      NoCalls(writes[1..]);
      assert forall k | 0 < k < |writes| :: writes[k] == writes[1..][k - 1];
    }
  }

  lemma {:induction false} NoneAwake(wakes: seq<Wake>)
    ensures CallsAwake(wakes) == 0 <==> forall k | 0 <= k < |wakes| :: !Unfinished(wakes[k])
  {
    if wakes != [] {
      NoneAwake(wakes[1..]);
      assert forall k | 0 < k < |wakes| :: wakes[k] == wakes[1..][k - 1];
    }
  }

  lemma OneMoreCall(l: Local, e: Effect)
    ensures Calls(ApplyLocal(l, e)) == Calls(l) + CallsIn(e.writes) + CallsAwake(e.wakes)
  {
    CallsAppend(l.writes, e.writes);
    AwakeAppend(l.wakes, e.wakes);
  }

  lemma UnsettledStays(writes: seq<Write>, wakes: seq<Wake>, moreWrites: seq<Write>, moreWakes: seq<Wake>)
    requires !ApprovalSettled(writes, wakes)
    ensures !ApprovalSettled(writes + moreWrites, wakes + moreWakes)
  {
    if k :| 0 <= k < |writes| && Approving(writes[k]) {
      assert (writes + moreWrites)[k] == writes[k];
    } else {
      var n :| 0 <= n < |wakes| && ApprovalUndone(wakes[n]);
      assert (wakes + moreWakes)[n] == wakes[n];
    }
  }

  // The same request, claim, approval and token.
  predicate SameStanding(p: Pending, q: Pending) {
    q.binding == p.binding && q.claimed == p.claimed && q.approved == p.approved && q.tokenLive == p.tokenLive
  }

  lemma AgreesMore(writes: seq<Write>, w: Write, k: nat, b: Binding, approved: bool)
    requires k <= |writes| && AgreesFrom(writes, k, b, approved) && Agrees(w, b, approved)
    ensures AgreesFrom(writes + [w], k, b, approved)
  {
  }

  // One more snapshot of a claimed invitation.
  lemma PersistInv(l: Local, id: nat, q: Pending, after: After)
    requires LocalInv(l) && l.up && Alive(l) && SameStanding(l.pend.value, q) && Shaped(q) && q.claimed
    requires !Calling(after) && GoodAfter(after) && (after.ReplyApproved? || q.view.Completed? ==> PledgedApproved(l))
    ensures LocalInv(ApplyLocal(l, PersistPending(id, q, l.record, after)))
  {
    var e := PersistPending(id, q, l.record, after);
    var t := ApplyLocal(l, e);
    var w := Persist(id, Snapshot(id, q), after);
    OneMoreCall(l, e);
    assert t.wakes == l.wakes;
    assert CallsIn([w]) == 0;
    if !ApprovalSettled(l.writes, l.wakes) {
      UnsettledStays(l.writes, l.wakes, [w], []);
    }
    forall k | 0 <= k < |t.writes|
      ensures WriteFits(t, k) && GoodWrite(t.writes[k])
    {
      if k < |l.writes| {
        assert WriteFits(l, k) && GoodWrite(l.writes[k]);
        if Claiming(l.writes[k].after) {
          AgreesMore(l.writes, w, k, q.binding.value, false);
        } else if l.writes[k].after.FinishApprove? {
          AgreesMore(l.writes, w, k, q.binding.value, true);
        }
      }
    }
    forall k | 0 <= k < |t.wakes|
      ensures WakeFits(t, t.wakes[k])
    {
      assert WakeFits(l, l.wakes[k]);
    }
    NotBothPersisted(l, t, w);
  }

  lemma NotBothPersisted(l: Local, t: Local, w: Write)
    requires NeverBoth(l) && Alive(l) && l.pend.value.claimed && t.pend.Some?
    requires SameStanding(l.pend.value, t.pend.value) && t.pend.value.view != Cancelled
    requires t.writes == l.writes + [w] && t.wakes == l.wakes && !Calling(AfterOf(w)) && t.record == l.record
    ensures NeverBoth(t)
  {
  }

  // A change that queues nothing and keeps the request, claim, approval and token.
  lemma QuietInv(l: Local, q: Pending)
    requires LocalInv(l) && l.up && l.pend.Some? && SameStanding(l.pend.value, q) && Shaped(q)
    requires q.view.Completed? ==> l.pend.value.view.Completed?
    requires q.view.Cancelled? ==> l.pend.value.view.Cancelled?
    ensures LocalInv(ApplyLocal(l, Unchanged(q, l.record)))
  {
    var t := ApplyLocal(l, Unchanged(q, l.record));
    assert t.writes == l.writes && t.wakes == l.wakes;
    forall k | 0 <= k < |t.writes| && Alive(l)
      ensures WriteFits(t, k)
    {
      assert WriteFits(l, k);
    }
    forall k | 0 <= k < |t.wakes| && Alive(l)
      ensures WakeFits(t, t.wakes[k])
    {
      assert WakeFits(l, l.wakes[k]);
    }
  }

  // A change to a live invitation that nobody has claimed.
  lemma UnclaimedInv(l: Local, q: Pending, more: seq<Wake>)
    requires LocalInv(l) && l.up && Alive(l) && !l.pend.value.claimed && !q.claimed && !q.approved && q.tokenLive
    requires (q.view.Waiting? || q.view.Connecting?) && forall k | 0 <= k < |more| :: more[k].after.ThenWait?
    ensures LocalInv(ApplyLocal(l, Effect(q, [], more, l.record)))
  {
    var t := ApplyLocal(l, Effect(q, [], more, l.record));
    assert t.writes == l.writes;
    OneMoreCall(l, Effect(q, [], more, l.record));
    NoneAwake(more);
    forall k | 0 <= k < |t.writes|
      ensures WriteFits(t, k) && CallFits(q, AfterOf(t.writes[k]))
    {
      assert WriteFits(l, k) && CallFits(l.pend.value, AfterOf(l.writes[k]));
    }
    forall k | 0 <= k < |t.wakes|
      ensures WakeFits(t, t.wakes[k]) && ReturnFits(t, t.wakes[k]) && GoodWake(t.wakes[k])
      ensures Unfinished(t.wakes[k]) ==> CallFits(q, t.wakes[k].after)
    {
      if k < |l.wakes| {
        assert WakeFits(l, l.wakes[k]) && ReturnFits(l, l.wakes[k]) && GoodWake(l.wakes[k]);
      }
    }
  }

  lemma OnSubmitInv(l: Local, id: nat, b: Binding)
    requires LocalInv(l) && l.up && l.pend.Some?
    ensures LocalInv(ApplyLocal(l, OnSubmit(id, l.pend.value, l.record, ApprovalSettled(l.writes, l.wakes), b)))
  {
    var p := l.pend.value;
    var e := OnSubmit(id, p, l.record, ApprovalSettled(l.writes, l.wakes), b);
    if e == Unchanged(p, l.record) {
      QuietInv(l, p);
    } else if p.binding.None? {
      UnclaimedInv(l, e.pending, e.wakes);
    } else if p.approved {
      PersistInv(l, id, p, ReplyApproved);
    } else {
      PersistInv(l, id, p, ThenWait);
    }
  }

  lemma OnDisconnectInv(l: Local)
    requires LocalInv(l) && l.up && l.pend.Some?
    ensures LocalInv(ApplyLocal(l, OnDisconnect(l.pend.value, l.record)))
  {
    var p := l.pend.value;
    var e := OnDisconnect(p, l.record);
    if p.submission && !p.claimed && p.tokenLive {
      UnclaimedInv(l, e.pending, []);
    } else {
      QuietInv(l, e.pending);
    }
  }

  // A claim or an approval starts: its snapshot is queued behind everything asked for before.
  lemma CallInv(l: Local, id: nat, q: Pending, after: After)
    requires LocalInv(l) && l.up && Alive(l) && Calls(l) == 0 && Shaped(q) && q.claimed && q.tokenLive
    requires q.binding == l.pend.value.binding && q.binding.Some? && q.view == l.pend.value.view
    requires !l.pend.value.approved
    requires (Claiming(after) && !l.pend.value.claimed && !q.approved)
        || (after.FinishApprove? && l.pend.value.claimed && q.approved)
    ensures LocalInv(ApplyLocal(l, PersistPending(id, q, l.record, after)))
  {
    var p := l.pend.value;
    var e := PersistPending(id, q, l.record, after);
    var t := ApplyLocal(l, e);
    var w := Persist(id, Snapshot(id, q), after);
    OneMoreCall(l, e);
    assert t.wakes == l.wakes && t.writes == l.writes + [w];
    assert CallsIn([w]) == 1;
    NoCalls(l.writes);
    NoneAwake(l.wakes);
    forall k | 0 <= k < |t.writes|
      ensures WriteFits(t, k) && GoodWrite(t.writes[k]) && CallFits(q, AfterOf(t.writes[k]))
    {
      if k < |l.writes| {
        assert WriteFits(l, k) && GoodWrite(l.writes[k]) && CallFits(p, AfterOf(l.writes[k]));
      }
    }
    forall k | 0 <= k < |t.wakes|
      ensures WakeFits(t, t.wakes[k]) && ReturnFits(t, t.wakes[k])
    {
      assert WakeFits(l, l.wakes[k]) && ReturnFits(l, l.wakes[k]);
    }
    if after.FinishApprove? {
      assert Approving(t.writes[|l.writes|]);
    }
  }

  lemma OnControlInv(l: Local, id: nat)
    requires LocalInv(l) && l.up && l.pend.Some?
    ensures LocalInv(ApplyLocal(l, OnControl(id, l.pend.value, l.record, ApprovalSettled(l.writes, l.wakes))))
  {
    if l.pend.value.tokenLive && l.pend.value.approved && ApprovalSettled(l.writes, l.wakes) {
      PersistInv(l, id, l.pend.value, Nothing);
    } else {
      QuietInv(l, l.pend.value);
    }
  }

  lemma OnCompleteInv(l: Local, id: nat, now: int)
    requires LocalInv(l) && l.up && l.pend.Some?
    ensures LocalInv(ApplyLocal(l, OnComplete(id, l.pend.value, l.record, ApprovalSettled(l.writes, l.wakes), now)))
  {
    var p := l.pend.value;
    if OnComplete(id, p, l.record, ApprovalSettled(l.writes, l.wakes), now) == Unchanged(p, l.record) {
      QuietInv(l, p);
    } else {
      var q := p.(view := Completed, recoveryExpiresAt := Some(now + COMMIT_RECOVERY_WINDOW_MS));
      if Alive(l) {
        PersistInv(l, id, q, FinishComplete(p.recoveryExpiresAt));
      } else {
        DeadInv(l, q, [Wake(id, FinishComplete(p.recoveryExpiresAt), true)]);
      }
    }
  }

  // Only the history of the invitation changes.
  lemma RecordInv(l: Local, r: Record)
    requires LocalInv(l) && l.up && l.pend.Some? && r.pledge == l.record.pledge && PromisesPledged(r)
    requires r.cancelled == l.record.cancelled && r.revived == l.record.revived
    requires r.returned == l.record.returned
        || (r.returned && ClaimSettled(l.writes, l.wakes) && l.pend.value.claimed && !l.pend.value.view.Cancelled?)
    ensures LocalInv(ApplyLocal(l, Unchanged(l.pend.value, r)))
  {
    var t := ApplyLocal(l, Unchanged(l.pend.value, r));
    assert t.writes == l.writes && t.wakes == l.wakes;
    forall k | 0 <= k < |t.writes| && Alive(l)
      ensures WriteFits(t, k)
    {
      assert WriteFits(l, k);
    }
    forall k | 0 <= k < |t.wakes| && Alive(l)
      ensures WakeFits(t, t.wakes[k])
    {
      assert WakeFits(l, l.wakes[k]);
    }
  }

  // On a live claimed invitation no claim is open exactly if the store has acknowledged one.
  lemma SettledIsPledged(l: Local)
    requires LocalInv(l) && l.up && Alive(l) && l.pend.value.claimed
    ensures ClaimSettled(l.writes, l.wakes) <==> l.record.pledge.Some?
  {
    NoCalls(l.writes);
    NoneAwake(l.wakes);
    forall k | 0 <= k < |l.writes|
      ensures Calling(AfterOf(l.writes[k])) ==> (Claiming(AfterOf(l.writes[k])) <==> l.record.pledge.None?)
    {
      assert WriteFits(l, k);
    }
    forall k | 0 <= k < |l.wakes|
      ensures Calling(l.wakes[k].after) ==> (ClaimUndone(l.wakes[k]) <==> l.record.pledge.None?)
    {
      assert WakeFits(l, l.wakes[k]);
    }
  }

  // A claim returns on a claimed invitation with no claim open.
  lemma ReturnedInv(l: Local)
    requires LocalInv(l) && l.up && l.pend.Some? && ClaimSettled(l.writes, l.wakes) && l.pend.value.claimed
    requires !l.pend.value.view.Cancelled?
    ensures LocalInv(ApplyLocal(l, Unchanged(l.pend.value, Returned(l.pend.value, l.record))))
  {
    if Alive(l) {
      SettledIsPledged(l);
    }
    RecordInv(l, Returned(l.pend.value, l.record));
  }

  // No claim can be open on an invitation that is not claimed, and none but a claim on one that is not approved.
  lemma NoCallYet(l: Local)
    requires LocalInv(l) && l.up && l.pend.Some? && !l.pend.value.claimed
    ensures Calls(l) == 0
  {
    NoCalls(l.writes);
    NoneAwake(l.wakes);
  }

  // claimApproval returns at once.
  predicate ReturnsEarly(p: Pending) {
    !p.view.Expired? && !p.view.Cancelled? && (p.approved || p.claimed)
  }

  // approve starts a write.
  predicate Approves(p: Pending) {
    && !p.view.Expired? && !p.view.Cancelled? && !p.approved
    && p.binding.Some? && (p.claimed || p.submission)
  }

  // claimApproval: the promise it gives by returning early binds exactly if no claim is open.
  lemma OnClaimInv(l: Local, id: nat, now: int)
    requires LocalInv(l) && l.up && l.pend.Some?
    ensures LocalInv(ApplyLocal(l, OnClaim(id, l.pend.value, l.record, now)))
       <==> (ReturnsEarly(l.pend.value) ==> ClaimSettled(l.writes, l.wakes))
  {
    var p := l.pend.value;
    if ReturnsEarly(p) {
      if ClaimSettled(l.writes, l.wakes) {
        ReturnedInv(l);
      } else {
        assert l.writes + [] == l.writes && l.wakes + [] == l.wakes;
      }
    } else if p.view.Expired? || p.view.Cancelled? || p.binding.None? || !p.submission {
      QuietInv(l, p);
    } else {
      NoCallYet(l);
      CallInv(l, id, p.(claimed := true, recoveryExpiresAt := Some(now + COMMIT_RECOVERY_WINDOW_MS)), FinishClaim);
    }
  }

  // approve: it keeps the invariant exactly if it queues nothing behind a call that is under way.
  lemma OnApproveInv(l: Local, id: nat, now: int)
    requires LocalInv(l) && l.up && l.pend.Some?
    ensures LocalInv(ApplyLocal(l, OnApprove(id, l.pend.value, l.record, now)))
       <==> (Approves(l.pend.value) ==> Calls(l) == 0)
  {
    var p := l.pend.value;
    var e := OnApprove(id, p, l.record, now);
    if !Approves(p) {
      QuietInv(l, p);
    } else if Calls(l) > 0 {
      OneMoreCall(l, e);
      assert e.writes[1..] == [];
    } else if p.claimed {
      CallInv(l, id, p.(approved := true), FinishApprove);
    } else {
      CallInv(l, id, p.(claimed := true, recoveryExpiresAt := Some(now + COMMIT_RECOVERY_WINDOW_MS)),
        ClaimedForApproval);
    }
  }

  // ----- Expiry -----

  // An invitation whose token is gone: nothing is written for it, and no promise about it is open.
  lemma DeadInv(l: Local, q: Pending, more: seq<Wake>)
    requires LocalInv(l) && l.up && l.pend.Some? && !Alive(l) && SameStanding(l.pend.value, q)
    requires q.view.Cancelled? ==> l.pend.value.view.Cancelled?
    requires forall k | 0 <= k < |more| :: !Calling(more[k].after) && more[k].ok
    ensures LocalInv(ApplyLocal(l, Effect(q, [], more, l.record)))
  {
    var t := ApplyLocal(l, Effect(q, [], more, l.record));
    assert t.writes == l.writes;
    OneMoreCall(l, Effect(q, [], more, l.record));
    NoneAwake(more);
    forall k | 0 <= k < |t.wakes|
      ensures GoodWake(t.wakes[k]) && ReturnFits(t, t.wakes[k])
      ensures Unfinished(t.wakes[k]) ==> CallFits(q, t.wakes[k].after)
    {
      if k < |l.wakes| {
        assert GoodWake(l.wakes[k]) && ReturnFits(l, l.wakes[k]);
        assert Unfinished(l.wakes[k]) ==> CallFits(l.pend.value, l.wakes[k].after);
      }
    }
  }

  lemma MarkInv(l: Local, id: nat)
    requires LocalInv(l) && l.up && l.pend.Some? && l.pend.value.claimed
    ensures LocalInv(ApplyLocal(l, MarkAuthorizationExpired(id, l.pend.value, l.record)))
  {
    var q := l.pend.value.(authorizationExpired := true);
    if Alive(l) {
      PersistInv(l, id, q, Nothing);
    } else {
      DeadInv(l, q, [Wake(id, Nothing, true)]);
    }
  }

  // The token is erased and the stored entry is to be deleted.
  lemma ClosedInv(l: Local, id: nat, view: View, closes: bool)
    requires LocalInv(l) && l.up && l.pend.Some? && Terminal(view) && !Terminal(l.pend.value.view)
    requires !closes ==> !l.pend.value.claimed
    requires view.Cancelled? ==> !l.pend.value.claimed && !closes
    ensures LocalInv(ApplyLocal(l, Expire(id, l.pend.value, l.record, view, true, closes)))
  {
    var p := l.pend.value;
    var e := Expire(id, p, l.record, view, true, closes);
    var t := ApplyLocal(l, e);
    OneMoreCall(l, e);
    assert CallsIn([Delete(id)]) == 0;
    assert t.wakes == l.wakes;
    NoCalls(l.writes);
    NoneAwake(l.wakes);
    forall k | 0 <= k < |t.writes|
      ensures CallFits(e.pending, AfterOf(t.writes[k])) && GoodWrite(t.writes[k])
    {
      if k < |l.writes| {
        assert CallFits(p, AfterOf(l.writes[k])) && GoodWrite(l.writes[k]);
      }
    }
    forall k | 0 <= k < |t.wakes|
      ensures ReturnFits(t, t.wakes[k])
      ensures Unfinished(t.wakes[k]) ==> CallFits(e.pending, t.wakes[k].after)
    {
      assert ReturnFits(l, l.wakes[k]);
      assert Unfinished(l.wakes[k]) ==> CallFits(p, l.wakes[k].after);
    }
  }

  lemma ExpireInv(l: Local, id: nat, view: View, force: bool, closes: bool)
    requires LocalInv(l) && l.up && l.pend.Some? && Terminal(view)
    requires force && !closes ==> !l.pend.value.claimed
    requires closes ==> force && !view.Cancelled?
    ensures LocalInv(ApplyLocal(l, Expire(id, l.pend.value, l.record, view, force, closes)))
  {
    var p := l.pend.value;
    if (p.view.Completed? && !force) || Terminal(p.view) {
      QuietInv(l, p);
    } else if p.claimed && !force {
      MarkInv(l, id);
    } else {
      ClosedInv(l, id, view, closes);
    }
  }

  // ----- After a write -----

  function Woken(l: Local, k: nat): Local
    requires k < |l.wakes|
  {
    l.(wakes := l.wakes[..k] + l.wakes[k + 1..])
  }

  lemma AwakeWithout(wakes: seq<Wake>, k: nat)
    requires k < |wakes|
    ensures CallsAwake(wakes) == CallsAwake(wakes[..k] + wakes[k + 1..]) + if Unfinished(wakes[k]) then 1 else 0
  {
    var a, w, b := wakes[..k], wakes[k], wakes[k + 1..];
    assert CallsAwake(wakes) == CallsAwake(a) + CallsAwake([w] + b) by {
      assert wakes == a + ([w] + b);
      AwakeAppend(a, [w] + b);
    }
    assert ([w] + b)[1..] == b;
    AwakeAppend(a, b);
  }

  lemma WokenKeeps(l: Local, k: nat)
    requires LocalInv(l) && l.up && k < |l.wakes|
    ensures Calls(l) == Calls(Woken(l, k)) + if Unfinished(l.wakes[k]) then 1 else 0
    ensures forall n | 0 <= n < |Woken(l, k).wakes| :: Woken(l, k).wakes[n] in l.wakes
    ensures !ApprovalSettled(l.writes, l.wakes) && !ApprovalUndone(l.wakes[k]) ==>
        !ApprovalSettled(l.writes, Woken(l, k).wakes)
    ensures ClaimSettled(l.writes, l.wakes) ==> ClaimSettled(l.writes, Woken(l, k).wakes)
  {
    AwakeWithout(l.wakes, k);
    var rest := Woken(l, k).wakes;
    if !ApprovalSettled(l.writes, l.wakes) && !ApprovalUndone(l.wakes[k]) {
      if n :| 0 <= n < |l.wakes| && ApprovalUndone(l.wakes[n]) {
        assert rest[if n < k then n else n - 1] == l.wakes[n];
      }
    }
  }

  // A handler that waits for its turn stays what it was when another one leaves.
  lemma StillFits(l: Local, m: Local, w: Wake)
    requires LocalInv(l) && l.pend.Some? && m == l.(wakes := m.wakes) && w in l.wakes
    requires ClaimSettled(l.writes, l.wakes) ==> ClaimSettled(m.writes, m.wakes)
    ensures GoodWake(w) && ReturnFits(m, w) && (Alive(l) ==> WakeFits(m, w))
    ensures Unfinished(w) ==> CallFits(l.pend.value, w.after)
  {
    var j :| 0 <= j < |l.wakes| && l.wakes[j] == w;
    assert GoodWake(l.wakes[j]) && ReturnFits(l, l.wakes[j]);
    assert Alive(l) ==> WakeFits(l, l.wakes[j]);
  }

  // A handler leaves the queue of those to be resumed, unless it has something to undo.
  lemma WokenInv(l: Local, k: nat)
    requires LocalInv(l) && l.up && k < |l.wakes| && (Calling(l.wakes[k].after) ==> l.wakes[k].ok)
    requires l.pend.Some? && (l.pend.value.claimed && Alive(l) && Calling(l.wakes[k].after) ==> l.record.pledge.Some?)
    ensures LocalInv(Woken(l, k))
  {
    WokenKeeps(l, k);
    var m := Woken(l, k);
    forall n | 0 <= n < |m.writes| && Alive(l)
      ensures WriteFits(m, n)
    {
      assert WriteFits(l, n);
    }
    forall n | 0 <= n < |m.wakes|
      ensures GoodWake(m.wakes[n]) && ReturnFits(m, m.wakes[n]) && (Alive(l) ==> WakeFits(m, m.wakes[n]))
      ensures Unfinished(m.wakes[n]) ==> CallFits(l.pend.value, m.wakes[n].after)
    {
      StillFits(l, m, m.wakes[n]);
    }
  }

  // What is left after a failed call: no other call, and every other handler as it was.
  lemma FailedCallLeaves(l: Local, k: nat, t: Local)
    requires LocalInv(l) && l.up && l.pend.Some? && k < |l.wakes| && Calling(l.wakes[k].after) && !l.wakes[k].ok
    requires t.writes == l.writes && t.wakes == Woken(l, k).wakes && t.stored == l.stored && t.saved == l.saved
    requires t.pend.Some? && t.pend.value.tokenLive == l.pend.value.tokenLive && t.record == l.record
    requires Claiming(l.wakes[k].after) || (t.pend.value.claimed && !t.pend.value.view.Cancelled?)
    ensures Calls(t) == 0 && CallsFit(t) && GoodQueues(t)
    ensures ApprovalSettled(t.writes, t.wakes) && ClaimSettled(t.writes, t.wakes) && QueuesFit(t)
  {
    WokenKeeps(l, k);
    NoCalls(t.writes);
    NoneAwake(t.wakes);
    assert ClaimUndone(l.wakes[k]) <==> Claiming(l.wakes[k].after);
    forall n | 0 <= n < |t.writes| && Alive(l)
      ensures WriteFits(t, n)
    {
      assert WriteFits(l, n);
    }
    forall n | 0 <= n < |t.wakes|
      ensures GoodWake(t.wakes[n]) && ReturnFits(t, t.wakes[n]) && (Alive(l) ==> WakeFits(t, t.wakes[n]))
    {
      var j :| 0 <= j < |l.wakes| && l.wakes[j] == t.wakes[n];
      assert GoodWake(l.wakes[j]) && ReturnFits(l, l.wakes[j]);
      assert Alive(l) ==> WakeFits(l, l.wakes[j]);
    }
  }

  // A failed claim or approval is taken back.
  lemma FailedCallInv(l: Local, k: nat)
    requires LocalInv(l) && l.up && l.pend.Some? && k < |l.wakes| && Calling(l.wakes[k].after) && !l.wakes[k].ok
    ensures LocalInv(ApplyLocal(Woken(l, k), OnResume(l.wakes[k].id, l.pend.value, l.record, l.wakes[k].after, false)))
  {
    var p, after := l.pend.value, l.wakes[k].after;
    var t := ApplyLocal(Woken(l, k), OnResume(l.wakes[k].id, p, l.record, after, false));
    assert t.writes == l.writes && t.wakes == Woken(l, k).wakes;
    assert Unfinished(l.wakes[k]) && CallFits(p, after);
    assert Alive(l) ==> WakeFits(l, l.wakes[k]);
    FailedCallLeaves(l, k, t);
    NoCalls(t.writes);
    NoneAwake(t.wakes);
  }

  // The approval of an invitation that was closed while its claim was written: nothing is left to write.
  lemma LateApprovalInv(l: Local, id: nat)
    requires LocalInv(l) && l.up && l.pend.Some? && !Alive(l) && l.pend.value.claimed && !l.pend.value.view.Cancelled?
    requires Calls(l) == 0 && !(l.record.cancelled && !l.record.revived)
    ensures LocalInv(ApplyLocal(l, PersistPending(id, l.pend.value.(approved := true), l.record, FinishApprove)))
  {
    var q := l.pend.value.(approved := true);
    var e := PersistPending(id, q, l.record, FinishApprove);
    var t := ApplyLocal(l, e);
    assert t.writes == l.writes;
    OneMoreCall(l, e);
    assert e.wakes[1..] == [];
    NoCalls(l.writes);
    NoneAwake(l.wakes);
    forall k | 0 <= k < |t.wakes|
      ensures GoodWake(t.wakes[k]) && ReturnFits(t, t.wakes[k])
      ensures Unfinished(t.wakes[k]) ==> CallFits(q, t.wakes[k].after)
    {
      if k < |l.wakes| {
        assert GoodWake(l.wakes[k]) && ReturnFits(l, l.wakes[k]) && !Unfinished(l.wakes[k]);
      }
    }
  }

  // An acknowledged approval resolves the waiting submission.
  lemma ApprovedInv(m: Local)
    requires LocalInv(m) && m.up && m.pend.Some? && (Alive(m) ==> PledgedApproved(m))
    ensures var p := m.pend.value;
            LocalInv(ApplyLocal(m,
              Unchanged(p.(submission := false), if p.submission then Replied(p, m.record) else m.record)))
  {
    var p := m.pend.value;
    var r := if p.submission then Replied(p, m.record) else m.record;
    RecordInv(m, r);
    var n := ApplyLocal(m, Unchanged(p, r));
    QuietInv(n, p.(submission := false));
    assert n.writes == m.writes && n.wakes == m.wakes;
  }

  lemma OnCallReturnsInv(l: Local, k: nat)
    requires LocalInv(l) && l.up && l.pend.Some? && k < |l.wakes| && Calling(l.wakes[k].after) && l.wakes[k].ok
    ensures LocalInv(ApplyLocal(Woken(l, k), OnResume(l.wakes[k].id, l.pend.value, l.record, l.wakes[k].after, true)))
  {
    var p, w, m := l.pend.value, l.wakes[k], Woken(l, k);
    assert Alive(l) ==> WakeFits(l, w);
    assert ReturnFits(l, w) && (Unfinished(w) ==> CallFits(p, w.after));
    WokenKeeps(l, k);
    WokenInv(l, k);
    if w.after.FinishClaim? {
      ReturnedInv(m);
    } else if w.after.FinishApprove? {
      ApprovedInv(m);
    } else if Alive(l) {
      CallInv(m, w.id, p.(approved := true), FinishApprove);
    } else {
      LateApprovalInv(m, w.id);
    }
  }

  lemma RepliedInv(l: Local, k: nat)
    requires LocalInv(l) && l.up && l.pend.Some? && k < |l.wakes| && l.wakes[k].after.ReplyApproved?
    ensures LocalInv(ApplyLocal(Woken(l, k),
        OnResume(l.wakes[k].id, l.pend.value, l.record, l.wakes[k].after, l.wakes[k].ok)))
  {
    assert Alive(l) ==> WakeFits(l, l.wakes[k]);
    WokenInv(l, k);
    RecordInv(Woken(l, k), if l.wakes[k].ok then Replied(l.pend.value, l.record) else l.record);
  }

  lemma QuietResumeInv(l: Local, k: nat)
    requires LocalInv(l) && l.up && l.pend.Some? && k < |l.wakes|
    requires !Calling(l.wakes[k].after) && !l.wakes[k].after.ReplyApproved?
    ensures LocalInv(ApplyLocal(Woken(l, k),
        OnResume(l.wakes[k].id, l.pend.value, l.record, l.wakes[k].after, l.wakes[k].ok)))
  {
    var w := l.wakes[k];
    assert GoodWake(w);
    WokenInv(l, k);
    QuietInv(Woken(l, k), OnResume(w.id, l.pend.value, l.record, w.after, w.ok).pending);
  }

  lemma OnResumeInv(l: Local, k: nat)
    requires LocalInv(l) && l.up && l.pend.Some? && k < |l.wakes|
    ensures LocalInv(ApplyLocal(Woken(l, k),
        OnResume(l.wakes[k].id, l.pend.value, l.record, l.wakes[k].after, l.wakes[k].ok)))
  {
    if !Calling(l.wakes[k].after) {
      if l.wakes[k].after.ReplyApproved? {
        RepliedInv(l, k);
      } else {
        QuietResumeInv(l, k);
      }
    } else if l.wakes[k].ok {
      OnCallReturnsInv(l, k);
    } else {
      FailedCallInv(l, k);
    }
  }

  lemma StopInv(l: Local, id: nat)
    requires LocalInv(l) && l.up && l.pend.Some?
    ensures LocalInv(ApplyLocal(l, OnStop(id, l.pend.value, l.record)))
  {
    if l.pend.value.claimed {
      QuietInv(l, l.pend.value.(submission := false));
    } else {
      ExpireInv(l, id, Cancelled, true, false);
    }
  }

  lemma CancelInv(l: Local, id: nat)
    requires LocalInv(l) && l.up && l.pend.Some?
    ensures LocalInv(ApplyLocal(l, OnCancel(id, l.pend.value, l.record)))
  {
    var p := l.pend.value;
    if p.view.Completed? || p.claimed || p.approved {
      QuietInv(l, p);
    } else {
      ExpireInv(l, id, Cancelled, false, false);
    }
  }

  lemma InvitationExpiresInv(l: Local, id: nat)
    requires LocalInv(l) && l.up && l.pend.Some?
    ensures LocalInv(ApplyLocal(l, OnInvitationExpires(id, l.pend.value, l.record)))
  {
    var p := l.pend.value;
    if Terminal(p.view) {
      QuietInv(l, p);
    } else if p.claimed {
      MarkInv(l, id);
    } else {
      ExpireInv(l, id, Expired, false, false);
    }
  }

  lemma RecoveryExpiresInv(l: Local, id: nat)
    requires LocalInv(l) && l.up && l.pend.Some?
    ensures LocalInv(ApplyLocal(l, OnRecoveryExpires(id, l.pend.value, l.record)))
  {
    if l.pend.value.claimed {
      ExpireInv(l, id, Expired, true, true);
    } else {
      QuietInv(l, l.pend.value);
    }
  }

  // What expires, is cancelled or is stopped.
  lemma EndingInv(l: Local, id: nat, e: Event)
    requires LocalInv(l) && l.up && l.pend.Some?
    requires e.Cancel? || e.InvitationExpires? || e.RecoveryExpires? || e.Stop?
    ensures LocalInv(ApplyLocal(l, OnEvent(id, l.pend.value, l.record, ApprovalSettled(l.writes, l.wakes), e)))
  {
    match e
    case Cancel(_) => CancelInv(l, id);
    case InvitationExpires(_) => InvitationExpiresInv(l, id);
    case RecoveryExpires(_) => RecoveryExpiresInv(l, id);
    case Stop(_) => StopInv(l, id);
  }

  lemma ExchangeInv(l: Local, id: nat, e: Event)
    requires LocalInv(l) && l.up && l.pend.Some? && (e.Submit? || e.Disconnect? || e.Control? || e.Complete?)
    ensures LocalInv(ApplyLocal(l, OnEvent(id, l.pend.value, l.record, ApprovalSettled(l.writes, l.wakes), e)))
  {
    match e
    case Submit(_, b) => OnSubmitInv(l, id, b);
    case Disconnect(_) => OnDisconnectInv(l);
    case Control(_) => OnControlInv(l, id);
    case Complete(_, now) => OnCompleteInv(l, id, now);
  }

  // A claim does not return, and an approval does not start, while a claim may still be taken back.
  predicate Timely(l: Local, e: Event)
    requires l.pend.Some?
  {
    && (e.ClaimApproval? && ReturnsEarly(l.pend.value) ==> ClaimSettled(l.writes, l.wakes))
    && (e.Approve? && Approves(l.pend.value) ==> Calls(l) == 0)
  }

  lemma CalledInv(l: Local, id: nat, e: Event)
    requires LocalInv(l) && l.up && l.pend.Some? && (e.ClaimApproval? || e.Approve?)
    ensures LocalInv(ApplyLocal(l, OnEvent(id, l.pend.value, l.record, ApprovalSettled(l.writes, l.wakes), e)))
       <==> Timely(l, e)
  {
    if e.ClaimApproval? {
      OnClaimInv(l, id, e.now);
    } else {
      OnApproveInv(l, id, e.now);
    }
  }

  lemma FailInv(l: Local, id: nat, e: Event)
    requires LocalInv(l) && l.up && l.pend.Some? && e.Fail?
    ensures LocalInv(ApplyLocal(l, OnEvent(id, l.pend.value, l.record, ApprovalSettled(l.writes, l.wakes), e)))
  {
    ExpireInv(l, id, Failed, true, true);
  }

  // An event that names an invitation keeps its invariant exactly if it is timely.
  lemma EventInv(l: Local, id: nat, e: Event)
    requires LocalInv(l) && l.up && l.pend.Some? && NamesInvitation(e)
    ensures LocalInv(ApplyLocal(l, OnEvent(id, l.pend.value, l.record, ApprovalSettled(l.writes, l.wakes), e)))
       <==> Timely(l, e)
  {
    if e.ClaimApproval? || e.Approve? {
      CalledInv(l, id, e);
    } else if e.Fail? {
      FailInv(l, id, e);
    } else if e.Submit? || e.Disconnect? || e.Control? || e.Complete? {
      ExchangeInv(l, id, e);
    } else {
      EndingInv(l, id, e);
    }
  }

  // ----- A write ends -----

  // What the end of a write does to the invitation it is for.
  function Written(l: Local, outcome: Outcome): Local
    requires l.writes != []
  {
    var w := l.writes[0];
    var tried := if w.Persist? then Some(w.entry) else None;
    l.(writes := l.writes[1..],
       wakes := l.wakes + if w.Persist? then [Wake(w.id, w.after, outcome.Stored?)] else [],
       stored := if outcome.Stored? then tried else l.stored,
       saved := if (w.Persist? || l.stored.Some?) && !outcome.KeptOld? then tried else l.saved,
       record := Acknowledged(l.pend, l.record, w, outcome))
  }

  lemma WrittenCalls(l: Local, outcome: Outcome)
    requires l.writes != []
    ensures Calls(Written(l, outcome))
         == Calls(l) - if AfterOf(l.writes[0]).FinishClaim? && outcome.Stored? then 1 else 0
  {
    var w := l.writes[0];
    var more := if w.Persist? then [Wake(w.id, w.after, outcome.Stored?)] else [];
    AwakeAppend(l.wakes, more);
    if w.Persist? {
      assert more[1..] == [];
    }
  }

  lemma SettledAfterwards(l: Local, outcome: Outcome)
    requires l.writes != [] && !ApprovalSettled(l.writes, l.wakes)
    ensures var t := Written(l, outcome);
            !ApprovalSettled(t.writes, t.wakes) || (Approving(l.writes[0]) && outcome.Stored?)
  {
    var w, t := l.writes[0], Written(l, outcome);
    if k :| 0 <= k < |l.wakes| && ApprovalUndone(l.wakes[k]) {
      assert ApprovalUndone(t.wakes[k]);
    } else {
      var j :| 0 <= j < |l.writes| && Approving(l.writes[j]);
      if j > 0 {
        assert Approving(t.writes[j - 1]);
      } else if !outcome.Stored? {
        assert ApprovalUndone(t.wakes[|l.wakes|]);
      }
    }
  }

  // At most one call is under way, so a queue that starts with one holds no other.
  lemma OnlyCall(l: Local)
    requires l.writes != [] && Calls(l) <= 1 && Calling(AfterOf(l.writes[0]))
    ensures forall k | 0 < k < |l.writes| :: !Calling(AfterOf(l.writes[k]))
    ensures forall k | 0 <= k < |l.wakes| :: !Unfinished(l.wakes[k])
  {
    NoCalls(l.writes[1..]);
    NoneAwake(l.wakes);
    assert forall k | 0 < k < |l.writes| :: l.writes[k] == l.writes[1..][k - 1];
  }

  lemma AgreesRest(writes: seq<Write>, k: nat, b: Binding, approved: bool)
    requires 0 < k <= |writes| && AgreesFrom(writes, k, b, approved)
    ensures AgreesFrom(writes[1..], k - 1, b, approved)
  {
    forall j | k - 1 <= j < |writes[1..]|
      ensures Agrees(writes[1..][j], b, approved)
    {
      assert Agrees(writes[j + 1], b, approved);
    }
  }

  lemma WrittenQueues(l: Local, outcome: Outcome)
    requires LocalInv(l) && l.up && l.writes != []
    ensures GoodQueues(Written(l, outcome)) && CallsFit(Written(l, outcome))
  {
    var w, t := l.writes[0], Written(l, outcome);
    assert GoodWrite(w);
    forall k | 0 <= k < |t.writes|
      ensures GoodWrite(t.writes[k]) && (l.pend.Some? ==> CallFits(l.pend.value, AfterOf(t.writes[k])))
    {
      assert GoodWrite(l.writes[k + 1]) && (l.pend.Some? ==> CallFits(l.pend.value, AfterOf(l.writes[k + 1])));
    }
    assert l.pend.Some? ==> CallFits(l.pend.value, AfterOf(w));
    if Calling(AfterOf(w)) {
      OnlyCall(l);
    }
    forall k | 0 <= k < |t.wakes| && l.pend.Some?
      ensures GoodWake(t.wakes[k]) && ReturnFits(t, t.wakes[k])
    {
      if k < |l.wakes| {
        assert GoodWake(l.wakes[k]) && ReturnFits(l, l.wakes[k]);
      }
    }
  }

  lemma WrittenFits(l: Local, outcome: Outcome)
    requires LocalInv(l) && l.up && l.writes != []
    ensures QueuesFit(Written(l, outcome))
  {
    if Alive(l) {
      var w, t := l.writes[0], Written(l, outcome);
      assert WriteFits(l, 0);
      if Calling(w.after) {
        OnlyCall(l);
      }
      forall k | 0 <= k < |t.writes|
        ensures WriteFits(t, k)
      {
        assert WriteFits(l, k + 1) && t.writes[k] == l.writes[k + 1];
        if Calling(t.writes[k].after) {
          AgreesRest(l.writes, k + 1, l.pend.value.binding.value, t.writes[k].after.FinishApprove?);
        }
      }
      forall k | 0 <= k < |t.wakes|
        ensures WakeFits(t, t.wakes[k])
      {
        if k < |l.wakes| {
          assert WakeFits(l, l.wakes[k]);
        }
      }
    }
  }

  lemma WrittenPledge(l: Local, outcome: Outcome)
    requires LocalInv(l) && l.up && l.writes != []
    ensures PledgeKept(Written(l, outcome)) && PromisesPledged(Written(l, outcome).record)
  {
    var w, t := l.writes[0], Written(l, outcome);
    if Alive(l) {
      assert WriteFits(l, 0) && GoodWrite(w) && CallFits(l.pend.value, AfterOf(w));
      if t.record.pledge.Some? {
        var pledge := t.record.pledge.value;
        assert AgreesFrom(l.writes, 0, pledge.binding, pledge.approved);
        assert Agrees(l.writes[0], pledge.binding, pledge.approved);
        assert AgreesFrom(l.writes, 1, pledge.binding, pledge.approved);
        AgreesRest(l.writes, 1, pledge.binding, pledge.approved);
      }
    }
  }

  lemma WrittenNeverBoth(l: Local, outcome: Outcome)
    requires LocalInv(l) && l.up && l.writes != []
    ensures NeverBoth(Written(l, outcome))
  {
    var w, t := l.writes[0], Written(l, outcome);
    WrittenCalls(l, outcome);
    assert forall k | 0 <= k < |t.writes| :: t.writes[k] == l.writes[k + 1];
    assert l.record.returned && l.pend.Some? ==> !Claiming(AfterOf(w));
  }

  lemma WrittenInv(l: Local, outcome: Outcome)
    requires LocalInv(l) && l.up && l.writes != []
    ensures LocalInv(Written(l, outcome))
  {
    WrittenCalls(l, outcome);
    WrittenQueues(l, outcome);
    WrittenFits(l, outcome);
    WrittenPledge(l, outcome);
    WrittenNeverBoth(l, outcome);
    if Alive(l) && !ApprovalSettled(l.writes, l.wakes) {
      SettledAfterwards(l, outcome);
      assert WriteFits(l, 0);
    }
  }

  // Another invitation's write carries this one's entry along.
  lemma FlushedInv(l: Local)
    requires LocalInv(l) && l.up
    ensures LocalInv(l.(saved := l.stored))
  {
    var t := l.(saved := l.stored);
    forall k | 0 <= k < |t.writes| && Alive(l)
      ensures WriteFits(t, k)
    {
      assert WriteFits(l, k);
    }
  }

  // ----- Stop and restart -----

  function Downed(l: Local, saved: Option<Entry>): Local {
    Local(false, None, [], [], None, saved, l.record)
  }

  lemma CrashInv(l: Local, saved: Option<Entry>)
    requires LocalInv(l) && l.up
    requires saved == l.saved || saved == l.stored
        || (l.writes != [] && saved == if l.writes[0].Persist? then Some(l.writes[0].entry) else None)
    ensures LocalInv(Downed(l, saved))
  {
    if l.writes != [] {
      assert GoodWrite(l.writes[0]);
      if l.record.pledge.Some? {
        assert Agrees(l.writes[0], l.record.pledge.value.binding, l.record.pledge.value.approved);
      }
    }
  }

  function RestoredEntry(saved: Option<Entry>, now: int, lapsed: set<nat>): Option<Entry> {
    if saved.Some? && Restorable(saved.value, now) then Some(Refreshed(saved.value, lapsed)) else None
  }

  // A restart; `read` tells whether it reads the entry of this invitation.
  function Restarted(l: Local, now: int, lapsed: set<nat>, up: bool, read: bool): Local {
    var entry := if read then RestoredEntry(l.saved, now, lapsed) else None;
    Local(up, if up && entry.Some? then Some(Revived(entry.value)) else None, [], [], if up then entry else None, entry,
          RestartRecord(l.record, l.saved, entry, now, up))
  }

  // A restart keeps the invariant exactly if it reads the entry of every claim that is still to be kept.
  lemma RestartInv(l: Local, now: int, lapsed: set<nat>, up: bool, read: bool)
    requires LocalInv(l) && !l.up
    ensures LocalInv(Restarted(l, now, lapsed, up, read))
       <==> read || l.record.pledge.None? || Overdue(l.saved, now)
  {
  }

  // ----- From one invitation to the whole server -----

  // The entry a write stores is that of the invitation it is for.
  predicate Addressed(w: Write) {
    w.Persist? ==> w.entry.id == w.id
  }

  predicate Own(id: nat, e: Effect) {
    && (forall k | 0 <= k < |e.writes| :: e.writes[k].id == id && Addressed(e.writes[k]))
    && (forall k | 0 <= k < |e.wakes| :: e.wakes[k].id == id)
  }

  lemma {:induction false} WritesAppend(a: seq<Write>, b: seq<Write>, id: nat)
    ensures WritesOf(a + b, id) == WritesOf(a, id) + WritesOf(b, id)
  {
    if a == [] {
      assert a + b == b;
    } else {
      assert (a + b)[1..] == a[1..] + b;
      WritesAppend(a[1..], b, id);
    }
  }

  lemma {:induction false} WakesAppend(a: seq<Wake>, b: seq<Wake>, id: nat)
    ensures WakesOf(a + b, id) == WakesOf(a, id) + WakesOf(b, id)
  {
    if a == [] {
      assert a + b == b;
    } else {
      assert (a + b)[1..] == a[1..] + b;
      WakesAppend(a[1..], b, id);
    }
  }

  lemma {:induction false} OwnWrites(writes: seq<Write>, id: nat, x: nat)
    requires forall k | 0 <= k < |writes| :: writes[k].id == id
    ensures WritesOf(writes, x) == if x == id then writes else []
  {
    if writes != [] {
      OwnWrites(writes[1..], id, x);
      assert writes == [writes[0]] + writes[1..];
    }
  }

  lemma {:induction false} OwnWakes(wakes: seq<Wake>, id: nat, x: nat)
    requires forall k | 0 <= k < |wakes| :: wakes[k].id == id
    ensures WakesOf(wakes, x) == if x == id then wakes else []
  {
    if wakes != [] {
      OwnWakes(wakes[1..], id, x);
      assert wakes == [wakes[0]] + wakes[1..];
    }
  }

  lemma WritesQueued(writes: seq<Write>, more: seq<Write>, id: nat, x: nat)
    requires forall k | 0 <= k < |more| :: more[k].id == id
    ensures WritesOf(writes + more, x) == if x == id then WritesOf(writes, x) + more else WritesOf(writes, x)
  {
    WritesAppend(writes, more, x);
    OwnWrites(more, id, x);
    assert WritesOf(writes, x) + [] == WritesOf(writes, x);
  }

  lemma WakesQueued(wakes: seq<Wake>, more: seq<Wake>, id: nat, x: nat)
    requires forall k | 0 <= k < |more| :: more[k].id == id
    ensures WakesOf(wakes + more, x) == if x == id then WakesOf(wakes, x) + more else WakesOf(wakes, x)
  {
    WakesAppend(wakes, more, x);
    OwnWakes(more, id, x);
    assert WakesOf(wakes, x) + [] == WakesOf(wakes, x);
  }

  lemma ApplyAt(s: Server, id: nat, e: Effect, x: nat)
    requires Own(id, e)
    ensures At(Apply(s, id, e), x) == if x == id then ApplyLocal(At(s, id), e) else At(s, x)
  {
    WritesQueued(s.writes, e.writes, id, x);
    WakesQueued(s.wakes, e.wakes, id, x);
  }

  lemma {:induction false} WokenAt(wakes: seq<Wake>, n: nat, x: nat) returns (k: nat)
    requires n < |wakes|
    ensures wakes[n].id != x ==> WakesOf(wakes[..n] + wakes[n + 1..], x) == WakesOf(wakes, x)
    ensures wakes[n].id == x ==>
      && k < |WakesOf(wakes, x)| && WakesOf(wakes, x)[k] == wakes[n]
      && WakesOf(wakes[..n] + wakes[n + 1..], x) == WakesOf(wakes, x)[..k] + WakesOf(wakes, x)[k + 1..]
  {
    var a, b := wakes[..n], wakes[n + 1..];
    k := |WakesOf(a, x)|;
    assert wakes == a + ([wakes[n]] + b);
    WakesAppend(a, b, x);
    WakesAppend(a, [wakes[n]] + b, x);
    WakesAppend([wakes[n]], b, x);
    assert [wakes[n]][1..] == [];
    assert WakesOf([wakes[n]], x) == if wakes[n].id == x then [wakes[n]] else [];
  }

  // ----- The insertion-ordered map -----

  predicate Unique(entries: seq<Entry>) {
    forall i, j {:trigger entries[i].id, entries[j].id} | 0 <= i < j < |entries| :: entries[i].id != entries[j].id
  }

  lemma {:induction false} FindFirst(entries: seq<Entry>, id: nat) returns (k: nat)
    ensures Find(entries, id).None? ==> forall i | 0 <= i < |entries| :: entries[i].id != id
    ensures Find(entries, id).Some? ==> k < |entries| && entries[k] == Find(entries, id).value && entries[k].id == id
  {
    if entries == [] {
      k := 0;
    } else if entries[0].id == id {
      k := 0;
    } else {
      k := FindFirst(entries[1..], id);
      k := k + 1;
    }
  }

  lemma {:induction false} FindPut(entries: seq<Entry>, e: Entry, x: nat)
    ensures Find(Put(entries, e), x) == if x == e.id then Some(e) else Find(entries, x)
  {
    if entries != [] && entries[0].id != e.id {
      FindPut(entries[1..], e, x);
    }
  }

  lemma {:induction false} FindDrop(entries: seq<Entry>, id: nat, x: nat)
    requires Unique(entries)
    ensures Find(Drop(entries, id), x) == if x == id then None else Find(entries, x)
  {
    if entries != [] {
      if entries[0].id != id {
        FindDrop(entries[1..], id, x);
      } else {
        var _ := FindFirst(entries[1..], id);
      }
    }
  }

  lemma {:induction false} FindAppend(entries: seq<Entry>, e: Entry, x: nat)
    ensures Find(entries + [e], x)
         == if Find(entries, x).Some? then Find(entries, x) else if x == e.id then Some(e) else None
  {
    if entries == [] {
      assert entries + [e] == [e];
    } else {
      assert (entries + [e])[1..] == entries[1..] + [e];
      FindAppend(entries[1..], e, x);
    }
  }

  lemma {:induction false} PutUnique(entries: seq<Entry>, e: Entry)
    requires Unique(entries)
    ensures Unique(Put(entries, e))
    ensures forall k | 0 <= k < |Put(entries, e)| ::
              Put(entries, e)[k] == e || Put(entries, e)[k] in entries
  {
    if entries != [] && entries[0].id != e.id {
      PutUnique(entries[1..], e);
    }
  }

  lemma {:induction false} DropUnique(entries: seq<Entry>, id: nat)
    requires Unique(entries)
    ensures Unique(Drop(entries, id))
    ensures forall k | 0 <= k < |Drop(entries, id)| ::
              Drop(entries, id)[k] in entries && Drop(entries, id)[k].id != id
  {
    if entries != [] && entries[0].id != id {
      DropUnique(entries[1..], id);
    }
  }

  lemma RememberedUnique(entries: seq<Entry>, w: Write, outcome: Outcome)
    requires Unique(entries)
    ensures Unique(Attempted(entries, w)) && Unique(Remembered(entries, w, outcome))
  {
    if w.Persist? {
      PutUnique(entries, w.entry);
    } else {
      DropUnique(entries, w.id);
      var _ := FindFirst(entries, w.id);
    }
  }

  lemma FindAttempted(entries: seq<Entry>, w: Write, x: nat)
    requires Unique(entries) && Addressed(w)
    ensures Find(Attempted(entries, w), x)
         == if x == w.id then (if w.Persist? then Some(w.entry) else None) else Find(entries, x)
  {
    if w.Persist? {
      FindPut(entries, w.entry, x);
    } else {
      FindDrop(entries, w.id, x);
    }
  }

  lemma FindRemembered(entries: seq<Entry>, w: Write, outcome: Outcome, x: nat)
    requires Unique(entries) && Addressed(w)
    ensures Find(Remembered(entries, w, outcome), x)
         == if x != w.id || !outcome.Stored? then Find(entries, x) else if w.Persist? then Some(w.entry) else None
  {
    FindAttempted(entries, w, x);
    if w.Delete? && Find(entries, w.id).Some? {
      var k := FindFirst(entries, w.id);
      FindDrop(entries, w.id, x);
      FindAppend(Drop(entries, w.id), entries[k], x);
    }
  }

  // The entry of an invitation in the map and in the store, once the write has ended.
  lemma EntriesAfter(s: Server, outcome: Outcome, x: nat)
    requires s.writes != [] && Unique(s.persisted) && Addressed(s.writes[0])
    ensures var w, t := s.writes[0], OnWriteEnds(s, outcome);
            var tried := if w.Persist? then Some(w.entry) else None;
            if x == w.id then
              && Find(t.persisted, x) == (if outcome.Stored? then tried else Find(s.persisted, x))
              && Find(t.durable, x)
                 == (if (w.Persist? || Find(s.persisted, x).Some?) && !outcome.KeptOld? then tried
                     else Find(s.durable, x))
            else
              && Find(t.persisted, x) == Find(s.persisted, x)
              && (Find(t.durable, x) == Find(s.durable, x) || Find(t.durable, x) == Find(s.persisted, x))
  {
    FindRemembered(s.persisted, s.writes[0], outcome, x);
    FindAttempted(s.persisted, s.writes[0], x);
  }

  lemma WriteEndsHere(s: Server, outcome: Outcome)
    requires s.writes != [] && Unique(s.persisted) && Addressed(s.writes[0])
    ensures var x := s.writes[0].id;
            && At(s, x).writes != []
            && At(OnWriteEnds(s, outcome), x) == Written(At(s, x), outcome)
  {
    var w := s.writes[0];
    EntriesAfter(s, outcome, w.id);
    WakesQueued(s.wakes, if w.Persist? then [Wake(w.id, w.after, outcome.Stored?)] else [], w.id, w.id);
    FirstWrite(s.writes, w.id);
  }

  lemma WriteEndsElsewhere(s: Server, outcome: Outcome, x: nat)
    requires s.writes != [] && Unique(s.persisted) && Addressed(s.writes[0]) && x != s.writes[0].id
    ensures var t := OnWriteEnds(s, outcome); At(t, x) == At(s, x) || At(t, x) == At(s, x).(saved := At(s, x).stored)
  {
    var w := s.writes[0];
    EntriesAfter(s, outcome, x);
    WakesQueued(s.wakes, if w.Persist? then [Wake(w.id, w.after, outcome.Stored?)] else [], w.id, x);
    FirstWrite(s.writes, x);
  }

  lemma FirstWrite(writes: seq<Write>, x: nat)
    requires writes != []
    ensures if x == writes[0].id then
              && WritesOf(writes, x) != [] && WritesOf(writes, x)[0] == writes[0]
              && WritesOf(writes, x)[1..] == WritesOf(writes[1..], x)
            else WritesOf(writes, x) == WritesOf(writes[1..], x)
  {
  }

  // ----- The invariant of the server -----

  function Untouched(up: bool): Local {
    Local(up, None, [], [], None, None, BLANK)
  }

  // What holds of the whole server, whatever its callers do and whatever a restart finds.
  ghost predicate Sound(s: Server) {
    && Unique(s.persisted) && Unique(s.durable)
    && (!s.up ==> s.writes == [] && s.wakes == [])
    && (forall k | 0 <= k < |s.writes| :: Addressed(s.writes[k]))
    && (forall x: nat {:trigger At(s, x)} | x !in s.used :: At(s, x) == Untouched(s.up))
  }

  // The invariant of one invitation; what happens to the others does not matter.
  ghost predicate Inv(s: Server, id: nat) {
    Sound(s) && LocalInv(At(s, id))
  }

  // The store acknowledged a claim that is still to be kept, but its entry lies behind those a restart reads.
  predicate Loses(s: Server, now: int, id: nat) {
    && RecordOf(s, id).pledge.Some? && !Overdue(Find(s.durable, id), now)
    && Find(FirstEight(s.durable), id).None?
  }

  // What a step must not do to an invitation: claim or approve too early, or restart without its entry.
  predicate Admits(s: Server, e: Event, id: nat) {
    && (s.up && NamesInvitation(e) && e.id == id && id in s.invitations ==> Timely(At(s, id), e))
    && (!s.up && e.Restart? && (e.outcome.KeptOld? ==> s.durable == []) ==> !Loses(s, e.now, id))
  }

  lemma OwnEvent(id: nat, p: Pending, r: Record, settled: bool, e: Event)
    ensures Own(id, OnEvent(id, p, r, settled, e))
  {
  }

  lemma OwnResume(id: nat, p: Pending, r: Record, after: After, ok: bool)
    ensures Own(id, OnResume(id, p, r, after, ok))
  {
  }

  lemma UsedWhenPresent(s: Server, x: nat)
    requires Sound(s) && (x in s.invitations || WritesOf(s.writes, x) != [] || WakesOf(s.wakes, x) != [])
    ensures x in s.used
  {
    assert x !in s.used ==> At(s, x) == Untouched(s.up);
  }

  // What a named event does, seen from each invitation.
  lemma NamedSound(s: Server, e: Event)
    requires Sound(s) && NamesInvitation(e) && s.up && e.id in s.invitations
    ensures Sound(Step(s, e))
    ensures forall x: nat {:trigger At(Step(s, e), x)} ::
              var l := At(s, e.id);
              At(Step(s, e), x)
              == if x == e.id
                 then ApplyLocal(l, OnEvent(x, l.pend.value, l.record, ApprovalSettled(l.writes, l.wakes), e))
                 else At(s, x)
  {
    var l, t := At(s, e.id), Step(s, e);
    var eff := OnEvent(e.id, l.pend.value, l.record, ApprovalSettled(l.writes, l.wakes), e);
    OwnEvent(e.id, l.pend.value, l.record, ApprovalSettled(l.writes, l.wakes), e);
    UsedWhenPresent(s, e.id);
    assert t == Apply(s, e.id, eff);
    forall x: nat
      ensures At(t, x) == if x == e.id then ApplyLocal(l, eff) else At(s, x)
    {
      ApplyAt(s, e.id, eff, x);
    }
  }

  lemma NamedInv(s: Server, e: Event, id: nat)
    requires Inv(s, id) && NamesInvitation(e)
    ensures Inv(Step(s, e), id) <==> Admits(s, e, id)
  {
    if s.up && e.id in s.invitations {
      NamedSound(s, e);
      if e.id == id {
        EventInv(At(s, id), id, e);
      }
    }
  }

  lemma ResumeSound(s: Server, n: nat)
    requires Sound(s) && s.up && n < |s.wakes|
    ensures Sound(OnWake(s, n))
  {
    var w := s.wakes[n];
    var rest := s.(wakes := s.wakes[..n] + s.wakes[n + 1..]);
    var own := WokenAt(s.wakes, n, w.id);
    UsedWhenPresent(s, w.id);
    if w.id in s.invitations {
      OwnResume(w.id, s.invitations[w.id], RecordOf(s, w.id), w.after, w.ok);
    }
    forall x: nat | x !in s.used
      ensures At(OnWake(s, n), x) == Untouched(s.up)
    {
      var k := WokenAt(s.wakes, n, x);
      if w.id in s.invitations {
        ApplyAt(rest, w.id, OnResume(w.id, s.invitations[w.id], RecordOf(s, w.id), w.after, w.ok), x);
      }
      assert At(s, x) == Untouched(s.up);
    }
  }

  lemma ResumeInv(s: Server, n: nat, id: nat)
    requires Inv(s, id) && s.up && n < |s.wakes|
    ensures Inv(OnWake(s, n), id)
  {
    ResumeSound(s, n);
    var w := s.wakes[n];
    var rest := s.(wakes := s.wakes[..n] + s.wakes[n + 1..]);
    var k := WokenAt(s.wakes, n, id);
    if w.id in s.invitations {
      OwnResume(w.id, s.invitations[w.id], RecordOf(s, w.id), w.after, w.ok);
      ApplyAt(rest, w.id, OnResume(w.id, s.invitations[w.id], RecordOf(s, w.id), w.after, w.ok), id);
      if w.id == id {
        OnResumeInv(At(s, id), k);
      }
    } else if w.id == id {
      ForgottenInv(At(s, id), k);
    }
  }

  // A handler of an invitation that is no longer listed.
  lemma ForgottenInv(l: Local, k: nat)
    requires LocalInv(l) && l.up && l.pend.None? && k < |l.wakes|
    ensures LocalInv(Woken(l, k))
  {
    WokenKeeps(l, k);
    var m := Woken(l, k);
    forall n | 0 <= n < |m.wakes|
      ensures GoodWake(m.wakes[n])
    {
      var j :| 0 <= j < |l.wakes| && l.wakes[j] == m.wakes[n];
      assert GoodWake(l.wakes[j]);
    }
  }

  lemma WriteEndsSound(s: Server, outcome: Outcome)
    requires Sound(s) && s.up && s.writes != []
    ensures Sound(OnWriteEnds(s, outcome))
  {
    var w, t := s.writes[0], OnWriteEnds(s, outcome);
    FirstWrite(s.writes, w.id);
    UsedWhenPresent(s, w.id);
    RememberedUnique(s.persisted, w, outcome);
    forall x: nat | x !in s.used
      ensures At(t, x) == Untouched(s.up)
    {
      assert At(s, x) == Untouched(s.up);
      WriteEndsElsewhere(s, outcome, x);
    }
  }

  lemma WriteEndsInv(s: Server, outcome: Outcome, id: nat)
    requires Inv(s, id) && s.up && s.writes != []
    ensures Inv(OnWriteEnds(s, outcome), id)
  {
    WriteEndsSound(s, outcome);
    if id == s.writes[0].id {
      WriteEndsHere(s, outcome);
      WrittenInv(At(s, id), outcome);
    } else {
      WriteEndsElsewhere(s, outcome, id);
      FlushedInv(At(s, id));
    }
  }

  // A stop leaves of an invitation what the store holds: as before, as in the map, or as in the write under way.
  lemma CrashedAt(s: Server, applied: bool, x: nat)
    requires Sound(s) && s.up
    ensures var l, t := At(s, x), At(OnCrash(s, applied), x);
            && t == Downed(l, t.saved)
            && (t.saved == l.saved || t.saved == l.stored
                || (l.writes != [] && t.saved == if l.writes[0].Persist? then Some(l.writes[0].entry) else None))
  {
    if s.writes != [] {
      FirstWrite(s.writes, x);
      FindAttempted(s.persisted, s.writes[0], x);
    }
  }

  lemma CrashedSound(s: Server, applied: bool)
    requires Sound(s) && s.up
    ensures Sound(OnCrash(s, applied))
  {
    if s.writes != [] {
      RememberedUnique(s.persisted, s.writes[0], Stored);
      FirstWrite(s.writes, s.writes[0].id);
      UsedWhenPresent(s, s.writes[0].id);
    }
    forall x: nat | x !in s.used
      ensures At(OnCrash(s, applied), x) == Untouched(false)
    {
      assert At(s, x) == Untouched(true);
      CrashedAt(s, applied, x);
    }
  }

  lemma CrashedInv(s: Server, applied: bool, id: nat)
    requires Inv(s, id) && s.up
    ensures Inv(OnCrash(s, applied), id)
  {
    CrashedSound(s, applied);
    CrashedAt(s, applied, id);
    CrashInv(At(s, id), At(OnCrash(s, applied), id).saved);
  }

  lemma {:induction false} Absent(entries: seq<Entry>, id: nat)
    requires forall i | 0 <= i < |entries| :: entries[i].id != id
    ensures Find(entries, id).None?
  {
    if entries != [] {
      Absent(entries[1..], id);
    }
  }

  lemma {:induction false} FindRestored(entries: seq<Entry>, now: int, lapsed: set<nat>, x: nat)
    requires Unique(entries)
    ensures Find(Restored(entries, now, lapsed), x) == RestoredEntry(Find(entries, x), now, lapsed)
  {
    if entries != [] {
      FindRestored(entries[1..], now, lapsed, x);
      if entries[0].id == x {
        assert forall i | 0 < i < |entries| :: entries[i].id != entries[0].id;
        Absent(entries[1..], x);
      }
    }
  }

  lemma {:induction false} RestoredUnique(entries: seq<Entry>, now: int, lapsed: set<nat>)
    requires Unique(entries)
    ensures Unique(Restored(entries, now, lapsed))
  {
    if entries != [] {
      RestoredUnique(entries[1..], now, lapsed);
      FindRestored(entries[1..], now, lapsed, entries[0].id);
      assert forall i | 0 < i < |entries| :: entries[i].id != entries[0].id;
      Absent(entries[1..], entries[0].id);
      var _ := FindFirst(Restored(entries[1..], now, lapsed), entries[0].id);
    }
  }

  lemma FoundInIds(entries: seq<Entry>, x: nat)
    ensures x in Ids(entries) <==> Find(entries, x).Some?
  {
    var k := FindFirst(entries, x);
    if Find(entries, x).Some? {
      assert entries[k].id in Ids(entries);
    }
  }

  lemma {:induction false} FindPrefix(entries: seq<Entry>, n: nat, x: nat)
    requires n <= |entries| && Find(entries[..n], x).Some?
    ensures Find(entries, x) == Find(entries[..n], x)
  {
    if entries[0].id != x {
      assert entries[..n][1..] == entries[1..][..n - 1];
      FindPrefix(entries[1..], n - 1, x);
    }
  }

  lemma {:induction false} PrefixUnique(entries: seq<Entry>)
    requires Unique(entries)
    ensures Unique(FirstEight(entries))
  {
    forall i, j {:trigger FirstEight(entries)[i].id, FirstEight(entries)[j].id} | 0 <= i < j < |FirstEight(entries)|
      ensures FirstEight(entries)[i].id != FirstEight(entries)[j].id
    {
      assert entries[i].id != entries[j].id;
    }
  }

  // A restart, seen from one invitation.
  lemma RestartAt(s: Server, now: int, lapsed: set<nat>, outcome: Outcome, x: nat)
    requires Sound(s) && !s.up && (outcome.KeptOld? ==> s.durable == [])
    ensures var t := OnRestart(s, now, lapsed, outcome);
            At(t, x) == Restarted(At(s, x), now, lapsed, t.up, Find(FirstEight(s.durable), x).Some?)
  {
    var read := FirstEight(s.durable);
    PrefixUnique(s.durable);
    FindRestored(read, now, lapsed, x);
    FoundInIds(Restored(read, now, lapsed), x);
    FoundInIds(s.durable, x);
    if Find(read, x).Some? && |s.durable| > MAX_ACTIVE_INVITATIONS {
      FindPrefix(s.durable, MAX_ACTIVE_INVITATIONS, x);
    }
  }

  lemma RestartedSound(s: Server, now: int, lapsed: set<nat>, outcome: Outcome)
    requires Sound(s) && !s.up
    ensures Sound(OnRestart(s, now, lapsed, outcome))
  {
    if !outcome.KeptOld? || s.durable == [] {
      var t := OnRestart(s, now, lapsed, outcome);
      PrefixUnique(s.durable);
      RestoredUnique(FirstEight(s.durable), now, lapsed);
      forall x: nat | x !in s.used
        ensures At(t, x) == Untouched(t.up)
      {
        assert At(s, x) == Untouched(false);
        RestartAt(s, now, lapsed, outcome, x);
      }
    }
  }

  lemma RestartedInv(s: Server, now: int, lapsed: set<nat>, outcome: Outcome, id: nat)
    requires Inv(s, id) && !s.up
    ensures Inv(OnRestart(s, now, lapsed, outcome), id)
       <==> ((outcome.KeptOld? ==> s.durable == []) ==> !Loses(s, now, id))
  {
    RestartedSound(s, now, lapsed, outcome);
    if !outcome.KeptOld? || s.durable == [] {
      RestartAt(s, now, lapsed, outcome, id);
      var t := OnRestart(s, now, lapsed, outcome);
      RestartInv(At(s, id), now, lapsed, t.up, Find(FirstEight(s.durable), id).Some?);
    }
  }

  lemma PurgeInv(l: Local)
    requires LocalInv(l) && l.up && l.pend.Some? && Terminal(l.pend.value.view)
    ensures LocalInv(l.(pend := None))
  {
  }

  lemma CreatedAt(s: Server, id: nat, x: nat)
    requires Sound(s) && s.up
    ensures var l, t := At(s, x), OnCreate(s, id);
            || At(t, x) == l
            || (x in s.used && l.pend.Some? && Terminal(l.pend.value.view) && At(t, x) == l.(pend := None))
            || (x == id && x in t.used && l == Untouched(true) && At(t, x) == l.(pend := Some(FRESH)))
  {
    assert x !in s.used ==> At(s, x) == Untouched(true);
    if x in s.invitations {
      UsedWhenPresent(s, x);
    }
  }

  lemma CreatedSound(s: Server, id: nat)
    requires Sound(s) && s.up
    ensures Sound(OnCreate(s, id))
  {
    var t := OnCreate(s, id);
    forall x: nat | x !in t.used
      ensures At(t, x) == Untouched(true)
    {
      CreatedAt(s, id, x);
      assert At(s, x) == Untouched(true);
    }
  }

  lemma CreatedInv(s: Server, created: nat, id: nat)
    requires Inv(s, id) && s.up
    ensures Inv(OnCreate(s, created), id)
  {
    CreatedSound(s, created);
    CreatedAt(s, created, id);
    if At(OnCreate(s, created), id) == At(s, id).(pend := None) && id in s.invitations {
      PurgeInv(At(s, id));
    }
  }

  lemma RestartStep(s: Server, e: Event, id: nat)
    requires Inv(s, id) && e.Restart?
    ensures Inv(Step(s, e), id) <==> Admits(s, e, id)
  {
    if !s.up {
      RestartedInv(s, e.now, e.lapsed, e.outcome, id);
    }
  }

  lemma CrashStep(s: Server, e: Event, id: nat)
    requires Inv(s, id) && e.Crash?
    ensures Inv(Step(s, e), id)
  {
    if s.up {
      CrashedInv(s, e.applied, id);
    }
  }

  lemma CreateStep(s: Server, e: Event, id: nat)
    requires Inv(s, id) && e.Create?
    ensures Inv(Step(s, e), id)
  {
    if s.up {
      CreatedInv(s, e.id, id);
    }
  }

  lemma WriteEndsStep(s: Server, e: Event, id: nat)
    requires Inv(s, id) && e.WriteEnds?
    ensures Inv(Step(s, e), id)
  {
    if s.up && s.writes != [] {
      WriteEndsInv(s, e.outcome, id);
    }
  }

  lemma ResumeStep(s: Server, e: Event, id: nat)
    requires Inv(s, id) && e.Resume?
    ensures Inv(Step(s, e), id)
  {
    if s.up && e.n < |s.wakes| {
      ResumeInv(s, e.n, id);
    }
  }

  // Every step keeps the invariant of an invitation exactly if it is admissible for it.
  lemma StepInv(s: Server, e: Event, id: nat)
    requires Inv(s, id)
    ensures Inv(Step(s, e), id) <==> Admits(s, e, id)
  {
    if NamesInvitation(e) {
      NamedInv(s, e, id);
    } else if e.Restart? {
      RestartStep(s, e, id);
    } else if e.Crash? {
      CrashStep(s, e, id);
    } else if e.Create? {
      CreateStep(s, e, id);
    } else if e.WriteEnds? {
      WriteEndsStep(s, e, id);
    } else {
      ResumeStep(s, e, id);
    }
  }

  // ----- Runs -----

  // The state after a list of events, and whether each was admissible when it happened.
  function Fold<S, E>(step: (S, E) -> S, s: S, events: seq<E>): S
    decreases |events|
  {
    if events == [] then s else Fold(step, step(s, events[0]), events[1..])
  }

  predicate Throughout<S, E>(step: (S, E) -> S, admits: (S, E) -> bool, s: S, events: seq<E>)
    decreases |events|
  {
    events != [] ==> admits(s, events[0]) && Throughout(step, admits, step(s, events[0]), events[1..])
  }

  function Run(s: Server, events: seq<Event>): Server {
    Fold(Step, s, events)
  }

  function AdmittedFor(id: nat): (Server, Event) -> bool {
    (s: Server, e: Event) => Admits(s, e, id)
  }

  // Every step of the run is admissible for the invitation.
  predicate Disciplined(s: Server, events: seq<Event>, id: nat) {
    Throughout(Step, AdmittedFor(id), s, events)
  }

  lemma {:induction false} RunInv(s: Server, events: seq<Event>, id: nat)
    requires Inv(s, id) && Disciplined(s, events, id)
    ensures Inv(Run(s, events), id)
    decreases |events|
  {
    if events != [] {
      StepInv(s, events[0], id);
      RunInv(Step(s, events[0]), events[1..], id);
    }
  }

  ghost function KeptFor(id: nat): (Server, Event) -> bool {
    (s: Server, e: Event) => Inv(Step(s, e), id)
  }

  // No weaker discipline keeps the invariant all along a run.
  lemma {:induction false} DisciplineIsExact(s: Server, events: seq<Event>, id: nat)
    requires Inv(s, id)
    ensures Throughout(Step, KeptFor(id), s, events) <==> Disciplined(s, events, id)
    decreases |events|
  {
    if events != [] {
      StepInv(s, events[0], id);
      if Admits(s, events[0], id) {
        DisciplineIsExact(Step(s, events[0]), events[1..], id);
      }
    }
  }

  lemma InitialInv(id: nat)
    ensures Inv(INITIAL, id)
  {
  }

  /**
    Durability: once `approved: true` has been sent, the store holds an approved entry with the same
    request at every later moment, whatever writes fail and whenever the process stops, until the
    recovery window closes by force or `fail` is called.
   */
  lemma ApprovalIsDurable(events: seq<Event>, id: nat)
    requires Disciplined(INITIAL, events, id)
    ensures var s := Run(INITIAL, events);
            RecordOf(s, id).reply.Some? ==>
              && Find(s.durable, id).Some? && Find(s.durable, id).value.approved
              && Find(s.durable, id).value.binding == RecordOf(s, id).reply.value
  {
    RunInv(INITIAL, events, id);
  }

  /**
    Commitment: after claimApproval has returned, the invitation stays bound to the same request and
    device label, in memory and in the store, and is never cancelled.
   */
  lemma ClaimIsKept(events: seq<Event>, id: nat)
    requires Disciplined(INITIAL, events, id)
    ensures var s := Run(INITIAL, events);
            RecordOf(s, id).claim.Some? ==>
              && (s.up ==>
                    && id in s.invitations && s.invitations[id].claimed
                    && s.invitations[id].binding == RecordOf(s, id).claim && Live(s.invitations[id].view))
              && Find(s.durable, id).Some? && Find(s.durable, id).value.claimed
              && Some(Find(s.durable, id).value.binding) == RecordOf(s, id).claim
    ensures var s := Run(INITIAL, events);
            RecordOf(s, id).returned && id in s.invitations ==>
              s.invitations[id].claimed && !s.invitations[id].view.Cancelled?
  {
    RunInv(INITIAL, events, id);
  }

  // Both a returned claim and a cancellation happen to one invitation only if a restart revived it in between.
  lemma ClaimedAndCancelledOnlyIfRevived(events: seq<Event>, id: nat)
    requires Disciplined(INITIAL, events, id)
    ensures var r := RecordOf(Run(INITIAL, events), id); r.returned && r.cancelled ==> r.revived
  {
    RunInv(INITIAL, events, id);
  }

  // ----- When a cancelled invitation is claimed -----

  // The event cancels the invitation.
  predicate Cancels(s: Server, e: Event, id: nat) {
    && s.up && id in s.invitations && !s.invitations[id].claimed && !Terminal(s.invitations[id].view)
    && (e == Stop(id) || (e == Cancel(id) && !s.invitations[id].view.Completed? && !s.invitations[id].approved))
  }

  // A call to claimApproval returns: at once, or when its write has been stored.
  predicate ClaimReturns(s: Server, e: Event, id: nat) {
    && s.up && id in s.invitations
    && ((e.ClaimApproval? && e.id == id && ReturnsEarly(s.invitations[id]))
        || (e.Resume? && e.n < |s.wakes| && s.wakes[e.n] == Wake(id, FinishClaim, true)))
  }

  // A restart reads the entry of the invitation while its window is open, and comes up.
  predicate Revives(s: Server, e: Event, id: nat) {
    && !s.up && e.Restart? && e.outcome.Stored?
    && Find(FirstEight(s.durable), id).Some? && Restorable(Find(FirstEight(s.durable), id).value, e.now)
  }

  predicate Notes(s: Server, e: Event, id: nat) {
    var r, t := RecordOf(s, id), RecordOf(Step(s, e), id);
    && (t.cancelled <==> r.cancelled || Cancels(s, e, id))
    && (t.returned <==> r.returned || ClaimReturns(s, e, id))
    && (t.revived <==> r.revived || (r.cancelled && Revives(s, e, id)))
  }

  lemma RestartedRecord(s: Server, now: int, lapsed: set<nat>, outcome: Outcome, id: nat)
    requires Sound(s) && !s.up && (outcome.KeptOld? ==> s.durable == [])
    ensures var t, read := OnRestart(s, now, lapsed, outcome), Find(FirstEight(s.durable), id);
            && t.up == (outcome.Stored? || s.durable == [])
            && RecordOf(t, id)
               == RestartRecord(RecordOf(s, id), Find(s.durable, id), RestoredEntry(read, now, lapsed), now, t.up)
  {
    RestartAt(s, now, lapsed, outcome, id);
    if Find(FirstEight(s.durable), id).Some? && |s.durable| > MAX_ACTIVE_INVITATIONS {
      FindPrefix(s.durable, MAX_ACTIVE_INVITATIONS, id);
    }
  }

  lemma RecordRestarts(r: Record, saved: Option<Entry>, restored: Option<Entry>, now: int, up: bool)
    ensures var t := RestartRecord(r, saved, restored, now, up);
            && t.cancelled == r.cancelled && t.returned == r.returned
            && t.revived == (r.revived || (r.cancelled && up && restored.Some?))
  {
  }

  lemma RestartNotes(s: Server, e: Event, id: nat)
    requires Sound(s) && e.Restart?
    ensures Notes(s, e, id)
  {
    if !s.up && (e.outcome.KeptOld? ==> s.durable == []) {
      var read := Find(FirstEight(s.durable), id);
      RestartedRecord(s, e.now, e.lapsed, e.outcome, id);
      RecordRestarts(
        RecordOf(s, id), Find(s.durable, id), RestoredEntry(read, e.now, e.lapsed), e.now,
        e.outcome.Stored? || s.durable == []);
    }
  }

  lemma NamedNotes(s: Server, e: Event, id: nat)
    requires NamesInvitation(e)
    ensures Notes(s, e, id)
  {
    if s.up && e.id == id && id in s.invitations {
      var settled := ApprovalSettled(WritesOf(s.writes, id), WakesOf(s.wakes, id));
      assert RecordOf(Step(s, e), id) == OnEvent(id, s.invitations[id], RecordOf(s, id), settled, e).record;
      EventNotes(s, e, settled);
    } else {
      assert RecordOf(Step(s, e), id) == RecordOf(s, id);
    }
  }

  lemma EventNotes(s: Server, e: Event, settled: bool)
    requires NamesInvitation(e) && s.up && e.id in s.invitations
    ensures var r := RecordOf(s, e.id);
            var t := OnEvent(e.id, s.invitations[e.id], r, settled, e).record;
            && (t.cancelled <==> r.cancelled || Cancels(s, e, e.id))
            && (t.returned <==> r.returned || ClaimReturns(s, e, e.id))
            && t.revived == r.revived
  {
  }

  lemma ResumeNotes(s: Server, e: Event, id: nat)
    requires e.Resume?
    ensures Notes(s, e, id)
  {
  }

  // The history kept beside the server is what happened to it.
  lemma StepNotes(s: Server, e: Event, id: nat)
    requires Sound(s)
    ensures Notes(s, e, id)
  {
    if NamesInvitation(e) {
      NamedNotes(s, e, id);
    } else if e.Restart? {
      RestartNotes(s, e, id);
    } else if e.Resume? {
      ResumeNotes(s, e, id);
    }
  }

  lemma SoundStep(s: Server, e: Event)
    requires Sound(s)
    ensures Sound(Step(s, e))
  {
    if NamesInvitation(e) {
      if s.up && e.id in s.invitations {
        NamedSound(s, e);
      }
    } else if !s.up {
      if e.Restart? {
        RestartedSound(s, e.now, e.lapsed, e.outcome);
      }
    } else {
      match e
      case Crash(applied) => CrashedSound(s, applied);
      case Create(id) => CreatedSound(s, id);
      case WriteEnds(outcome) =>
        if s.writes != [] {
          WriteEndsSound(s, outcome);
        }
      case Resume(n) =>
        if n < |s.wakes| {
          ResumeSound(s, n);
        }
      case _ =>
    }
  }

  lemma {:induction false} SoundRun(s: Server, events: seq<Event>)
    requires Sound(s)
    ensures Sound(Run(s, events))
    decreases |events|
  {
    if events != [] {
      SoundStep(s, events[0]);
      SoundRun(Step(s, events[0]), events[1..]);
    }
  }

  // The state before event k of a run.
  function Before(events: seq<Event>, k: nat): Server
    requires k <= |events|
  {
    Run(INITIAL, events[..k])
  }

  predicate CancelsAt(events: seq<Event>, k: nat, id: nat)
    requires k < |events|
  {
    Cancels(Before(events, k), events[k], id)
  }

  predicate RevivesAt(events: seq<Event>, k: nat, id: nat)
    requires k < |events|
  {
    Revives(Before(events, k), events[k], id)
  }

  predicate ReturnsAt(events: seq<Event>, k: nat, id: nat)
    requires k < |events|
  {
    ClaimReturns(Before(events, k), events[k], id)
  }

  // The last event of a run, and what it adds to the history.
  lemma LastNotes(events: seq<Event>, k: nat, id: nat)
    requires k < |events|
    ensures Before(events, k + 1) == Step(Before(events, k), events[k]) && Notes(Before(events, k), events[k], id)
  {
    assert events[..k + 1] == events[..k] + [events[k]];
    assert [events[k]] == [events[k]] + [];
    RunAppend(INITIAL, events[..k], [events[k]], id);
    RunFirst(Before(events, k), events[k], []);
    SoundRun(INITIAL, events[..k]);
    StepNotes(Before(events, k), events[k], id);
  }

  // What the history kept beside the server gains by event k.
  lemma HistoryNext(events: seq<Event>, k: nat, id: nat)
    requires k < |events|
    ensures var r, t := RecordOf(Before(events, k), id), RecordOf(Before(events, k + 1), id);
            && (t.cancelled <==> r.cancelled || CancelsAt(events, k, id))
            && (t.returned <==> r.returned || ReturnsAt(events, k, id))
            && (t.revived <==> r.revived || (r.cancelled && RevivesAt(events, k, id)))
  {
    LastNotes(events, k, id);
  }

  lemma NothingYet(events: seq<Event>, id: nat)
    ensures RecordOf(Before(events, 0), id) == BLANK
  {
    assert events[..0] == [];
  }

  predicate HasCancelled(events: seq<Event>, id: nat, k: nat) {
    k <= |events| && RecordOf(Before(events, k), id).cancelled
  }

  predicate HasReturned(events: seq<Event>, id: nat, k: nat) {
    k <= |events| && RecordOf(Before(events, k), id).returned
  }

  predicate HasRevived(events: seq<Event>, id: nat, k: nat) {
    k <= |events| && RecordOf(Before(events, k), id).revived
  }

  predicate CancelsIn(events: seq<Event>, id: nat, k: nat) {
    k < |events| && CancelsAt(events, k, id)
  }

  predicate ReturnsIn(events: seq<Event>, id: nat, k: nat) {
    k < |events| && ReturnsAt(events, k, id)
  }

  // The history kept beside the server is what happened in the run.
  lemma CancelledHistory(events: seq<Event>, n: nat, id: nat)
    requires n <= |events|
    ensures HasCancelled(events, id, n) <==> exists h: nat | h < n :: CancelsIn(events, id, h)
  {
    NothingYet(events, id);
    assert !HasCancelled(events, id, 0);
    forall k: nat | k < n
      ensures HasCancelled(events, id, k + 1) <==> HasCancelled(events, id, k) || CancelsIn(events, id, k)
    {
      HistoryNext(events, k, id);
    }
    var happens := (k: nat) => CancelsIn(events, id, k);
    OnceEver((k: nat) => HasCancelled(events, id, k), happens, n);
    assert forall k: nat :: happens(k) <==> CancelsIn(events, id, k);
  }

  lemma ReturnedHistory(events: seq<Event>, n: nat, id: nat)
    requires n <= |events|
    ensures HasReturned(events, id, n) <==> exists j: nat | j < n :: ReturnsIn(events, id, j)
  {
    NothingYet(events, id);
    assert !HasReturned(events, id, 0);
    forall k: nat | k < n
      ensures HasReturned(events, id, k + 1) <==> HasReturned(events, id, k) || ReturnsIn(events, id, k)
    {
      HistoryNext(events, k, id);
    }
    var happens := (k: nat) => ReturnsIn(events, id, k);
    OnceEver((k: nat) => HasReturned(events, id, k), happens, n);
    assert forall k: nat :: happens(k) <==> ReturnsIn(events, id, k);
  }

  lemma RevivedHistory(events: seq<Event>, n: nat, id: nat) returns (h: nat, i: nat)
    requires n <= |events| && HasRevived(events, id, n)
    ensures h < i < n && CancelsAt(events, h, id) && RevivesAt(events, i, id)
  {
    NothingYet(events, id);
    assert !HasRevived(events, id, 0);
    i := Onset((k: nat) => HasRevived(events, id, k), n);
    RevivedAt(events, i, id);
    CancelledHistory(events, i, id);
    h :| h < i && CancelsIn(events, id, h);
  }

  lemma RevivedAt(events: seq<Event>, i: nat, id: nat)
    requires i < |events| && !HasRevived(events, id, i) && HasRevived(events, id, i + 1)
    ensures HasCancelled(events, id, i) && RevivesAt(events, i, id)
  {
    HistoryNext(events, i, id);
  }

  lemma DisciplinedBefore(events: seq<Event>, n: nat, id: nat)
    requires n <= |events| && Disciplined(INITIAL, events, id)
    ensures Disciplined(INITIAL, events[..n], id) && Inv(Before(events, n), id)
  {
    assert events == events[..n] + events[n..];
    RunAppend(INITIAL, events[..n], events[n..], id);
    InitialInv(id);
    RunInv(INITIAL, events[..n], id);
  }

  predicate HasBoth(events: seq<Event>, id: nat, k: nat) {
    HasCancelled(events, id, k) && HasReturned(events, id, k)
  }

  // The first moment at which an invitation has seen both is the return of a claim after its revival.
  lemma BothHistory(events: seq<Event>, id: nat) returns (h: nat, i: nat, j: nat)
    requires Disciplined(INITIAL, events, id) && HasBoth(events, id, |events|)
    ensures h < i < j < |events| && CancelsAt(events, h, id) && RevivesAt(events, i, id) && ReturnsAt(events, j, id)
  {
    NothingYet(events, id);
    assert !HasBoth(events, id, 0);
    j := Onset((k: nat) => HasBoth(events, id, k), |events|);
    BothAt(events, j, id);
    h, i := RevivedHistory(events, j, id);
  }

  lemma BothAt(events: seq<Event>, j: nat, id: nat)
    requires j < |events| && Disciplined(INITIAL, events, id)
    requires !HasBoth(events, id, j) && HasBoth(events, id, j + 1)
    ensures ReturnsAt(events, j, id) && HasRevived(events, id, j)
  {
    HistoryNext(events, j, id);
    DisciplinedBefore(events, j, id);
    DisciplinedBefore(events, j + 1, id);
    if HasReturned(events, id, j) {
      NotCancelledOnceReturned(events, j, id);
    }
    assert ReturnsAt(events, j, id);
    ClaimedAndCancelledOnlyIfRevived(events[..j + 1], id);
    ReturnIsNoRevival(events, j, id);
  }

  lemma NotCancelledOnceReturned(events: seq<Event>, j: nat, id: nat)
    requires j < |events| && Inv(Before(events, j), id) && RecordOf(Before(events, j), id).returned
    ensures !CancelsAt(events, j, id)
  {
    assert NeverBoth(At(Before(events, j), id));
  }

  lemma ReturnIsNoRevival(events: seq<Event>, j: nat, id: nat)
    requires j < |events| && ReturnsAt(events, j, id)
    ensures !RevivesAt(events, j, id)
  {
  }

  predicate RevivedAndClaimed(events: seq<Event>, id: nat) {
    exists h, i, j | 0 <= h < i < j < |events| ::
      CancelsAt(events, h, id) && RevivesAt(events, i, id) && ReturnsAt(events, j, id)
  }

  /**
    One invitation sees both a cancellation and a returned claim exactly if it is cancelled, then a
    restart finds its entry restorable among the first eight, and then a claim returns.
   */
  lemma CancelledAndClaimed(events: seq<Event>, id: nat)
    requires Disciplined(INITIAL, events, id)
    ensures var r := RecordOf(Run(INITIAL, events), id); r.returned && r.cancelled <==> RevivedAndClaimed(events, id)
  {
    assert events[..|events|] == events;
    if HasBoth(events, id, |events|) {
      var h, i, j := BothHistory(events, id);
      assert CancelsAt(events, h, id) && RevivesAt(events, i, id) && ReturnsAt(events, j, id);
    }
    if RevivedAndClaimed(events, id) {
      var h: nat, i: nat, j: nat :|
        h < i < j < |events| && CancelsAt(events, h, id) && RevivesAt(events, i, id) && ReturnsAt(events, j, id);
      assert CancelsIn(events, id, h) && ReturnsIn(events, id, j);
      CancelledHistory(events, |events|, id);
      ReturnedHistory(events, |events|, id);
    }
  }

  lemma BackAfterRestart(s: Server, now: int, lapsed: set<nat>, k: nat)
    requires Sound(s) && !s.up && k < |s.durable|
    ensures var t, id := OnRestart(s, now, lapsed, Stored), s.durable[k].id;
            && t.up && Sound(t) && RecordOf(t, id).returned == RecordOf(s, id).returned
            && (id in t.invitations <==> k < MAX_ACTIVE_INVITATIONS && Restorable(s.durable[k], now))
            && (id in t.invitations ==> ReturnsEarly(t.invitations[id]))
  {
    RestoresFirstEight(s, now, lapsed, k);
    RestartAt(s, now, lapsed, Stored, s.durable[k].id);
    RestartedSound(s, now, lapsed, Stored);
  }

  /**
    At the restart itself: a claim of a cancelled invitation returns afterwards exactly if its stored
    entry is among the first eight and its window is still open.
   */
  lemma CancelledClaimReturns(s: Server, now: int, lapsed: set<nat>, later: int, k: nat)
    requires !s.up && k < |s.durable| && Inv(s, s.durable[k].id)
    requires var r := RecordOf(s, s.durable[k].id); r.cancelled && !r.revived
    ensures var id := s.durable[k].id;
            && (RecordOf(Step(Step(s, Restart(now, lapsed, Stored)), ClaimApproval(id, later)), id).returned
                <==> k < MAX_ACTIVE_INVITATIONS && Restorable(s.durable[k], now))
  {
    BackAfterRestart(s, now, lapsed, k);
    var t := Step(s, Restart(now, lapsed, Stored));
    assert t == OnRestart(s, now, lapsed, Stored);
    NamedNotes(t, ClaimApproval(s.durable[k].id, later), s.durable[k].id);
  }

  // ----- When an early return binds -----

  /**
    claimApproval returns at once while the write of the claim is still to be done: its promise is kept
    exactly if that write is stored.
   */
  lemma EarlyReturn(l: Local, id: nat, now: int, outcome: Outcome)
    requires LocalInv(l) && l.up && Alive(l) && l.writes != [] && Claiming(AfterOf(l.writes[0]))
    ensures var m := ApplyLocal(l, OnClaim(id, l.pend.value, l.record, now));
            && m.record.claim == l.pend.value.binding && m.record.claim.Some? && m.writes == l.writes
            && (LocalInv(Written(m, outcome)) <==> outcome.Stored?)
  {
    var m := ApplyLocal(l, OnClaim(id, l.pend.value, l.record, now));
    assert m.writes == l.writes && m.wakes == l.wakes;
    assert CallFits(l.pend.value, AfterOf(l.writes[0])) && WriteFits(l, 0);
    var w := Written(l, outcome);
    WrittenInv(l, outcome);
    OnlyCall(l);
    if outcome.Stored? {
      SettledIsPledged(w);
      ReturnedInv(w);
      var n := ApplyLocal(w, Unchanged(l.pend.value, Returned(l.pend.value, w.record)));
      assert n.writes == w.writes && n.wakes == w.wakes;
      assert Written(m, outcome) == n;
    } else {
      assert Written(m, outcome).record.claim.Some? && Written(m, outcome).record.pledge.None?;
    }
  }

  // The head of the queue is the claim of a live invitation.
  predicate ClaimIsNext(s: Server, id: nat) {
    && s.up && id in s.invitations && s.invitations[id].tokenLive
    && s.writes != [] && s.writes[0].id == id && Claiming(AfterOf(s.writes[0]))
  }

  // A second caller returns, the write ends, and the first caller goes on.
  function SecondCaller(id: nat, now: int, outcome: Outcome, n: nat): seq<Event> {
    [ClaimApproval(id, now), WriteEnds(outcome)] + [Resume(n)]
  }

  lemma EarlyClaim(s: Server, id: nat, now: int)
    requires Inv(s, id) && ClaimIsNext(s, id)
    ensures var t := Step(s, ClaimApproval(id, now));
            && Sound(t) && ClaimIsNext(t, id) && t.invitations == s.invitations && t.writes == s.writes
            && t.wakes == s.wakes
            && At(t, id) == ApplyLocal(At(s, id), OnClaim(id, s.invitations[id], RecordOf(s, id), now))
            && RecordOf(t, id).claim == s.invitations[id].binding && RecordOf(t, id).claim.Some?
  {
    FirstWrite(s.writes, id);
    NamedSound(s, ClaimApproval(id, now));
    EarlyReturn(At(s, id), id, now, Stored);
    assert CallFits(s.invitations[id], AfterOf(At(s, id).writes[0]));
    assert s.writes + [] == s.writes && s.wakes + [] == s.wakes;
    assert s.invitations[id := s.invitations[id]] == s.invitations;
  }

  // The same, apart from the claim, the approval and the deadline.
  predicate OnlyCallsDiffer(p: Pending, q: Pending) {
    && q.view == p.view && q.binding == p.binding && q.submission == p.submission
    && q.authorizationExpired == p.authorizationExpired && q.tokenLive == p.tokenLive
  }

  lemma ClaimWriteEnds(s: Server, id: nat, outcome: Outcome)
    requires Sound(s) && ClaimIsNext(s, id)
    ensures var t := Step(s, WriteEnds(outcome));
            && Sound(t) && At(t, id) == Written(At(s, id), outcome)
            && t.up && t.invitations == s.invitations && |t.wakes| == |s.wakes| + 1
            && t.wakes[|s.wakes|] == Wake(id, AfterOf(s.writes[0]), outcome.Stored?)
            && (!outcome.Stored? ==> RecordOf(t, id) == RecordOf(s, id))
  {
    WriteEndsSound(s, outcome);
    WriteEndsHere(s, outcome);
  }

  lemma FirstCallerGoesOn(t: Server, id: nat, after: After, ok: bool)
    requires t.up && id in t.invitations && t.wakes != [] && t.wakes[|t.wakes| - 1] == Wake(id, after, ok)
    requires Claiming(after) && t.invitations[id].claimed && !t.invitations[id].approved
    ensures var u := Step(t, Resume(|t.wakes| - 1));
            && u.up && id in u.invitations && OnlyCallsDiffer(t.invitations[id], u.invitations[id])
            && (u.invitations[id].claimed <==> ok)
            && (!ok ==> RecordOf(u, id) == RecordOf(t, id) && !u.invitations[id].approved)
  {
  }

  lemma RunThree(s: Server, e: Event, f: Event, g: Event)
    ensures Run(s, [e, f] + [g]) == Step(Step(Step(s, e), f), g)
  {
    assert [g] == [g] + [];
    RunTwo(s, e, f);
    RunAppend(s, [e, f], [g], 0);
    RunFirst(Run(s, [e, f]), g, []);
  }

  /**
    What a claimApproval that returns during another one's write is worth: the promise is kept exactly
    if the write is stored.
   */
  lemma EarlyReturnBinds(s: Server, id: nat, now: int, outcome: Outcome)
    requires Inv(s, id) && ClaimIsNext(s, id)
    ensures var t := Run(s, [ClaimApproval(id, now), WriteEnds(outcome)]);
            && RecordOf(t, id).claim == s.invitations[id].binding && RecordOf(t, id).claim.Some?
            && (Inv(t, id) <==> outcome.Stored?)
  {
    EarlyClaim(s, id, now);
    FirstWrite(s.writes, id);
    ClaimWriteEnds(Step(s, ClaimApproval(id, now)), id, outcome);
    EarlyReturn(At(s, id), id, now, outcome);
    RunTwo(s, ClaimApproval(id, now), WriteEnds(outcome));
  }

  // If it is not stored, the claim is taken back under the promise.
  lemma EarlyReturnTakenBack(s: Server, id: nat, now: int, outcome: Outcome)
    requires Inv(s, id) && ClaimIsNext(s, id)
    ensures var u := Run(s, SecondCaller(id, now, outcome, |s.wakes|));
            && u.up && id in u.invitations && OnlyCallsDiffer(s.invitations[id], u.invitations[id])
            && (u.invitations[id].claimed <==> outcome.Stored?)
            && (!outcome.Stored? ==> RecordOf(u, id).claim == s.invitations[id].binding && !u.invitations[id].approved)
  {
    EarlyClaim(s, id, now);
    var t := Step(s, ClaimApproval(id, now));
    FirstWrite(s.writes, id);
    assert CallFits(s.invitations[id], AfterOf(At(s, id).writes[0]));
    ClaimWriteEnds(t, id, outcome);
    FirstCallerGoesOn(Step(t, WriteEnds(outcome)), id, AfterOf(s.writes[0]), outcome.Stored?);
    RunThree(s, ClaimApproval(id, now), WriteEnds(outcome), Resume(|s.wakes|));
  }

  // The joiner leaves and another one comes.
  lemma AnotherTakesOver(u: Server, id: nat, c: Binding)
    requires u.up && id in u.invitations
    requires var p := u.invitations[id];
             !p.claimed && !p.approved && p.submission && p.tokenLive && !p.authorizationExpired && !p.view.Completed?
    ensures var t := Run(u, [Disconnect(id), Submit(id, c)]);
            id in t.invitations && t.invitations[id].binding == Some(c) && !t.invitations[id].claimed
            && RecordOf(t, id) == RecordOf(u, id)
  {
    var m := Step(u, Disconnect(id));
    assert m.invitations[id] == u.invitations[id].(submission := false, binding := None, view := Waiting);
    RunTwo(u, Disconnect(id), Submit(id, c));
  }

  // From every state with a claim under way: the early return, and another request in its place.
  lemma EarlyReturnUnbinds(s: Server, id: nat, now: int, outcome: Outcome, c: Binding)
    requires Inv(s, id) && ClaimIsNext(s, id) && !outcome.Stored?
    requires s.invitations[id].submission && !s.invitations[id].authorizationExpired
    ensures var t := Run(s, SecondCaller(id, now, outcome, |s.wakes|) + [Disconnect(id), Submit(id, c)]);
            && RecordOf(t, id).claim == s.invitations[id].binding
            && id in t.invitations && t.invitations[id].binding == Some(c) && !t.invitations[id].claimed
  {
    EarlyReturnTakenBack(s, id, now, outcome);
    FirstWrite(s.writes, id);
    assert WriteFits(At(s, id), 0);
    AnotherTakesOver(Run(s, SecondCaller(id, now, outcome, |s.wakes|)), id, c);
    RunAppend(s, SecondCaller(id, now, outcome, |s.wakes|), [Disconnect(id), Submit(id, c)], id);
  }

  // ----- When an early approval binds -----

  // An approval can start although the claim at the head of the queue is still to be written.
  predicate ApprovesEarly(s: Server, id: nat) {
    ClaimIsNext(s, id) && s.writes[0].after.FinishClaim? && s.invitations[id].claimed && Approves(s.invitations[id])
  }

  // Where it leads once the claim has been written and its caller has gone on.
  function AfterEarlyApproval(s: Server, id: nat, ok: bool, persisted: seq<Entry>, durable: seq<Entry>): Server
    requires ApprovesEarly(s, id)
  {
    var q, r := s.invitations[id].(approved := true), RecordOf(s, id);
    var acknowledged := Acknowledged(Some(q), r, s.writes[0], if ok then Stored else KeptOld);
    s.(invitations := s.invitations[id := if ok then q else q.(claimed := false, recoveryExpiresAt := None)],
       writes := s.writes[1..] + [Persist(id, Snapshot(id, q), FinishApprove)],
       persisted := persisted, durable := durable,
       records := s.records[id := if ok then Returned(q, acknowledged) else r])
  }

  lemma ApproveStarts(s: Server, id: nat, now: int)
    requires ApprovesEarly(s, id)
    ensures var q := s.invitations[id].(approved := true);
            && Step(s, Approve(id, now))
               == s.(invitations := s.invitations[id := q], records := s.records[id := RecordOf(s, id)],
                     writes := s.writes + [Persist(id, Snapshot(id, q), FinishApprove)])
  {
    assert s.wakes + [] == s.wakes;
  }

  lemma LastResumes(wakes: seq<Wake>, k: Wake)
    ensures (wakes + [k])[|wakes|] == k && (wakes + [k])[..|wakes|] + (wakes + [k])[|wakes| + 1..] == wakes
  {
  }

  // The claim's write has ended, the approval's is next.
  function EarlyWritten(s: Server, id: nat, outcome: Outcome): Server
    requires ApprovesEarly(s, id)
  {
    var q, u := s.invitations[id].(approved := true), Step(s, WriteEnds(outcome));
    s.(invitations := s.invitations[id := q], persisted := u.persisted, durable := u.durable,
       writes := s.writes[1..] + [Persist(id, Snapshot(id, q), FinishApprove)],
       wakes := s.wakes + [Wake(id, FinishClaim, outcome.Stored?)],
       records := s.records[id := Acknowledged(Some(q), RecordOf(s, id), s.writes[0], outcome)])
  }

  lemma ApproveWritten(s: Server, id: nat, now: int, outcome: Outcome)
    requires ApprovesEarly(s, id)
    ensures Step(Step(s, Approve(id, now)), WriteEnds(outcome)) == EarlyWritten(s, id, outcome)
  {
    var w := Persist(id, Snapshot(id, s.invitations[id].(approved := true)), FinishApprove);
    ApproveStarts(s, id, now);
    assert (s.writes + [w])[1..] == s.writes[1..] + [w];
  }

  lemma ApproveResumes(s: Server, id: nat, outcome: Outcome)
    requires ApprovesEarly(s, id)
    ensures var u := Step(s, WriteEnds(outcome));
            Step(EarlyWritten(s, id, outcome), Resume(|s.wakes|))
            == AfterEarlyApproval(s, id, outcome.Stored?, u.persisted, u.durable)
  {
    var t := EarlyWritten(s, id, outcome);
    LastResumes(s.wakes, Wake(id, FinishClaim, outcome.Stored?));
    assert t.writes + [] == t.writes && s.wakes + [] == s.wakes;
  }

  lemma ApproveFirst(s: Server, id: nat, now: int, outcome: Outcome)
    requires ApprovesEarly(s, id)
    ensures var u := Step(s, WriteEnds(outcome));
            Step(Step(Step(s, Approve(id, now)), WriteEnds(outcome)), Resume(|s.wakes|))
            == AfterEarlyApproval(s, id, outcome.Stored?, u.persisted, u.durable)
  {
    ApproveWritten(s, id, now, outcome);
    ApproveResumes(s, id, outcome);
  }

  lemma ClaimGoesOn(s: Server, id: nat)
    requires ApprovesEarly(s, id)
    ensures var u := Step(s, WriteEnds(Stored));
            Step(u, Resume(|s.wakes|))
            == u.(wakes := s.wakes, invitations := s.invitations[id := s.invitations[id]],
                  records := u.records[id := Returned(s.invitations[id], RecordOf(u, id))])
  {
    var u := Step(s, WriteEnds(Stored));
    LastResumes(s.wakes, Wake(id, FinishClaim, true));
    assert u.writes + [] == u.writes && s.wakes + [] == s.wakes;
  }

  lemma ApproveLast(s: Server, id: nat, now: int)
    requires ApprovesEarly(s, id)
    ensures var u := Step(s, WriteEnds(Stored));
            && Step(u, Resume(|s.wakes|)).writes == s.writes[1..] && Step(u, Resume(|s.wakes|)).wakes == s.wakes
            && Step(Step(u, Resume(|s.wakes|)), Approve(id, now))
               == AfterEarlyApproval(s, id, true, u.persisted, u.durable)
  {
    ClaimGoesOn(s, id);
    assert s.wakes + [] == s.wakes;
  }

  lemma NoCallLeft(s: Server, id: nat)
    requires Inv(s, id) && ClaimIsNext(s, id)
    ensures CallsIn(WritesOf(s.writes[1..], id)) == 0 && CallsAwake(WakesOf(s.wakes, id)) == 0
  {
    FirstWrite(s.writes, id);
    OnlyCall(At(s, id));
    NoCalls(WritesOf(s.writes, id)[1..]);
    NoneAwake(WakesOf(s.wakes, id));
  }

  lemma ApproveLastInv(s: Server, id: nat, now: int)
    requires Inv(s, id) && ApprovesEarly(s, id)
    ensures var t := Step(Step(Step(s, WriteEnds(Stored)), Resume(|s.wakes|)), Approve(id, now)); Inv(t, id)
  {
    var u := Step(s, WriteEnds(Stored));
    var v := Step(u, Resume(|s.wakes|));
    StepInv(s, WriteEnds(Stored), id);
    StepInv(u, Resume(|s.wakes|), id);
    ApproveLast(s, id, now);
    NoCallLeft(s, id);
    StepInv(v, Approve(id, now), id);
  }

  /**
    What an approval that starts during the write of the claim is worth: if that write is stored, it is as if
    the approval had waited for it; otherwise the approval is left without a claim.
   */
  lemma EarlyApprovalBinds(s: Server, id: nat, now: int, outcome: Outcome)
    requires Inv(s, id) && ApprovesEarly(s, id)
    ensures var t := Run(s, [Approve(id, now), WriteEnds(outcome)] + [Resume(|s.wakes|)]);
            && (Inv(t, id) <==> outcome.Stored?)
            && (outcome.Stored? ==> t == Run(s, [WriteEnds(Stored), Resume(|s.wakes|)] + [Approve(id, now)]))
            && (!outcome.Stored? ==> id in t.invitations && t.invitations[id].approved && !t.invitations[id].claimed)
  {
    RunThree(s, Approve(id, now), WriteEnds(outcome), Resume(|s.wakes|));
    ApproveFirst(s, id, now, outcome);
    if outcome.Stored? {
      RunThree(s, WriteEnds(Stored), Resume(|s.wakes|), Approve(id, now));
      ApproveLast(s, id, now);
      ApproveLastInv(s, id, now);
    }
  }

  // ----- How long a promise stays open -----

  // What ends the promises about an invitation.
  predicate Ends(s: Server, e: Event, id: nat) {
    || e == Fail(id)
    || e == RecoveryExpires(id)
    || (e.Restart? && Overdue(Find(s.durable, id), e.now))
  }

  predicate SamePromises(r: Record, t: Record) {
    && (r.claim.Some? ==> t.claim == r.claim)
    && (r.reply.Some? ==> t.reply == r.reply)
    && (r.returned ==> t.returned)
  }

  lemma EventPromises(l: Local, id: nat, settled: bool, e: Event)
    requires LocalInv(l) && l.up && l.pend.Some? && !e.Fail? && !e.RecoveryExpires?
    ensures SamePromises(l.record, OnEvent(id, l.pend.value, l.record, settled, e).record)
  {
  }

  lemma ResumePromises(l: Local, id: nat, after: After, ok: bool)
    requires LocalInv(l) && l.up && l.pend.Some?
    ensures SamePromises(l.record, OnResume(id, l.pend.value, l.record, after, ok).record)
  {
  }

  lemma RestartPromises(s: Server, now: int, lapsed: set<nat>, outcome: Outcome, id: nat)
    requires !Overdue(Find(s.durable, id), now)
    ensures SamePromises(RecordOf(s, id), RecordOf(OnRestart(s, now, lapsed, outcome), id))
  {
    FoundInIds(s.durable, id);
  }

  lemma WakePromises(s: Server, n: nat, id: nat)
    requires Inv(s, id) && s.up && n < |s.wakes|
    ensures SamePromises(RecordOf(s, id), RecordOf(OnWake(s, n), id))
  {
    var w := s.wakes[n];
    if w.id == id && id in s.invitations {
      ResumePromises(At(s, id), id, w.after, w.ok);
    }
  }

  lemma NamedPromises(s: Server, e: Event, id: nat)
    requires Inv(s, id) && NamesInvitation(e) && e != Fail(id) && e != RecoveryExpires(id)
    ensures SamePromises(RecordOf(s, id), RecordOf(Step(s, e), id))
  {
    if s.up && e.id in s.invitations && e.id == id {
      EventPromises(At(s, id), id, ApprovalSettled(WritesOf(s.writes, id), WakesOf(s.wakes, id)), e);
    }
  }

  lemma RestartStepPromises(s: Server, e: Event, id: nat)
    requires e.Restart? && !Overdue(Find(s.durable, id), e.now)
    ensures SamePromises(RecordOf(s, id), RecordOf(Step(s, e), id))
  {
    RestartPromises(s, e.now, e.lapsed, e.outcome, id);
  }

  lemma ResumeStepPromises(s: Server, e: Event, id: nat)
    requires Inv(s, id) && e.Resume?
    ensures SamePromises(RecordOf(s, id), RecordOf(Step(s, e), id))
  {
    if s.up && e.n < |s.wakes| {
      WakePromises(s, e.n, id);
    }
  }

  lemma OtherStepPromises(s: Server, e: Event, id: nat)
    requires e.Create? || e.Crash? || e.WriteEnds?
    ensures SamePromises(RecordOf(s, id), RecordOf(Step(s, e), id))
  {
  }

  // A returned claim and a sent approval stand, with the same request, until one of these ends them.
  lemma PromisesStand(s: Server, e: Event, id: nat)
    requires Inv(s, id) && !Ends(s, e, id)
    ensures SamePromises(RecordOf(s, id), RecordOf(Step(s, e), id))
  {
    if NamesInvitation(e) {
      NamedPromises(s, e, id);
    } else if e.Restart? {
      RestartStepPromises(s, e, id);
    } else if e.Resume? {
      ResumeStepPromises(s, e, id);
    } else {
      OtherStepPromises(s, e, id);
    }
  }

  // ----- Where the promises would break -----

  /**
    A restart restores exactly those of the first eight entries whose recovery window is still open.
    An approved entry behind eight others is lost, which is why `Loses` is excluded.
   */
  lemma RestoresFirstEight(s: Server, now: int, lapsed: set<nat>, k: nat)
    requires Sound(s) && !s.up && k < |s.durable|
    ensures var t, id := OnRestart(s, now, lapsed, Stored), s.durable[k].id;
            (id in t.invitations <==> k < MAX_ACTIVE_INVITATIONS && Restorable(s.durable[k], now))
            && (Find(t.durable, id).Some? <==> k < MAX_ACTIVE_INVITATIONS && Restorable(s.durable[k], now))
  {
    var read, id := FirstEight(s.durable), s.durable[k].id;
    PrefixUnique(s.durable);
    FindRestored(read, now, lapsed, id);
    FoundInIds(Restored(read, now, lapsed), id);
    if k < MAX_ACTIVE_INVITATIONS {
      FindAt(read, k);
    } else {
      assert forall i | 0 <= i < |read| :: read[i].id != s.durable[k].id;
      Absent(read, id);
    }
  }

  /**
    An acknowledged claim whose window is open is still stored after a restart, with the same request,
    exactly if its entry was among the first eight or the restart could not write at all. What was
    promised about it stands either way.
   */
  lemma RestartKeepsEntry(s: Server, now: int, lapsed: set<nat>, outcome: Outcome, id: nat)
    requires Inv(s, id) && !s.up && RecordOf(s, id).pledge.Some? && !Overdue(Find(s.durable, id), now)
    ensures var t, kept := OnRestart(s, now, lapsed, outcome), Find(s.durable, id);
            && SamePromises(RecordOf(s, id), RecordOf(t, id)) && kept.Some?
            && (Find(t.durable, id).Some? <==> outcome.KeptOld? || Find(FirstEight(s.durable), id).Some?)
            && (Find(t.durable, id).Some? ==> Find(t.durable, id).value.binding == kept.value.binding)
  {
    var read := FirstEight(s.durable);
    RestartPromises(s, now, lapsed, outcome, id);
    PrefixUnique(s.durable);
    FindRestored(read, now, lapsed, id);
    if Find(read, id).Some? && |s.durable| > MAX_ACTIVE_INVITATIONS {
      FindPrefix(s.durable, MAX_ACTIVE_INVITATIONS, id);
    }
  }

  lemma {:induction false} FindAt(entries: seq<Entry>, k: nat)
    requires Unique(entries) && k < |entries|
    ensures Find(entries, entries[k].id) == Some(entries[k])
  {
    if k > 0 {
      assert entries[0].id != entries[k].id;
      FindAt(entries[1..], k - 1);
    }
  }

  lemma RunFirst(s: Server, e: Event, rest: seq<Event>)
    ensures Run(s, [e] + rest) == Run(Step(s, e), rest)
    ensures forall id :: Disciplined(s, [e] + rest, id) <==> Admits(s, e, id) && Disciplined(Step(s, e), rest, id)
  {
    assert ([e] + rest)[1..] == rest;
  }

  lemma {:induction false} FoldAppend<S, E>(step: (S, E) -> S, admits: (S, E) -> bool, s: S, a: seq<E>, b: seq<E>)
    ensures Fold(step, s, a + b) == Fold(step, Fold(step, s, a), b)
    ensures Throughout(step, admits, s, a + b)
        <==> Throughout(step, admits, s, a) && Throughout(step, admits, Fold(step, s, a), b)
    decreases |a|
  {
    if a == [] {
      assert a + b == b;
    } else {
      assert (a + b)[1..] == a[1..] + b;
      FoldAppend(step, admits, step(s, a[0]), a[1..], b);
    }
  }

  lemma RunAppend(s: Server, a: seq<Event>, b: seq<Event>, id: nat)
    ensures Run(s, a + b) == Run(Run(s, a), b)
    ensures Disciplined(s, a + b, id) <==> Disciplined(s, a, id) && Disciplined(Run(s, a), b, id)
  {
    FoldAppend(Step, AdmittedFor(id), s, a, b);
  }

  lemma RunTwo(s: Server, e: Event, f: Event)
    ensures Run(s, [e, f]) == Step(Step(s, e), f)
    ensures forall id :: Disciplined(s, [e, f], id) <==> Admits(s, e, id) && Admits(Step(s, e), f, id)
  {
    assert [e, f] == [e] + [f] && [f] == [f] + [];
    RunFirst(s, e, [f]);
    RunFirst(Step(s, e), f, []);
  }

  // A joiner is waiting and a claim's write is under way.
  function ClaimStarts(b: Binding): seq<Event> {
    [Create(0), Submit(0, b)] + [Resume(0), ClaimApproval(0, 0)]
  }

  function Waits(b: Binding): Pending {
    FRESH.(binding := Some(b), view := Connecting, submission := true)
  }

  function Claims(b: Binding): Pending {
    Waits(b).(claimed := true, recoveryExpiresAt := Some(COMMIT_RECOVERY_WINDOW_MS))
  }

  function ClaimUnderWay(b: Binding): Server {
    Server(true, map[0 := Claims(b)], [], [], [Persist(0, Snapshot(0, Claims(b)), FinishClaim)], [], {0},
      map[0 := BLANK])
  }

  lemma JoinerSubmits(b: Binding)
    ensures Disciplined(INITIAL, [Create(0), Submit(0, b)], 0)
    ensures Run(INITIAL, [Create(0), Submit(0, b)])
         == Server(true, map[0 := Waits(b).(submission := false)], [], [], [], [Wake(0, ThenWait, true)], {0},
           map[0 := BLANK])
  {
    var s0 := Server(true, map[0 := FRESH], [], [], [], [], {0}, map[]);
    assert Step(INITIAL, Create(0)) == s0;
    RunTwo(INITIAL, Create(0), Submit(0, b));
  }

  lemma ClaimBegins(b: Binding)
    ensures var s := Server(true, map[0 := Waits(b).(submission := false)], [], [], [], [Wake(0, ThenWait, true)],
        {0}, map[0 := BLANK]);
            && Run(s, [Resume(0), ClaimApproval(0, 0)]) == ClaimUnderWay(b)
            && Disciplined(s, [Resume(0), ClaimApproval(0, 0)], 0)
  {
    var s := Server(true, map[0 := Waits(b).(submission := false)], [], [], [], [Wake(0, ThenWait, true)], {0},
      map[0 := BLANK]);
    var t := Server(true, map[0 := Waits(b)], [], [], [], [], {0}, map[0 := BLANK]);
    assert Step(s, Resume(0)) == t;
    assert Step(t, ClaimApproval(0, 0)) == ClaimUnderWay(b);
    RunTwo(s, Resume(0), ClaimApproval(0, 0));
  }

  lemma ClaimStarted(b: Binding)
    ensures Run(INITIAL, ClaimStarts(b)) == ClaimUnderWay(b) && Disciplined(INITIAL, ClaimStarts(b), 0)
  {
    JoinerSubmits(b);
    ClaimBegins(b);
    RunAppend(INITIAL, [Create(0), Submit(0, b)], [Resume(0), ClaimApproval(0, 0)], 0);
  }

  // A second caller claims while the first one's write is under way; the write fails and the joiner leaves.
  function SecondClaim(): seq<Event> {
    [ClaimApproval(0, 0), WriteEnds(KeptOld)] + [Resume(0), Disconnect(0)]
  }

  lemma SecondClaimReturns(b: Binding)
    ensures var s := Run(ClaimUnderWay(b), SecondClaim());
            s == Server(true, map[0 := FRESH], [], [], [], [], {0},
              map[0 := BLANK.(returned := true, claim := Some(b))])
  {
    var s3, r := ClaimUnderWay(b), BLANK.(returned := true, claim := Some(b));
    var s4 := s3.(records := map[0 := r]);
    var s5 := s4.(writes := [], wakes := [Wake(0, FinishClaim, false)]);
    var s6 := Server(true, map[0 := Waits(b)], [], [], [], [], {0}, map[0 := r]);
    assert Step(s3, ClaimApproval(0, 0)) == s4;
    assert Step(s4, WriteEnds(KeptOld)) == s5;
    assert Step(s5, Resume(0)) == s6;
    assert Step(s6, Disconnect(0)) == s6.(invitations := map[0 := FRESH]);
    RunTwo(s3, ClaimApproval(0, 0), WriteEnds(KeptOld));
    RunTwo(s5, Resume(0), Disconnect(0));
    RunAppend(s3, [ClaimApproval(0, 0), WriteEnds(KeptOld)], [Resume(0), Disconnect(0)], 0);
  }

  lemma SecondClaimRuns(b: Binding, c: Binding)
    ensures Run(INITIAL, ClaimStarts(b) + (SecondClaim() + [Submit(0, c)]))
         == Step(Run(ClaimUnderWay(b), SecondClaim()), Submit(0, c))
  {
    ClaimStarted(b);
    RunAppend(INITIAL, ClaimStarts(b), SecondClaim() + [Submit(0, c)], 0);
    RunAppend(ClaimUnderWay(b), SecondClaim(), [Submit(0, c)], 0);
    assert [Submit(0, c)] == [Submit(0, c)] + [];
    RunFirst(Run(ClaimUnderWay(b), SecondClaim()), Submit(0, c), []);
  }

  /**
    Without `Timely` a returned claim does not bind: it returns early, the first caller's write
    fails, and the invitation takes another request.
   */
  lemma OverlappingClaimsUnbind(b: Binding, c: Binding)
    ensures var s := Run(INITIAL, ClaimStarts(b) + (SecondClaim() + [Submit(0, c)]));
            && RecordOf(s, 0).claim == Some(b) && 0 in s.invitations && s.invitations[0].binding == Some(c)
            && !s.invitations[0].claimed
  {
    SecondClaimRuns(b, c);
    SecondClaimReturns(b);
  }

  // An approval starts while the claim's write is under way; the claim fails, and the approval is stored and answered.
  function EarlyApproval(): seq<Event> {
    [Approve(0, 0), WriteEnds(KeptOld)] + [Resume(0), WriteEnds(Stored)]
  }

  // Approved, but no longer claimed.
  function Unclaimed(b: Binding): Pending {
    Waits(b).(approved := true)
  }

  function ApprovedOnly(b: Binding): Server {
    var entry := Snapshot(0, Claims(b).(approved := true));
    Server(true, map[0 := Unclaimed(b)], [entry], [entry], [], [Wake(0, FinishApprove, true)], {0},
      map[0 := BLANK.(pledge := Some(Pledge(b, true)))])
  }

  // The claim has failed, but nobody has noticed yet.
  function ClaimFailed(b: Binding): Server {
    var p := Claims(b).(approved := true);
    Server(true, map[0 := p], [], [], [Persist(0, Snapshot(0, p), FinishApprove)], [Wake(0, FinishClaim, false)], {0},
      map[0 := BLANK])
  }

  lemma ApprovalOvertakes(b: Binding)
    ensures Run(ClaimUnderWay(b), [Approve(0, 0), WriteEnds(KeptOld)]) == ClaimFailed(b)
  {
    var s, entry := ClaimUnderWay(b), Snapshot(0, Claims(b).(approved := true));
    var t := s.(invitations := map[0 := Claims(b).(approved := true)],
      writes := s.writes + [Persist(0, entry, FinishApprove)]);
    assert Step(s, Approve(0, 0)) == t;
    assert t.writes[1..] == [Persist(0, entry, FinishApprove)];
    RunTwo(s, Approve(0, 0), WriteEnds(KeptOld));
  }

  lemma ClaimFailsFirst(b: Binding)
    ensures Run(ClaimFailed(b), [Resume(0), WriteEnds(Stored)]) == ApprovedOnly(b)
  {
    var s, entry := ClaimFailed(b), Snapshot(0, Claims(b).(approved := true));
    assert Step(s, Resume(0)) == s.(invitations := map[0 := Unclaimed(b)], wakes := []);
    assert Put([], entry) == [entry];
    RunTwo(s, Resume(0), WriteEnds(Stored));
  }

  lemma EarlyApprovalEnds(b: Binding)
    ensures Run(INITIAL, ClaimStarts(b) + EarlyApproval()) == ApprovedOnly(b)
  {
    ClaimStarted(b);
    ApprovalOvertakes(b);
    ClaimFailsFirst(b);
    RunAppend(INITIAL, ClaimStarts(b), EarlyApproval(), 0);
    RunAppend(ClaimUnderWay(b), [Approve(0, 0), WriteEnds(KeptOld)], [Resume(0), WriteEnds(Stored)], 0);
  }

  lemma ApprovalExpires(b: Binding)
    ensures var s := Run(ApprovedOnly(b), [Resume(0), InvitationExpires(0)]);
            && s.up && s.writes == [Delete(0)] && s.wakes == []
            && s.persisted == [Snapshot(0, Claims(b).(approved := true))]
            && 0 in s.records && s.records[0] == Record(Some(Pledge(b, true)), None, Some(b), false, false, false)
  {
    var s, r := ApprovedOnly(b), Record(Some(Pledge(b, true)), None, Some(b), false, false, false);
    assert Step(s, Resume(0))
      == s.(invitations := map[0 := Unclaimed(b).(submission := false)], wakes := [], records := map[0 := r]);
    RunTwo(s, Resume(0), InvitationExpires(0));
  }

  /**
    Without the other half of `Timely` an answered approval is not durable: the failed claim is taken back
    under it, and the ordinary end of the invitation deletes it from the store.
   */
  lemma EarlyApprovalIsLost(b: Binding)
    ensures var s := Run(INITIAL, (ClaimStarts(b) + EarlyApproval()) + [Resume(0), InvitationExpires(0)]);
            && RecordOf(s, 0).reply == Some(b) && s.up
            && RecordOf(Step(s, WriteEnds(Stored)), 0).reply == Some(b) && Step(s, WriteEnds(Stored)).durable == []
  {
    EarlyApprovalEnds(b);
    ApprovalExpires(b);
    RunAppend(INITIAL, ClaimStarts(b) + EarlyApproval(), [Resume(0), InvitationExpires(0)], 0);
    assert Drop([Snapshot(0, Claims(b).(approved := true))], 0) == [];
  }

  // The claim's write reports a failure but is stored; the user cancels and the process stops.
  function CancelledAndStopped(): seq<Event> {
    [WriteEnds(LeftNew), Resume(0)] + [Cancel(0), Crash(false)]
  }

  lemma ClaimThrows(b: Binding)
    ensures Disciplined(ClaimUnderWay(b), [WriteEnds(LeftNew), Resume(0)], 0)
    ensures Run(ClaimUnderWay(b), [WriteEnds(LeftNew), Resume(0)])
         == Server(true, map[0 := Waits(b)], [], [Snapshot(0, Claims(b))], [], [], {0}, map[0 := BLANK])
  {
    var s3, entry := ClaimUnderWay(b), Snapshot(0, Claims(b));
    var s4 := Server(true, map[0 := Claims(b)], [], [entry], [], [Wake(0, FinishClaim, false)], {0}, map[0 := BLANK]);
    assert Put([], entry) == [entry];
    assert Step(s3, WriteEnds(LeftNew)) == s4;
    RunTwo(s3, WriteEnds(LeftNew), Resume(0));
  }

  lemma CancelsLocally(b: Binding)
    ensures var s := Server(true, map[0 := Waits(b)], [], [Snapshot(0, Claims(b))], [], [], {0}, map[0 := BLANK]);
            && Admits(s, Cancel(0), 0) && Step(s, Cancel(0)).up
            && Step(s, Cancel(0)).writes == [Delete(0)] && Step(s, Cancel(0)).persisted == []
            && Step(s, Cancel(0)).durable == s.durable && Step(s, Cancel(0)).used == s.used
            && Step(s, Cancel(0)).records == map[0 := BLANK.(cancelled := true)]
  {
  }

  lemma CancelAndCrash(b: Binding)
    ensures var s := Server(true, map[0 := Waits(b)], [], [Snapshot(0, Claims(b))], [], [], {0}, map[0 := BLANK]);
            && Disciplined(s, [Cancel(0), Crash(false)], 0)
            && Run(s, [Cancel(0), Crash(false)])
               == Server(false, map[], [], [Snapshot(0, Claims(b))], [], [], {0}, map[0 := BLANK.(cancelled := true)])
  {
    var s := Server(true, map[0 := Waits(b)], [], [Snapshot(0, Claims(b))], [], [], {0}, map[0 := BLANK]);
    CancelsLocally(b);
    RunTwo(s, Cancel(0), Crash(false));
  }

  lemma CancelledBeforeTheStop(b: Binding)
    ensures Disciplined(ClaimUnderWay(b), CancelledAndStopped(), 0)
    ensures Run(ClaimUnderWay(b), CancelledAndStopped())
         == Server(false, map[], [], [Snapshot(0, Claims(b))], [], [], {0}, map[0 := BLANK.(cancelled := true)])
  {
    ClaimThrows(b);
    CancelAndCrash(b);
    RunAppend(ClaimUnderWay(b), [WriteEnds(LeftNew), Resume(0)], [Cancel(0), Crash(false)], 0);
  }

  lemma RevivedByRestart(b: Binding)
    ensures var entry := Snapshot(0, Claims(b));
            var s := Server(false, map[], [], [entry], [], [], {0}, map[0 := BLANK.(cancelled := true)]);
            var t := Step(s, Restart(0, {}, Stored));
            && t.up && t.invitations == map[0 := Revived(entry)] && t.writes == [] && t.wakes == []
            && RecordOf(t, 0).cancelled && Admits(s, Restart(0, {}, Stored), 0)
  {
    var entry := Snapshot(0, Claims(b));
    assert Find([entry], 0) == Some(entry);
    assert Restored([entry], 0, {}) == [entry] by {
      assert Refreshed(entry, {}) == entry;
    }
    FoundInIds([entry], 0);
  }

  lemma RevivedClaimReturns(b: Binding)
    ensures var s := Server(false, map[], [], [Snapshot(0, Claims(b))], [], [], {0},
        map[0 := BLANK.(cancelled := true)]);
            var t := Run(s, [Restart(0, {}, Stored), ClaimApproval(0, 0)]);
            && Disciplined(s, [Restart(0, {}, Stored), ClaimApproval(0, 0)], 0) && RecordOf(t, 0).returned
            && RecordOf(t, 0).cancelled
  {
    var s := Server(false, map[], [], [Snapshot(0, Claims(b))], [], [], {0}, map[0 := BLANK.(cancelled := true)]);
    RevivedByRestart(b);
    RunTwo(s, Restart(0, {}, Stored), ClaimApproval(0, 0));
  }

  /**
    Even with disciplined callers one run can hold both a cancellation and a returned claim: a failed
    write may have left the new value, and the restart revives it.
   */
  lemma CancelledThenClaimed(b: Binding)
    ensures var events := ClaimStarts(b) + (CancelledAndStopped() + [Restart(0, {}, Stored), ClaimApproval(0, 0)]);
            && Disciplined(INITIAL, events, 0) && RecordOf(Run(INITIAL, events), 0).returned
            && RecordOf(Run(INITIAL, events), 0).cancelled
  {
    var back := [Restart(0, {}, Stored), ClaimApproval(0, 0)];
    ClaimStarted(b);
    CancelledBeforeTheStop(b);
    RevivedClaimReturns(b);
    RunAppend(INITIAL, ClaimStarts(b), CancelledAndStopped() + back, 0);
    RunAppend(ClaimUnderWay(b), CancelledAndStopped(), back, 0);
  }

  // ----- An approval behind eight stale entries -----

  // The entry of a claim made at time 0.
  function ClaimEntry(id: nat, b: Binding): Entry {
    Snapshot(id, Claims(b))
  }

  function ClaimEntries(n: nat, b: Binding): seq<Entry> {
    if n == 0 then [] else ClaimEntries(n - 1, b) + [ClaimEntry(n - 1, b)]
  }

  lemma {:induction false} ClaimEntriesIds(n: nat, b: Binding)
    ensures |ClaimEntries(n, b)| == n && forall k | 0 <= k < n :: ClaimEntries(n, b)[k] == ClaimEntry(k, b)
  {
    if n > 0 {
      ClaimEntriesIds(n - 1, b);
    }
  }

  lemma {:induction false} PutNew(entries: seq<Entry>, e: Entry)
    requires forall k | 0 <= k < |entries| :: entries[k].id != e.id
    ensures Put(entries, e) == entries + [e] && Find(entries + [e], e.id) == Some(e)
        && Drop(entries + [e], e.id) == entries
  {
    if entries == [] {
      assert entries + [e] == [e];
    } else {
      PutNew(entries[1..], e);
      assert (entries + [e])[1..] == entries[1..] + [e];
      assert [entries[0]] + entries[1..] == entries;
    }
  }

  lemma {:induction false} PutKnown(entries: seq<Entry>, prior: Entry, e: Entry)
    requires forall k | 0 <= k < |entries| :: entries[k].id != e.id
    requires prior.id == e.id
    ensures Put(entries + [prior], e) == entries + [e]
  {
    if entries == [] {
      assert [prior] == entries + [prior] && [e] + [] == [e] && entries + [e] == [e];
    } else {
      PutKnown(entries[1..], prior, e);
      assert (entries + [prior])[1..] == entries[1..] + [prior];
      assert [entries[0]] + (entries[1..] + [e]) == entries + [e];
    }
  }

  // The first n invitations were claimed and closed, but every delete of their entries failed.
  predicate Stale(s: Server, n: nat, b: Binding) {
    && s.up && s.writes == [] && s.wakes == [] && s.persisted == s.durable == ClaimEntries(n, b)
    && (forall id | id in s.invitations :: Terminal(s.invitations[id].view))
    && (forall id | id in s.used :: id < n) && (forall id | id in s.records :: id < n)
  }

  // One more invitation has been claimed.
  predicate Enrolled(s: Server, n: nat, b: Binding, records: map<nat, Record>) {
    && s.up && s.writes == [] && s.wakes == [] && s.persisted == s.durable == ClaimEntries(n + 1, b)
    && s.invitations == map[n := Claims(b)] && (forall id | id in s.used :: id <= n)
    && s.records == records[n := Record(Some(Pledge(b, false)), Some(b), None, true, false, false)]
  }

  function EnrollStart(n: nat, b: Binding): seq<Event> {
    [Create(n), Submit(n, b)] + [Resume(0), ClaimApproval(n, 0)]
  }

  function Enroll(n: nat, b: Binding): seq<Event> {
    EnrollStart(n, b) + [WriteEnds(Stored), Resume(0)]
  }

  lemma EnrollSubmits(s: Server, n: nat, b: Binding)
    requires Stale(s, n, b)
    ensures var t := Run(s, [Create(n), Submit(n, b)]);
            && Disciplined(s, [Create(n), Submit(n, b)], 8)
            && t == s.(invitations := map[n := Waits(b).(submission := false)], wakes := [Wake(n, ThenWait, true)],
                       used := s.used + {n}, records := s.records[n := BLANK])
  {
    assert Purged(s.invitations) == map[];
    var s0 := s.(invitations := map[n := FRESH], used := s.used + {n});
    assert Step(s, Create(n)) == s0;
    RunTwo(s, Create(n), Submit(n, b));
  }

  lemma EnrollWaits(s: Server, n: nat, b: Binding)
    requires s.up && s.wakes == [Wake(n, ThenWait, true)]
    requires s.invitations == map[n := Waits(b).(submission := false)]
    requires n in s.records && s.records[n] == BLANK
    ensures Step(s, Resume(0)) == s.(invitations := map[n := Waits(b)], wakes := [])
  {
    assert s.records[n := BLANK] == s.records;
  }

  lemma EnrollClaim(s: Server, n: nat, b: Binding)
    requires s.up && s.writes == [] && s.wakes == [] && s.invitations == map[n := Waits(b)]
    requires n in s.records && s.records[n] == BLANK
    ensures Admits(s, ClaimApproval(n, 0), 8)
    ensures Step(s, ClaimApproval(n, 0))
         == s.(invitations := map[n := Claims(b)], writes := [Persist(n, ClaimEntry(n, b), FinishClaim)])
  {
    assert s.records[n := BLANK] == s.records;
  }

  lemma EnrollClaims(s: Server, n: nat, b: Binding)
    requires s.up && s.writes == [] && s.wakes == [Wake(n, ThenWait, true)]
    requires s.invitations == map[n := Waits(b).(submission := false)]
    requires n in s.records && s.records[n] == BLANK
    ensures var t := Run(s, [Resume(0), ClaimApproval(n, 0)]);
            && Disciplined(s, [Resume(0), ClaimApproval(n, 0)], 8)
            && t == s.(invitations := map[n := Claims(b)], writes := [Persist(n, ClaimEntry(n, b), FinishClaim)],
                       wakes := [])
  {
    EnrollWaits(s, n, b);
    EnrollClaim(Step(s, Resume(0)), n, b);
    RunTwo(s, Resume(0), ClaimApproval(n, 0));
  }

  lemma ClaimStored(s: Server, n: nat, b: Binding)
    requires s.up && s.writes == [Persist(n, ClaimEntry(n, b), FinishClaim)] && s.wakes == []
    requires s.invitations == map[n := Claims(b)]
    requires n in s.records && s.records[n] == BLANK && s.persisted == ClaimEntries(n, b)
    ensures Step(s, WriteEnds(Stored))
         == s.(writes := [], persisted := ClaimEntries(n + 1, b), durable := ClaimEntries(n + 1, b),
               wakes := [Wake(n, FinishClaim, true)],
               records := s.records[n := BLANK.(pledge := Some(Pledge(b, false)))])
  {
    var more := ClaimEntries(n + 1, b);
    assert Put(ClaimEntries(n, b), ClaimEntry(n, b)) == more by {
      ClaimEntriesIds(n, b);
      PutNew(ClaimEntries(n, b), ClaimEntry(n, b));
    }
    assert Step(s, WriteEnds(Stored)) == OnWriteEnds(s, Stored);
  }

  lemma ClaimReturned(s: Server, n: nat, b: Binding)
    requires s.up && s.wakes == [Wake(n, FinishClaim, true)] && s.invitations == map[n := Claims(b)] && s.writes == []
    requires n in s.records && s.records[n] == BLANK.(pledge := Some(Pledge(b, false)))
    ensures Step(s, Resume(0))
        == s.(wakes := [], records := s.records[n := Record(Some(Pledge(b, false)), Some(b), None, true, false, false)])
  {
  }

  lemma EnrollStores(s: Server, n: nat, b: Binding)
    requires s.up && s.writes == [Persist(n, ClaimEntry(n, b), FinishClaim)] && s.wakes == []
    requires s.invitations == map[n := Claims(b)]
    requires n in s.records && s.records[n] == BLANK && s.persisted == ClaimEntries(n, b)
    ensures Disciplined(s, [WriteEnds(Stored), Resume(0)], 8)
    ensures Run(s, [WriteEnds(Stored), Resume(0)])
         == s.(writes := [], persisted := ClaimEntries(n + 1, b), durable := ClaimEntries(n + 1, b),
               records := s.records[n := Record(Some(Pledge(b, false)), Some(b), None, true, false, false)])
  {
    ClaimStored(s, n, b);
    ClaimReturned(Step(s, WriteEnds(Stored)), n, b);
    RunTwo(s, WriteEnds(Stored), Resume(0));
  }

  lemma EnrollStarts(s: Server, n: nat, b: Binding)
    requires Stale(s, n, b)
    ensures Disciplined(s, EnrollStart(n, b), 8)
    ensures Run(s, EnrollStart(n, b))
         == s.(invitations := map[n := Claims(b)], writes := [Persist(n, ClaimEntry(n, b), FinishClaim)],
               used := s.used + {n}, records := s.records[n := BLANK])
  {
    EnrollSubmits(s, n, b);
    var t := s.(invitations := map[n := Waits(b).(submission := false)], wakes := [Wake(n, ThenWait, true)],
                used := s.used + {n}, records := s.records[n := BLANK]);
    EnrollClaims(t, n, b);
    RunAppend(s, [Create(n), Submit(n, b)], [Resume(0), ClaimApproval(n, 0)], 8);
  }

  lemma Enrolls(s: Server, n: nat, b: Binding)
    requires Stale(s, n, b)
    ensures Disciplined(s, Enroll(n, b), 8) && Enrolled(Run(s, Enroll(n, b)), n, b, s.records)
  {
    EnrollStarts(s, n, b);
    var t := s.(invitations := map[n := Claims(b)], writes := [Persist(n, ClaimEntry(n, b), FinishClaim)],
                used := s.used + {n}, records := s.records[n := BLANK]);
    EnrollStores(t, n, b);
    RunAppend(s, EnrollStart(n, b), [WriteEnds(Stored), Resume(0)], 8);
  }

  // The enrollment fails and the delete of its entry fails too: the entry stays.
  lemma DeleteFails(s: Server, n: nat, b: Binding)
    requires s.up && s.writes == [Delete(n)] && s.persisted == s.durable == ClaimEntries(n + 1, b)
    ensures Step(s, WriteEnds(KeptOld)).(records := s.records) == s.(writes := [])
    ensures Step(s, WriteEnds(KeptOld)).records == s.records[n := RecordOf(s, n)]
  {
    ClaimEntriesIds(n, b);
    PutNew(ClaimEntries(n, b), ClaimEntry(n, b));
    assert s.wakes + [] == s.wakes;
  }

  lemma EntryStays(s: Server, n: nat, b: Binding, records: map<nat, Record>)
    requires Enrolled(s, n, b, records) && forall id | id in records :: id < n
    ensures Disciplined(s, [Fail(n), WriteEnds(KeptOld)], 8) && Stale(Run(s, [Fail(n), WriteEnds(KeptOld)]), n + 1, b)
  {
    var s1 := Step(s, Fail(n));
    assert s1.writes == [Delete(n)] && s1.wakes == [];
    DeleteFails(s1, n, b);
    RunTwo(s, Fail(n), WriteEnds(KeptOld));
  }

  function StaleMore(n: nat, b: Binding): seq<Event> {
    Enroll(n, b) + [Fail(n), WriteEnds(KeptOld)]
  }

  lemma StaysStale(s: Server, n: nat, b: Binding)
    requires Stale(s, n, b)
    ensures Disciplined(s, StaleMore(n, b), 8) && Stale(Run(s, StaleMore(n, b)), n + 1, b)
  {
    Enrolls(s, n, b);
    EntryStays(Run(s, Enroll(n, b)), n, b, s.records);
    RunAppend(s, Enroll(n, b), [Fail(n), WriteEnds(KeptOld)], 8);
  }

  function Repeat<E>(once: nat -> seq<E>, n: nat, more: nat): seq<E>
    decreases more
  {
    if more == 0 then [] else once(n) + Repeat(once, n + 1, more - 1)
  }

  predicate Carries<S, E>(
      step: (S, E) -> S, admits: (S, E) -> bool, holds: (S, nat) -> bool, once: nat -> seq<E>, s: S, n: nat)
  {
    holds(s, n) ==> Throughout(step, admits, s, once(n)) && holds(Fold(step, s, once(n)), n + 1)
  }

  // Events that carry a property from each number to the next carry it as far as wanted.
  lemma {:induction false} Repeats<S(!new), E>(
      step: (S, E) -> S, admits: (S, E) -> bool, holds: (S, nat) -> bool, once: nat -> seq<E>, s: S, n: nat, more: nat)
    requires holds(s, n)
    requires forall t: S, k: nat {:trigger Carries(step, admits, holds, once, t, k)} ::
        Carries(step, admits, holds, once, t, k)
    ensures Throughout(step, admits, s, Repeat(once, n, more)) && holds(Fold(step, s, Repeat(once, n, more)), n + more)
    decreases more
  {
    if more > 0 {
      assert Carries(step, admits, holds, once, s, n);
      Repeats(step, admits, holds, once, Fold(step, s, once(n)), n + 1, more - 1);
      FoldAppend(step, admits, s, once(n), Repeat(once, n + 1, more - 1));
    }
  }

  function OneMoreStale(b: Binding): nat -> seq<Event> {
    (k: nat) => StaleMore(k, b)
  }

  function IsStale(b: Binding): (Server, nat) -> bool {
    (s: Server, k: nat) => Stale(s, k, b)
  }

  function StaleRun(n: nat, b: Binding): seq<Event> {
    Repeat(OneMoreStale(b), 0, n)
  }

  lemma StaleCarried(s: Server, n: nat, b: Binding)
    ensures Carries(Step, AdmittedFor(8), IsStale(b), OneMoreStale(b), s, n)
  {
    if Stale(s, n, b) {
      StaysStale(s, n, b);
    }
  }

  lemma EachCarries(b: Binding)
    ensures forall t: Server, k: nat {:trigger Carries(Step, AdmittedFor(8), IsStale(b), OneMoreStale(b), t, k)} ::
              Carries(Step, AdmittedFor(8), IsStale(b), OneMoreStale(b), t, k)
  {
    forall t: Server, k: nat
      ensures Carries(Step, AdmittedFor(8), IsStale(b), OneMoreStale(b), t, k)
    {
      StaleCarried(t, k, b);
    }
  }

  lemma GrowsStale(s: Server, n: nat, b: Binding)
    requires Stale(s, 0, b)
    ensures Disciplined(s, StaleRun(n, b), 8) && IsStale(b)(Run(s, StaleRun(n, b)), n)
  {
    EachCarries(b);
    Repeats(Step, AdmittedFor(8), IsStale(b), OneMoreStale(b), s, 0, n);
  }

  // The enrolled invitation is approved and its joiner answered.
  function Answer(n: nat): seq<Event> {
    [Approve(n, 0), WriteEnds(Stored)] + [Resume(0)]
  }

  function ApprovedBy(b: Binding): Pending {
    Claims(b).(approved := true)
  }

  function ApprovedEntry(n: nat, b: Binding): Entry {
    Snapshot(n, ApprovedBy(b))
  }

  // The write of the approval is under way.
  predicate ApproveSent(s: Server, n: nat, b: Binding) {
    && s.up && s.writes == [Persist(n, ApprovedEntry(n, b), FinishApprove)] && s.wakes == []
    && s.persisted == ClaimEntries(n + 1, b) && s.invitations == map[n := ApprovedBy(b)]
  }

  lemma ApprovalBegins(s: Server, n: nat, b: Binding, records: map<nat, Record>)
    requires Enrolled(s, n, b, records)
    ensures ApproveSent(Step(s, Approve(n, 0)), n, b) && Admits(s, Approve(n, 0), 8)
  {
  }

  lemma ApprovalEnds(s: Server, n: nat, b: Binding)
    requires ApproveSent(s, n, b)
    ensures Admits(s, WriteEnds(Stored), 8)
    ensures var t := Step(s, WriteEnds(Stored));
            && t.up && t.writes == [] && t.wakes == [Wake(n, FinishApprove, true)]
            && t.invitations == map[n := ApprovedBy(b)]
            && t.durable == ClaimEntries(n, b) + [ApprovedEntry(n, b)]
            && RecordOf(t, n).pledge == Some(Pledge(b, true))
  {
    ClaimEntriesIds(n, b);
    PutKnown(ClaimEntries(n, b), ClaimEntry(n, b), ApprovedEntry(n, b));
  }

  lemma ApprovalStored(s: Server, n: nat, b: Binding, records: map<nat, Record>)
    requires Enrolled(s, n, b, records)
    ensures Disciplined(s, [Approve(n, 0), WriteEnds(Stored)], 8)
    ensures var t := Run(s, [Approve(n, 0), WriteEnds(Stored)]);
            && t.up && t.writes == [] && t.wakes == [Wake(n, FinishApprove, true)]
            && t.invitations == map[n := ApprovedBy(b)]
            && t.durable == ClaimEntries(n, b) + [ApprovedEntry(n, b)]
            && RecordOf(t, n).pledge == Some(Pledge(b, true))
  {
    ApprovalBegins(s, n, b, records);
    ApprovalEnds(Step(s, Approve(n, 0)), n, b);
    RunTwo(s, Approve(n, 0), WriteEnds(Stored));
  }

  lemma Answered(s: Server, n: nat, b: Binding, records: map<nat, Record>)
    requires Enrolled(s, n, b, records)
    ensures Disciplined(s, Answer(n), 8)
    ensures var t := Run(s, Answer(n));
            && t.up && t.writes == [] && t.durable == ClaimEntries(n, b) + [ApprovedEntry(n, b)]
            && RecordOf(t, n).reply == Some(b)
  {
    ApprovalStored(s, n, b, records);
    var t := Run(s, [Approve(n, 0), WriteEnds(Stored)]);
    assert [Resume(0)] == [Resume(0)] + [];
    RunFirst(t, Resume(0), []);
    RunAppend(s, [Approve(n, 0), WriteEnds(Stored)], [Resume(0)], 8);
  }

  function Restarts(): seq<Event> {
    [Crash(false), Restart(0, {}, Stored)]
  }

  lemma Forgotten(s: Server, b: Binding)
    requires s.up && s.writes == [] && s.durable == ClaimEntries(8, b) + [ApprovedEntry(8, b)] && Unique(s.durable)
    ensures Find(Run(s, Restarts()).durable, 8).None? && RecordOf(Run(s, Restarts()), 8).reply == RecordOf(s, 8).reply
  {
    var t := OnCrash(s, false);
    assert Step(s, Crash(false)) == t && t.durable == s.durable && t.records == s.records;
    RunTwo(s, Crash(false), Restart(0, {}, Stored));
    LastForgotten(t, b);
  }

  lemma LastForgotten(s: Server, b: Binding)
    requires !s.up && s.durable == ClaimEntries(8, b) + [ApprovedEntry(8, b)] && Unique(s.durable)
    ensures var t := OnRestart(s, 0, {}, Stored);
            && Find(t.durable, 8).None?
            && RecordOf(t, 8).reply == RecordOf(s, 8).reply
  {
    ClaimEntriesIds(8, b);
    assert FirstEight(s.durable) == ClaimEntries(8, b);
    Absent(ClaimEntries(8, b), 8);
    FindRestored(ClaimEntries(8, b), 0, {}, 8);
    FindAt(s.durable, 8);
    FoundInIds(s.durable, 8);
  }

  function ApprovedBehindEight(b: Binding): seq<Event> {
    StaleRun(8, b) + (Enroll(8, b) + Answer(8))
  }

  lemma ApprovalBehindEight(b: Binding)
    ensures Disciplined(INITIAL, ApprovedBehindEight(b), 8)
    ensures var s := Run(INITIAL, ApprovedBehindEight(b));
            && s.up && s.writes == [] && s.durable == ClaimEntries(8, b) + [ApprovedEntry(8, b)]
            && RecordOf(s, 8).reply == Some(b)
  {
    assert Stale(INITIAL, 0, b);
    GrowsStale(INITIAL, 8, b);
    var s := Run(INITIAL, StaleRun(8, b));
    Enrolls(s, 8, b);
    Answered(Run(s, Enroll(8, b)), 8, b, s.records);
    RunAppend(INITIAL, StaleRun(8, b), Enroll(8, b) + Answer(8), 8);
    RunAppend(s, Enroll(8, b), Answer(8), 8);
  }

  lemma StoreStaysUnique(events: seq<Event>)
    requires Disciplined(INITIAL, events, 8)
    ensures Unique(Run(INITIAL, events).durable)
  {
    RunInv(INITIAL, events, 8);
  }

  lemma LostAfterRestart(events: seq<Event>, b: Binding)
    requires Disciplined(INITIAL, events, 8)
    requires var s := Run(INITIAL, events);
             && s.up && s.writes == []
             && s.durable == ClaimEntries(8, b) + [ApprovedEntry(8, b)]
    ensures var s := Run(Run(INITIAL, events), Restarts());
            RecordOf(s, 8).reply == RecordOf(Run(INITIAL, events), 8).reply && Find(s.durable, 8).None?
  {
    StoreStaysUnique(events);
    Forgotten(Run(INITIAL, events), b);
  }

  /**
    Where a restart `Loses` it an approval is not durable: eight deletes fail, the ninth invitation is approved
    and answered, and after a restart the store no longer holds it.
   */
  lemma ApprovalLostBehindEight(b: Binding)
    ensures Disciplined(INITIAL, ApprovedBehindEight(b), 8)
    ensures var s := Run(Run(INITIAL, ApprovedBehindEight(b)), Restarts());
            && RecordOf(s, 8).reply == Some(b)
            && Find(s.durable, 8).None?
  {
    ApprovalBehindEight(b);
    LostAfterRestart(ApprovedBehindEight(b), b);
  }
}
