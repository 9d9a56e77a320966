/**
  What each operation of the pairing server achieves: the invitation, the stored entry and the answers
  after an operation, all writes up to its own, and its continuation; and after a restart.
 */
module PairingOutcomes {
  import opened Wrappers
  import opened Pairing

  // ----- An operation, the writes before its own, its own write, and its continuation -----

  function Ends(outcomes: seq<Outcome>): seq<Event> {
    seq(|outcomes|, k requires 0 <= k < |outcomes| => WriteEnds(outcomes[k]))
  }

  lemma {:induction false} Drain(s: Server, outcomes: seq<Outcome>)
    requires s.up && |outcomes| <= |s.writes|
    ensures var t := Run(s, Ends(outcomes));
            && t.up && t.invitations == s.invitations && t.used == s.used
            && t.writes == s.writes[|outcomes|..] && s.wakes <= t.wakes
    decreases |outcomes|
  {
    if outcomes != [] {
      var t := Step(s, WriteEnds(outcomes[0]));
      assert Ends(outcomes) == [WriteEnds(outcomes[0])] + Ends(outcomes[1..]);
      RunFirst(s, WriteEnds(outcomes[0]), Ends(outcomes[1..]));
      Drain(t, outcomes[1..]);
    } else {
      assert Ends(outcomes) == [];
    }
  }

  // What has been promised and what has happened, leaving out what the store acknowledged.
  function HistoryOf(s: Server, id: nat): Record {
    RecordOf(s, id).(pledge := None)
  }

  lemma {:induction false} DrainHistory(s: Server, outcomes: seq<Outcome>, id: nat)
    requires s.up && |outcomes| <= |s.writes|
    ensures HistoryOf(Run(s, Ends(outcomes)), id) == HistoryOf(s, id)
    decreases |outcomes|
  {
    if outcomes != [] {
      assert Ends(outcomes) == [WriteEnds(outcomes[0])] + Ends(outcomes[1..]);
      RunFirst(s, WriteEnds(outcomes[0]), Ends(outcomes[1..]));
      DrainHistory(Step(s, WriteEnds(outcomes[0])), outcomes[1..], id);
    } else {
      assert Ends(outcomes) == [];
    }
  }

  // All writes end, and then the continuation of the last one runs, if it has one.
  function Settled(s: Server, outcomes: seq<Outcome>, outcome: Outcome): Server {
    var t := Step(Run(s, Ends(outcomes)), WriteEnds(outcome));
    if t.wakes == [] then t else Step(t, Resume(|t.wakes| - 1))
  }

  // The invitation has its token and has not been closed.
  predicate Open(s: Server, id: nat) {
    && s.up && id in s.invitations && s.invitations[id].tokenLive
    && s.invitations[id].view in {Waiting, Connecting, Completed}
  }

  // Its approval is neither being written nor about to be taken back.
  predicate NoApprovalUnderWay(s: Server, id: nat) {
    && (forall k | 0 <= k < |s.writes| && s.writes[k].id == id ::
          s.writes[k].Persist? ==> !s.writes[k].after.FinishApprove?)
    && (forall k | 0 <= k < |s.wakes| && s.wakes[k].id == id :: s.wakes[k].after.FinishApprove? ==> s.wakes[k].ok)
  }

  lemma {:induction false} QuietWrites(writes: seq<Write>, id: nat)
    requires forall k | 0 <= k < |writes| && writes[k].id == id ::
        writes[k].Persist? ==> !writes[k].after.FinishApprove?
    ensures forall k | 0 <= k < |WritesOf(writes, id)| :: !Approving(WritesOf(writes, id)[k])
  {
    if writes != [] {
      QuietWrites(writes[1..], id);
    }
  }

  lemma {:induction false} QuietWakes(wakes: seq<Wake>, id: nat)
    requires forall k | 0 <= k < |wakes| && wakes[k].id == id :: wakes[k].after.FinishApprove? ==> wakes[k].ok
    ensures forall k | 0 <= k < |WakesOf(wakes, id)| :: !ApprovalUndone(WakesOf(wakes, id)[k])
  {
    if wakes != [] {
      QuietWakes(wakes[1..], id);
    }
  }

  lemma QuietIsSettled(s: Server, id: nat)
    requires NoApprovalUnderWay(s, id)
    ensures ApprovalSettled(WritesOf(s.writes, id), WakesOf(s.wakes, id))
  {
    QuietWrites(s.writes, id);
    QuietWakes(s.wakes, id);
  }

  // The queue ends with this write, and nothing is said about what comes before it.
  predicate Asks(s: Server, t: Server, w: Write) {
    t.up && t.writes == s.writes + [w]
  }

  // After the end of that write everything is as the operation left it, apart from the store.
  lemma LastWrite(s: Server, t: Server, w: Write, outcomes: seq<Outcome>, outcome: Outcome)
    requires Asks(s, t, w) && w.Persist? && |outcomes| == |s.writes|
    ensures var u := Step(Run(t, Ends(outcomes)), WriteEnds(outcome));
            && u.up && u.invitations == t.invitations && u.writes == []
            && u.wakes != [] && u.wakes[|u.wakes| - 1] == Wake(w.id, w.after, outcome.Stored?)
            && (outcome.Stored? ==> Find(u.durable, w.entry.id) == Some(w.entry))
  {
    Drain(t, outcomes);
    var v := Run(t, Ends(outcomes));
    assert v.writes == [w];
    FindPut(v.persisted, w.entry, w.entry.id);
  }

  lemma LastDelete(s: Server, t: Server, id: nat, outcomes: seq<Outcome>)
    requires Asks(s, t, Delete(id)) && |outcomes| == |s.writes|
    ensures var v := Run(t, Ends(outcomes));
            var u := Step(v, WriteEnds(Stored));
            && u.up && u.invitations == t.invitations && u.writes == []
            && (Unique(v.persisted) && Find(v.persisted, id).Some? ==> Find(u.durable, id).None?)
  {
    Drain(t, outcomes);
    var v := Run(t, Ends(outcomes));
    assert v.writes == [Delete(id)];
    if Unique(v.persisted) {
      FindDrop(v.persisted, id, id);
    }
  }

  // ----- Completing -----

  lemma CompleteAsks(s: Server, id: nat, now: int)
    requires Inv(s, id) && Open(s, id) && s.invitations[id].approved && NoApprovalUnderWay(s, id)
    requires s.invitations[id].recoveryExpiresAt.Some? && now < s.invitations[id].recoveryExpiresAt.value
    ensures var p, t := s.invitations[id], Step(s, Complete(id, now));
            && p.binding.Some? && id in t.invitations
            && t.invitations[id] == p.(view := Completed, recoveryExpiresAt := Some(now + 600_000))
            && Asks(s, t, Persist(id, Entry(id, p.binding.value, true, true, p.authorizationExpired,
                                            Some(now + 600_000), true), FinishComplete(p.recoveryExpiresAt)))
  {
    QuietIsSettled(s, id);
    assert LocalInv(At(s, id));
  }

  // The continuation of the last write that ended.
  lemma Continues(u: Server, id: nat, after: After, ok: bool)
    requires u.up && id in u.invitations && u.wakes != [] && u.wakes[|u.wakes| - 1] == Wake(id, after, ok)
    ensures var t, e := Step(u, Resume(|u.wakes| - 1)), OnResume(id, u.invitations[id], RecordOf(u, id), after, ok);
            && t.up && id in t.invitations && t.invitations[id] == e.pending && RecordOf(t, id) == e.record
            && t.durable == u.durable && t.persisted == u.persisted && t.writes == u.writes + e.writes
  {
  }

  lemma LastHistory(s: Server, t: Server, w: Write, outcomes: seq<Outcome>, outcome: Outcome, id: nat)
    requires Asks(s, t, w) && |outcomes| == |s.writes|
    ensures HistoryOf(Step(Run(t, Ends(outcomes)), WriteEnds(outcome)), id) == HistoryOf(t, id)
  {
    Drain(t, outcomes);
    DrainHistory(t, outcomes, id);
  }

  lemma SameContinuation(id: nat, p: Pending, r: Record, after: After, ok: bool)
    ensures var e, f := OnResume(id, p, r, after, ok), OnResume(id, p, r.(pledge := None), after, ok);
            e.pending == f.pending && e.writes == f.writes && e.record.(pledge := None) == f.record
  {
  }

  lemma Prepended(none: seq<Write>, writes: seq<Write>)
    requires none == []
    ensures none + writes == writes
  {
  }

  // An operation that asked for this write, from its end on.
  lemma Finishes(s: Server, t: Server, w: Write, outcomes: seq<Outcome>, outcome: Outcome)
    requires Asks(s, t, w) && w.Persist? && w.entry.id == w.id && w.id in t.invitations && |outcomes| == |s.writes|
    ensures var u := Settled(t, outcomes, outcome);
            var e := OnResume(w.id, t.invitations[w.id], HistoryOf(t, w.id), w.after, outcome.Stored?);
            && u.up && w.id in u.invitations && u.invitations[w.id] == e.pending
            && HistoryOf(u, w.id) == e.record && u.writes == e.writes
            && (outcome.Stored? ==> Find(u.durable, w.id) == Some(w.entry))
  {
    var v := Step(Run(t, Ends(outcomes)), WriteEnds(outcome));
    LastWrite(s, t, w, outcomes, outcome);
    LastHistory(s, t, w, outcomes, outcome, w.id);
    Continues(v, w.id, w.after, outcome.Stored?);
    SameContinuation(w.id, t.invitations[w.id], RecordOf(v, w.id), w.after, outcome.Stored?);
    Prepended(v.writes, OnResume(w.id, t.invitations[w.id], RecordOf(v, w.id), w.after, outcome.Stored?).writes);
  }

  // The invitation after the write that `complete` asked for.
  predicate CompletedIf(stored: bool, p: Pending, t: Server, id: nat, deadline: int) {
    && t.up && id in t.invitations
    && t.invitations[id] == (if stored then p.(view := Completed, recoveryExpiresAt := Some(deadline))
                             else p.(view := Connecting))
    && (stored ==>
          && Find(t.durable, id).Some? && Some(Find(t.durable, id).value.binding) == p.binding
          && Find(t.durable, id).value.completed && Find(t.durable, id).value.approved
          && Find(t.durable, id).value.claimed && Find(t.durable, id).value.recoveryExpiresAt == Some(deadline))
  }

  lemma CompletionEnds(
      s: Server, t: Server, id: nat, p: Pending, deadline: int, outcomes: seq<Outcome>, outcome: Outcome)
    requires p.binding.Some? && |outcomes| == |s.writes|
    requires id in t.invitations
    requires t.invitations[id] == p.(view := Completed, recoveryExpiresAt := Some(deadline))
    requires Asks(s, t, Persist(id, Entry(id, p.binding.value, true, true, p.authorizationExpired, Some(deadline),
                                          true), FinishComplete(p.recoveryExpiresAt)))
    ensures CompletedIf(outcome.Stored?, p, Settled(t, outcomes, outcome), id, deadline)
  {
    Finishes(s, t, Persist(id, Entry(id, p.binding.value, true, true, p.authorizationExpired, Some(deadline), true),
                           FinishComplete(p.recoveryExpiresAt)), outcomes, outcome);
  }

  /**
    `complete` on an approved invitation whose deadline is ahead: the view is completed and the deadline
    renewed, and the stored entry says so. If the write fails, the invitation is connecting again with the
    deadline it had.
   */
  lemma CompleteCompletes(s: Server, id: nat, now: int, outcomes: seq<Outcome>, outcome: Outcome)
    requires Inv(s, id) && Open(s, id) && s.invitations[id].approved && NoApprovalUnderWay(s, id)
    requires s.invitations[id].recoveryExpiresAt.Some? && now < s.invitations[id].recoveryExpiresAt.value
    requires |outcomes| == |s.writes|
    ensures CompletedIf(outcome.Stored?, s.invitations[id], Settled(Step(s, Complete(id, now)), outcomes, outcome), id,
                        now + 600_000)
  {
    CompleteAsks(s, id, now);
    CompletionEnds(s, Step(s, Complete(id, now)), id, s.invitations[id], now + 600_000, outcomes, outcome);
  }

  // Everything but the store's acknowledgements is as before.
  predicate SameServer(s: Server, t: Server, id: nat) {
    && t.up == s.up && t.invitations == s.invitations && t.writes == s.writes && t.wakes == s.wakes
    && t.persisted == s.persisted && t.durable == s.durable && t.used == s.used && HistoryOf(t, id) == HistoryOf(s, id)
  }

  predicate ApprovalUnderWay(s: Server, id: nat) {
    exists k :: 0 <= k < |s.writes| && s.writes[k].id == id && Approving(s.writes[k])
  }

  lemma {:induction false} BusyWrites(writes: seq<Write>, id: nat, k: nat) returns (j: nat)
    requires k < |writes| && writes[k].id == id && Approving(writes[k])
    ensures j < |WritesOf(writes, id)| && Approving(WritesOf(writes, id)[j])
  {
    if k == 0 {
      j := 0;
    } else {
      j := BusyWrites(writes[1..], id, k - 1);
      if writes[0].id == id {
        j := j + 1;
      }
    }
  }

  lemma NotSettled(s: Server, id: nat)
    requires ApprovalUnderWay(s, id)
    ensures !ApprovalSettled(WritesOf(s.writes, id), WakesOf(s.wakes, id))
  {
    var k: nat :| k < |s.writes| && s.writes[k].id == id && Approving(s.writes[k]);
    var _ := BusyWrites(s.writes, id, k);
  }

  lemma Unextended(s: Server)
    ensures s.writes + [] == s.writes && s.wakes + [] == s.wakes
    ensures forall id | id in s.invitations :: s.invitations[id := s.invitations[id]] == s.invitations
  {
  }

  // Without an approval, while one is under way, or past the deadline, `complete` changes nothing.
  lemma CompleteRefused(s: Server, id: nat, now: int)
    requires Open(s, id)
    requires
      || !s.invitations[id].approved || ApprovalUnderWay(s, id)
      || (s.invitations[id].recoveryExpiresAt.Some? && s.invitations[id].recoveryExpiresAt.value <= now)
    ensures SameServer(s, Step(s, Complete(id, now)), id)
  {
    if ApprovalUnderWay(s, id) {
      NotSettled(s, id);
    }
    Unextended(s);
  }

  // ----- Claiming -----

  lemma ClaimAsks(s: Server, id: nat, now: int)
    requires Open(s, id) && !s.invitations[id].claimed && !s.invitations[id].approved
    requires s.invitations[id].binding.Some? && s.invitations[id].submission
    ensures var p, t := s.invitations[id], Step(s, ClaimApproval(id, now));
            && id in t.invitations && HistoryOf(t, id) == HistoryOf(s, id)
            && t.invitations[id] == p.(claimed := true, recoveryExpiresAt := Some(now + 600_000))
            && Asks(s, t, Persist(id, Entry(id, p.binding.value, true, false, p.authorizationExpired,
                                            Some(now + 600_000), p.view == Completed), FinishClaim))
  {
  }

  /**
    `claimApproval` while a joiner waits: the claim returns and binds the request, in memory and in the
    store, for ten minutes. If the write fails, nothing is bound and nothing has been promised.
   */
  lemma ClaimClaims(s: Server, id: nat, now: int, outcomes: seq<Outcome>, outcome: Outcome)
    requires Open(s, id) && !s.invitations[id].claimed && !s.invitations[id].approved
    requires s.invitations[id].binding.Some? && s.invitations[id].submission && |outcomes| == |s.writes|
    ensures var p, t := s.invitations[id], Settled(Step(s, ClaimApproval(id, now)), outcomes, outcome);
            && t.up && id in t.invitations
            && t.invitations[id]
               == (if outcome.Stored? then p.(claimed := true, recoveryExpiresAt := Some(now + 600_000))
                   else p.(recoveryExpiresAt := None))
            && (outcome.Stored? ==>
                  && RecordOf(t, id).returned && RecordOf(t, id).claim == p.binding
                  && Find(t.durable, id).Some? && Some(Find(t.durable, id).value.binding) == p.binding
                  && Find(t.durable, id).value.claimed && !Find(t.durable, id).value.approved
                  && Find(t.durable, id).value.recoveryExpiresAt == Some(now + 600_000))
            && (!outcome.Stored? ==> HistoryOf(t, id) == HistoryOf(s, id))
  {
    var p := s.invitations[id];
    ClaimAsks(s, id, now);
    Finishes(s, Step(s, ClaimApproval(id, now)),
      Persist(id, Entry(id, p.binding.value, true, false, p.authorizationExpired, Some(now + 600_000),
                        p.view == Completed), FinishClaim), outcomes, outcome);
  }

  // A claim of a claimed invitation returns at once; one of an invitation nobody waits for does nothing.
  lemma ClaimAnswers(s: Server, id: nat, now: int)
    requires Open(s, id)
    requires s.invitations[id].claimed || s.invitations[id].approved || !s.invitations[id].submission
    ensures var p, t := s.invitations[id], Step(s, ClaimApproval(id, now));
            && t.invitations == s.invitations && t.writes == s.writes && t.wakes == s.wakes && t.durable == s.durable
            && (p.claimed || p.approved ==>
                  RecordOf(t, id).returned && (p.binding.Some? ==> RecordOf(t, id).claim == p.binding))
            && (!p.claimed && !p.approved ==> HistoryOf(t, id) == HistoryOf(s, id))
  {
    Unextended(s);
  }

  // ----- Approving -----

  lemma ApproveAsks(s: Server, id: nat, now: int)
    requires Open(s, id) && s.invitations[id].claimed && !s.invitations[id].approved
    requires s.invitations[id].binding.Some?
    ensures var p, t := s.invitations[id], Step(s, Approve(id, now));
            && id in t.invitations && HistoryOf(t, id) == HistoryOf(s, id) && t.invitations[id] == p.(approved := true)
            && Asks(s, t, Persist(id, Entry(id, p.binding.value, true, true, p.authorizationExpired,
                                            p.recoveryExpiresAt, p.view == Completed), FinishApprove))
  {
  }

  // What an approval that has ended leaves behind.
  predicate Approved(p: Pending, t: Server, id: nat) {
    && t.up && id in t.invitations && t.invitations[id] == p.(claimed := true, approved := true, submission := false)
    && (p.submission ==> RecordOf(t, id).reply == p.binding)
    && Find(t.durable, id).Some? && Some(Find(t.durable, id).value.binding) == p.binding
    && Find(t.durable, id).value.claimed && Find(t.durable, id).value.approved
    && Find(t.durable, id).value.recoveryExpiresAt == p.recoveryExpiresAt
  }

  /**
    `approve` of a claimed invitation: it is approved in memory and in the store, and a joiner who waits gets
    the answer. If the write fails, it is claimed as before and nothing has been answered.
   */
  lemma ApproveApproves(s: Server, id: nat, now: int, outcomes: seq<Outcome>, outcome: Outcome)
    requires Open(s, id) && s.invitations[id].claimed && !s.invitations[id].approved
    requires s.invitations[id].binding.Some? && |outcomes| == |s.writes|
    ensures var p, t := s.invitations[id], Settled(Step(s, Approve(id, now)), outcomes, outcome);
            && (outcome.Stored? ==> Approved(p, t, id))
            && (!outcome.Stored? ==>
                  t.up && id in t.invitations && t.invitations[id] == p && HistoryOf(t, id) == HistoryOf(s, id))
  {
    var p := s.invitations[id];
    ApproveAsks(s, id, now);
    Finishes(s, Step(s, Approve(id, now)),
      Persist(id, Entry(id, p.binding.value, true, true, p.authorizationExpired, p.recoveryExpiresAt,
                        p.view == Completed), FinishApprove), outcomes, outcome);
  }

  lemma ApproveClaims(s: Server, id: nat, now: int)
    requires Open(s, id) && !s.invitations[id].claimed && !s.invitations[id].approved
    requires s.invitations[id].binding.Some? && s.invitations[id].submission
    ensures var p, t := s.invitations[id], Step(s, Approve(id, now));
            && id in t.invitations && HistoryOf(t, id) == HistoryOf(s, id)
            && t.invitations[id] == p.(claimed := true, recoveryExpiresAt := Some(now + 600_000))
            && Asks(s, t, Persist(id, Entry(id, p.binding.value, true, false, p.authorizationExpired,
                                            Some(now + 600_000), p.view == Completed), ClaimedForApproval))
  {
  }

  /**
    `approve` of an invitation nobody has claimed, while a joiner waits: first the claim is written, then the
    approval. If the first write fails, nothing is bound; if the second does, the claim stands.
   */
  lemma ApproveUnclaimed(
      s: Server, id: nat, now: int, outcomes: seq<Outcome>, claimed: Outcome, approved: Outcome)
    requires Open(s, id) && !s.invitations[id].claimed && !s.invitations[id].approved
    requires s.invitations[id].binding.Some? && s.invitations[id].submission && |outcomes| == |s.writes|
    ensures var p, t := s.invitations[id], Settled(Step(s, Approve(id, now)), outcomes, claimed);
            var q, u := p.(claimed := true, recoveryExpiresAt := Some(now + 600_000)), Settled(t, [], approved);
            && (!claimed.Stored? ==>
                  && t.up && id in t.invitations && t.invitations[id] == p.(recoveryExpiresAt := None)
                  && t.writes == [] && HistoryOf(t, id) == HistoryOf(s, id))
            && (claimed.Stored? && approved.Stored? ==> Approved(q, u, id))
            && (claimed.Stored? && !approved.Stored? ==>
                  u.up && id in u.invitations && u.invitations[id] == q && HistoryOf(u, id) == HistoryOf(s, id))
  {
    var p, t := s.invitations[id], Settled(Step(s, Approve(id, now)), outcomes, claimed);
    ApproveClaims(s, id, now);
    ClaimThenApprove(s, Step(s, Approve(id, now)), id, p, now + 600_000, outcomes, claimed);
    if claimed.Stored? {
      ApprovalEnds(t, id, p, now + 600_000, approved);
    }
  }

  // The write that `approve` asks for after the claim's.
  function ApprovalWrite(id: nat, p: Pending, deadline: int): Write
    requires p.binding.Some?
  {
    Persist(id, Entry(id, p.binding.value, true, true, p.authorizationExpired, Some(deadline), p.view == Completed),
            FinishApprove)
  }

  lemma ClaimThenApprove(
      s: Server, t: Server, id: nat, p: Pending, deadline: int, outcomes: seq<Outcome>, claimed: Outcome)
    requires p.binding.Some? && !p.claimed && !p.approved && p.tokenLive && p.view in {Waiting, Connecting, Completed}
    requires id in t.invitations && |outcomes| == |s.writes|
    requires t.invitations[id] == p.(claimed := true, recoveryExpiresAt := Some(deadline))
    requires Asks(s, t, Persist(id, Entry(id, p.binding.value, true, false, p.authorizationExpired, Some(deadline),
                                          p.view == Completed), ClaimedForApproval))
    ensures var u := Settled(t, outcomes, claimed);
            && u.up && id in u.invitations && HistoryOf(u, id) == HistoryOf(t, id)
            && (if claimed.Stored? then
                  && u.invitations[id] == p.(claimed := true, approved := true, recoveryExpiresAt := Some(deadline))
                  && u.writes == [ApprovalWrite(id, p, deadline)]
                else u.invitations[id] == p.(recoveryExpiresAt := None) && u.writes == [])
  {
    Finishes(s, t, Persist(id, Entry(id, p.binding.value, true, false, p.authorizationExpired, Some(deadline),
                                     p.view == Completed), ClaimedForApproval), outcomes, claimed);
  }

  lemma ApprovalEnds(t: Server, id: nat, p: Pending, deadline: int, approved: Outcome)
    requires p.binding.Some? && t.up && id in t.invitations && t.writes == [ApprovalWrite(id, p, deadline)]
    requires t.invitations[id] == p.(claimed := true, approved := true, recoveryExpiresAt := Some(deadline))
    requires !p.claimed && !p.approved && p.tokenLive
    ensures var q, u := p.(claimed := true, recoveryExpiresAt := Some(deadline)), Settled(t, [], approved);
            && (approved.Stored? ==> Approved(q, u, id))
            && (!approved.Stored? ==>
                  u.up && id in u.invitations && u.invitations[id] == q && HistoryOf(u, id) == HistoryOf(t, id))
  {
    assert Asks(t.(writes := []), t, ApprovalWrite(id, p, deadline));
    Finishes(t.(writes := []), t, ApprovalWrite(id, p, deadline), [], approved);
  }

  // An approved invitation, and one nobody waits for and nobody claimed, is not approved again.
  lemma ApproveRefused(s: Server, id: nat, now: int)
    requires Open(s, id)
    requires var p := s.invitations[id]; p.approved || p.binding.None? || (!p.claimed && !p.submission)
    ensures SameServer(s, Step(s, Approve(id, now)), id)
  {
    Unextended(s);
  }

  // ----- Asking -----

  /**
    The first request of an invitation: it is bound to the request and the label, and the joiner waits.
    Nothing is written.
   */
  lemma SubmitBinds(s: Server, id: nat, b: Binding)
    requires Open(s, id) && s.invitations[id].binding.None? && s.invitations[id].view != Completed
    requires !s.invitations[id].authorizationExpired
    ensures var t := Step(Step(s, Submit(id, b)), Resume(|s.wakes|));
            && t.up && id in t.invitations
            && t.invitations[id] == s.invitations[id].(binding := Some(b), view := Connecting, submission := true)
            && t.writes == s.writes && t.durable == s.durable && HistoryOf(t, id) == HistoryOf(s, id)
  {
    var t := Step(s, Submit(id, b));
    Unextended(s);
    assert t.wakes == s.wakes + [Wake(id, ThenWait, true)];
    Continues(t, id, ThenWait, true);
    assert t.writes + [] == t.writes;
  }

  // A request that is not the bound one, comes after the end, or while the same one waits, changes nothing.
  lemma SubmitRefused(s: Server, id: nat, b: Binding)
    requires Open(s, id)
    requires
      var p := s.invitations[id];
      || p.view == Completed
      || (p.binding.Some? && p.binding != Some(b))
      || (p.authorizationExpired && !(p.claimed && p.binding == Some(b)))
      || (p.binding.Some? && !p.approved && (!p.claimed || p.submission))
      || (p.binding.Some? && p.approved && ApprovalUnderWay(s, id))
    ensures SameServer(s, Step(s, Submit(id, b)), id)
  {
    if ApprovalUnderWay(s, id) {
      NotSettled(s, id);
    }
    Unextended(s);
  }

  lemma ResubmitAsks(s: Server, id: nat)
    requires Open(s, id) && s.invitations[id].binding.Some? && s.invitations[id].view != Completed
    requires s.invitations[id].claimed && NoApprovalUnderWay(s, id)
    requires s.invitations[id].approved || !s.invitations[id].submission
    ensures var p, t := s.invitations[id], Step(s, Submit(id, s.invitations[id].binding.value));
            && id in t.invitations && t.invitations[id] == p && HistoryOf(t, id) == HistoryOf(s, id)
            && Asks(s, t, Persist(id, Entry(id, p.binding.value, true, p.approved, p.authorizationExpired,
                                            p.recoveryExpiresAt, false),
                                  if p.approved then ReplyApproved else ThenWait))
  {
    QuietIsSettled(s, id);
  }

  /**
    The bound request again, also after the authorization has expired: once its write is stored an approved
    joiner gets the answer and a claimed one waits again. If the write fails, nothing happens.
   */
  lemma ResubmitAnswers(s: Server, id: nat, outcomes: seq<Outcome>, outcome: Outcome)
    requires Open(s, id) && s.invitations[id].binding.Some? && s.invitations[id].view != Completed
    requires s.invitations[id].claimed && NoApprovalUnderWay(s, id) && |outcomes| == |s.writes|
    requires s.invitations[id].approved || !s.invitations[id].submission
    ensures var p := s.invitations[id];
            var t := Settled(Step(s, Submit(id, p.binding.value)), outcomes, outcome);
            && t.up && id in t.invitations
            && t.invitations[id] == (if outcome.Stored? && !p.approved then p.(submission := true) else p)
            && (if outcome.Stored? && p.approved then RecordOf(t, id).reply == p.binding
                else HistoryOf(t, id) == HistoryOf(s, id))
  {
    var p := s.invitations[id];
    ResubmitAsks(s, id);
    Finishes(s, Step(s, Submit(id, p.binding.value)),
      Persist(id, Entry(id, p.binding.value, true, p.approved, p.authorizationExpired, p.recoveryExpiresAt, false),
              if p.approved then ReplyApproved else ThenWait), outcomes, outcome);
  }

  /**
    A joiner who leaves: an unclaimed invitation can be asked for by anybody again, a claimed one stays bound
    to the request.
   */
  lemma DisconnectFrees(s: Server, id: nat, c: Binding)
    requires Open(s, id) && s.invitations[id].submission && s.invitations[id].view == Connecting
    requires s.invitations[id].binding.Some? && !s.invitations[id].authorizationExpired
    ensures var p, t := s.invitations[id], Step(s, Disconnect(id));
            && Open(t, id) && !t.invitations[id].submission && t.durable == s.durable && t.writes == s.writes
            && HistoryOf(t, id) == HistoryOf(s, id)
            && (if p.claimed then t.invitations[id] == p.(submission := false)
                else t.invitations[id] == p.(submission := false, binding := None, view := Waiting)
                     && Step(t, Submit(id, c)).invitations[id].binding == Some(c))
  {
    Unextended(s);
  }

  // `control`, and the first write of `complete`: an approved invitation is written as it is, any other is refused.
  lemma ControlWrites(s: Server, id: nat, outcomes: seq<Outcome>, outcome: Outcome)
    requires Inv(s, id) && Open(s, id) && |outcomes| == |s.writes|
    ensures !s.invitations[id].approved || ApprovalUnderWay(s, id) ==> SameServer(s, Step(s, Control(id)), id)
    ensures s.invitations[id].approved && NoApprovalUnderWay(s, id) ==>
              var p, t := s.invitations[id], Settled(Step(s, Control(id)), outcomes, outcome);
              && t.up && id in t.invitations && t.invitations[id] == p && HistoryOf(t, id) == HistoryOf(s, id)
              && (outcome.Stored? ==>
                    && Find(t.durable, id).Some? && Some(Find(t.durable, id).value.binding) == p.binding
                    && Find(t.durable, id).value.approved && Find(t.durable, id).value.claimed
                    && (Find(t.durable, id).value.completed <==> p.view == Completed)
                    && Find(t.durable, id).value.recoveryExpiresAt == p.recoveryExpiresAt)
  {
    Unextended(s);
    var p := s.invitations[id];
    if ApprovalUnderWay(s, id) {
      NotSettled(s, id);
    } else if p.approved && NoApprovalUnderWay(s, id) {
      QuietIsSettled(s, id);
      var w := Persist(id, Entry(id, p.binding.value, true, true, p.authorizationExpired, p.recoveryExpiresAt,
                                 p.view == Completed), Nothing);
      assert Asks(s, Step(s, Control(id)), w);
      Finishes(s, Step(s, Control(id)), w, outcomes, outcome);
    }
  }

  // ----- Ends -----

  // The invitation is over: no token, no request, nobody waiting.
  predicate Closed(p: Pending, view: View) {
    p.view == view && !p.tokenLive && p.binding.None? && !p.submission && p.recoveryExpiresAt.None?
  }

  /** An invitation that nobody has claimed can be cancelled; a claimed, approved or completed one cannot. */
  lemma CancelCancels(s: Server, id: nat)
    requires Open(s, id)
    ensures var p, t := s.invitations[id], Step(s, Cancel(id));
            if p.claimed || p.approved || p.view == Completed then SameServer(s, t, id)
            else id in t.invitations && Closed(t.invitations[id], Cancelled) && Asks(s, t, Delete(id))
                 && RecordOf(t, id).cancelled
  {
    Unextended(s);
  }

  // `fail` closes any invitation, and withdraws what was promised.
  lemma FailCloses(s: Server, id: nat)
    requires Open(s, id)
    ensures var t := Step(s, Fail(id));
            && id in t.invitations && Closed(t.invitations[id], Failed) && Asks(s, t, Delete(id))
            && RecordOf(t, id).claim.None? && RecordOf(t, id).reply.None? && RecordOf(t, id).pledge.None?
  {
    Unextended(s);
  }

  /**
    The end of the invitation's own time closes it unless it has been claimed; then only the request that is
    bound may still come back.
   */
  lemma InvitationTimeEnds(s: Server, id: nat)
    requires Inv(s, id) && Open(s, id)
    ensures var p, t := s.invitations[id], Step(s, InvitationExpires(id));
            && id in t.invitations
            && (if p.claimed then
                  && t.invitations[id] == p.(authorizationExpired := true) && HistoryOf(t, id) == HistoryOf(s, id)
                  && p.binding.Some?
                  && Asks(s, t, Persist(id, Entry(id, p.binding.value, true, p.approved, true, p.recoveryExpiresAt,
                                                  p.view == Completed), Nothing))
                else if p.view == Completed then t.invitations[id] == p
                else Closed(t.invitations[id], Expired) && Asks(s, t, Delete(id)))
  {
    Unextended(s);
  }

  // The end of the recovery window closes a claimed invitation for good, and only such a one.
  lemma RecoveryTimeEnds(s: Server, id: nat)
    requires Open(s, id)
    ensures var t := Step(s, RecoveryExpires(id));
            if s.invitations[id].claimed then
              && id in t.invitations && Closed(t.invitations[id], Expired) && Asks(s, t, Delete(id))
              && RecordOf(t, id).claim.None? && RecordOf(t, id).reply.None?
            else SameServer(s, t, id)
  {
    Unextended(s);
  }

  // Stopping the server keeps claimed invitations for the next start and cancels the others.
  lemma StopKeepsClaimed(s: Server, id: nat)
    requires Open(s, id)
    ensures var p, t := s.invitations[id], Step(s, Stop(id));
            && id in t.invitations
            && (if p.claimed then t.invitations[id] == p.(submission := false) && t.writes == s.writes
                else Closed(t.invitations[id], Cancelled) && Asks(s, t, Delete(id)))
  {
    Unextended(s);
  }

  // A closed invitation stays closed, whatever is asked of it.
  lemma ClosedStays(s: Server, e: Event, id: nat)
    requires Inv(s, id) && s.up && id in s.invitations && s.invitations[id].view in {Expired, Failed, Cancelled}
    requires !s.invitations[id].tokenLive && !s.invitations[id].submission && NamesInvitation(e) && e.id == id
    ensures var t := Step(s, e); id in t.invitations && t.invitations[id].view == s.invitations[id].view
    ensures Step(s, e).writes == s.writes
  {
    Unextended(s);
  }

  // ----- Creating -----

  predicate IsOver(p: Pending) {
    p.view in {Expired, Cancelled, Failed}
  }

  function Ongoing(s: Server): set<nat> {
    set id | id in s.invitations && !IsOver(s.invitations[id])
  }

  /**
    A new invitation is created exactly if fewer than eight are going on: it waits, with nothing bound. Those
    that are over are forgotten, and the others stay as they are.
   */
  lemma CreateCreates(s: Server, id: nat)
    requires Sound(s) && s.up && id !in s.used
    ensures var t := Step(s, Create(id));
            && (id in t.invitations <==> |Ongoing(s)| < 8)
            && (forall x | x in s.invitations :: x in t.invitations <==> !IsOver(s.invitations[x]))
            && (forall x | x in t.invitations ::
                  t.invitations[x] == if x == id then Pending(Waiting, None, false, false, false, false, None, true)
                                      else s.invitations[x])
            && t.writes == s.writes && t.wakes == s.wakes && t.durable == s.durable
  {
    assert At(s, id) == Untouched(true);
    assert Purged(s.invitations).Keys == Ongoing(s);
  }

  // ----- The store -----

  // The ids of the entries, in order.
  function Order(entries: seq<Entry>): seq<nat> {
    seq(|entries|, k requires 0 <= k < |entries| => entries[k].id)
  }

  function Without(ids: seq<nat>, id: nat): seq<nat> {
    if ids == [] then [] else (if ids[0] == id then [] else [ids[0]]) + Without(ids[1..], id)
  }

  lemma {:induction false} PutOrder(entries: seq<Entry>, e: Entry)
    ensures Order(Put(entries, e))
         == if Find(entries, e.id).Some? then Order(entries) else Order(entries) + [e.id]
  {
    if entries == [] {
      assert Put(entries, e) == [e];
    } else if entries[0].id == e.id {
      assert Order(Put(entries, e))[0] == e.id;
      assert forall k | 0 < k < |entries| :: Put(entries, e)[k] == entries[k];
    } else {
      PutOrder(entries[1..], e);
      assert Order(entries) == [entries[0].id] + Order(entries[1..]);
      assert Order(Put(entries, e)) == [entries[0].id] + Order(Put(entries[1..], e));
    }
  }

  lemma {:induction false} WithoutNone(entries: seq<Entry>, id: nat)
    requires forall k | 0 <= k < |entries| :: entries[k].id != id
    ensures Without(Order(entries), id) == Order(entries)
  {
    if entries != [] {
      WithoutNone(entries[1..], id);
      assert Order(entries)[1..] == Order(entries[1..]);
      assert Order(entries) == [entries[0].id] + Order(entries[1..]);
    }
  }

  lemma {:induction false} DropOrder(entries: seq<Entry>, id: nat)
    requires Unique(entries)
    ensures Order(Drop(entries, id)) == Without(Order(entries), id)
  {
    if entries != [] {
      assert Order(entries)[1..] == Order(entries[1..]);
      if entries[0].id == id {
        assert forall k | 0 < k < |entries| :: entries[k].id != entries[0].id;
        WithoutNone(entries[1..], id);
      } else {
        DropOrder(entries[1..], id);
        assert Order(Drop(entries, id)) == [entries[0].id] + Order(Drop(entries[1..], id));
      }
    }
  }

  /**
    The end of a write of an entry. Stored: the store and the map are equal and hold the entry, at its old
    place or at the end, and every other entry as before. Not stored: the map is as before, and the store
    holds either what it held or what was to be stored.
   */
  lemma PersistEnds(s: Server, outcome: Outcome, x: nat)
    requires Sound(s) && s.up && s.writes != [] && s.writes[0].Persist?
    ensures var w, t := s.writes[0], Step(s, WriteEnds(outcome));
            && (outcome.Stored? ==>
                  && t.durable == t.persisted
                  && Find(t.durable, x) == (if x == w.entry.id then Some(w.entry) else Find(s.persisted, x))
                  && Order(t.durable) == (if Find(s.persisted, w.entry.id).Some? then Order(s.persisted)
                                          else Order(s.persisted) + [w.entry.id]))
            && (!outcome.Stored? ==> t.persisted == s.persisted)
            && (outcome.KeptOld? ==> t.durable == s.durable)
            && (outcome.LeftNew? ==> t.durable == Step(s, WriteEnds(Stored)).durable)
            && t.writes == s.writes[1..] && t.wakes == s.wakes + [Wake(w.id, w.after, outcome.Stored?)]
  {
    FindPut(s.persisted, s.writes[0].entry, x);
    PutOrder(s.persisted, s.writes[0].entry);
  }

  /**
    The end of a delete. If the map does not hold the entry, nothing is written. Otherwise, stored: the entry
    is gone; not stored: the map has it back, now at the end.
   */
  lemma DeleteEnds(s: Server, outcome: Outcome, x: nat)
    requires Sound(s) && s.up && s.writes != [] && s.writes[0].Delete?
    ensures var id, t := s.writes[0].id, Step(s, WriteEnds(outcome));
            && t.writes == s.writes[1..] && t.wakes == s.wakes
            && (Find(s.persisted, id).None? ==> t.durable == s.durable && Find(t.persisted, x) == Find(s.persisted, x))
            && (Find(s.persisted, id).Some? && outcome.Stored? ==>
                  && t.durable == t.persisted && Order(t.durable) == Without(Order(s.persisted), id)
                  && Find(t.durable, x) == (if x == id then None else Find(s.persisted, x)))
            && (Find(s.persisted, id).Some? && !outcome.Stored? ==>
                  && Order(t.persisted) == Without(Order(s.persisted), id) + [id]
                  && Find(t.persisted, x) == Find(s.persisted, x))
            && (outcome.KeptOld? ==> t.durable == s.durable)
            && (outcome.LeftNew? ==> t.durable == Step(s, WriteEnds(Stored)).durable)
  {
    var id := s.writes[0].id;
    FindDrop(s.persisted, id, x);
    DropOrder(s.persisted, id);
    assert s.wakes + [] == s.wakes;
    if Find(s.persisted, id).Some? {
      var e := Find(s.persisted, id).value;
      var k := FindFirst(s.persisted, id);
      FindSnoc(Drop(s.persisted, id), e, x);
      DropUnique(s.persisted, id);
      assert Order(Drop(s.persisted, id) + [e]) == Order(Drop(s.persisted, id)) + [id];
    } else {
      DropMissing(s.persisted, id);
    }
  }

  lemma {:induction false} DropMissing(entries: seq<Entry>, id: nat)
    requires Find(entries, id).None?
    ensures Drop(entries, id) == entries
  {
    if entries != [] {
      DropMissing(entries[1..], id);
    }
  }

  lemma {:induction false} FindSnoc(entries: seq<Entry>, e: Entry, x: nat)
    ensures Find(entries + [e], x)
         == if Find(entries, x).Some? then Find(entries, x) else if x == e.id then Some(e) else None
  {
    if entries != [] {
      assert (entries + [e])[1..] == entries[1..] + [e];
      FindSnoc(entries[1..], e, x);
    }
  }

  // ----- Stopping and starting -----

  // A crash forgets everything but the store; the write under way may still have reached it.
  lemma CrashForgets(s: Server, applied: bool)
    requires s.up
    ensures var t := Step(s, Crash(applied));
            && !t.up && t.invitations == map[] && t.writes == [] && t.wakes == [] && t.persisted == []
            && (t.durable == s.durable
                || (applied && s.writes != [] && t.durable == Step(s, WriteEnds(Stored)).durable))
            && (applied && s.writes != [] && s.writes[0].Persist? ==>
                  t.durable == Step(s, WriteEnds(Stored)).durable)
  {
  }

  // The window of a stored entry is still open.
  predicate StillOpen(e: Entry, now: int) {
    && e.claimed && (e.completed ==> e.approved)
    && e.recoveryExpiresAt.Some? && now < e.recoveryExpiresAt.value
  }

  /**
    A restart brings back each of the first eight entries whose window is open, as it was stored: completed or
    connecting, bound, claimed, approved if it was, and with its authorization expired if its time has come.
   */
  lemma RestartRestores(s: Server, now: int, lapsed: set<nat>, k: nat)
    requires Sound(s) && !s.up && k < |s.durable| && k < 8 && StillOpen(s.durable[k], now)
    ensures var e, t := s.durable[k], Step(s, Restart(now, lapsed, Stored));
            var expired := e.authorizationExpired || e.id in lapsed;
            && t.up && e.id in t.invitations
            && t.invitations[e.id]
               == Pending(if e.completed then Completed else Connecting, Some(e.binding), false, true, e.approved,
                          expired, e.recoveryExpiresAt, true)
            && Find(t.durable, e.id) == Some(e.(authorizationExpired := expired)) && t.persisted == t.durable
            && t.writes == [] && t.wakes == []
  {
    var read, id := FirstEight(s.durable), s.durable[k].id;
    PrefixUnique(s.durable);
    FindRestored(read, now, lapsed, id);
    FoundInIds(Restored(read, now, lapsed), id);
    assert read[k] == s.durable[k];
    FindAt(read, k);
  }

  // What a restart does not bring back is gone, and a restart whose write fails does not come up.
  lemma RestartDrops(s: Server, now: int, lapsed: set<nat>, outcome: Outcome)
    requires Sound(s) && !s.up
    ensures var t := Step(s, Restart(now, lapsed, outcome));
            && (t.up <==> outcome.Stored? || s.durable == [])
            && (outcome.KeptOld? ==> t.durable == s.durable)
            && (!t.up ==> t.invitations == s.invitations || t.invitations == map[])
            && (t.up ==> forall id | id in t.invitations ::
                  exists k :: 0 <= k < |s.durable| && k < 8 && s.durable[k].id == id && StillOpen(s.durable[k], now))
  {
    var t := Step(s, Restart(now, lapsed, outcome));
    if t.up {
      forall id | id in t.invitations
        ensures exists k :: 0 <= k < |s.durable| && k < 8 && s.durable[k].id == id && StillOpen(s.durable[k], now)
      {
        RestoredIsOpen(s, now, lapsed, id);
      }
    }
  }

  lemma RestoredIsOpen(s: Server, now: int, lapsed: set<nat>, id: nat)
    requires Sound(s) && id in RevivedOf(Restored(FirstEight(s.durable), now, lapsed))
    ensures exists k :: 0 <= k < |s.durable| && k < 8 && s.durable[k].id == id && StillOpen(s.durable[k], now)
  {
    var read := FirstEight(s.durable);
    PrefixUnique(s.durable);
    FindRestored(read, now, lapsed, id);
    var k := FindFirst(read, id);
    assert read[k] == s.durable[k];
  }

  /**
    A completed pairing survives: after a crash and a restart within ten minutes it is completed again, with the
    same request, as long as its entry is among the first eight.
   */
  lemma CompletedReturns(
      s: Server, id: nat, now: int, outcomes: seq<Outcome>, later: int, lapsed: set<nat>, k: nat)
    requires Inv(s, id) && Open(s, id) && s.invitations[id].approved && NoApprovalUnderWay(s, id)
    requires s.invitations[id].recoveryExpiresAt.Some? && now < s.invitations[id].recoveryExpiresAt.value
    requires |outcomes| == |s.writes| && later < now + 600_000
    requires var t := Settled(Step(s, Complete(id, now)), outcomes, Stored);
             k < |t.durable| && k < 8 && t.durable[k].id == id
    ensures var t := Settled(Step(s, Complete(id, now)), outcomes, Stored);
            var u := Step(Step(t, Crash(false)), Restart(later, lapsed, Stored));
            && u.up && id in u.invitations && u.invitations[id].view == Completed
            && u.invitations[id].approved && u.invitations[id].claimed
            && u.invitations[id].binding == s.invitations[id].binding
            && u.invitations[id].recoveryExpiresAt == Some(now + 600_000)
  {
    var s1 := Step(s, Complete(id, now));
    var t := Settled(s1, outcomes, Stored);
    CompleteCompletes(s, id, now, outcomes, Stored);
    SettledSound(s, Complete(id, now), outcomes, Stored);
    FindAt(t.durable, k);
    SoundStep(t, Crash(false));
    CrashForgets(t, false);
    RestartRestores(Step(t, Crash(false)), later, lapsed, k);
  }

  lemma SettledSound(s: Server, e: Event, outcomes: seq<Outcome>, outcome: Outcome)
    requires Sound(s)
    ensures Sound(Settled(Step(s, e), outcomes, outcome))
  {
    var t := Step(s, e);
    SoundStep(s, e);
    SoundRun(t, Ends(outcomes));
    var u := Run(t, Ends(outcomes));
    SoundStep(u, WriteEnds(outcome));
    var v := Step(u, WriteEnds(outcome));
    if v.wakes != [] {
      SoundStep(v, Resume(|v.wakes| - 1));
    }
  }

  // ----- A pairing from start to end -----

  function OneEntry(b: Binding, approved: bool, completed: bool): Entry {
    Entry(0, b, true, approved, false, Some(600_000), completed)
  }

  // The server when only this invitation has ever existed and everything has been written.
  function OneInvitation(b: Binding, p: Pending, wakes: seq<Wake>, e: Entry, reply: Option<Binding>): Server {
    Server(true, map[0 := p], [e], [e], [], wakes, {0}, map[0 := Record(
             Some(Pledge(b, e.approved)), Some(b), reply, true, false, false)])
  }

  function ClaimedBy(b: Binding): Pending {
    Pending(Connecting, Some(b), true, true, false, false, Some(600_000), true)
  }

  lemma ClaimIsWritten(b: Binding)
    ensures Run(ClaimUnderWay(b), [WriteEnds(Stored), Resume(0)])
         == OneInvitation(b, ClaimedBy(b), [], OneEntry(b, false, false), None)
    ensures Disciplined(ClaimUnderWay(b), [WriteEnds(Stored), Resume(0)], 0)
  {
    var s, e := ClaimUnderWay(b), OneEntry(b, false, false);
    assert Put([], e) == [e];
    var t := Server(true, map[0 := ClaimedBy(b)], [e], [e], [], [Wake(0, FinishClaim, true)], {0},
      map[0 := BLANK.(pledge := Some(Pledge(b, false)))]);
    assert Step(s, WriteEnds(Stored)) == t;
    assert Step(t, Resume(0)) == OneInvitation(b, ClaimedBy(b), [], e, None);
    RunTwo(s, WriteEnds(Stored), Resume(0));
  }

  lemma ApprovalIsWritten(b: Binding)
    ensures var s := OneInvitation(b, ClaimedBy(b), [], OneEntry(b, false, false), None);
            && Run(s, [Approve(0, 0), WriteEnds(Stored)])
               == OneInvitation(b, ClaimedBy(b).(approved := true), [Wake(0, FinishApprove, true)],
                                OneEntry(b, true, false), None)
            && Disciplined(s, [Approve(0, 0), WriteEnds(Stored)], 0)
  {
    var s, e := OneInvitation(b, ClaimedBy(b), [], OneEntry(b, false, false), None), OneEntry(b, true, false);
    var t := s.(invitations := map[0 := ClaimedBy(b).(approved := true)], writes := [Persist(0, e, FinishApprove)]);
    assert Step(s, Approve(0, 0)) == t;
    assert Put([OneEntry(b, false, false)], e) == [e] + [OneEntry(b, false, false)][1..] == [e];
    RunTwo(s, Approve(0, 0), WriteEnds(Stored));
  }

  lemma AnswerIsSent(b: Binding)
    ensures var s := OneInvitation(b, ClaimedBy(b).(approved := true), [Wake(0, FinishApprove, true)],
        OneEntry(b, true, false), None);
            var p := ClaimedBy(b).(approved := true, submission := false, view := Completed);
            && Run(s, [Resume(0), Complete(0, 0)])
               == OneInvitation(b, p, [], OneEntry(b, true, false), Some(b)).(
                    writes := [Persist(0, OneEntry(b, true, true), FinishComplete(Some(600_000)))])
            && Disciplined(s, [Resume(0), Complete(0, 0)], 0)
  {
    var s := OneInvitation(b, ClaimedBy(b).(approved := true), [Wake(0, FinishApprove, true)],
      OneEntry(b, true, false), None);
    var t := OneInvitation(b, ClaimedBy(b).(approved := true, submission := false), [], OneEntry(b, true, false),
      Some(b));
    assert Step(s, Resume(0)) == t;
    AnsweredCompletes(b);
    RunTwo(s, Resume(0), Complete(0, 0));
  }

  lemma AnsweredCompletes(b: Binding)
    ensures var p := ClaimedBy(b).(approved := true, submission := false);
            Step(OneInvitation(b, p, [], OneEntry(b, true, false), Some(b)), Complete(0, 0))
            == OneInvitation(b, p.(view := Completed), [], OneEntry(b, true, false), Some(b)).(
                 writes := [Persist(0, OneEntry(b, true, true), FinishComplete(Some(600_000)))])
  {
  }

  lemma CompletionIsWritten(b: Binding)
    ensures var p := ClaimedBy(b).(approved := true, submission := false, view := Completed);
            var s := OneInvitation(b, p, [], OneEntry(b, true, false), Some(b)).(
              writes := [Persist(0, OneEntry(b, true, true), FinishComplete(Some(600_000)))]);
            && Run(s, [WriteEnds(Stored), Resume(0)]) == OneInvitation(b, p, [], OneEntry(b, true, true), Some(b))
            && Disciplined(s, [WriteEnds(Stored), Resume(0)], 0)
  {
    var p, e := ClaimedBy(b).(approved := true, submission := false, view := Completed), OneEntry(b, true, true);
    var w := Persist(0, e, FinishComplete(Some(600_000)));
    var s := OneInvitation(b, p, [], OneEntry(b, true, false), Some(b)).(writes := [w]);
    assert Put([OneEntry(b, true, false)], e) == [e] + [OneEntry(b, true, false)][1..] == [e];
    assert Step(s, WriteEnds(Stored))
      == OneInvitation(b, p, [Wake(0, FinishComplete(Some(600_000)), true)], e, Some(b));
    RunTwo(s, WriteEnds(Stored), Resume(0));
  }

  function Enrollment(b: Binding): seq<Event> {
    (ClaimStarts(b) + [WriteEnds(Stored), Resume(0)]) + [Approve(0, 0), WriteEnds(Stored)]
  }

  lemma ApprovalReached(b: Binding)
    ensures Run(INITIAL, Enrollment(b))
         == OneInvitation(b, ClaimedBy(b).(approved := true), [Wake(0, FinishApprove, true)],
                          OneEntry(b, true, false), None)
    ensures Disciplined(INITIAL, Enrollment(b), 0)
  {
    ClaimStarted(b);
    ClaimIsWritten(b);
    ApprovalIsWritten(b);
    RunAppend(INITIAL, ClaimStarts(b), [WriteEnds(Stored), Resume(0)], 0);
    RunAppend(INITIAL, ClaimStarts(b) + [WriteEnds(Stored), Resume(0)], [Approve(0, 0), WriteEnds(Stored)], 0);
  }

  /**
    A disciplined run in which everything happens: a joiner asks, the claim returns, the approval is answered, the
    pairing is completed, and the store says so.
   */
  lemma PairingSucceeds(b: Binding)
    ensures var events := (Enrollment(b) + [Resume(0), Complete(0, 0)]) + [WriteEnds(Stored), Resume(0)];
            var s := Run(INITIAL, events);
            && Disciplined(INITIAL, events, 0)
            && RecordOf(s, 0).claim == Some(b) && RecordOf(s, 0).returned && RecordOf(s, 0).reply == Some(b)
            && 0 in s.invitations && s.invitations[0].view == Completed && s.writes == []
            && Find(s.durable, 0) == Some(Entry(0, b, true, true, false, Some(600_000), true))
  {
    ApprovalReached(b);
    AnswerIsSent(b);
    CompletionIsWritten(b);
    RunAppend(INITIAL, Enrollment(b), [Resume(0), Complete(0, 0)], 0);
    RunAppend(INITIAL, Enrollment(b) + [Resume(0), Complete(0, 0)], [WriteEnds(Stored), Resume(0)], 0);
  }
}
