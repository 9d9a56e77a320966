/**
  From stored events to timeline rows: the expansion of transcripts into events of their own, when rows of
  the timeline have distinct ids, and why they always do on what a conversation shows.
 */
module Conversation {
  import opened Wrappers
  import opened Sequences
  import opened Timeline

  // ----- Where rows are -----

  predicate DistinctEvents(events: seq<Event>) {
    forall i, j {:trigger events[i].id, events[j].id} | 0 <= i < j < |events| :: events[i].id != events[j].id
  }

  // A whole run of at least two tool events.
  predicate ToolRun(events: seq<Event>, a: nat, b: nat) {
    && a + 2 <= b <= |events| && (forall k | a <= k < b :: events[k].tool)
    && (a > 0 ==> !events[a - 1].tool) && (b < |events| ==> !events[b].tool)
  }

  // An event that is in no such run.
  predicate Alone(events: seq<Event>, k: nat) {
    && k < |events|
    && (events[k].tool ==> (k > 0 ==> !events[k - 1].tool) && (k + 1 < |events| ==> !events[k + 1].tool))
  }

  // The id of the row of a run.
  function RunId(events: seq<Event>, a: nat, b: nat): string
    requires ToolRun(events, a, b)
  {
    GROUP_PREFIX + events[a].id + ":" + events[b - 1].id
  }

  // Where the events of a row begin among all events.
  function Begin(items: seq<Item>, k: nat): nat
    requires k <= |items|
  {
    if k == 0 then 0 else Begin(items, k - 1) + |EventsOf(items[k - 1])|
  }

  lemma {:induction false} BeginShifts(items: seq<Item>, k: nat)
    requires 0 < k <= |items|
    ensures Begin(items, k) == |EventsOf(items[0])| + Begin(items[1..], k - 1)
  {
    if k > 1 {
      BeginShifts(items, k - 1);
      assert items[1..][k - 2] == items[k - 1];
    }
  }

  lemma {:induction false} EventsAt(items: seq<Item>, k: nat)
    requires k < |items|
    ensures Begin(items, k + 1) <= |Flattened(items)|
    ensures EventsOf(items[k]) == Flattened(items)[Begin(items, k)..Begin(items, k + 1)]
  {
    if k > 0 {
      EventsAt(items[1..], k - 1);
      BeginShifts(items, k);
      BeginShifts(items, k + 1);
    }
  }

  lemma {:induction false} BeginEnd(items: seq<Item>)
    ensures Begin(items, |items|) == |Flattened(items)|
  {
    if items != [] {
      BeginShifts(items, |items|);
      BeginEnd(items[1..]);
    }
  }

  lemma {:induction false} BeginRises(items: seq<Item>, i: nat, k: nat)
    requires i <= k <= |items|
    ensures Begin(items, i) <= Begin(items, k)
  {
    if i < k {
      BeginRises(items, i, k - 1);
    }
  }

  lemma {:induction false} RowHolding(items: seq<Item>, p: nat, n: nat) returns (k: nat)
    requires n <= |items| && p < Begin(items, n)
    ensures k < n && Begin(items, k) <= p < Begin(items, k + 1)
  {
    if p < Begin(items, n - 1) {
      k := RowHolding(items, p, n - 1);
    } else {
      k := n - 1;
    }
  }

  // The row of a tool group is a whole run, and any other row is a lone event.
  predicate RowAt(items: seq<Item>, events: seq<Event>, k: nat)
    requires k < |items|
  {
    var a, b := Begin(items, k), Begin(items, k + 1);
    if items[k].ToolGroup?
    then ToolRun(events, a, b) && items[k].id == RunId(events, a, b)
    else b == a + 1 && Alone(events, a) && items[k].id == events[a].id
  }

  lemma RowBefore(items: seq<Item>, events: seq<Event>, k: nat)
    requires Groups(items, events) && k < |items| && IsTool(items[k])
    ensures Begin(items, k) > 0 ==> Begin(items, k) <= |events| && !events[Begin(items, k) - 1].tool
  {
    if k > 0 {
      EventsAt(items, k - 1);
      assert WellFormed(items[k - 1]) && !IsTool(items[k - 1]);
      assert Begin(items, k) == Begin(items, k - 1) + 1;
    }
  }

  lemma RowAfter(items: seq<Item>, events: seq<Event>, k: nat)
    requires Groups(items, events) && k < |items| && IsTool(items[k])
    ensures Begin(items, k + 1) < |events| ==> !events[Begin(items, k + 1)].tool
  {
    if k + 1 < |items| {
      EventsAt(items, k + 1);
      assert WellFormed(items[k + 1]) && !(IsTool(items[k]) && IsTool(items[k + 1]));
    } else {
      BeginEnd(items);
    }
  }

  lemma RowEnds(items: seq<Item>, events: seq<Event>, k: nat)
    requires Groups(items, events) && k < |items|
    ensures WellFormed(items[k]) && EventsOf(items[k]) != []
    ensures var row, a, b := EventsOf(items[k]), Begin(items, k), Begin(items, k + 1);
            b == a + |row| <= |events| && row[0] == events[a] && row[|row| - 1] == events[b - 1]
  {
    EventsAt(items, k);
    assert WellFormed(items[k]);
  }

  lemma RowTools(items: seq<Item>, events: seq<Event>, k: nat)
    requires Groups(items, events) && k < |items| && items[k].ToolGroup?
    ensures Begin(items, k + 1) <= |events|
    ensures forall p | Begin(items, k) <= p < Begin(items, k + 1) :: events[p].tool
  {
    EventsAt(items, k);
    assert WellFormed(items[k]);
    var a, b := Begin(items, k), Begin(items, k + 1);
    forall p | a <= p < b
      ensures events[p].tool
    {
      assert events[p] == items[k].events[p - a];
    }
  }

  lemma RowsAre(items: seq<Item>, events: seq<Event>, k: nat)
    requires Groups(items, events) && k < |items|
    ensures RowAt(items, events, k)
  {
    RowEnds(items, events, k);
    if IsTool(items[k]) {
      RowBefore(items, events, k);
      RowAfter(items, events, k);
    }
    if items[k].ToolGroup? {
      RowTools(items, events, k);
    }
  }

  lemma RunsEqual(events: seq<Event>, a: nat, b: nat, c: nat, d: nat)
    requires ToolRun(events, a, b) && ToolRun(events, c, d) && c <= a < d
    ensures a == c && b == d
  {
  }

  lemma NotAlone(events: seq<Event>, p: nat, a: nat, b: nat)
    requires ToolRun(events, a, b) && a <= p < b
    ensures !Alone(events, p)
  {
    if a < p {
      assert events[p - 1].tool;
    } else {
      assert events[p + 1].tool;
    }
  }

  lemma RowOfRun(items: seq<Item>, events: seq<Event>, a: nat, b: nat) returns (k: nat)
    requires Groups(items, events) && ToolRun(events, a, b)
    ensures k < |items| && items[k].ToolGroup? && Begin(items, k) == a && Begin(items, k + 1) == b
  {
    BeginEnd(items);
    k := RowHolding(items, a, |items|);
    RowsAre(items, events, k);
    if items[k].ToolGroup? {
      RunsEqual(events, a, b, Begin(items, k), Begin(items, k + 1));
    } else {
      NotAlone(events, a, a, b);
    }
  }

  lemma RowOfAlone(items: seq<Item>, events: seq<Event>, p: nat) returns (k: nat)
    requires Groups(items, events) && Alone(events, p)
    ensures k < |items| && items[k].Single? && Begin(items, k) == p
  {
    BeginEnd(items);
    k := RowHolding(items, p, |items|);
    RowsAre(items, events, k);
    if items[k].ToolGroup? {
      assert false;
    }
  }

  // ----- When row ids are distinct -----

  // Two runs whose first and last ids read the same.
  predicate SameEnds(events: seq<Event>, a: nat, b: nat, c: nat, d: nat) {
    && ToolRun(events, a, b) && ToolRun(events, c, d) && a < c
    && events[a].id + ":" + events[b - 1].id == events[c].id + ":" + events[d - 1].id
  }

  // A lone event with the id of a run.
  predicate NamedAsRun(events: seq<Event>, k: nat, a: nat, b: nat) {
    Alone(events, k) && ToolRun(events, a, b) && events[k].id == RunId(events, a, b)
  }

  ghost predicate Clash(events: seq<Event>) {
    || (exists a: nat, b: nat, c: nat, d: nat :: SameEnds(events, a, b, c, d))
    || (exists k: nat, a: nat, b: nat :: NamedAsRun(events, k, a, b))
  }

  lemma Prefixed(a: string, b: string)
    ensures GROUP_PREFIX + a + ":" + b == GROUP_PREFIX + (a + ":" + b)
    ensures (GROUP_PREFIX + a + ":" + b)[|GROUP_PREFIX|..] == a + ":" + b
  {
    Regroup(GROUP_PREFIX, a, ":");
    Regroup(GROUP_PREFIX, a + ":", b);
  }

  lemma EqualIdsClash(items: seq<Item>, events: seq<Event>, i: nat, j: nat)
    requires Groups(items, events) && DistinctEvents(events) && i < j < |items| && items[i].id == items[j].id
    ensures Clash(events)
  {
    RowsAre(items, events, i);
    RowsAre(items, events, j);
    BeginRises(items, i + 1, j);
    var a, b, c, d := Begin(items, i), Begin(items, i + 1), Begin(items, j), Begin(items, j + 1);
    if items[i].Single? {
      assert items[j].ToolGroup? && NamedAsRun(events, a, c, d);
    } else if items[j].Single? {
      assert NamedAsRun(events, c, a, b);
    } else {
      SameRunIds(events, a, b, c, d);
    }
  }

  lemma SameRunIds(events: seq<Event>, a: nat, b: nat, c: nat, d: nat)
    requires ToolRun(events, a, b) && ToolRun(events, c, d) && a < c
    ensures SameEnds(events, a, b, c, d) <==> RunId(events, a, b) == RunId(events, c, d)
  {
    Prefixed(events[a].id, events[b - 1].id);
    Prefixed(events[c].id, events[d - 1].id);
  }

  lemma EndsClash(items: seq<Item>, events: seq<Event>, a: nat, b: nat, c: nat, d: nat)
    requires Groups(items, events) && SameEnds(events, a, b, c, d)
    ensures !DistinctIds(items)
  {
    var i := RowOfRun(items, events, a, b);
    var j := RowOfRun(items, events, c, d);
    RowsAre(items, events, i);
    RowsAre(items, events, j);
    SameRunIds(events, a, b, c, d);
    assert items[i].id == items[j].id && i != j;
  }

  lemma NameClashes(items: seq<Item>, events: seq<Event>, k: nat, a: nat, b: nat)
    requires Groups(items, events) && NamedAsRun(events, k, a, b)
    ensures !DistinctIds(items)
  {
    var i := RowOfAlone(items, events, k);
    var j := RowOfRun(items, events, a, b);
    RowsAre(items, events, i);
    RowsAre(items, events, j);
    assert items[i].id == items[j].id && i != j;
  }

  // Rows of distinct events have distinct ids exactly if no two runs, and no run and lone event, clash.
  lemma GroupedIdsDistinct(items: seq<Item>, events: seq<Event>)
    requires Groups(items, events) && DistinctEvents(events)
    ensures DistinctIds(items) <==> !Clash(events)
  {
    if Clash(events) {
      if a: nat, b: nat, c: nat, d: nat :| SameEnds(events, a, b, c, d) {
        EndsClash(items, events, a, b, c, d);
      } else {
        var k: nat, a: nat, b: nat :| NamedAsRun(events, k, a, b);
        NameClashes(items, events, k, a, b);
      }
    } else {
      forall i, j {:trigger items[i].id, items[j].id} | 0 <= i < j < |items|
        ensures items[i].id != items[j].id
      {
        if items[i].id == items[j].id {
          EqualIdsClash(items, events, i, j);
        }
      }
    }
  }

  // ----- Expanding transcripts -----

  const MARKER := ":approval-display:"
  const PENDING_PREFIX := "pending-response:"
  const UUID_LENGTH := 36

  datatype Segment = Message(sequence: nat, content: string) | ToolUse(sequence: nat, content: string)

  datatype Activity = ApprovalStatus | OtherActivity

  datatype Source = Source(
    event: Event, actor: Option<string>, approvalActivity: bool, activity: Option<Activity>, decision: bool,
    transcript: Option<seq<Segment>>)

  predicate IsCanonical(s: Source) {
    && s.transcript.None? && s.activity.None? && !s.decision && !s.approvalActivity
    && s.actor in {Some("user"), Some("assistant"), Some("agent"), Some("subagent")}
  }

  // The digits of a number.
  function Decimal(n: nat): string {
    if n < 10 then [Digit(n)] else Decimal(n / 10) + [Digit(n % 10)]
  }

  function Digit(n: nat): char
    requires n < 10
  {
    '0' + n as char
  }

  function DisplayId(source: string, sequence: nat, index: nat): string {
    source + MARKER + (Decimal(sequence) + ":" + Decimal(index))
  }

  function SegmentEvent(s: Source, segment: Segment, index: nat): Event {
    Event(DisplayId(s.event.id, segment.sequence, index), s.event.timestamp, segment.ToolUse?, segment.content)
  }

  // What one stored event is shown as.
  function Displayed(s: Source, hasCanonicalMessages: bool): seq<Event> {
    if s.approvalActivity || s.activity == Some(ApprovalStatus) then []
    else if s.transcript.None? then [s.event]
    else if hasCanonicalMessages then []
    else
      var segments := s.transcript.value;
      seq(|segments|, k requires 0 <= k < |segments| => SegmentEvent(s, segments[k], k))
  }

  function DisplayedAll(sources: seq<Source>, hasCanonicalMessages: bool): seq<Event> {
    if sources == [] then []
    else Displayed(sources[0], hasCanonicalMessages) + DisplayedAll(sources[1..], hasCanonicalMessages)
  }

  function ExpandConversationDisplayEvents(sources: seq<Source>): seq<Event> {
    DisplayedAll(sources, exists k | 0 <= k < |sources| :: IsCanonical(sources[k]))
  }

  function Filtered(events: seq<Event>, keep: Event -> bool): seq<Event> {
    if events == [] then []
    else (if keep(events[0]) then [events[0]] else []) + Filtered(events[1..], keep)
  }

  // What a conversation shows: the surface decides which expanded events are visible.
  function Shown(sources: seq<Source>, keep: Event -> bool): seq<Event> {
    Filtered(ExpandConversationDisplayEvents(sources), keep)
  }

  // ----- What is shown -----

  // The numbers of the events that are kept.
  function KeptOf(events: seq<Event>, keep: Event -> bool, n: nat): seq<nat>
    requires n <= |events|
  {
    if n == 0 then []
    else KeptOf(events, keep, n - 1) + if keep(events[n - 1]) then [n - 1] else []
  }

  lemma {:induction false} KeptAt(events: seq<Event>, keep: Event -> bool, n: nat, k: nat)
    requires n <= |events|
    ensures k in KeptOf(events, keep, n) <==> k < n && keep(events[k])
  {
    if n > 0 {
      KeptAt(events, keep, n - 1, k);
      var front := KeptOf(events, keep, n - 1);
      assert k in front + [n - 1] <==> k in front || k == n - 1;
    }
  }

  lemma {:induction false} KeptRise(events: seq<Event>, keep: Event -> bool, n: nat)
    requires n <= |events|
    ensures forall i, j | 0 <= i < j < |KeptOf(events, keep, n)| ::
              KeptOf(events, keep, n)[i] < KeptOf(events, keep, n)[j]
  {
    if n > 0 {
      KeptRise(events, keep, n - 1);
      var front := KeptOf(events, keep, n - 1);
      forall i | 0 <= i < |front|
        ensures front[i] < n - 1
      {
        KeptAt(events, keep, n - 1, front[i]);
      }
    }
  }

  lemma {:induction false} FilteredSnoc(events: seq<Event>, keep: Event -> bool, last: Event)
    ensures Filtered(events + [last], keep) == Filtered(events, keep) + if keep(last) then [last] else []
  {
    if events == [] {
      assert events + [last] == [last] && [last][1..] == [];
    } else {
      assert (events + [last])[1..] == events[1..] + [last];
      FilteredSnoc(events[1..], keep, last);
    }
  }

  lemma {:induction false} FilteredAre(events: seq<Event>, keep: Event -> bool, n: nat)
    requires n <= |events|
    ensures |Filtered(events[..n], keep)| == |KeptOf(events, keep, n)|
    ensures forall j | 0 <= j < |KeptOf(events, keep, n)| ::
              KeptOf(events, keep, n)[j] < n && Filtered(events[..n], keep)[j] == events[KeptOf(events, keep, n)[j]]
  {
    if n > 0 {
      FilteredAre(events, keep, n - 1);
      assert events[..n] == events[..n - 1] + [events[n - 1]];
      FilteredSnoc(events[..n - 1], keep, events[n - 1]);
    }
  }

  /** Of the expanded events exactly those that the surface keeps are shown, in their order. */
  lemma ShownExactly(sources: seq<Source>, keep: Event -> bool) returns (kept: seq<nat>)
    ensures var events := ExpandConversationDisplayEvents(sources);
            && (forall k: nat :: k in kept <==> k < |events| && keep(events[k]))
            && (forall i, j | 0 <= i < j < |kept| :: kept[i] < kept[j])
            && |Shown(sources, keep)| == |kept|
            && forall j | 0 <= j < |kept| :: kept[j] < |events| && Shown(sources, keep)[j] == events[kept[j]]
  {
    var events := ExpandConversationDisplayEvents(sources);
    kept := KeptOf(events, keep, |events|);
    assert events[..|events|] == events;
    KeptRise(events, keep, |events|);
    FilteredAre(events, keep, |events|);
    forall k: nat
      ensures k in kept <==> k < |events| && keep(events[k])
    {
      KeptAt(events, keep, |events|, k);
    }
  }

  // The number that the digits spell, most significant first.
  function Value(digits: string): int {
    if digits == [] then 0
    else Value(digits[..|digits| - 1]) * 10 + (digits[|digits| - 1] as int - '0' as int)
  }

  lemma {:induction false} DecimalSpells(n: nat)
    ensures Value(Decimal(n)) == n && Decimal(n) != [] && (n > 0 ==> Decimal(n)[0] != '0')
  {
    if n >= 10 {
      DecimalSpells(n / 10);
      assert Decimal(n)[..|Decimal(n)| - 1] == Decimal(n / 10);
    } else {
      assert Decimal(n)[..0] == [];
    }
  }

  // Some stored event is a message of its own.
  predicate HasMessages(sources: seq<Source>) {
    exists i :: 0 <= i < |sources|
      && sources[i].transcript == None && sources[i].activity == None && !sources[i].decision
      && !sources[i].approvalActivity && sources[i].actor.Some?
      && (var actor := sources[i].actor.value;
          actor == "user" || actor == "assistant" || actor == "agent" || actor == "subagent")
  }

  // The event that the k-th segment of a transcript is shown as.
  predicate IsSegment(s: Source, k: nat, e: Event)
    requires s.transcript.Some? && k < |s.transcript.value|
  {
    var segment := s.transcript.value[k];
    && e.id == s.event.id + ":approval-display:" + Decimal(segment.sequence) + ":" + Decimal(k)
    && e.timestamp == s.event.timestamp && e.content == segment.content && (e.tool <==> segment.ToolUse?)
  }

  /**
    What the stored events are shown as, one after another: nothing for approvals; an event without a transcript
    as it is; one with a transcript as its segments, in order, unless the conversation has messages of its own.
   */
  lemma {:induction false} ExpandedAre(sources: seq<Source>) returns (parts: seq<seq<Event>>)
    ensures ExpandConversationDisplayEvents(sources) == Flatten(parts) && |parts| == |sources|
    ensures forall i | 0 <= i < |sources| ::
              var s, part := sources[i], parts[i];
              if s.approvalActivity || s.activity == Some(ApprovalStatus) then part == []
              else if s.transcript.None? then part == [s.event]
              else if HasMessages(sources) then part == []
              else |part| == |s.transcript.value| && forall k | 0 <= k < |part| :: IsSegment(s, k, part[k])
  {
    var canonical := exists k | 0 <= k < |sources| :: IsCanonical(sources[k]);
    parts := seq(|sources|, i requires 0 <= i < |sources| => Displayed(sources[i], canonical));
    DisplayedJoin(sources, canonical);
    CanonicalIsMessage(sources);
    forall i | 0 <= i < |sources| && sources[i].transcript.Some?
      ensures forall k | 0 <= k < |parts[i]| :: IsSegment(sources[i], k, parts[i][k])
    {
      SegmentsAre(sources[i], canonical);
    }
  }

  lemma CanonicalIsMessage(sources: seq<Source>)
    ensures HasMessages(sources) <==> exists k | 0 <= k < |sources| :: IsCanonical(sources[k])
  {
    if k :| 0 <= k < |sources| && IsCanonical(sources[k]) {
      assert sources[k].actor.Some?;
    }
    if HasMessages(sources) {
      var i :| 0 <= i < |sources|
        && sources[i].transcript == None && sources[i].activity == None && !sources[i].decision
        && !sources[i].approvalActivity && sources[i].actor.Some?
        && (var actor := sources[i].actor.value;
            actor == "user" || actor == "assistant" || actor == "agent" || actor == "subagent");
      assert IsCanonical(sources[i]);
    }
  }

  lemma SegmentsAre(s: Source, canonical: bool)
    requires s.transcript.Some?
    ensures forall k | 0 <= k < |Displayed(s, canonical)| :: IsSegment(s, k, Displayed(s, canonical)[k])
  {
    forall k: nat | k < |Displayed(s, canonical)|
      ensures IsSegment(s, k, Displayed(s, canonical)[k])
    {
      JoinedId(s.event.id, Decimal(s.transcript.value[k].sequence), Decimal(k));
    }
  }

  lemma JoinedId(id: string, sequence: string, index: string)
    ensures id + MARKER + (sequence + ":" + index) == id + ":approval-display:" + sequence + ":" + index
  {
    Regroup(id + MARKER, sequence, ":");
    Regroup(id + MARKER, sequence + ":", index);
  }

  lemma {:induction false} DisplayedJoin(sources: seq<Source>, canonical: bool)
    ensures DisplayedAll(sources, canonical)
         == Flatten(seq(|sources|, i requires 0 <= i < |sources| => Displayed(sources[i], canonical)))
  {
    if sources != [] {
      var rest := sources[1..];
      DisplayedJoin(rest, canonical);
      assert seq(|sources|, i requires 0 <= i < |sources| => Displayed(sources[i], canonical))[1..]
          == seq(|rest|, i requires 0 <= i < |rest| => Displayed(rest[i], canonical));
    }
  }

  // ----- The ids of what is shown -----

  // All that matters of a UUID: its length, and no colon in it.
  predicate Uuid(id: string) {
    |id| == UUID_LENGTH && ':' !in id
  }

  // The event's schema: a UUID, or the placeholder of a response that is still to come.
  predicate Stored(s: Source) {
    && (s.event.tool <==> s.actor == Some("tool"))
    && (Uuid(s.event.id) || (!s.event.tool && s.transcript.None? && PENDING_PREFIX <= s.event.id))
  }

  predicate DistinctSources(sources: seq<Source>) {
    forall i, j {:trigger sources[i], sources[j]} | 0 <= i < j < |sources| :: sources[i].event.id != sources[j].event.id
  }

  ghost predicate IsDisplayId(id: string) {
    exists u: string, s: nat, i: nat {:trigger DisplayId(u, s, i)} :: Uuid(u) && id == DisplayId(u, s, i)
  }

  ghost predicate Shaped(e: Event) {
    Uuid(e.id) || IsDisplayId(e.id) || (!e.tool && PENDING_PREFIX <= e.id)
  }

  lemma {:induction false} DecimalHasNoColon(n: nat)
    ensures ':' !in Decimal(n) && Decimal(n) != []
  {
    assert Digit(n % 10) != ':';
    if n >= 10 {
      DecimalHasNoColon(n / 10);
    }
  }

  lemma {:induction false} DecimalInjective(m: nat, n: nat)
    requires Decimal(m) == Decimal(n)
    ensures m == n
  {
    DecimalHasNoColon(m / 10);
    DecimalHasNoColon(n / 10);
    var x, y := Decimal(m), Decimal(n);
    assert x[|x| - 1] == Digit(m % 10) && y[|y| - 1] == Digit(n % 10);
    if m >= 10 && n >= 10 {
      assert x[..|x| - 1] == Decimal(m / 10) && y[..|y| - 1] == Decimal(n / 10);
      DecimalInjective(m / 10, n / 10);
    }
  }

  lemma FirstColon(a: string, b: string, c: string, d: string)
    requires ':' !in a && ':' !in c && a + ":" + b == c + ":" + d
    ensures a == c && b == d
  {
    var x, y := a + ":" + b, c + ":" + d;
    assert x[|a|] == ':' && y[|c|] == ':';
    assert forall k | 0 <= k < |a| :: x[k] == a[k];
    assert forall k | 0 <= k < |c| :: y[k] == c[k];
    assert x[..|a|] == a && y[..|c|] == c && x[|a| + 1..] == b && y[|c| + 1..] == d;
  }

  // The id of an expanded event, read from the front.
  lemma DisplayIdParts(u: string, s: nat, i: nat)
    requires Uuid(u)
    ensures var id := DisplayId(u, s, i);
            && |id| > UUID_LENGTH + |MARKER| && id[..UUID_LENGTH] == u
            && id[UUID_LENGTH..UUID_LENGTH + |MARKER|] == MARKER
            && id[UUID_LENGTH + |MARKER|..] == Decimal(s) + ":" + Decimal(i)
  {
  }

  lemma DisplayIdInjective(u: string, s: nat, i: nat, j: nat, t: nat)
    requires Uuid(u) && DisplayId(u, s, i) == DisplayId(u, t, j)
    ensures s == t && i == j
  {
    DisplayIdParts(u, s, i);
    DisplayIdParts(u, t, j);
    DecimalHasNoColon(s);
    DecimalHasNoColon(t);
    FirstColon(Decimal(s), Decimal(i), Decimal(t), Decimal(j));
    DecimalInjective(s, t);
    DecimalInjective(i, j);
  }

  // The first 36 characters of what a tool event is called hold no colon.
  lemma Opening(id: string)
    requires Uuid(id) || IsDisplayId(id)
    ensures |id| >= UUID_LENGTH && ':' !in id[..UUID_LENGTH]
  {
    if Uuid(id) {
      assert id[..UUID_LENGTH] == id;
    } else {
      var u: string, s: nat, i: nat :| Uuid(u) && id == DisplayId(u, s, i);
      DisplayIdParts(u, s, i);
    }
  }

  lemma PlainIsNotDisplay(a: string, b: string, c: string, d: string)
    requires Uuid(a) && (Uuid(b) || IsDisplayId(b)) && IsDisplayId(c)
    ensures a + ":" + b != c + ":" + d
  {
    var u: string, s: nat, i: nat :| Uuid(u) && c == DisplayId(u, s, i);
    DisplayIdParts(u, s, i);
    Opening(b);
    var second := UUID_LENGTH + |MARKER| - 1;
    assert c[UUID_LENGTH..UUID_LENGTH + |MARKER|][|MARKER| - 1] == ':';
    assert (c + ":" + d)[second] == c[second] == ':';
    assert (a + ":" + b)[second] == b[second - UUID_LENGTH - 1] == b[..UUID_LENGTH][second - UUID_LENGTH - 1];
  }

  lemma DisplaysApart(a: string, b: string, c: string, d: string)
    requires IsDisplayId(a) && IsDisplayId(c) && a + ":" + b == c + ":" + d
    ensures a == c
  {
    var u: string, s: nat, i: nat :| Uuid(u) && a == DisplayId(u, s, i);
    var v: string, t: nat, j: nat :| Uuid(v) && c == DisplayId(v, t, j);
    DisplayIdParts(u, s, i);
    DisplayIdParts(v, t, j);
    var cut := UUID_LENGTH + |MARKER|;
    var x, y := a + ":" + b, c + ":" + d;
    assert u == x[..UUID_LENGTH] == y[..UUID_LENGTH] == v;
    assert x[cut..] == Decimal(s) + ":" + Decimal(i) + ":" + b;
    assert y[cut..] == Decimal(t) + ":" + Decimal(j) + ":" + d;
    FourParts(Decimal(s), Decimal(i), b);
    FourParts(Decimal(t), Decimal(j), d);
    DecimalHasNoColon(s);
    DecimalHasNoColon(t);
    DecimalHasNoColon(i);
    DecimalHasNoColon(j);
    FirstColon(Decimal(s), Decimal(i) + ":" + b, Decimal(t), Decimal(j) + ":" + d);
    FirstColon(Decimal(i), b, Decimal(j), d);
  }

  lemma FourParts(s: string, i: string, b: string)
    ensures s + ":" + i + ":" + b == s + ":" + (i + ":" + b)
  {
    Regroup(s + ":", i, ":");
    Regroup(s + ":", i + ":", b);
  }

  // The first id can be read from the joined ids of a run.
  lemma EndsApart(a: string, b: string, c: string, d: string)
    requires (Uuid(a) || IsDisplayId(a)) && (Uuid(b) || IsDisplayId(b))
    requires (Uuid(c) || IsDisplayId(c)) && (Uuid(d) || IsDisplayId(d))
    requires a + ":" + b == c + ":" + d
    ensures a == c
  {
    if Uuid(a) && Uuid(c) {
      FirstColon(a, b, c, d);
    } else if Uuid(a) {
      PlainIsNotDisplay(a, b, c, d);
    } else if Uuid(c) {
      PlainIsNotDisplay(c, d, a, b);
    } else {
      DisplaysApart(a, b, c, d);
    }
  }

  lemma NotNamedAsRun(e: Event, a: string, b: string)
    requires Shaped(e)
    ensures e.id != GROUP_PREFIX + a + ":" + b
  {
    Prefixed(a, b);
    var id := GROUP_PREFIX + (a + ":" + b);
    assert id[0] == 't' && id[|GROUP_PREFIX| - 1] == ':';
    if Uuid(e.id) || IsDisplayId(e.id) {
      Opening(e.id);
      assert |e.id| >= UUID_LENGTH && e.id[|GROUP_PREFIX| - 1] == e.id[..UUID_LENGTH][|GROUP_PREFIX| - 1];
    } else {
      assert e.id[0] == 'p';
    }
  }

  lemma ShapedNeverClash(events: seq<Event>)
    requires DistinctEvents(events) && forall k | 0 <= k < |events| :: Shaped(events[k])
    ensures !Clash(events)
  {
    forall a: nat, b: nat, c: nat, d: nat
      ensures !SameEnds(events, a, b, c, d)
    {
      if SameEnds(events, a, b, c, d) {
        assert Shaped(events[a]) && Shaped(events[b - 1]) && Shaped(events[c]) && Shaped(events[d - 1]);
        EndsApart(events[a].id, events[b - 1].id, events[c].id, events[d - 1].id);
      }
    }
    forall k: nat, a: nat, b: nat
      ensures !NamedAsRun(events, k, a, b)
    {
      if NamedAsRun(events, k, a, b) {
        NotNamedAsRun(events[k], events[a].id, events[b - 1].id);
      }
    }
  }

  // ----- The expansion keeps ids apart -----

  // The stored id behind a shown one.
  function Root(id: string): string {
    if |id| >= UUID_LENGTH && ':' !in id[..UUID_LENGTH] then id[..UUID_LENGTH] else id
  }

  lemma DisplayedFrom(s: Source, canonical: bool, k: nat)
    requires Stored(s) && k < |Displayed(s, canonical)|
    ensures var e := Displayed(s, canonical)[k]; Shaped(e) && Root(e.id) == s.event.id
  {
    var e := Displayed(s, canonical)[k];
    if s.transcript.Some? {
      DisplayIdParts(s.event.id, s.transcript.value[k].sequence, k);
    } else if Uuid(e.id) {
      assert e.id[..UUID_LENGTH] == e.id;
    } else if |e.id| >= UUID_LENGTH {
      assert e.id[..UUID_LENGTH][|PENDING_PREFIX| - 1] == e.id[|PENDING_PREFIX| - 1] == ':';
    }
  }

  lemma DisplayedDistinct(s: Source, canonical: bool)
    requires Stored(s)
    ensures DistinctEvents(Displayed(s, canonical))
  {
    var shown := Displayed(s, canonical);
    forall i, j {:trigger shown[i].id, shown[j].id} | 0 <= i < j < |shown|
      ensures shown[i].id != shown[j].id
    {
      var segments := s.transcript.value;
      if shown[i].id == shown[j].id {
        DisplayIdInjective(s.event.id, segments[i].sequence, i, j, segments[j].sequence);
      }
    }
  }

  lemma {:induction false} DisplayedAllFrom(sources: seq<Source>, canonical: bool, k: nat) returns (n: nat)
    requires (forall i | 0 <= i < |sources| :: Stored(sources[i])) && k < |DisplayedAll(sources, canonical)|
    ensures n < |sources|
    ensures var e := DisplayedAll(sources, canonical)[k]; Shaped(e) && Root(e.id) == sources[n].event.id
  {
    var first := Displayed(sources[0], canonical);
    if k < |first| {
      DisplayedFrom(sources[0], canonical, k);
      n := 0;
    } else {
      n := DisplayedAllFrom(sources[1..], canonical, k - |first|);
      n := n + 1;
    }
  }

  lemma DistinctAppend(a: seq<Event>, b: seq<Event>)
    requires DistinctEvents(a) && DistinctEvents(b)
    requires forall i, j | 0 <= i < |a| && 0 <= j < |b| :: a[i].id != b[j].id
    ensures DistinctEvents(a + b)
  {
  }

  lemma {:induction false} DisplayedAllDistinct(sources: seq<Source>, canonical: bool)
    requires DistinctSources(sources) && forall i | 0 <= i < |sources| :: Stored(sources[i])
    ensures DistinctEvents(DisplayedAll(sources, canonical))
  {
    if sources != [] {
      var first, rest := Displayed(sources[0], canonical), DisplayedAll(sources[1..], canonical);
      DisplayedDistinct(sources[0], canonical);
      assert DistinctSources(sources[1..]);
      DisplayedAllDistinct(sources[1..], canonical);
      forall i, j | 0 <= i < |first| && 0 <= j < |rest|
        ensures first[i].id != rest[j].id
      {
        DisplayedFrom(sources[0], canonical, i);
        var n := DisplayedAllFrom(sources[1..], canonical, j);
        assert sources[0].event.id != sources[n + 1].event.id;
      }
      DistinctAppend(first, rest);
    }
  }

  lemma {:induction false} FilteredFrom(events: seq<Event>, keep: Event -> bool, k: nat) returns (n: nat)
    requires k < |Filtered(events, keep)|
    ensures n < |events| && events[n] == Filtered(events, keep)[k]
  {
    if keep(events[0]) && k == 0 {
      n := 0;
    } else {
      n := FilteredFrom(events[1..], keep, if keep(events[0]) then k - 1 else k);
      n := n + 1;
    }
  }

  lemma {:induction false} FilteredDistinct(events: seq<Event>, keep: Event -> bool)
    requires DistinctEvents(events)
    ensures DistinctEvents(Filtered(events, keep))
  {
    if events != [] {
      var rest := Filtered(events[1..], keep);
      FilteredDistinct(events[1..], keep);
      forall j | 0 <= j < |rest|
        ensures events[0].id != rest[j].id
      {
        var n := FilteredFrom(events[1..], keep, j);
        assert events[0].id != events[n + 1].id;
      }
      DistinctAppend(if keep(events[0]) then [events[0]] else [], rest);
    }
  }

  // What is shown of distinct stored events has distinct ids, expanded transcripts included.
  lemma ShownEventsDistinct(sources: seq<Source>, keep: Event -> bool)
    requires DistinctSources(sources) && forall i | 0 <= i < |sources| :: Stored(sources[i])
    ensures DistinctEvents(Shown(sources, keep))
    ensures forall k | 0 <= k < |Shown(sources, keep)| :: Shaped(Shown(sources, keep)[k])
  {
    var canonical := exists k | 0 <= k < |sources| :: IsCanonical(sources[k]);
    DisplayedAllDistinct(sources, canonical);
    FilteredDistinct(ExpandConversationDisplayEvents(sources), keep);
    forall k | 0 <= k < |Shown(sources, keep)|
      ensures Shaped(Shown(sources, keep)[k])
    {
      var n := FilteredFrom(ExpandConversationDisplayEvents(sources), keep, k);
      var _ := DisplayedAllFrom(sources, canonical, n);
    }
  }

  // Every row of a conversation has an id of its own.
  lemma ShownRowsDistinct(sources: seq<Source>, keep: Event -> bool, items: seq<Item>)
    requires DistinctSources(sources) && forall i | 0 <= i < |sources| :: Stored(sources[i])
    requires Groups(items, Shown(sources, keep))
    ensures DistinctIds(items)
  {
    ShownEventsDistinct(sources, keep);
    ShapedNeverClash(Shown(sources, keep));
    GroupedIdsDistinct(items, Shown(sources, keep));
  }

  /** One render of the conversation, from the stored events to stable rows. */
  method RenderConversation(sources: seq<Source>, keep: Event -> bool, previous: State)
    returns (items: seq<Item>, next: State)
    requires DistinctSources(sources) && forall i | 0 <= i < |sources| :: Stored(sources[i])
    requires Consistent(previous)
    ensures Groups(items, Shown(sources, keep)) && DistinctIds(items)
    ensures Consistent(next) && Follows(previous, items, next)
  {
    items := GroupConversationEvents(Shown(sources, keep));
    ShownRowsDistinct(sources, keep, items);
    next := StabilizeConversationTimelineItems(items, previous);
  }

  // ----- Back to the stored event -----

  // Where the marker first occurs, or the length if it does not.
  function MarkerAt(id: string, from: nat): (at: nat)
    requires from <= |id|
    decreases |id| - from
  {
    if from == |id| || MARKER <= id[from..] then from else MarkerAt(id, from + 1)
  }

  function ApprovalReviewSourceEventId(id: string): Option<string> {
    var marker := MarkerAt(id, 0);
    if 0 < marker < |id| then Some(id[..marker]) else None
  }

  lemma {:induction false} MarkerSkips(id: string, from: nat, to: nat)
    requires from <= to <= |id| && forall k | from <= k < to :: id[k] != ':'
    ensures MarkerAt(id, from) == MarkerAt(id, to)
    decreases |id| - from
  {
    if from < to {
      assert id[from..][0] == id[from] != MARKER[0];
      MarkerSkips(id, from + 1, to);
    }
  }

  // The expansion can be undone: an expanded event leads back to its stored event, a stored one to none.
  lemma ExpansionLeadsBack(s: Source, canonical: bool, k: nat)
    requires Stored(s) && Uuid(s.event.id) && k < |Displayed(s, canonical)|
    ensures ApprovalReviewSourceEventId(Displayed(s, canonical)[k].id)
         == if s.transcript.Some? then Some(s.event.id) else None
  {
    var id := Displayed(s, canonical)[k].id;
    if s.transcript.Some? {
      DisplayIdParts(s.event.id, s.transcript.value[k].sequence, k);
      assert forall j | 0 <= j < UUID_LENGTH :: id[j] == id[..UUID_LENGTH][j];
      MarkerSkips(id, 0, UUID_LENGTH);
      assert id[UUID_LENGTH..][..|MARKER|] == id[UUID_LENGTH..UUID_LENGTH + |MARKER|];
    } else {
      MarkerSkips(id, 0, |id|);
    }
  }
}
