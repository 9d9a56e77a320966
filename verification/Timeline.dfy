/**
  The conversation timeline: grouping events into rows, and keeping row keys stable between renders.
 */
module Timeline {
  import opened Wrappers

  datatype Event = Event(id: string, timestamp: string, tool: bool, content: string)

  datatype Item =
    | Single(id: string, timestamp: string, event: Event)
    | ToolGroup(id: string, timestamp: string, events: seq<Event>)

  // ----- Grouping -----

  const GROUP_PREFIX := "tool-group:"

  function EventsOf(item: Item): seq<Event> {
    match item
    case Single(_, _, event) => [event]
    case ToolGroup(_, _, events) => events
  }

  function Flattened(items: seq<Item>): seq<Event> {
    if items == [] then [] else EventsOf(items[0]) + Flattened(items[1..])
  }

  predicate AllTools(events: seq<Event>) {
    forall k | 0 <= k < |events| :: events[k].tool
  }

  predicate IsTool(item: Item) {
    item.ToolGroup? || item.event.tool
  }

  predicate WellFormed(item: Item) {
    match item
    case Single(id, timestamp, event) => id == event.id && timestamp == event.timestamp
    case ToolGroup(id, timestamp, events) =>
      && |events| >= 2 && AllTools(events)
      && id == GROUP_PREFIX + events[0].id + ":" + events[|events| - 1].id
      && timestamp == events[0].timestamp
  }

  // The rows hold the events in order, and tool events that follow one another share a row.
  predicate Groups(items: seq<Item>, events: seq<Event>) {
    && Flattened(items) == events
    && (forall k | 0 <= k < |items| :: WellFormed(items[k]))
    && (forall k | 0 < k < |items| :: !(IsTool(items[k - 1]) && IsTool(items[k])))
  }

  lemma {:induction false} FlattenedAppend(items: seq<Item>, last: Item)
    ensures Flattened(items + [last]) == Flattened(items) + EventsOf(last)
  {
    if items == [] {
      assert items + [last] == [last];
    } else {
      assert (items + [last])[1..] == items[1..] + [last];
      FlattenedAppend(items[1..], last);
    }
  }

  predicate EndsInTool(items: seq<Item>) {
    items != [] && IsTool(items[|items| - 1])
  }

  lemma GroupsMore(items: seq<Item>, events: seq<Event>, last: Item)
    requires Groups(items, events) && WellFormed(last) && !(EndsInTool(items) && IsTool(last))
    ensures Groups(items + [last], events + EventsOf(last))
  {
    FlattenedAppend(items, last);
  }

  function FlushedRow(toolEvents: seq<Event>): Item
    requires toolEvents != []
  {
    var first, last := toolEvents[0], toolEvents[|toolEvents| - 1];
    if |toolEvents| == 1 then Single(first.id, first.timestamp, first)
    else ToolGroup(GROUP_PREFIX + first.id + ":" + last.id, first.timestamp, toolEvents)
  }

  method FlushTools(items: seq<Item>, ghost grouped: seq<Event>, toolEvents: seq<Event>) returns (flushed: seq<Item>)
    requires Groups(items, grouped) && AllTools(toolEvents) && (toolEvents != [] ==> !EndsInTool(items))
    ensures Groups(flushed, grouped + toolEvents)
    ensures toolEvents == [] ==> flushed == items
  {
    if toolEvents == [] {
      assert grouped + toolEvents == grouped;
      return items;
    }
    var row := FlushedRow(toolEvents);
    assert EventsOf(row) == toolEvents;
    GroupsMore(items, grouped, row);
    flushed := items + [row];
  }

  method GroupConversationEvents(events: seq<Event>) returns (items: seq<Item>)
    ensures Groups(items, events)
  {
    items := [];
    var toolEvents: seq<Event> := [];
    ghost var grouped: seq<Event> := [];
    for n := 0 to |events|
      invariant events[..n] == grouped + toolEvents && Groups(items, grouped)
      invariant AllTools(toolEvents) && !EndsInTool(items)
    {
      var event := events[n];
      assert events[..n + 1] == events[..n] + [event];
      if event.tool {
        toolEvents := toolEvents + [event];
        continue;
      }
      items := FlushTools(items, grouped, toolEvents);
      grouped := grouped + toolEvents;
      toolEvents := [];
      var row := Single(event.id, event.timestamp, event);
      GroupsMore(items, grouped, row);
      items := items + [row];
      grouped := grouped + [event];
    }
    assert events[..|events|] == events;
    items := FlushTools(items, grouped, toolEvents);
  }

  // A tool group is a whole run of tool events: the events just before and just after it are not tools.
  lemma GroupsAreMaximal(items: seq<Item>, events: seq<Event>, k: nat)
    requires Groups(items, events) && k < |items| && items[k].ToolGroup?
    ensures var events := items[k].events;
            && |events| >= 2 && AllTools(events) && items[k].timestamp == events[0].timestamp
            && items[k].id == "tool-group:" + events[0].id + ":" + events[|events| - 1].id
    ensures k > 0 ==> var before := EventsOf(items[k - 1]); before != [] && !before[|before| - 1].tool
    ensures k + 1 < |items| ==> var after := EventsOf(items[k + 1]); after != [] && !after[0].tool
  {
    if k > 0 {
      assert WellFormed(items[k - 1]);
    }
    if k + 1 < |items| {
      assert WellFormed(items[k + 1]) && !(IsTool(items[k]) && IsTool(items[k + 1]));
    }
  }

  // ----- Stable keys -----

  datatype State = State(byId: map<string, Item>, result: seq<Item>)

  const EMPTY := State(map[], [])

  predicate DistinctIds(items: seq<Item>) {
    forall i, j {:trigger items[i].id, items[j].id} | 0 <= i < j < |items| :: items[i].id != items[j].id
  }

  // The map holds exactly the rows, under their keys, and no key is used twice.
  predicate Consistent(s: State) {
    && DistinctIds(s.result)
    && (forall k | 0 <= k < |s.result| :: s.result[k].id in s.byId && s.byId[s.result[k].id] == s.result[k])
    && (forall id | id in s.byId :: s.byId[id].id == id && s.byId[id] in s.result)
  }

  predicate SameButId(a: Item, b: Item) {
    match a
    case Single(_, timestamp, event) => b.Single? && b.timestamp == timestamp && b.event == event
    case ToolGroup(_, timestamp, events) => b.ToolGroup? && b.timestamp == timestamp && b.events == events
  }

  function WithId(item: Item, id: string): Item {
    item.(id := id)
  }

  // The row is a tool group with this event.
  predicate Contains(row: Item, id: string) {
    row.ToolGroup? && exists k :: 0 <= k < |row.events| && row.events[k].id == id
  }

  // The last row with this event.
  predicate LastWith(rows: seq<Item>, id: string, n: nat) {
    n < |rows| && Contains(rows[n], id) && forall m | n < m < |rows| :: !Contains(rows[m], id)
  }

  // Which earlier tool group each event was in; the last one, should there be several.
  ghost predicate Owners(owners: map<string, Item>, rows: seq<Item>) {
    && (forall id | id in owners :: exists n: nat :: LastWith(rows, id, n) && owners[id] == rows[n])
    && (forall id, n {:trigger Contains(rows[n], id)} | 0 <= n < |rows| && Contains(rows[n], id) :: id in owners)
  }

  // The map once the first k events of a group are entered.
  function Entered(owners: map<string, Item>, row: Item, k: nat): map<string, Item>
    requires row.ToolGroup? && k <= |row.events|
  {
    if k == 0 then owners else Entered(owners, row, k - 1)[row.events[k - 1].id := row]
  }

  function OwnersOf(rows: seq<Item>): map<string, Item> {
    if rows == [] then map[]
    else
      var front, last := OwnersOf(rows[..|rows| - 1]), rows[|rows| - 1];
      if last.ToolGroup? then Entered(front, last, |last.events|) else front
  }

  lemma {:induction false} EnteredAt(owners: map<string, Item>, row: Item, k: nat, id: string)
    requires row.ToolGroup? && k <= |row.events|
    ensures var entered, own := Entered(owners, row, k), exists j :: 0 <= j < k && row.events[j].id == id;
            && (id in entered <==> own || id in owners)
            && (own ==> entered[id] == row)
            && (!own && id in owners ==> entered[id] == owners[id])
  {
    if k > 0 {
      EnteredAt(owners, row, k - 1, id);
    }
  }

  lemma {:induction false} OwnerAt(rows: seq<Item>, id: string)
    ensures id in OwnersOf(rows) ==> exists n: nat :: LastWith(rows, id, n) && OwnersOf(rows)[id] == rows[n]
    ensures id !in OwnersOf(rows) ==> forall n | 0 <= n < |rows| :: !Contains(rows[n], id)
  {
    if rows != [] {
      var front, last := rows[..|rows| - 1], rows[|rows| - 1];
      OwnerAt(front, id);
      if last.ToolGroup? {
        EnteredAt(OwnersOf(front), last, |last.events|, id);
      }
      if Contains(last, id) {
        assert LastWith(rows, id, |rows| - 1);
      } else if id in OwnersOf(front) {
        var n: nat :| LastWith(front, id, n) && OwnersOf(front)[id] == front[n];
        assert LastWith(rows, id, n);
      }
    }
  }

  lemma OwnersFound(rows: seq<Item>)
    ensures Owners(OwnersOf(rows), rows)
  {
    forall id: string
      ensures id in OwnersOf(rows) ==> exists n: nat :: LastWith(rows, id, n) && OwnersOf(rows)[id] == rows[n]
      ensures id !in OwnersOf(rows) ==> forall n | 0 <= n < |rows| :: !Contains(rows[n], id)
    {
      OwnerAt(rows, id);
    }
  }

  method PreviousToolGroups(rows: seq<Item>) returns (owners: map<string, Item>)
    ensures owners == OwnersOf(rows) && Owners(owners, rows)
  {
    owners := map[];
    for n := 0 to |rows|
      invariant owners == OwnersOf(rows[..n])
    {
      var row := rows[n];
      assert rows[..n + 1][..n] == rows[..n];
      if row.ToolGroup? {
        for k := 0 to |row.events|
          invariant owners == Entered(OwnersOf(rows[..n]), row, k)
        {
          owners := owners[row.events[k].id := row];
        }
      }
    }
    assert rows[..|rows|] == rows;
    OwnersFound(rows);
  }

  // The event was in an earlier group whose key is not among these.
  predicate Free(events: seq<Event>, owners: map<string, Item>, used: set<string>, k: nat)
    requires k < |events|
  {
    events[k].id in owners && owners[events[k].id].id !in used
  }

  predicate FirstFree(events: seq<Event>, owners: map<string, Item>, used: set<string>, k: nat) {
    k < |events| && Free(events, owners, used, k) && forall j: nat | j < k :: !Free(events, owners, used, j)
  }

  // The earlier group of the first event whose group's key nobody has claimed.
  method Unclaimed(events: seq<Event>, owners: map<string, Item>, claimed: set<string>) returns (prior: Option<Item>)
    ensures prior.Some? ==>
              exists k: nat :: FirstFree(events, owners, claimed, k) && prior.value == owners[events[k].id]
    ensures prior.None? ==> forall k: nat | k < |events| :: !Free(events, owners, claimed, k)
  {
    for n := 0 to |events|
      invariant forall k: nat | k < n :: !Free(events, owners, claimed, k)
    {
      if events[n].id in owners && owners[events[n].id].id !in claimed {
        assert FirstFree(events, owners, claimed, n);
        return Some(owners[events[n].id]);
      }
    }
    prior := None;
  }

  // The key of an item that is new: that of the first earlier group of its events whose key is not in use, if any.
  ghost predicate NewKey(owners: map<string, Item>, item: Item, used: set<string>, key: string) {
    if item.ToolGroup? && exists e: nat :: e < |item.events| && Free(item.events, owners, used, e)
    then exists e: nat :: FirstFree(item.events, owners, used, e) && owners[item.events[e].id].id == key
    else key == item.id
  }

  function KeysOf(rows: seq<Item>): set<string> {
    set row | row in rows :: row.id
  }

  lemma KeysMore(rows: seq<Item>, last: Item)
    ensures KeysOf(rows + [last]) == KeysOf(rows) + {last.id}
  {
    assert forall row :: row in rows + [last] <==> row in rows || row == last;
  }

  // The keys of the items, and of the rows made so far.
  function UsedKeys(items: seq<Item>, rows: seq<Item>, k: nat): set<string>
    requires k <= |rows|
  {
    KeysOf(items) + KeysOf(rows[..k])
  }

  // The row of an item: its content, under its own key if that existed before, and else under its new key.
  ghost predicate RowRight(previous: State, owners: map<string, Item>, items: seq<Item>, rows: seq<Item>, k: nat)
    requires k < |items| && k < |rows|
  {
    && SameButId(rows[k], items[k])
    && (if items[k].id in previous.byId then rows[k].id == items[k].id
        else NewKey(owners, items[k], UsedKeys(items, rows, k), rows[k].id))
  }

  // The keys among the items that existed before; they claim first.
  function ExactKeys(items: seq<Item>, previous: State): set<string> {
    set k | 0 <= k < |items| && items[k].id in previous.byId :: items[k].id
  }

  // Of the keys that existed before, the claimed ones are those in use.
  predicate ClaimsRight(previous: State, items: seq<Item>, claimed: set<string>, rows: seq<Item>) {
    forall key | key in previous.byId :: key in claimed <==> key in UsedKeys(items, rows, |rows|)
  }

  lemma ClaimsStart(previous: State, items: seq<Item>)
    ensures ClaimsRight(previous, items, ExactKeys(items, previous), [])
  {
  }

  lemma ClaimsMore(
      previous: State, items: seq<Item>, claimed: set<string>, rows: seq<Item>, row: Item, more: set<string>)
    requires ClaimsRight(previous, items, claimed, rows) && |rows| < |items|
    requires more == if row.id == items[|rows|].id then claimed else claimed + {row.id}
    ensures ClaimsRight(previous, items, more, rows + [row])
  {
    assert (rows + [row])[..|rows| + 1] == rows + [row] && rows[..|rows|] == rows;
    KeysMore(rows, row);
    assert items[|rows|] in items;
  }

  // The owners' keys existed before, so they are free exactly if they are not in use.
  lemma SameFree(previous: State, items: seq<Item>, claimed: set<string>, rows: seq<Item>, events: seq<Event>, k: nat)
    requires Consistent(previous) && ClaimsRight(previous, items, claimed, rows) && k < |events|
    ensures var owners := OwnersOf(previous.result);
            Free(events, owners, claimed, k) <==> Free(events, owners, UsedKeys(items, rows, |rows|), k)
  {
    OwnerAt(previous.result, events[k].id);
  }

  lemma SameNewKey(
      previous: State, items: seq<Item>, claimed: set<string>, rows: seq<Item>, item: Item, key: string)
    requires Consistent(previous) && ClaimsRight(previous, items, claimed, rows)
    requires NewKey(OwnersOf(previous.result), item, claimed, key)
    ensures NewKey(OwnersOf(previous.result), item, UsedKeys(items, rows, |rows|), key)
  {
    if item.ToolGroup? {
      var owners, used := OwnersOf(previous.result), UsedKeys(items, rows, |rows|);
      forall k: nat | k < |item.events|
        ensures Free(item.events, owners, claimed, k) <==> Free(item.events, owners, used, k)
      {
        SameFree(previous, items, claimed, rows, item.events, k);
      }
      if e: nat :| FirstFree(item.events, owners, claimed, e) && owners[item.events[e].id].id == key {
        assert FirstFree(item.events, owners, used, e);
      }
    }
  }

  lemma EarlierRows(previous: State, items: seq<Item>, rows: seq<Item>, row: Item, k: nat)
    requires k < |rows| < |items| && RowRight(previous, OwnersOf(previous.result), items, rows, k)
    ensures RowRight(previous, OwnersOf(previous.result), items, rows + [row], k)
  {
    assert (rows + [row])[..k] == rows[..k];
  }

  lemma LastRow(previous: State, items: seq<Item>, rows: seq<Item>, row: Item)
    requires |rows| < |items| && SameButId(row, items[|rows|])
    requires if items[|rows|].id in previous.byId then row.id == items[|rows|].id
             else NewKey(OwnersOf(previous.result), items[|rows|], UsedKeys(items, rows, |rows|), row.id)
    ensures RowRight(previous, OwnersOf(previous.result), items, rows + [row], |rows|)
  {
    assert (rows + [row])[..|rows|] == rows == rows[..|rows|];
  }

  // A new key is the item's own or not in use.
  lemma NewKeyIsNew(owners: map<string, Item>, item: Item, used: set<string>, key: string)
    requires NewKey(owners, item, used, key)
    ensures key == item.id || key !in used
  {
  }

  // Every row has its item's key, or one that no item and no earlier row has.
  predicate Apart(items: seq<Item>, rows: seq<Item>) {
    |rows| <= |items| && forall k | 0 <= k < |rows| ::
      rows[k].id == items[k].id || (forall j | 0 <= j < |items| :: items[j].id != rows[k].id)
  }

  lemma RowIsNew(items: seq<Item>, rows: seq<Item>, row: Item)
    requires DistinctIds(items) && Apart(items, rows) && |rows| < |items|
    requires row.id == items[|rows|].id || row.id !in UsedKeys(items, rows, |rows|)
    ensures Apart(items, rows + [row]) && forall k | 0 <= k < |rows| :: rows[k].id != row.id
  {
    if row.id != items[|rows|].id {
      forall j | 0 <= j < |items|
        ensures items[j].id != row.id
      {
        assert items[j] in items;
      }
      forall k | 0 <= k < |rows|
        ensures rows[k].id != row.id
      {
        assert rows[k] in rows[..|rows|];
      }
    }
  }

  lemma ConsistentGrows(s: State, row: Item)
    requires Consistent(s) && forall k | 0 <= k < |s.result| :: s.result[k].id != row.id
    ensures Consistent(State(s.byId[row.id := row], s.result + [row]))
  {
  }

  // What one item becomes, and the keys claimed afterwards.
  method Stabilized(previous: State, item: Item, owners: map<string, Item>, claimed: set<string>)
    returns (stable: Item, more: set<string>)
    requires Consistent(previous) && owners == OwnersOf(previous.result)
    ensures SameButId(stable, item)
    ensures if item.id in previous.byId then stable.id == item.id else NewKey(owners, item, claimed, stable.id)
    ensures more == if stable.id == item.id then claimed else claimed + {stable.id}
  {
    more := claimed;
    var prior: Option<Item> := if item.id in previous.byId then Some(previous.byId[item.id]) else None;
    if prior.None? && item.ToolGroup? {
      prior := Unclaimed(item.events, owners, claimed);
      if prior.Some? {
        ghost var k: nat :| FirstFree(item.events, owners, claimed, k) && prior.value == owners[item.events[k].id];
        OwnerAt(previous.result, item.events[k].id);
        assert prior.value.id in previous.byId;
        more := claimed + {prior.value.id};
      }
    }
    if prior.Some? && SameButId(prior.value, item) {
      stable := prior.value;
    } else if prior.Some? && prior.value.id != item.id {
      stable := WithId(item, prior.value.id);
    } else {
      stable := item;
    }
  }

  /**
    How a render follows the one before it: only keys differ from the items. A key that exists again is kept. A
    new tool group takes over the key of the first earlier group of its events, in their order, whose key no item
    and no row above it has; every other new item has its own key.
   */
  ghost predicate Follows(previous: State, items: seq<Item>, next: State) {
    && |next.result| == |items|
    && forall k | 0 <= k < |items| :: RowRight(previous, OwnersOf(previous.result), items, next.result, k)
  }

  /** Row keys stay distinct, the map holds exactly the rows, and the render follows the one before. */
  method StabilizeConversationTimelineItems(items: seq<Item>, previous: State) returns (next: State)
    requires Consistent(previous) && DistinctIds(items)
    ensures Consistent(next) && Follows(previous, items, next)
  {
    var groups := PreviousToolGroups(previous.result);
    var claimed := ExactKeys(items, previous);
    next := EMPTY;
    ClaimsStart(previous, items);
    for n := 0 to |items|
      invariant Consistent(next) && |next.result| == n && Apart(items, next.result)
      invariant ClaimsRight(previous, items, claimed, next.result)
      invariant forall k | 0 <= k < n :: RowRight(previous, groups, items, next.result, k)
    {
      var stable, more := Stabilized(previous, items[n], groups, claimed);
      StableRow(previous, items, claimed, next.result, stable, more);
      ConsistentGrows(next, stable);
      next := State(next.byId[stable.id := stable], next.result + [stable]);
      claimed := more;
    }
  }

  // One more row keeps what is known of the rows so far.
  lemma StableRow(
      previous: State, items: seq<Item>, claimed: set<string>, rows: seq<Item>, row: Item, more: set<string>)
    requires Consistent(previous) && DistinctIds(items) && |rows| < |items| && Apart(items, rows)
    requires ClaimsRight(previous, items, claimed, rows)
    requires forall k | 0 <= k < |rows| :: RowRight(previous, OwnersOf(previous.result), items, rows, k)
    requires var item := items[|rows|];
             && SameButId(row, item)
             && (if item.id in previous.byId then row.id == item.id
                 else NewKey(OwnersOf(previous.result), item, claimed, row.id))
             && more == if row.id == item.id then claimed else claimed + {row.id}
    ensures Apart(items, rows + [row]) && ClaimsRight(previous, items, more, rows + [row])
    ensures forall k | 0 <= k < |rows| :: rows[k].id != row.id
    ensures forall k | 0 <= k <= |rows| :: RowRight(previous, OwnersOf(previous.result), items, rows + [row], k)
  {
    var item := items[|rows|];
    if item.id !in previous.byId {
      SameNewKey(previous, items, claimed, rows, item, row.id);
      NewKeyIsNew(OwnersOf(previous.result), item, UsedKeys(items, rows, |rows|), row.id);
    }
    RowIsNew(items, rows, row);
    ClaimsMore(previous, items, claimed, rows, row, more);
    LastRow(previous, items, rows, row);
    forall k | 0 <= k < |rows|
      ensures RowRight(previous, OwnersOf(previous.result), items, rows + [row], k)
    {
      EarlierRows(previous, items, rows, row, k);
    }
  }

  // Over any sequence of renders the keys stay distinct, the map exact, and each render follows the one before.
  method Renders(pages: seq<seq<Item>>) returns (states: seq<State>)
    requires forall n | 0 <= n < |pages| :: DistinctIds(pages[n])
    ensures |states| == |pages| + 1 && states[0] == EMPTY
    ensures forall n | 0 <= n < |states| :: Consistent(states[n])
    ensures forall n | 0 <= n < |pages| :: Follows(states[n], pages[n], states[n + 1])
  {
    states := [EMPTY];
    for n := 0 to |pages|
      invariant |states| == n + 1 && states[0] == EMPTY
      invariant forall m | 0 <= m < |states| :: Consistent(states[m])
      invariant forall m | 0 <= m < n :: Follows(states[m], pages[m], states[m + 1])
    {
      var next := StabilizeConversationTimelineItems(pages[n], states[n]);
      states := states + [next];
    }
  }
}
