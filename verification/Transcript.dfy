/** Building a presentation from stored transcript rows. Items are shared between
    the lists of a turn and the map of calls, so they are kept by number. */
module Transcript {
  import opened Wrappers
  import opened Text

  datatype Lane = Users | Systems | Finals | Thoughts

  /** A list of items: one of a turn's four, or the orphans. */
  datatype Place = In(turn: string, lane: Lane) | Orphans

  /** `name` is the role of a message or the type of a thought; `call` the key of
      a call; `fields` is everything else the item carries. */
  datatype Item = Item(
    place: Place, name: string, phase: string, text: string, fields: map<string, string>, call: Option<string>,
    rows: seq<nat>, start: nat, end: nat)

  datatype Book = Book(
    turns: seq<string>, current: string, items: seq<Item>, lists: map<Place, seq<nat>>, calls: map<string, nat>)

  const Empty := Book([], "", [], map[], map[])

  /** What a row contributes, as its many shapes boil down to. */
  datatype Part =
    | Plain                                                    // nothing
    | Message(lane: Lane, role: string, phase: string, text: string, fields: map<string, string>)
    | Thought(kind: string, phase: string, text: string, fields: map<string, string>)
    | Call(callId: string, kind: string, fields: map<string, string>)

  const AGENT_MESSAGE := "agentMessage"

  /** Messages go to the three message lists; calls have types of their own. */
  predicate Shaped(part: Part) {
    (part.Message? ==> part.lane != Thoughts) && (part.Call? ==> part.kind != AGENT_MESSAGE)
  }

  datatype Mark = Unmarked | TurnContext | TaskStarted | TaskComplete

  /** `found` is the id `updateCurrentTurn` reads, `rowTurn` the one `rowTurnId` reads. */
  datatype Row = Row(mark: Mark, found: string, rowTurn: string, part: Part)

  // ---------- the builder as functions ----------

  function ListAt(b: Book, place: Place): seq<nat> { if place in b.lists then b.lists[place] else [] }

  /** `ensureTurn`: the id of the turn, known from now on; none when there is no id at all. */
  function EnsureTurn(b: Book, turnId: string): Book { Knowing(b, TurnId(b, turnId)) }

  function Knowing(b: Book, id: string): (c: Book)
    ensures SameItems(b, c) && c.current == b.current
  {
    if id == "" || id in b.turns then b else b.(turns := b.turns + [id])
  }

  predicate SameItems(b: Book, c: Book) { c.items == b.items && c.lists == b.lists && c.calls == b.calls }

  function TurnId(b: Book, turnId: string): string { if Trim(turnId) != "" then Trim(turnId) else b.current }

  /** `updateCurrentTurn`, as far as turns are concerned. */
  function UpdateCurrent(b: Book, row: Row): (c: Book)
    ensures SameItems(b, c)
  {
    var found := Trim(row.found);
    match row.mark
    case Unmarked => b
    case TurnContext => if found != "" then b.(current := found) else b
    case TaskStarted => if found != "" then EnsureTurn(b.(current := found), found) else b
    case TaskComplete => EnsureTurn(b, if found != "" then found else b.current)
  }

  function Append(b: Book, item: Item): Book {
    b.(items := b.items + [item], lists := b.lists[item.place := ListAt(b, item.place) + [|b.items|]])
  }

  /** A row joins an item it repeats. */
  function Join(b: Book, i: nat, row: nat): Book
    requires i < |b.items|
  {
    b.(items := b.items[i := b.items[i].(rows := b.items[i].rows + [row], end := row)])
  }

  predicate Near(a: nat, b: nat) { a <= b + 2 && b <= a + 2 }

  /** The last item of the list says the same and is at most two rows away. */
  predicate Repeats(b: Book, item: Item) {
    var list := ListAt(b, item.place);
    list != [] && list[|list| - 1] < |b.items| &&
    var previous := b.items[list[|list| - 1]];
    previous.name == item.name && previous.phase == item.phase && previous.text == item.text
    && Near(previous.end, item.start)
  }

  /** Appends an item, or joins its row to the one before that it repeats. */
  function Put(b: Book, item: Item, joins: bool): Book {
    if joins && Repeats(b, item) then
      var list := ListAt(b, item.place);
      Join(b, list[|list| - 1], item.start)
    else Append(b, item)
  }

  /** The number of the item that `Put` puts the row into. */
  function Putting(b: Book, item: Item, joins: bool): nat {
    if joins && Repeats(b, item) then
      var list := ListAt(b, item.place);
      list[|list| - 1]
    else |b.items|
  }

  /** `callKey`. */
  function CallKey(turn: string, callId: string, row: nat): string {
    (if turn == "" then "orphan" else turn) + ":" + Trim(if callId == "" then Digits(row) else callId)
  }

  function Min(a: nat, b: nat): nat { if a < b then a else b }
  function Max(a: nat, b: nat): nat { if a > b then a else b }

  /** `mergeCallItem` on a known key: in place, wherever the item is listed. The
      fields of the patch are assigned one by one; those it lacks stay. */
  function MergeInto(b: Book, i: nat, item: Item): Book
    requires i < |b.items|
  {
    var existing := b.items[i];
    b.(items := b.items[i := item.(place := existing.place, fields := existing.fields + item.fields, rows := existing.rows + item.rows,
      start := Min(existing.start, item.start), end := Max(existing.end, item.end))])
  }

  function MergeCall(b: Book, item: Item): Book
    requires item.call.Some?
  {
    var key := item.call.value;
    if key in b.calls && b.calls[key] < |b.items| then MergeInto(b, b.calls[key], item)
    else Append(b, item).(calls := b.calls[key := |b.items|])
  }

  function ThoughtPlace(turn: string): Place { if turn == "" then Orphans else In(turn, Thoughts) }

  /** The item a row makes, if its part makes one. */
  function ItemOf(turn: string, part: Part, row: nat): Option<Item> {
    match part
    case Plain => None
    case Message(lane, role, phase, text, fields) =>
      if turn == "" || text == "" then None
      else Some(Item(In(turn, lane), role, phase, text, fields, None, [row], row, row))
    case Thought(kind, phase, text, fields) =>
      Some(Item(ThoughtPlace(turn), kind, phase, text, fields, None, [row], row, row))
    case Call(callId, kind, fields) =>
      Some(Item(ThoughtPlace(turn), kind, "", "", fields, Some(CallKey(turn, callId, row)), [row], row, row))
  }

  /** Messages join what they repeat; of the thoughts only agent messages with a
      text do, and only inside a turn. */
  predicate Joins(part: Part, turn: string) {
    part.Message? || (part.Thought? && part.kind == AGENT_MESSAGE && part.text != "" && turn != "")
  }

  function Ingest(b: Book, row: Row, index: nat): Book {
    var c := Entered(b, row);
    WithPart(c, TurnId(c, row.rowTurn), row.part, index)
  }

  function WithPart(c: Book, turn: string, part: Part, index: nat): Book {
    var item := ItemOf(turn, part, index);
    if item.None? then c
    else if part.Call? then MergeCall(c, item.value)
    else Put(c, item.value, Joins(part, turn))
  }

  /** The turns are brought up to date before the row is looked at. */
  function Entered(b: Book, row: Row): (c: Book)
    ensures SameItems(b, c)
  {
    var c := UpdateCurrent(b, row);
    EnsureTurn(c, row.rowTurn)
  }

  // ---------- the invariant ----------

  /** What is known of the rows that contributed: the item they went into and the
      one they made themselves. */
  datatype Known = Known(item: nat, made: Item)

  type Past = map<nat, Known>

  ghost predicate Ascending(rows: seq<nat>) { forall i, j :: 0 <= i < j < |rows| ==> rows[i] < rows[j] }

  /** Rows in order, bounds that are the first and the last of them, and each row
      known to be of this item and shown by it. */
  ghost predicate ItemOk(b: Book, past: Past, next: nat, i: nat)
    requires i < |b.items|
  {
    var item := b.items[i];
    && item.rows != [] && Ascending(item.rows)
    && item.start == item.rows[0] && item.end == item.rows[|item.rows| - 1] < next
    && (forall r :: r in item.rows ==> r < next && r in past && past[r].item == i && past[r].made.call == item.call)
    && Shows(past, item)
    && i in ListAt(b, item.place)
    && (item.call.Some? ==> item.call.value in b.calls && b.calls[item.call.value] == i && CallItem(item))
  }

  /** A message or thought says what each of its rows says, and its rows are close
      together; a call has the fields of all its rows, assigned in their order. */
  ghost predicate Shows(past: Past, item: Item)
    requires item.start in past && item.end in past && forall r :: r in item.rows ==> r in past
  {
    && item.place == past[item.start].made.place
    && if item.call.Some? then item.name == past[item.end].made.name && item.fields == Assigned(past, item.rows)
    else
      && item.fields == past[item.start].made.fields
      && (forall r :: r in item.rows ==> SaysSame(past[r].made, item))
      && (forall k :: 0 < k < |item.rows| ==> item.rows[k] <= item.rows[k - 1] + 2)
  }

  /** `Object.assign` over the rows, first to last. */
  ghost function Assigned(past: Past, rows: seq<nat>): map<string, string>
    requires forall r :: r in rows ==> r in past
  {
    if rows == [] then map[] else Assigned(past, rows[..|rows| - 1]) + past[rows[|rows| - 1]].made.fields
  }

  /** The row at `k` is the last of the rows that carry the field. */
  ghost predicate LastWith(past: Past, rows: seq<nat>, field: string, k: nat)
    requires forall r :: r in rows ==> r in past
  {
    && k < |rows| && field in past[rows[k]].made.fields
    && forall l :: k < l < |rows| ==> field !in past[rows[l]].made.fields
  }

  /** The fields are those that some row carries, and each holds what the last row
      that carries it says. */
  lemma {:induction false} AssignedMeans(past: Past, rows: seq<nat>, field: string)
    requires forall r :: r in rows ==> r in past
    ensures field in Assigned(past, rows) <==> exists k: nat :: LastWith(past, rows, field, k)
    ensures forall k: nat :: LastWith(past, rows, field, k) ==>
      field in Assigned(past, rows) && Assigned(past, rows)[field] == past[rows[k]].made.fields[field]
  {
    if rows != [] {
      var n := |rows| - 1;
      AssignedMeans(past, rows[..n], field);
      if field in past[rows[n]].made.fields {
        assert LastWith(past, rows, field, n);
      } else {
        forall k: nat ensures LastWith(past, rows, field, k) <==> LastWith(past, rows[..n], field, k) {
          assert k < n ==> rows[..n][k] == rows[k];
        }
      }
    }
  }

  lemma {:induction false} AssignedStill(past: Past, now: Past, row: nat, rows: seq<nat>)
    requires forall r :: r in rows ==> r in past && r != row
    requires row in now && now == past[row := now[row]]
    ensures Assigned(now, rows) == Assigned(past, rows)
  {
    if rows != [] { AssignedStill(past, now, row, rows[..|rows| - 1]); }
  }

  predicate SaysSame(made: Item, item: Item) {
    made.place == item.place && made.name == item.name && made.phase == item.phase && made.text == item.text
  }

  /** Calls are thoughts or orphans, and no agent messages. */
  predicate CallItem(item: Item) {
    item.name != AGENT_MESSAGE && (item.place.Orphans? || item.place.lane == Thoughts)
  }

  ghost predicate RowOk(b: Book, past: Past, r: nat)
    requires r in past
  {
    past[r].item < |b.items| && r in b.items[past[r].item].rows
  }

  ghost predicate CallOk(b: Book, key: string)
    requires key in b.calls
  {
    b.calls[key] < |b.items| && b.items[b.calls[key]].call == Some(key)
  }

  /** A list goes up in item numbers and holds items of this place only. */
  ghost predicate ListOk(b: Book, place: Place) {
    var list := ListAt(b, place);
    && Ascending(list)
    && forall i :: i in list ==> i < |b.items| && b.items[i].place == place
  }

  ghost predicate Firsts(b: Book, i: nat, j: nat)
    requires i < j < |b.items|
  {
    b.items[i].start < b.items[j].start
  }

  ghost predicate Inv(b: Book, past: Past, next: nat) {
    && (forall i: nat {:trigger ItemOk(b, past, next, i)} :: i < |b.items| ==> ItemOk(b, past, next, i))
    && (forall r {:trigger RowOk(b, past, r)} :: r in past ==> RowOk(b, past, r))
    && (forall key {:trigger CallOk(b, key)} :: key in b.calls ==> CallOk(b, key))
    && (forall place {:trigger ListOk(b, place)} :: ListOk(b, place))
    && (forall i: nat, j: nat {:trigger Firsts(b, i, j)} :: i < j < |b.items| ==> Firsts(b, i, j))
  }

  lemma InvLater(b: Book, past: Past, next: nat, later: nat)
    requires Inv(b, past, next) && next <= later
    ensures Inv(b, past, later)
  {
    forall i: nat | i < |b.items| ensures ItemOk(b, past, later, i) { assert ItemOk(b, past, next, i); }
  }

  lemma TurnsOnly(b: Book, c: Book, past: Past, next: nat)
    requires Inv(b, past, next) && SameItems(b, c)
    ensures Inv(c, past, next)
  {
    forall i: nat | i < |c.items| ensures ItemOk(c, past, next, i) { assert ItemOk(b, past, next, i); }
    forall r | r in past ensures RowOk(c, past, r) { assert RowOk(b, past, r); }
    forall key | key in c.calls ensures CallOk(c, key) { assert CallOk(b, key); }
    forall place ensures ListOk(c, place) { assert ListOk(b, place); }
    forall i: nat, j: nat | i < j < |c.items| ensures Firsts(c, i, j) { assert Firsts(b, i, j); }
  }

  lemma PastBelow(b: Book, past: Past, next: nat, r: nat)
    requires Inv(b, past, next) && r in past
    ensures r < next
  {
    assert RowOk(b, past, r) && ItemOk(b, past, next, past[r].item);
  }

  lemma AscendingAppend(rows: seq<nat>, r: nat)
    requires Ascending(rows) && forall x :: x in rows ==> x < r
    ensures Ascending(rows + [r])
  {
    forall i, j | 0 <= i < j < |rows + [r]| ensures (rows + [r])[i] < (rows + [r])[j] {
      assert (rows + [r])[i] == rows[i] && rows[i] in rows;
    }
  }

  lemma ListGrows(b: Book, item: Item, c: Book, place: Place)
    requires ListOk(b, place) && c.items == b.items + [item] && c.lists == Append(b, item).lists
    ensures ListOk(c, place)
  {
    AscendingAppend(ListAt(b, place), |b.items|);
  }

  /** A new item of one row. */
  lemma AppendKeeps(b: Book, past: Past, item: Item, row: nat)
    requires Inv(b, past, row) && item.rows == [row] && item.start == row && item.end == row
    requires item.call.Some? ==> item.call.value !in b.calls && CallItem(item)
    ensures var c := if item.call.Some? then Append(b, item).(calls := b.calls[item.call.value := |b.items|]) else Append(b, item);
      Inv(c, past[row := Known(|b.items|, item)], row + 1)
  {
    var n, next := |b.items|, row + 1;
    var c := if item.call.Some? then Append(b, item).(calls := b.calls[item.call.value := n]) else Append(b, item);
    var now := past[row := Known(n, item)];
    if row in past { PastBelow(b, past, row, row); }
    forall i: nat | i < |c.items| ensures ItemOk(c, now, next, i) {
      assert i < n ==> ItemOk(b, past, row, i);
      if i < n { StaysOk(b, past, row, item, c, now, i); }
    }
    forall r | r in now ensures RowOk(c, now, r) { assert r != row ==> RowOk(b, past, r); }
    forall key | key in c.calls ensures CallOk(c, key) { assert key in b.calls ==> CallOk(b, key); }
    forall place ensures ListOk(c, place) {
      assert ListOk(b, place);
      ListGrows(b, item, c, place);
    }
    forall i: nat, j: nat | i < j < |c.items| ensures Firsts(c, i, j) {
      if j < n { assert Firsts(b, i, j); } else { FirstBelow(b, past, row, i); }
    }
  }

  lemma StaysOk(b: Book, past: Past, row: nat, item: Item, c: Book, now: Past, i: nat)
    requires i < |b.items| && ItemOk(b, past, row, i)
    requires c.items == b.items + [item] && c.lists == Append(b, item).lists
    requires forall key :: key in b.calls ==> key in c.calls && c.calls[key] == b.calls[key]
    requires row in now && now == past[row := now[row]]
    ensures ItemOk(c, now, row + 1, i)
  {
    assert c.items[i] == b.items[i];
    ShowsStill(past, now, row, b.items[i]);
  }

  /** A later row changes nothing for the items it does not go into. */
  lemma ShowsStill(past: Past, now: Past, row: nat, item: Item)
    requires item.start in past && item.end in past && forall r :: r in item.rows ==> r in past
    requires item.start != row && item.end != row && row !in item.rows && Shows(past, item)
    requires row in now && now == past[row := now[row]]
    ensures Shows(now, item)
  {
    AssignedStill(past, now, row, item.rows);
  }

  lemma FirstBelow(b: Book, past: Past, next: nat, i: nat)
    requires Inv(b, past, next) && i < |b.items|
    ensures b.items[i].start < next
  {
    assert ItemOk(b, past, next, i);
    assert b.items[i].rows[0] in b.items[i].rows;
  }

  /** An item gains a later row; its list, its call and its first row stay. */
  lemma GainKeeps(b: Book, c: Book, past: Past, i: nat, row: nat, made: Item)
    requires Inv(b, past, row) && i < |b.items|
    requires c.lists == b.lists && c.calls == b.calls && |c.items| == |b.items|
    requires forall k :: 0 <= k < |b.items| && k != i ==> c.items[k] == b.items[k]
    requires Gains(b.items[i], c.items[i], row, made)
    ensures Inv(c, past[row := Known(i, made)], row + 1)
  {
    var now, next := past[row := Known(i, made)], row + 1;
    if row in past { PastBelow(b, past, row, row); }
    forall k: nat | k < |c.items| ensures ItemOk(c, now, next, k) {
      assert ItemOk(b, past, row, k);
      if k == i {
        AscendingAppend(b.items[k].rows, row);
        ShowsMore(past, now, row, b.items[i], c.items[i], made);
      } else {
        ShowsStill(past, now, row, b.items[k]);
      }
    }
    forall r | r in now ensures RowOk(c, now, r) { assert r != row ==> RowOk(b, past, r); }
    forall key | key in c.calls ensures CallOk(c, key) { assert CallOk(b, key); }
    forall place ensures ListOk(c, place) { assert ListOk(b, place); }
    forall k: nat, j: nat | k < j < |c.items| ensures Firsts(c, k, j) { assert Firsts(b, k, j); }
  }

  /** The item `x` with one more row, of which a message says the same as before. */
  predicate Gains(x: Item, y: Item, row: nat, made: Item) {
    && y.rows == x.rows + [row] && y.start == x.start && y.end == row && y.place == x.place && y.call == x.call
    && made.call == x.call
    && (if x.call.Some? then (CallItem(x) ==> CallItem(y)) && y.name == made.name && y.fields == x.fields + made.fields
        else SaysSame(made, x) && SaysSame(made, y) && y.fields == x.fields && row <= x.end + 2)
  }

  lemma ShowsMore(past: Past, now: Past, row: nat, x: Item, y: Item, made: Item)
    requires x.rows != [] && x.start == x.rows[0] && x.end == x.rows[|x.rows| - 1]
    requires forall r :: r in x.rows ==> r in past && r != row
    requires Shows(past, x) && Gains(x, y, row, made)
    requires row in now && now == past[row := now[row]] && now[row].made == made
    ensures Shows(now, y)
  {
    assert x.start in x.rows;
    if x.call.Some? {
      AssignedStill(past, now, row, x.rows);
      assert y.rows[..|y.rows| - 1] == x.rows;
    }
  }

  // ---------- every row ----------

  /** The row's item, once it has been taken in, and the one it made. */
  function Taken(b: Book, row: Row, index: nat): Option<Known> {
    var c := Entered(b, row);
    var turn := TurnId(c, row.rowTurn);
    var item := ItemOf(turn, row.part, index);
    if item.None? then None
    else if row.part.Call? then
      var key := item.value.call.value;
      Some(Known(if key in c.calls then c.calls[key] else |c.items|, item.value))
    else Some(Known(Putting(c, item.value, Joins(row.part, turn)), item.value))
  }

  function Remember(past: Past, index: nat, known: Option<Known>): Past {
    if known.None? then past else past[index := known.value]
  }

  lemma PutKeeps(b: Book, past: Past, item: Item, joins: bool, row: nat)
    requires Inv(b, past, row) && item.rows == [row] && item.start == row && item.end == row && item.call.None?
    requires joins && Repeats(b, item) ==> b.items[Putting(b, item, joins)].call.None?
    ensures Inv(Put(b, item, joins), past[row := Known(Putting(b, item, joins), item)], row + 1)
  {
    if joins && Repeats(b, item) {
      var i := Putting(b, item, joins);
      assert ListOk(b, item.place) && i in ListAt(b, item.place);
      GainKeeps(b, Join(b, i, row), past, i, row, item);
    } else {
      AppendKeeps(b, past, item, row);
    }
  }

  lemma MergeKeeps(b: Book, past: Past, item: Item, row: nat)
    requires Inv(b, past, row) && item.rows == [row] && item.start == row && item.end == row && item.call.Some? && CallItem(item)
    ensures var key := item.call.value;
      var i := if key in b.calls then b.calls[key] else |b.items|;
      Inv(MergeCall(b, item), past[row := Known(i, item)], row + 1)
  {
    var key := item.call.value;
    if key in b.calls {
      var i := b.calls[key];
      assert CallOk(b, key);
      FirstBelow(b, past, row, i);
      LastBelow(b, past, row, i);
      GainKeeps(b, MergeInto(b, i, item), past, i, row, item);
    } else {
      AppendKeeps(b, past, item, row);
    }
  }

  lemma LastBelow(b: Book, past: Past, next: nat, i: nat)
    requires Inv(b, past, next) && i < |b.items|
    ensures b.items[i].end < next
  {
    assert ItemOk(b, past, next, i);
  }

  lemma RepeatsNoCall(b: Book, past: Past, next: nat, item: Item, part: Part, turn: string)
    requires Inv(b, past, next) && Shaped(part) && Joins(part, turn) && Repeats(b, item)
    requires part.Message? ==> item.place == In(turn, part.lane)
    requires part.Thought? ==> item.name == AGENT_MESSAGE
    ensures b.items[Putting(b, item, true)].call.None?
  {
    var list := ListAt(b, item.place);
    var i := list[|list| - 1];
    assert ListOk(b, item.place) && ItemOk(b, past, next, i);
    assert i in list;
  }

  lemma EnteredKeeps(b: Book, past: Past, next: nat, row: Row)
    requires Inv(b, past, next)
    ensures Inv(Entered(b, row), past, next)
  {
    TurnsOnly(b, Entered(b, row), past, next);
  }

  lemma IngestKeeps(b: Book, past: Past, next: nat, row: Row, index: nat)
    requires Inv(b, past, next) && next <= index && Shaped(row.part)
    ensures Inv(Ingest(b, row, index), Remember(past, index, Taken(b, row, index)), index + 1)
  {
    var c := Entered(b, row);
    var turn := TurnId(c, row.rowTurn);
    var item := ItemOf(turn, row.part, index);
    EnteredKeeps(b, past, next, row);
    InvLater(c, past, next, index);
    if item.None? {
      InvLater(c, past, index, index + 1);
    } else if row.part.Call? {
      MergeCalls(c, past, index, item.value);
    } else {
      var joins := Joins(row.part, turn);
      if joins && Repeats(c, item.value) { RepeatsNoCall(c, past, index, item.value, row.part, turn); }
      PutKeeps(c, past, item.value, joins, index);
    }
  }

  lemma MergeCalls(c: Book, past: Past, index: nat, item: Item)
    requires Inv(c, past, index) && item.rows == [index] && item.start == index && item.end == index
    requires item.call.Some? && CallItem(item)
    ensures var key := item.call.value;
      Inv(MergeCall(c, item), past[index := Known(if key in c.calls then c.calls[key] else |c.items|, item)], index + 1)
  {
    MergeKeeps(c, past, item, index);
  }

  // ---------- whole transcripts ----------

  /** A row with its number in the file, counted from 1. */
  datatype Numbered = Numbered(row: Row, index: nat)

  predicate InOrder(rows: seq<Numbered>, next: nat) {
    rows == [] || (next <= rows[0].index && Shaped(rows[0].row.part) && InOrder(rows[1..], rows[0].index + 1))
  }

  function Fold<S>(step: (S, Numbered) -> S, s: S, rows: seq<Numbered>): S
    decreases |rows|
  {
    if rows == [] then s else Fold(step, step(s, rows[0]), rows[1..])
  }

  /** The builder, and which rows contributed, to which item, and what they made. */
  datatype Told = Told(book: Book, past: Past)

  function Tell(t: Told, n: Numbered): Told {
    Told(Ingest(t.book, n.row, n.index), Remember(t.past, n.index, Taken(t.book, n.row, n.index)))
  }

  function TellAll(rows: seq<Numbered>): Told { Fold(Tell, Told(Empty, map[]), rows) }

  /** The first row number not used up yet. */
  function After(rows: seq<Numbered>, next: nat): nat {
    if rows == [] then next else rows[|rows| - 1].index + 1
  }

  ghost predicate Good(t: Told, next: nat) { Inv(t.book, t.past, next) }

  /** Every row keeps the invariant. */
  ghost predicate Keeps(step: (Told, Numbered) -> Told) {
    forall t: Told, n: nat, r: Numbered {:trigger Good(t, n), step(t, r)} ::
      Good(t, n) && n <= r.index && Shaped(r.row.part) ==> Good(step(t, r), r.index + 1)
  }

  /** What every row keeps is kept by all of them. */
  lemma {:induction false} FoldKeeps(step: (Told, Numbered) -> Told, t: Told, rows: seq<Numbered>, next: nat)
    requires Keeps(step) && Good(t, next) && InOrder(rows, next)
    ensures Good(Fold(step, t, rows), After(rows, next))
    decreases |rows|
  {
    if rows != [] { FoldKeeps(step, step(t, rows[0]), rows[1..], rows[0].index + 1); }
  }

  lemma TellKeeps()
    ensures Keeps(Tell)
  {
    forall t: Told, n: nat, r: Numbered | Good(t, n) && n <= r.index && Shaped(r.row.part)
      ensures Good(Tell(t, r), r.index + 1)
    {
      IngestKeeps(t.book, t.past, n, r.row, r.index);
    }
  }

  lemma EmptyKeeps()
    ensures Inv(Empty, map[], 1)
  {
  }

  /** The invariant holds at the end of every transcript. */
  lemma RunKeeps(rows: seq<Numbered>)
    requires InOrder(rows, 1)
    ensures Inv(TellAll(rows).book, TellAll(rows).past, After(rows, 1))
  {
    EmptyKeeps();
    TellKeeps();
    FoldKeeps(Tell, Told(Empty, map[]), rows, 1);
  }

  /** A row contributes exactly when it is a thought, a call, or a message with a
      text inside a turn. */
  lemma ContributesWhen(b: Book, row: Row, index: nat)
    ensures var turn := TurnId(Entered(b, row), row.rowTurn);
      Taken(b, row, index).Some? <==>
        row.part.Thought? || row.part.Call? || (row.part.Message? && turn != "" && row.part.text != "")
  {
  }

  /** What the history of a builder grows by, row by row. */
  ghost predicate Records(step: (Told, Numbered) -> Told) {
    forall t: Told, r: Numbered {:trigger step(t, r)} ::
      step(t, r).past == Remember(t.past, r.index, Taken(t.book, r.row, r.index))
  }

  ghost predicate SameAt(a: Past, b: Past, r: nat) { (r in a <==> r in b) && (r in a ==> a[r] == b[r]) }

  /** Later rows leave what is remembered of earlier ones. */
  lemma {:induction false} FoldLeaves(step: (Told, Numbered) -> Told, t: Told, rows: seq<Numbered>, next: nat, r: nat)
    requires Records(step) && InOrder(rows, next) && r < next
    ensures SameAt(t.past, Fold(step, t, rows).past, r)
    decreases |rows|
  {
    if rows != [] { FoldLeaves(step, step(t, rows[0]), rows[1..], rows[0].index + 1, r); }
  }

  lemma FoldSkips(step: (Told, Numbered) -> Told, t: Told, rows: seq<Numbered>, k: nat)
    requires 0 < k < |rows|
    ensures Fold(step, t, rows[..k]) == Fold(step, step(t, rows[0]), rows[1..][..k - 1]) && rows[1..][k - 1] == rows[k]
  {
    assert rows[..k][0] == rows[0] && rows[..k][1..] == rows[1..][..k - 1];
  }

  lemma {:induction false} FoldTells(step: (Told, Numbered) -> Told, t: Told, rows: seq<Numbered>, next: nat, k: nat)
    requires Records(step) && InOrder(rows, next) && k < |rows|
    requires forall r :: r in t.past ==> r < next
    ensures TellsAt(Fold(step, t, rows[..k]).book, rows[k], Fold(step, t, rows).past)
    decreases |rows|
  {
    var u, n := step(t, rows[0]), rows[0];
    assert u.past == Remember(t.past, n.index, Taken(t.book, n.row, n.index));
    if k == 0 {
      assert TellsAt(t.book, n, u.past);
      FoldLeaves(step, u, rows[1..], n.index + 1, n.index);
    } else {
      FoldTells(step, u, rows[1..], n.index + 1, k - 1);
      FoldSkips(step, t, rows, k);
    }
  }

  /** What is remembered of a row is what the builder before it takes from it. */
  ghost predicate TellsAt(before: Book, n: Numbered, past: Past) {
    var known := Taken(before, n.row, n.index);
    (n.index in past <==> known.Some?) && (known.Some? ==> past[n.index] == known.value)
  }

  /** Only rows are remembered. */
  lemma {:induction false} FoldOnlyRows(step: (Told, Numbered) -> Told, t: Told, rows: seq<Numbered>, r: nat)
    requires Records(step) && r in Fold(step, t, rows).past && r !in t.past
    ensures exists k :: 0 <= k < |rows| && rows[k].index == r
    decreases |rows|
  {
    if rows[0].index != r {
      FoldOnlyRows(step, step(t, rows[0]), rows[1..], r);
      var k :| 0 <= k < |rows[1..]| && rows[1..][k].index == r;
      assert rows[k + 1].index == r;
    }
  }

  /** Which rows of a transcript contribute, and what: a row does if and only if it is
      a thought, a call, or a message with a text inside a turn, the turn being the
      one that the rows before it lead to; what it made is the item those rows give
      it a place in. Nothing else is ever remembered. */
  lemma WhoContributes(rows: seq<Numbered>, k: nat)
    requires InOrder(rows, 1) && k < |rows|
    ensures var b, past, n := TellAll(rows[..k]).book, TellAll(rows).past, rows[k];
      var turn := TurnId(Entered(b, n.row), n.row.rowTurn);
      && (n.index in past <==>
          n.row.part.Thought? || n.row.part.Call? || (n.row.part.Message? && turn != "" && n.row.part.text != ""))
      && (n.index in past ==>
          Taken(b, n.row, n.index) == Some(past[n.index]) && ItemOf(turn, n.row.part, n.index) == Some(past[n.index].made))
    ensures forall r :: r in TellAll(rows).past ==> exists j :: 0 <= j < |rows| && rows[j].index == r
  {
    assert Records(Tell);
    FoldTells(Tell, Told(Empty, map[]), rows, 1, k);
    ContributesWhen(TellAll(rows[..k]).book, rows[k].row, rows[k].index);
    forall r | r in TellAll(rows).past ensures exists j :: 0 <= j < |rows| && rows[j].index == r {
      FoldOnlyRows(Tell, Told(Empty, map[]), rows, r);
    }
  }

  /** Each contributing row is in the source rows of exactly one item, and that
      item is in exactly one list. */
  lemma OnePlace(rows: seq<Numbered>, r: nat)
    requires InOrder(rows, 1) && r in TellAll(rows).past
    ensures var b, i := TellAll(rows).book, TellAll(rows).past[r].item;
      && i < |b.items| && r in b.items[i].rows
      && (forall j :: 0 <= j < |b.items| && r in b.items[j].rows ==> j == i)
      && (forall place :: i in ListAt(b, place) <==> place == b.items[i].place)
      && (forall x, y :: var list := ListAt(b, b.items[i].place); 0 <= x < y < |list| && list[x] == i ==> list[y] != i)
  {
    var b, past, next := TellAll(rows).book, TellAll(rows).past, After(rows, 1);
    RunKeeps(rows);
    OnePlaceHere(b, past, next, r);
  }

  lemma OnePlaceHere(b: Book, past: Past, next: nat, r: nat)
    requires Inv(b, past, next) && r in past
    ensures var i := past[r].item;
      && i < |b.items| && r in b.items[i].rows
      && (forall j :: 0 <= j < |b.items| && r in b.items[j].rows ==> j == i)
      && (forall place :: i in ListAt(b, place) <==> place == b.items[i].place)
      && (forall x, y :: var list := ListAt(b, b.items[i].place); 0 <= x < y < |list| && list[x] == i ==> list[y] != i)
  {
    var i := past[r].item;
    assert RowOk(b, past, r) && ItemOk(b, past, next, i);
    forall j | 0 <= j < |b.items| && r in b.items[j].rows ensures j == i { assert ItemOk(b, past, next, j); }
    forall place ensures i in ListAt(b, place) <==> place == b.items[i].place { assert ListOk(b, place); }
    assert ListOk(b, b.items[i].place);
  }

  /** All rows of a call are in one item, nothing else is, and its bounds are the
      least and the greatest of them. */
  lemma CallsMerge(rows: seq<Numbered>, r: nat)
    requires InOrder(rows, 1) && r in TellAll(rows).past && TellAll(rows).past[r].made.call.Some?
    ensures var b, past := TellAll(rows).book, TellAll(rows).past;
      past[r].item < |b.items| && var item := b.items[past[r].item];
      && (forall q :: q in item.rows <==> q in past && past[q].made.call == past[r].made.call)
      && item.start in item.rows && item.end in item.rows
      && (forall q :: q in item.rows ==> item.start <= q <= item.end)
  {
    var b, past, next := TellAll(rows).book, TellAll(rows).past, After(rows, 1);
    RunKeeps(rows);
    CallsMergeHere(b, past, next, r);
  }

  lemma CallsMergeHere(b: Book, past: Past, next: nat, r: nat)
    requires Inv(b, past, next) && r in past && past[r].made.call.Some?
    ensures past[r].item < |b.items|
    ensures var item := b.items[past[r].item];
      && (forall q :: q in item.rows <==> q in past && past[q].made.call == past[r].made.call)
      && item.start in item.rows && item.end in item.rows
      && (forall q :: q in item.rows ==> item.start <= q <= item.end)
  {
    var i := past[r].item;
    assert RowOk(b, past, r) && ItemOk(b, past, next, i);
    var item := b.items[i];
    forall q | q in past && past[q].made.call == past[r].made.call ensures q in item.rows {
      assert RowOk(b, past, q) && ItemOk(b, past, next, past[q].item);
    }
    assert item.rows[0] in item.rows && item.rows[|item.rows| - 1] in item.rows;
  }

  /** What a message or thought row says is said, in the same words and under the
      same name and turn, by the item it is a source of; rows of one such item are
      at most two apart. */
  lemma NothingLost(rows: seq<Numbered>, r: nat)
    requires InOrder(rows, 1) && r in TellAll(rows).past && TellAll(rows).past[r].made.call.None?
    ensures var b, known := TellAll(rows).book, TellAll(rows).past[r];
      known.item < |b.items| && var item := b.items[known.item];
      && item.call.None? && SaysSame(known.made, item)
      && (forall k :: 0 < k < |item.rows| ==> item.rows[k - 1] < item.rows[k] <= item.rows[k - 1] + 2)
  {
    var b, past, next := TellAll(rows).book, TellAll(rows).past, After(rows, 1);
    RunKeeps(rows);
    assert RowOk(b, past, r) && ItemOk(b, past, next, past[r].item);
  }

  /** A call stays where its first row put it, has the type its last row gave it,
      and exactly the fields that some row of it carries, each as the last of the
      rows that carry it says. */
  lemma FieldsAccumulate(rows: seq<Numbered>, r: nat)
    requires InOrder(rows, 1) && r in TellAll(rows).past && TellAll(rows).past[r].made.call.Some?
    ensures var b, past := TellAll(rows).book, TellAll(rows).past;
      past[r].item < |b.items| && CallShows(past, b.items[past[r].item])
      && b.items[past[r].item].call == past[r].made.call
  {
    var b, past, next := TellAll(rows).book, TellAll(rows).past, After(rows, 1);
    RunKeeps(rows);
    assert RowOk(b, past, r) && ItemOk(b, past, next, past[r].item);
    var item := b.items[past[r].item];
    assert item.rows[0] in item.rows && item.rows[|item.rows| - 1] in item.rows;
    forall f ensures FieldShows(past, item, f) { AssignedMeans(past, item.rows, f); }
  }

  ghost predicate CallShows(past: Past, item: Item) {
    && (forall q :: q in item.rows ==> q in past)
    && item.start in past && item.end in past
    && item.place == past[item.start].made.place && item.name == past[item.end].made.name
    && forall f {:trigger FieldShows(past, item, f)} :: FieldShows(past, item, f)
  }

  ghost predicate FieldShows(past: Past, item: Item, f: string)
    requires forall q :: q in item.rows ==> q in past
  {
    && (f in item.fields <==> exists k: nat :: LastWith(past, item.rows, f, k))
    && forall k: nat :: LastWith(past, item.rows, f, k) ==>
        f in item.fields && item.fields[f] == past[item.rows[k]].made.fields[f]
  }

  /** Every list goes up strictly by first row. */
  lemma ListsAscend(rows: seq<Numbered>, place: Place, x: nat, y: nat)
    requires InOrder(rows, 1) && x < y < |ListAt(TellAll(rows).book, place)|
    ensures var b := TellAll(rows).book;
      var i, j := ListAt(b, place)[x], ListAt(b, place)[y];
      i < |b.items| && j < |b.items| && b.items[i].start < b.items[j].start
  {
    var b, past, next := TellAll(rows).book, TellAll(rows).past, After(rows, 1);
    RunKeeps(rows);
    assert ListOk(b, place);
    var i, j := ListAt(b, place)[x], ListAt(b, place)[y];
    assert i in ListAt(b, place) && j in ListAt(b, place);
    assert Firsts(b, i, j);
  }

  /** Making the turn known does not change what its id is. */
  lemma TurnIdKept(b: Book, turnId: string)
    ensures TurnId(EnsureTurn(b, turnId), turnId) == TurnId(b, turnId)
  {
  }

  // ---------- the builder as an object ----------

  class Builder {
    var turns: seq<string>
    var currentTurnId: string
    var items: seq<Item>               // the objects that lists and calls share
    var lists: map<Place, seq<nat>>
    var callItems: map<string, nat>

    ghost function View(): Book
      reads this
    {
      Book(turns, currentTurnId, items, lists, callItems)
    }

    /** What the code relies on: calls and lists hold numbers of items. */
    ghost predicate Valid()
      reads this
    {
      forall key :: key in callItems ==> callItems[key] < |items|
    }

    constructor ()
      ensures Valid() && View() == Empty
    {
      turns, currentTurnId, items, lists, callItems := [], "", [], map[], map[];
    }

    method Ensure(turnId: string) returns (id: string)
      modifies this`turns
      ensures View() == EnsureTurn(old(View()), turnId) && id == TurnId(old(View()), turnId)
    {
      id := Trim(turnId);
      if id == "" { id := currentTurnId; }
      if id != "" && id !in turns { turns := turns + [id]; }
    }

    method UpdateCurrentTurn(row: Row)
      modifies this`turns, this`currentTurnId
      ensures View() == UpdateCurrent(old(View()), row)
    {
      var found := Trim(row.found);
      if row.mark == TurnContext && found != "" { currentTurnId := found; }
      if row.mark == TaskStarted && found != "" {
        currentTurnId := found;
        var _ := Ensure(found);
      }
      if row.mark == TaskComplete {
        var _ := Ensure(if found != "" then found else currentTurnId);
      }
    }

    /** `addMessage` and `addThoughtItem`. */
    method Add(item: Item, joins: bool)
      requires Valid()
      modifies this`items, this`lists
      ensures Valid() && View() == Put(old(View()), item, joins)
    {
      var list := if item.place in lists then lists[item.place] else [];
      if joins && list != [] && list[|list| - 1] < |items| {
        var i := list[|list| - 1];
        var previous := items[i];
        if previous.name == item.name && previous.phase == item.phase && previous.text == item.text
          && Near(previous.end, item.start)
        {
          items := items[i := previous.(rows := previous.rows + [item.start], end := item.start)];
          return;
        }
      }
      lists := lists[item.place := list + [|items|]];
      items := items + [item];
    }

    /** `mergeCallItem`: a known call is changed in place, so its list shows the change. */
    method Merge(item: Item)
      requires Valid() && item.call.Some?
      modifies this`items, this`lists, this`callItems
      ensures Valid() && View() == MergeCall(old(View()), item)
    {
      var key := item.call.value;
      if key in callItems {
        var i := callItems[key];
        var existing := items[i];
        var sourceRows := existing.rows + item.rows;
        var start := if existing.start < item.start then existing.start else item.start;
        var end := if existing.end > item.end then existing.end else item.end;
        items := items[i := item.(place := existing.place, fields := existing.fields + item.fields, rows := sourceRows, start := start, end := end)];
        return;
      }
      callItems := callItems[key := |items|];
      lists := lists[item.place := (if item.place in lists then lists[item.place] else []) + [|items|]];
      items := items + [item];
    }

    /** `ingest`. */
    method IngestRow(row: Row, rowIndex: nat)
      requires Valid()
      modifies this
      ensures Valid() && View() == Ingest(old(View()), row, rowIndex)
    {
      ghost var was := View();
      UpdateCurrentTurn(row);
      var turn := Ensure(row.rowTurn);
      assert View() == Entered(was, row);
      TurnIdKept(UpdateCurrent(was, row), row.rowTurn);
      IngestPart(turn, row.part, rowIndex);
    }

    /** The part of `ingest` that comes after the turn is known. */
    method IngestPart(turn: string, part: Part, rowIndex: nat)
      requires Valid()
      modifies this`items, this`lists, this`callItems
      ensures Valid() && View() == WithPart(old(View()), turn, part, rowIndex)
    {
      match part {
        case Plain =>
        case Message(lane, role, phase, text, fields) =>
          if text == "" || turn == "" { return; }
          Add(Item(In(turn, lane), role, phase, text, fields, None, [rowIndex], rowIndex, rowIndex), true);
        case Thought(kind, phase, text, fields) =>
          Add(Item(ThoughtPlace(turn), kind, phase, text, fields, None, [rowIndex], rowIndex, rowIndex),
            kind == AGENT_MESSAGE && text != "" && turn != "");
        case Call(callId, kind, fields) =>
          Merge(Item(ThoughtPlace(turn), kind, "", "", fields, Some(CallKey(turn, callId, rowIndex)),
            [rowIndex], rowIndex, rowIndex));
      }
    }
  }
}
