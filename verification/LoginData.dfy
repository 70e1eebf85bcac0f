/** How a player's items are flattened into database rows and rebuilt from them. Saving walks the
    containers breadth-first and numbers the rows; loading takes the rows by descending number and
    puts each item at the front of its parent. Neither order alone restores anything: together
    they bring back every parent and every sibling order. */
module LoginData {
  import opened Bytes

  /** What one row keeps of an item: its type, its count or charges, and its attribute blob. */
  datatype ItemData = ItemData(id: nat, count: nat, attributes: seq<byte>)

  datatype Item = Item(data: ItemData, kids: seq<Item>)

  datatype Kind = Unknown | Plain | Holder

  /** The item types: which ids exist and which of them are containers. */
  type Types = nat -> Kind

  datatype Row = Row(pid: int, sid: int, data: ItemData)

  const FIRST_ID := 101

  /** Only containers hold items, and all types exist. */
  predicate Typed(types: Types, item: Item)
  {
    && types(item.data.id) != Unknown
    && (item.kids != [] ==> types(item.data.id) == Holder)
    && forall k :: k in item.kids ==> Typed(types, k)
  }

  function Count(item: Item): (n: nat)
    decreases item, 0
  {
    1 + CountAll(item.kids)
  }

  function CountAll(items: seq<Item>): (n: nat)
    decreases items, 1
  {
    if items == [] then 0 else Count(items[0]) + CountAll(items[1..])
  }

  lemma {:induction false} CountAllAppend(a: seq<Item>, b: seq<Item>)
    ensures CountAll(a + b) == CountAll(a) + CountAll(b)
  {
    if a == [] {
      assert a + b == b;
    } else {
      assert (a + b)[1..] == a[1..] + b;
      CountAllAppend(a[1..], b);
    }
  }

  // ----- Saving

  /** The children of row `k` stand together in rows `first..`, in order, and name it as their parent. */
  ghost predicate Placed(rows: seq<Row>, nodes: seq<Item>, k: nat, first: nat)
    requires |rows| == |nodes| && k < |nodes|
  {
    && k < first
    && first + |nodes[k].kids| <= |rows|
    && forall j :: 0 <= j < |nodes[k].kids| ==>
         nodes[first + j] == nodes[k].kids[j] && rows[first + j].pid == FIRST_ID + k
  }

  /** Row `r` is one of the children placed for the row that it names as its parent. */
  ghost predicate HasParent(rows: seq<Row>, nodes: seq<Item>, first: seq<nat>, r: nat)
    requires |rows| == |nodes| == |first| && r < |rows|
  {
    var k := rows[r].pid - FIRST_ID;
    0 <= k < r && first[k] <= r < first[k] + |nodes[k].kids|
  }

  /** Rows, each with the item it was made from. */
  ghost predicate Described(rows: seq<Row>, nodes: seq<Item>)
  {
    |rows| == |nodes|
    && forall k :: 0 <= k < |rows| ==> rows[k].sid == FIRST_ID + k && rows[k].data == nodes[k].data
  }

  /** The rows of the top-level items come first, under the parent ids they were given. */
  ghost predicate RootsFirst(rows: seq<Row>, nodes: seq<Item>, roots: seq<(int, Item)>)
    requires |rows| == |nodes|
  {
    |roots| <= |rows| && forall k :: 0 <= k < |roots| ==> rows[k].pid == roots[k].0 && nodes[k] == roots[k].1
  }

  /** The rows are a breadth-first flattening of `roots`: `nodes` are the items of the rows, and
      the children of row `k` begin at row `first[k]`. */
  ghost predicate Flattened(rows: seq<Row>, roots: seq<(int, Item)>, nodes: seq<Item>, first: seq<nat>)
  {
    && Described(rows, nodes) && |first| == |rows|
    && RootsFirst(rows, nodes, roots)
    && (forall k :: 0 <= k < |rows| && nodes[k].kids != [] ==>
          |roots| <= first[k] && Placed(rows, nodes, k, first[k]))
    && (forall r :: |roots| <= r < |rows| ==> HasParent(rows, nodes, first, r))
  }

  /** Level after level: whoever's parent comes first comes first, and so do all deeper down. */
  ghost predicate Levelled(rows: seq<Row>, roots: nat)
  {
    forall r, q :: roots <= r < q < |rows| ==> rows[r].pid <= rows[q].pid
  }

  /** The containers still waiting come after all whose children have been written. */
  ghost predicate LevelledSoFar(rows: seq<Row>, roots: nat, waiting: seq<nat>)
  {
    && Levelled(rows, roots)
    && forall r, i :: roots <= r < |rows| && 0 <= i < |waiting| ==> rows[r].pid < FIRST_ID + waiting[i]
  }

  /** The rows for `items`, children of the row numbered `pid`, when the last number used is `last`. */
  function RowsFor(pid: int, last: int, items: seq<Item>): (rows: seq<Row>)
    ensures |rows| == |items|
  {
    seq(|items|, j requires 0 <= j < |items| => Row(pid, last + 1 + j, items[j].data))
  }

  /** Where the containers among `items` are, when the first of them is number `base`. */
  function Holders(types: Types, items: seq<Item>, base: nat): (h: seq<nat>)
  {
    if items == [] then []
    else
      var n := |items| - 1;
      var rest := Holders(types, items[..n], base);
      if types(items[n].data.id) == Holder then rest + [base + n] else rest
  }

  lemma {:induction false} HoldersComplete(types: Types, items: seq<Item>, base: nat, j: nat)
    requires j < |items| && types(items[j].data.id) == Holder
    ensures base + j in Holders(types, items, base)
  {
    var n := |items| - 1;
    if j < n {
      HoldersComplete(types, items[..n], base, j);
    }
  }

  lemma {:induction false} HoldersIncreasing(types: Types, items: seq<Item>, base: nat)
    ensures Increasing(Holders(types, items, base), base + |items|)
    ensures forall h :: h in Holders(types, items, base) ==> base <= h
  {
    if items != [] {
      HoldersIncreasing(types, items[..|items| - 1], base);
    }
  }

  /** The queue holds the containers of the rows `waiting`, each with its row number. */
  ghost predicate Queued(nodes: seq<Item>, waiting: seq<nat>, queue: seq<(Item, int)>)
  {
    |queue| == |waiting|
    && forall i :: 0 <= i < |waiting| ==>
         waiting[i] < |nodes| && queue[i].0 == nodes[waiting[i]] && queue[i].1 == FIRST_ID + waiting[i]
  }

  /** The items still to be written for a queue. */
  function Pending(queue: seq<(Item, int)>): (n: nat)
  {
    if queue == [] then 0 else Count(queue[0].0) + Pending(queue[1..])
  }

  lemma {:induction false} PendingAppend(a: seq<(Item, int)>, b: seq<(Item, int)>)
    ensures Pending(a + b) == Pending(a) + Pending(b)
  {
    if a == [] {
      assert a + b == b;
    } else {
      assert (a + b)[1..] == a[1..] + b;
      PendingAppend(a[1..], b);
    }
  }

  /** Every container has its children placed, unless it is still waiting. */
  ghost predicate AllPlaced(rows: seq<Row>, nodes: seq<Item>, first: seq<nat>, roots: nat, waiting: seq<nat>)
    requires |rows| == |nodes| == |first|
  {
    forall k :: 0 <= k < |rows| && nodes[k].kids != [] && k !in waiting ==>
      roots <= first[k] && Placed(rows, nodes, k, first[k])
  }

  /** Every row below the top level is a placed child, of a parent that is not waiting. */
  ghost predicate AllParented(rows: seq<Row>, nodes: seq<Item>, first: seq<nat>, roots: nat, waiting: seq<nat>)
    requires |rows| == |nodes| == |first|
  {
    forall r :: roots <= r < |rows| ==> HasParent(rows, nodes, first, r) && rows[r].pid - FIRST_ID !in waiting
  }

  /** The flattening so far. */
  ghost predicate Partial(rows: seq<Row>, roots: seq<(int, Item)>, nodes: seq<Item>, first: seq<nat>, waiting: seq<nat>)
  {
    && Described(rows, nodes) && |first| == |rows|
    && RootsFirst(rows, nodes, roots)
    && AllPlaced(rows, nodes, first, |roots|, waiting)
    && AllParented(rows, nodes, first, |roots|, waiting)
  }

  ghost predicate Increasing(waiting: seq<nat>, bound: nat)
  {
    && (forall i, j :: 0 <= i < j < |waiting| ==> waiting[i] < waiting[j])
    && (forall i :: 0 <= i < |waiting| ==> waiting[i] < bound)
  }

  /** The children of row `k` have been written after the other rows. */
  ghost predicate Extended(rows: seq<Row>, nodes: seq<Item>, first: seq<nat>, k: nat, rows': seq<Row>,
        nodes': seq<Item>, first': seq<nat>)
    requires |rows| == |nodes| == |first| && k < |rows|
  {
    var n, kids := |rows|, nodes[k].kids;
    && |rows'| == |nodes'| == |first'| == n + |kids|
    && (forall j :: 0 <= j < n ==> rows'[j] == rows[j] && nodes'[j] == nodes[j])
    && (forall j :: 0 <= j < n && j != k ==> first'[j] == first[j])
    && first'[k] == n
    && (forall j :: n <= j < |rows'| ==>
          nodes'[j] == kids[j - n] && rows'[j] == Row(FIRST_ID + k, FIRST_ID + j, kids[j - n].data))
  }

  /** What is left waiting once row `k` is done and its container children are queued. */
  ghost predicate Requeued(types: Types, nodes': seq<Item>, n: nat, k: nat, waiting: seq<nat>, waiting': seq<nat>)
  {
    && (forall j :: j in waiting && j != k ==> j in waiting')
    && (forall j :: j in waiting' ==> j != k && (j in waiting || n <= j))
    && (forall j :: n <= j < |nodes'| && types(nodes'[j].data.id) == Holder ==> j in waiting')
  }

  predicate KidsTyped(types: Types, item: Item)
  {
    forall j :: 0 <= j < |item.kids| && item.kids[j].kids != [] ==> types(item.kids[j].data.id) == Holder
  }

  lemma {:induction false} TypedKids(types: Types, item: Item)
    requires Typed(types, item)
    ensures KidsTyped(types, item) && forall j :: 0 <= j < |item.kids| ==> Typed(types, item.kids[j])
  {
    forall j | 0 <= j < |item.kids|
      ensures Typed(types, item.kids[j]) && (item.kids[j].kids != [] ==> types(item.kids[j].data.id) == Holder)
    {
      assert item.kids[j] in item.kids;
    }
  }

  lemma {:induction false} ExtendedAllPlaced(types: Types, rows: seq<Row>, nodes: seq<Item>, first: seq<nat>,
        roots: nat, waiting: seq<nat>, k: nat, rows': seq<Row>, nodes': seq<Item>, first': seq<nat>, waiting': seq<nat>)
    requires |rows| == |nodes| == |first| && k < |rows| && roots <= |rows| && KidsTyped(types, nodes[k])
    requires Extended(rows, nodes, first, k, rows', nodes', first')
    requires Requeued(types, nodes', |rows|, k, waiting, waiting')
    requires AllPlaced(rows, nodes, first, roots, waiting)
    ensures AllPlaced(rows', nodes', first', roots, waiting')
  {
    hide Extended, Requeued, KidsTyped, Placed;
    ExtendedSelf(rows, nodes, first, k, rows', nodes', first');
    forall j | 0 <= j < |rows'| && nodes'[j].kids != [] && j !in waiting'
      ensures roots <= first'[j] && Placed(rows', nodes', j, first'[j])
    {
      ExtendedOldRow(types, nodes[k], nodes', |rows|, k, waiting, waiting', j);
      if j != k {
        ExtendedPlaced(rows, nodes, first, k, rows', nodes', first', j);
      }
    }
  }

  lemma {:induction false} ExtendedSelf(rows: seq<Row>, nodes: seq<Item>, first: seq<nat>, k: nat, rows': seq<Row>,
        nodes': seq<Item>, first': seq<nat>)
    requires |rows| == |nodes| == |first| && k < |rows| && Extended(rows, nodes, first, k, rows', nodes', first')
    ensures |rows'| == |nodes'| == |first'| == |rows| + |nodes[k].kids|
    ensures forall j :: 0 <= j < |rows| ==> nodes'[j] == nodes[j]
    ensures forall i :: |rows| <= i < |nodes'| ==> nodes'[i] == nodes[k].kids[i - |rows|]
    ensures first'[k] == |rows| && Placed(rows', nodes', k, first'[k])
  {
  }

  /** A container that is not queued is no new row. */
  lemma {:induction false} ExtendedOldRow(types: Types, item: Item, nodes': seq<Item>, n: nat, k: nat,
        waiting: seq<nat>, waiting': seq<nat>, j: nat)
    requires j < |nodes'| && nodes'[j].kids != [] && j !in waiting' && KidsTyped(types, item)
    requires |nodes'| == n + |item.kids| && forall i :: n <= i < |nodes'| ==> nodes'[i] == item.kids[i - n]
    requires Requeued(types, nodes', n, k, waiting, waiting')
    ensures j < n && (j == k || j !in waiting)
  {
  }

  lemma {:induction false} ExtendedPlaced(rows: seq<Row>, nodes: seq<Item>, first: seq<nat>, k: nat, rows': seq<Row>,
        nodes': seq<Item>, first': seq<nat>, j: nat)
    requires |rows| == |nodes| == |first| && k < |rows| && j < |rows| && j != k
    requires Extended(rows, nodes, first, k, rows', nodes', first') && Placed(rows, nodes, j, first[j])
    ensures first'[j] == first[j] && Placed(rows', nodes', j, first'[j])
  {
  }

  lemma {:induction false} ExtendedAllParented(types: Types, rows: seq<Row>, nodes: seq<Item>, first: seq<nat>,
        roots: nat, waiting: seq<nat>, k: nat, rows': seq<Row>, nodes': seq<Item>, first': seq<nat>, waiting': seq<nat>)
    requires |rows| == |nodes| == |first| && k < |rows| && k in waiting
    requires Extended(rows, nodes, first, k, rows', nodes', first')
    requires Requeued(types, nodes', |rows|, k, waiting, waiting')
    requires AllParented(rows, nodes, first, roots, waiting)
    ensures AllParented(rows', nodes', first', roots, waiting')
  {
    forall r | roots <= r < |rows'|
      ensures HasParent(rows', nodes', first', r) && rows'[r].pid - FIRST_ID !in waiting'
    {
      if r < |rows| {
        assert HasParent(rows, nodes, first, r);
      }
    }
  }

  lemma {:induction false} ExtendedPartial(types: Types, rows: seq<Row>, roots: seq<(int, Item)>, nodes: seq<Item>,
        first: seq<nat>, waiting: seq<nat>, k: nat, rows': seq<Row>, nodes': seq<Item>, first': seq<nat>,
        waiting': seq<nat>)
    requires Partial(rows, roots, nodes, first, waiting) && k < |rows| && k in waiting && KidsTyped(types, nodes[k])
    requires Extended(rows, nodes, first, k, rows', nodes', first')
    requires Requeued(types, nodes', |rows|, k, waiting, waiting')
    ensures Partial(rows', roots, nodes', first', waiting')
  {
    ExtendedAllPlaced(types, rows, nodes, first, |roots|, waiting, k, rows', nodes', first', waiting');
    ExtendedAllParented(types, rows, nodes, first, |roots|, waiting, k, rows', nodes', first', waiting');
  }

  /** The queue entries for the containers among `items`, the first of which is row `base`. */
  function HolderEntries(types: Types, items: seq<Item>, base: nat): (queue: seq<(Item, int)>)
  {
    if items == [] then []
    else
      var n := |items| - 1;
      var rest := HolderEntries(types, items[..n], base);
      if types(items[n].data.id) == Holder then rest + [(items[n], FIRST_ID + base + n)] else rest
  }

  lemma {:induction false} IncreasingAppend(a: seq<nat>, b: seq<nat>, mid: nat, bound: nat)
    requires Increasing(a, mid) && Increasing(b, bound) && mid <= bound
    requires forall x :: x in b ==> mid <= x
    ensures Increasing(a + b, bound)
  {
    forall i, j | 0 <= i < j < |a + b| ensures (a + b)[i] < (a + b)[j] {
      if i < |a| <= j {
        assert b[j - |a|] in b;
      }
    }
  }

  lemma {:induction false} HolderEntriesMatch(types: Types, nodes: seq<Item>, items: seq<Item>, base: nat)
    requires base + |items| <= |nodes| && forall j :: 0 <= j < |items| ==> nodes[base + j] == items[j]
    ensures Queued(nodes, Holders(types, items, base), HolderEntries(types, items, base))
  {
    if items != [] {
      HolderEntriesMatch(types, nodes, items[..|items| - 1], base);
    }
  }

  lemma {:induction false} HolderEntriesPending(types: Types, items: seq<Item>, base: nat)
    ensures Pending(HolderEntries(types, items, base)) <= CountAll(items)
  {
    if items != [] {
      var n := |items| - 1;
      HolderEntriesPending(types, items[..n], base);
      CountAllAppend(items[..n], [items[n]]);
      assert items == items[..n] + [items[n]];
      PendingAppend(HolderEntries(types, items[..n], base), [(items[n], FIRST_ID + base + n)]);
    }
  }

  /** Writes the rows of a container's items and queues the containers among them. */
  method SaveChildren(types: Types, container: Item, parentId: int, lastId: int, rows: seq<Row>, queue: seq<(Item,
        int)>)
    returns (rows': seq<Row>, queue': seq<(Item, int)>, runningId: int)
    requires lastId == FIRST_ID + |rows| - 1
    ensures rows' == rows + RowsFor(parentId, lastId, container.kids)
    ensures queue' == queue + HolderEntries(types, container.kids, |rows|)
    ensures runningId == lastId + |container.kids|
  {
    rows', queue', runningId := rows, queue, lastId;
    for i := 0 to |container.kids|
      invariant rows' == rows + RowsFor(parentId, lastId, container.kids[..i])
      invariant queue' == queue + HolderEntries(types, container.kids[..i], |rows|)
      invariant runningId == lastId + i
    {
      var item := container.kids[i];
      runningId := runningId + 1;
      if types(item.data.id) == Holder {
        queue' := queue' + [(item, runningId)];
      }
      rows' := rows' + [Row(parentId, runningId, item.data)];
      assert container.kids[..i + 1][..i] == container.kids[..i];
    }
    assert container.kids[..|container.kids|] == container.kids;
  }

  /** Writes the rows of the top-level items and queues the containers among them. */
  method SaveRoots(types: Types, itemList: seq<(int, Item)>)
    returns (rows: seq<Row>, queue: seq<(Item, int)>, runningId: int, ghost nodes: seq<Item>)
    ensures |nodes| == |itemList| && forall i :: 0 <= i < |itemList| ==> nodes[i] == itemList[i].1
    ensures |rows| == |itemList| && Described(rows, nodes) && RootsFirst(rows, nodes, itemList)
    ensures queue == HolderEntries(types, nodes, 0)
    ensures runningId == FIRST_ID + |rows| - 1
  {
    rows, queue, runningId, nodes := [], [], FIRST_ID - 1, [];
    for i := 0 to |itemList|
      invariant |rows| == |nodes| == i && runningId == FIRST_ID + i - 1
      invariant forall k :: 0 <= k < i ==>
        nodes[k] == itemList[k].1 && rows[k] == Row(itemList[k].0, FIRST_ID + k, nodes[k].data)
      invariant queue == HolderEntries(types, nodes, 0)
    {
      var (pid, item) := itemList[i];
      runningId := runningId + 1;
      rows := rows + [Row(pid, runningId, item.data)];
      if types(item.data.id) == Holder {
        queue := queue + [(item, runningId)];
      }
      assert (nodes + [item])[..i] == nodes;
      nodes := nodes + [item];
    }
  }

  /** Everything known between the rounds of the loop in `SaveItems`. */
  ghost predicate Saving(types: Types, rows: seq<Row>, roots: seq<(int, Item)>, nodes: seq<Item>, first: seq<nat>,
        waiting: seq<nat>, queue: seq<(Item, int)>)
  {
    && Partial(rows, roots, nodes, first, waiting)
    && Increasing(waiting, |rows|) && Queued(nodes, waiting, queue)
    && AllTyped(types, nodes)
  }

  ghost predicate AllTyped(types: Types, nodes: seq<Item>)
  {
    forall k :: 0 <= k < |nodes| ==> Typed(types, nodes[k])
  }

  /** Flattens the items into rows, level by level. */
  method SaveItems(types: Types, itemList: seq<(int, Item)>)
    returns (rows: seq<Row>, ghost nodes: seq<Item>, ghost first: seq<nat>)
    requires forall i :: 0 <= i < |itemList| ==> Typed(types, itemList[i].1)
    ensures Flattened(rows, itemList, nodes, first) && Levelled(rows, |itemList|)
    ensures forall k :: 0 <= k < |nodes| ==> Typed(types, nodes[k])
  {
    hide Partial, LevelledSoFar, Levelled, Flattened, Described, RootsFirst, AllPlaced, Increasing, Queued, Pending;
    hide AllTyped, Holders, HolderEntries, Typed;
    var queue, runningId;
    rows, queue, runningId, nodes := SaveRoots(types, itemList);
    first := seq(|rows|, _ => 0);
    ghost var waiting := Holders(types, nodes, 0);
    HolderEntriesMatch(types, nodes, nodes, 0);
    HoldersIncreasing(types, nodes, 0);
    FirstPlaced(types, rows, nodes, first, |itemList|);
    FirstRound(types, rows, itemList, nodes, first, waiting, queue);
    LevelledFirst(rows, waiting);
    while queue != []
      invariant Saving(types, rows, itemList, nodes, first, waiting, queue)
      invariant LevelledSoFar(rows, |itemList|, waiting)
      invariant runningId == FIRST_ID + |rows| - 1
      decreases Pending(queue)
    {
      var (container, parentId) := queue[0];
      ghost var rows0, queue0 := rows, queue;
      rows, queue, runningId := SaveChildren(types, container, parentId, runningId, rows, queue[1..]);
      LevelledRound(types, rows0, |itemList|, nodes, waiting, queue0);
      nodes, first, waiting := NextRound(types, rows0, itemList, nodes, first, waiting, queue0, rows, queue);
    }
    LastRound(types, rows, itemList, nodes, first, waiting);
  }

  lemma {:induction false} LevelledFirst(rows: seq<Row>, waiting: seq<nat>)
    ensures LevelledSoFar(rows, |rows|, waiting)
  {
  }

  /** With nothing left to write the rows are complete. */
  lemma {:induction false} LastRound(types: Types, rows: seq<Row>, roots: seq<(int, Item)>, nodes: seq<Item>,
        first: seq<nat>, waiting: seq<nat>)
    requires Saving(types, rows, roots, nodes, first, waiting, []) && LevelledSoFar(rows, |roots|, waiting)
    ensures Flattened(rows, roots, nodes, first) && Levelled(rows, |roots|)
    ensures forall k :: 0 <= k < |nodes| ==> Typed(types, nodes[k])
  {
    hide Placed, HasParent, Typed;
  }

  /** What writing the top-level items leaves known. */
  lemma {:induction false} FirstRound(types: Types, rows: seq<Row>, roots: seq<(int, Item)>, nodes: seq<Item>,
        first: seq<nat>, waiting: seq<nat>, queue: seq<(Item, int)>)
    requires |nodes| == |roots| == |rows| == |first| && Described(rows, nodes) && RootsFirst(rows, nodes, roots)
    requires forall k :: 0 <= k < |nodes| ==> Typed(types, nodes[k])
    requires AllPlaced(rows, nodes, first, |roots|, waiting)
    requires Increasing(waiting, |rows|) && Queued(nodes, waiting, queue)
    ensures Saving(types, rows, roots, nodes, first, waiting, queue)
  {
  }

  lemma {:induction false} FirstPlaced(types: Types, rows: seq<Row>, nodes: seq<Item>, first: seq<nat>, roots: nat)
    requires |nodes| == |rows| == |first|
    requires forall k :: 0 <= k < |nodes| ==> Typed(types, nodes[k])
    ensures AllPlaced(rows, nodes, first, roots, Holders(types, nodes, 0))
  {
    forall k | 0 <= k < |nodes| && nodes[k].kids != [] ensures k in Holders(types, nodes, 0) {
      assert Typed(types, nodes[k]);
      HoldersComplete(types, nodes, 0, k);
    }
  }

  /** One container has been written: what that leaves known. */
  lemma {:induction false} NextRound(types: Types, rows: seq<Row>, roots: seq<(int, Item)>, nodes: seq<Item>,
        first: seq<nat>, waiting: seq<nat>, queue: seq<(Item, int)>, rows': seq<Row>, queue': seq<(Item, int)>)
    returns (nodes': seq<Item>, first': seq<nat>, waiting': seq<nat>)
    requires Saving(types, rows, roots, nodes, first, waiting, queue) && queue != []
    requires rows' == rows + RowsFor(queue[0].1, FIRST_ID + |rows| - 1, queue[0].0.kids)
    requires queue' == queue[1..] + HolderEntries(types, queue[0].0.kids, |rows|)
    ensures Saving(types, rows', roots, nodes', first', waiting', queue')
    ensures waiting' == waiting[1..] + Holders(types, queue[0].0.kids, |rows|)
    ensures Pending(queue') < Pending(queue)
  {
    HeadQueued(nodes, waiting, queue);
    var k, n, kids := waiting[0], |rows|, queue[0].0.kids;
    var holders := Holders(types, kids, n);
    nodes', first', waiting' := nodes + kids, first[k := n] + seq(|kids|, _ => 0), waiting[1..] + holders;
    TypedRound(types, nodes, k);
    ExtendedRound(rows, nodes, first, k);
    RequeuedRound(types, nodes, kids, waiting, waiting');
    ExtendedPartial(types, rows, roots, nodes, first, waiting, k, rows', nodes', first', waiting');
    QueueRound(types, nodes, kids, waiting, holders, queue, HolderEntries(types, kids, n));
    PendingRound(types, queue, n);
  }

  /** With one container written there is less to write. */
  lemma {:induction false} PendingRound(types: Types, queue: seq<(Item, int)>, n: nat)
    requires queue != []
    ensures Pending(queue[1..] + HolderEntries(types, queue[0].0.kids, n)) < Pending(queue)
  {
    HolderEntriesPending(types, queue[0].0.kids, n);
    PendingAppend(queue[1..], HolderEntries(types, queue[0].0.kids, n));
  }

  lemma {:induction false} LevelledRound(types: Types, rows: seq<Row>, roots: nat, nodes: seq<Item>,
        waiting: seq<nat>, queue: seq<(Item, int)>)
    requires LevelledSoFar(rows, roots, waiting) && Increasing(waiting, |rows|) && Queued(nodes, waiting, queue)
    requires queue != []
    ensures var (container, parentId) := queue[0];
      LevelledSoFar(rows + RowsFor(parentId, FIRST_ID + |rows| - 1, container.kids), roots,
                    waiting[1..] + Holders(types, container.kids, |rows|))
  {
    var kids := queue[0].0.kids;
    var holders, rows' := Holders(types, kids, |rows|), rows + RowsFor(queue[0].1, FIRST_ID + |rows| - 1, kids);
    HoldersIncreasing(types, kids, |rows|);
    HeadQueued(nodes, waiting, queue);
    forall r, i | roots <= r < |rows'| && 0 <= i < |waiting[1..] + holders|
      ensures rows'[r].pid < FIRST_ID + (waiting[1..] + holders)[i]
    {
      if i >= |waiting| - 1 {
        assert holders[i - (|waiting| - 1)] in holders;
      }
    }
  }

  lemma {:induction false} HeadQueued(nodes: seq<Item>, waiting: seq<nat>, queue: seq<(Item, int)>)
    requires Queued(nodes, waiting, queue) && queue != []
    ensures waiting != [] && waiting[0] in waiting && waiting[0] < |nodes|
    ensures queue[0] == (nodes[waiting[0]], FIRST_ID + waiting[0])
  {
  }

  lemma {:induction false} TypedRound(types: Types, nodes: seq<Item>, k: nat)
    requires k < |nodes| && AllTyped(types, nodes)
    ensures KidsTyped(types, nodes[k]) && AllTyped(types, nodes + nodes[k].kids)
  {
    TypedKids(types, nodes[k]);
  }

  lemma {:induction false} ExtendedRound(rows: seq<Row>, nodes: seq<Item>, first: seq<nat>, k: nat)
    requires |rows| == |nodes| == |first| && k < |rows|
    ensures var n, kids := |rows|, nodes[k].kids;
      Extended(rows, nodes, first, k, rows + RowsFor(FIRST_ID + k, FIRST_ID + n - 1, kids), nodes + kids,
               first[k := n] + seq(|kids|, _ => 0))
  {
  }

  lemma {:induction false} RequeuedRound(types: Types, nodes: seq<Item>, kids: seq<Item>, waiting: seq<nat>,
        waiting': seq<nat>)
    requires waiting != [] && Increasing(waiting, |nodes|)
    requires waiting' == waiting[1..] + Holders(types, kids, |nodes|)
    ensures Requeued(types, nodes + kids, |nodes|, waiting[0], waiting, waiting')
  {
    var n, k := |nodes|, waiting[0];
    forall j | j in waiting && j != k ensures j in waiting' {
      assert j in waiting[1..];
    }
    forall j | n <= j < n + |kids| && types((nodes + kids)[j].data.id) == Holder ensures j in waiting' {
      HoldersComplete(types, kids, n, j - n);
    }
    HoldersIncreasing(types, kids, n);
    forall j | j in waiting' ensures j != k && (j in waiting || n <= j) {
      assert j in waiting[1..] || j in Holders(types, kids, n);
    }
  }

  lemma {:induction false} QueueRound(types: Types, nodes: seq<Item>, kids: seq<Item>, waiting: seq<nat>,
        holders: seq<nat>, queue: seq<(Item, int)>, entries: seq<(Item, int)>)
    requires waiting != [] && Increasing(waiting, |nodes|) && Queued(nodes, waiting, queue)
    requires holders == Holders(types, kids, |nodes|) && entries == HolderEntries(types, kids, |nodes|)
    ensures Increasing(waiting[1..] + holders, |nodes + kids|)
    ensures Queued(nodes + kids, waiting[1..] + holders, queue[1..] + entries)
  {
    HolderEntriesMatch(types, nodes + kids, kids, |nodes|);
    HoldersIncreasing(types, kids, |nodes|);
    IncreasingAppend(waiting[1..], holders, |nodes|, |nodes| + |kids|);
    QueuedAppend(nodes + kids, waiting[1..], holders, queue[1..], entries);
  }

  lemma {:induction false} QueuedAppend(nodes: seq<Item>, a: seq<nat>, b: seq<nat>, p: seq<(Item, int)>, q: seq<(Item,
        int)>)
    requires Queued(nodes, a, p) && Queued(nodes, b, q)
    ensures Queued(nodes, a + b, p + q)
  {
  }

  // ----- Loading

  /** The three tables of items. Their rows name a top-level place by a small parent id. */
  datatype Store = Inventory | Depot | Inbox

  predicate IsRoot(store: Store, pid: int)
  {
    if store == Inventory then 1 <= pid <= 10 else 0 <= pid < 100
  }

  /** The slot or chest for a top-level parent id; there is one inbox for all of them. */
  function RootKey(store: Store, pid: int): int
  {
    if store == Inbox then 0 else pid
  }

  class ItemNode {
    const data: ItemData
    const holder: bool
    var itemlist: seq<ItemNode>
    /** The container it lies in, if that is an item. */
    var parent: ItemNode?

    constructor (data: ItemData, holder: bool)
      ensures this.data == data && this.holder == holder && itemlist == [] && parent == null
    {
      this.data, this.holder, itemlist, parent := data, holder, [], null;
    }
  }

  /** The rows by their numbers; rows of unknown types are skipped. */
  function RowMap(types: Types, rows: seq<Row>): (m: map<int, Row>)
    ensures forall s :: s in m ==> m[s] in rows && m[s].sid == s && types(m[s].data.id) != Unknown
  {
    if rows == [] then map[]
    else
      var n := |rows| - 1;
      var m := RowMap(types, rows[..n]);
      if types(rows[n].data.id) == Unknown then m else m[rows[n].sid := rows[n]]
  }

  /** The numbers in `lo..hi` of the rows below row `s`, in ascending order. */
  function KidsFrom(m: map<int, Row>, store: Store, s: int, lo: int, hi: int): (ids: seq<int>)
    ensures forall c :: c in ids ==> c in m && lo <= c < hi
    decreases hi - lo
  {
    if lo >= hi then []
    else
      var rest := KidsFrom(m, store, s, lo + 1, hi);
      if lo in m && !IsRoot(store, m[lo].pid) && m[lo].pid == s then [lo] + rest else rest
  }

  /** The numbers in `lo..hi` of the top-level rows at `key`, in ascending order. A slot of the
      inventory takes one item only, and the highest number comes first. */
  function RootsFrom(m: map<int, Row>, store: Store, key: int, lo: int, hi: int): (ids: seq<int>)
    ensures forall c :: c in ids ==> c in m && lo <= c < hi
    decreases hi - lo
  {
    if lo >= hi then []
    else
      var rest := RootsFrom(m, store, key, lo + 1, hi);
      if lo in m && IsRoot(store, m[lo].pid) && RootKey(store, m[lo].pid) == key && (store == Inventory ==> rest == [])
      then [lo] + rest else rest
  }

  type ItemMap = map<int, (ItemNode, int)>

  ghost predicate SameNodes(items: ItemMap, list: seq<ItemNode>, ids: seq<int>)
  {
    |list| == |ids| && forall i :: 0 <= i < |ids| ==> ids[i] in items && list[i] == items[ids[i]].0
  }

  ghost function NodesOf(items: ItemMap): (nodes: set<ItemNode>)
  {
    set s | s in items :: items[s].0
  }

  /** One object for each row, none of them shared. */
  ghost predicate Created(types: Types, m: map<int, Row>, items: ItemMap)
  {
    && items.Keys == m.Keys
    && (forall s :: s in items ==>
          && items[s].0.data == m[s].data && items[s].0.holder == (types(m[s].data.id) == Holder)
          && items[s].1 == m[s].pid)
    && (forall s, t :: s in items && t in items && items[s].0 == items[t].0 ==> s == t)
  }

  method LoadItems(types: Types, result: seq<Row>) returns (itemMap: ItemMap, bound: int)
    ensures Created(types, RowMap(types, result), itemMap) && bound >= 0
    ensures forall s :: s in itemMap ==> s < bound && fresh(itemMap[s].0) && itemMap[s].0.itemlist == []
  {
    itemMap, bound := map[], 0;
    for i := 0 to |result|
      invariant Created(types, RowMap(types, result[..i]), itemMap) && bound >= 0
      invariant forall s :: s in itemMap ==> s < bound && fresh(itemMap[s].0) && itemMap[s].0.itemlist == []
    {
      var row := result[i];
      assert result[..i + 1][..i] == result[..i];
      if types(row.data.id) != Unknown {
        var item := new ItemNode(row.data, types(row.data.id) == Holder);
        itemMap := itemMap[row.sid := (item, row.pid)];
        bound := if row.sid >= bound then row.sid + 1 else bound;
      }
    }
    assert result[..|result|] == result;
  }

  /** A row that names a container has it for a parent. */
  ghost predicate ParentDone(store: Store, m: map<int, Row>, items: ItemMap, s: int)
    reads NodesOf(items)
    requires items.Keys == m.Keys && s in items
  {
    !IsRoot(store, m[s].pid) && m[s].pid in items && items[m[s].pid].0.holder ==>
      items[s].0.parent == items[m[s].pid].0
  }

  ghost predicate ParentsDone(store: Store, m: map<int, Row>, items: ItemMap, lo: int)
    reads NodesOf(items)
    requires items.Keys == m.Keys
  {
    forall s :: s in items && lo <= s ==> ParentDone(store, m, items, s)
  }

  class Player {
    const store: Store
    var places: map<int, seq<ItemNode>>

    constructor (store: Store)
      ensures this.store == store && places == map[]
    {
      this.store, places := store, map[];
    }

    ghost function Place(key: int): seq<ItemNode>
      reads this
    {
      if key in places then places[key] else []
    }

    /** Equips an item, or puts it at the front of a chest. */
    method AddRoot(pid: int, item: ItemNode)
      requires IsRoot(store, pid)
      modifies this
      ensures var key := RootKey(store, pid);
        && Place(key)
           == (if store == Inventory && old(Place(key)) != [] then old(Place(key)) else [item] + old(Place(key)))
        && forall k :: k != key ==> Place(k) == old(Place(k))
    {
      var key := RootKey(store, pid);
      var list := if key in places then places[key] else [];
      if store == Inventory && list != [] {
        return;
      }
      places := places[key := [item] + list];
    }

    ghost predicate KidsDone(m: map<int, Row>, items: ItemMap, lo: int, hi: int)
      reads NodesOf(items)
      requires items.Keys == m.Keys
    {
      forall s :: s in items ==>
        SameNodes(items, items[s].0.itemlist, if items[s].0.holder then KidsFrom(m, store, s, lo, hi) else [])
    }

    ghost predicate RootsDone(m: map<int, Row>, items: ItemMap, lo: int, hi: int)
      reads this
      requires items.Keys == m.Keys
    {
      forall key :: SameNodes(items, Place(key), RootsFrom(m, store, key, lo, hi))
    }

    /** Puts one item into its place or its parent, if it has one. */
    method PlaceItem(types: Types, ghost m: map<int, Row>, itemMap: ItemMap, sid: int, ghost hi: int)
      requires Created(types, m, itemMap) && sid in itemMap && sid < hi
      requires KidsDone(m, itemMap, sid + 1, hi) && RootsDone(m, itemMap, sid + 1, hi)
      requires ParentsDone(store, m, itemMap, sid + 1)
      modifies this, NodesOf(itemMap)
      ensures KidsDone(m, itemMap, sid, hi) && RootsDone(m, itemMap, sid, hi) && ParentsDone(store, m, itemMap, sid)
    {
      var (item, pid) := itemMap[sid];
      if IsRoot(store, pid) {
        SkipKid(m, itemMap, sid, hi);
        AddToPlace(types, m, itemMap, sid, hi);
      } else {
        SkipRoot(m, itemMap, sid, hi);
        AddToParent(types, m, itemMap, sid, hi);
      }
    }

    method AddToPlace(types: Types, ghost m: map<int, Row>, itemMap: ItemMap, sid: int, ghost hi: int)
      requires Created(types, m, itemMap) && sid in itemMap && sid < hi && IsRoot(store, itemMap[sid].1)
      requires RootsDone(m, itemMap, sid + 1, hi)
      modifies this
      ensures RootsDone(m, itemMap, sid, hi)
    {
      AddRoot(itemMap[sid].1, itemMap[sid].0);
      forall key
        ensures SameNodes(itemMap, Place(key), RootsFrom(m, store, key, sid, hi))
      {
        assert SameNodes(itemMap, old(Place(key)), RootsFrom(m, store, key, sid + 1, hi));
      }
    }

    /** A row with a parent is not at the top level. */
    lemma {:induction false} SkipRoot(m: map<int, Row>, items: ItemMap, sid: int, hi: int)
      requires items.Keys == m.Keys && sid in m && !IsRoot(store, m[sid].pid) && RootsDone(m, items, sid + 1, hi)
      ensures RootsDone(m, items, sid, hi)
    {
      forall key
        ensures SameNodes(items, Place(key), RootsFrom(m, store, key, sid, hi))
      {
        assert sid < hi ==> RootsFrom(m, store, key, sid, hi) == RootsFrom(m, store, key, sid + 1, hi);
        assert SameNodes(items, Place(key), RootsFrom(m, store, key, sid + 1, hi));
      }
    }

    /** A top-level row is nobody's child. */
    lemma {:induction false} SkipKid(m: map<int, Row>, items: ItemMap, sid: int, hi: int)
      requires items.Keys == m.Keys && sid in m && IsRoot(store, m[sid].pid) && KidsDone(m, items, sid + 1, hi)
      ensures KidsDone(m, items, sid, hi)
    {
      forall s | s in items
        ensures SameNodes(items, items[s].0.itemlist, if items[s].0.holder then KidsFrom(m, store, s, sid, hi) else [])
      {
        assert sid < hi ==> KidsFrom(m, store, s, sid, hi) == KidsFrom(m, store, s, sid + 1, hi);
      }
    }

    /** The list of row `s`, once row `sid` has been put below its parent. */
    lemma {:induction false} KidStep(m: map<int, Row>, items: ItemMap, s: int, holder: bool, sid: int, hi: int,
          list: seq<ItemNode>)
      requires items.Keys == m.Keys && sid in items && sid < hi && !IsRoot(store, m[sid].pid)
      requires SameNodes(items, list, if holder then KidsFrom(m, store, s, sid + 1, hi) else [])
      ensures SameNodes(items, if s == m[sid].pid && holder then [items[sid].0] + list else list,
                        if holder then KidsFrom(m, store, s, sid, hi) else [])
    {
    }

    method AddToParent(types: Types, ghost m: map<int, Row>, itemMap: ItemMap, sid: int, ghost hi: int)
      requires Created(types, m, itemMap) && sid in itemMap && sid < hi && !IsRoot(store, itemMap[sid].1)
      requires KidsDone(m, itemMap, sid + 1, hi) && ParentsDone(store, m, itemMap, sid + 1)
      modifies NodesOf(itemMap)
      ensures KidsDone(m, itemMap, sid, hi) && ParentsDone(store, m, itemMap, sid)
    {
      var (item, pid) := itemMap[sid];
      if pid in itemMap {
        var container := itemMap[pid].0;
        if container.holder {
          item.parent := container;
          container.itemlist := [item] + container.itemlist;
        }
      }
      forall s | s in itemMap && sid <= s ensures ParentDone(store, m, itemMap, s) {
        assert s != sid ==> old(ParentDone(store, m, itemMap, s));
      }
      forall s | s in itemMap
        ensures SameNodes(itemMap, itemMap[s].0.itemlist,
                          if itemMap[s].0.holder then KidsFrom(m, store, s, sid, hi) else [])
      {
        var node := itemMap[s].0;
        KidStep(m, itemMap, s, node.holder, sid, hi, old(node.itemlist));
        assert node.itemlist == if s == pid && node.holder then [item] + old(node.itemlist) else old(node.itemlist);
      }
    }

    /** Puts every item into its place or its parent, by descending row number. */
    method Rebuild(types: Types, ghost m: map<int, Row>, itemMap: ItemMap, bound: nat)
      requires Created(types, m, itemMap) && places == map[]
      requires forall s :: s in itemMap ==> 0 <= s < bound && itemMap[s].0.itemlist == []
      modifies this, NodesOf(itemMap)
      ensures KidsDone(m, itemMap, 0, bound) && RootsDone(m, itemMap, 0, bound) && ParentsDone(store, m, itemMap, 0)
    {
      for sid := bound downto 0
        invariant KidsDone(m, itemMap, sid, bound) && RootsDone(m, itemMap, sid, bound)
        invariant ParentsDone(store, m, itemMap, sid)
      {
        if sid in itemMap {
          PlaceItem(types, m, itemMap, sid, bound);
        } else {
          SkipNumber(m, itemMap, sid, bound);
        }
      }
    }

    /** No row has this number. */
    lemma {:induction false} SkipNumber(m: map<int, Row>, items: ItemMap, sid: int, hi: int)
      requires items.Keys == m.Keys && sid !in m
      requires KidsDone(m, items, sid + 1, hi) && RootsDone(m, items, sid + 1, hi)
      requires ParentsDone(store, m, items, sid + 1)
      ensures KidsDone(m, items, sid, hi) && RootsDone(m, items, sid, hi) && ParentsDone(store, m, items, sid)
    {
      forall s | s in items
        ensures SameNodes(items, items[s].0.itemlist, if items[s].0.holder then KidsFrom(m, store, s, sid, hi) else [])
      {
        assert sid < hi ==> KidsFrom(m, store, s, sid, hi) == KidsFrom(m, store, s, sid + 1, hi);
      }
      forall key ensures SameNodes(items, Place(key), RootsFrom(m, store, key, sid, hi)) {
        assert sid < hi ==> RootsFrom(m, store, key, sid, hi) == RootsFrom(m, store, key, sid + 1, hi);
        assert SameNodes(items, Place(key), RootsFrom(m, store, key, sid + 1, hi));
      }
    }
  }

  // ----- Loading what was saved

  function Range(a: int, b: int): (ids: seq<int>)
    ensures |ids| == (if a < b then b - a else 0)
    ensures forall i :: 0 <= i < |ids| ==> ids[i] == a + i
    decreases b - a
  {
    if a >= b then [] else [a] + Range(a + 1, b)
  }

  /** Rows of known types, saved from top-level items whose places loading recognises. */
  ghost predicate Saved(types: Types, store: Store, rows: seq<Row>, roots: seq<(int, Item)>, nodes: seq<Item>,
        first: seq<nat>)
  {
    && Flattened(rows, roots, nodes, first)
    && (forall k :: 0 <= k < |nodes| ==> Typed(types, nodes[k]))
    && (forall i :: 0 <= i < |roots| ==> IsRoot(store, roots[i].0))
    && (store == Inventory ==> forall i, j :: 0 <= i < j < |roots| ==> roots[i].0 != roots[j].0)
  }

  lemma {:induction false} RowMapSaved(types: Types, rows: seq<Row>, n: nat)
    requires n <= |rows|
    requires forall k :: 0 <= k < n ==> rows[k].sid == FIRST_ID + k && types(rows[k].data.id) != Unknown
    ensures forall c :: c in RowMap(types, rows[..n]) <==> FIRST_ID <= c < FIRST_ID + n
    ensures forall k :: 0 <= k < n ==>
      FIRST_ID + k in RowMap(types, rows[..n]) && RowMap(types, rows[..n])[FIRST_ID + k] == rows[k]
  {
    if n > 0 {
      RowMapSaved(types, rows, n - 1);
      assert rows[..n][..n - 1] == rows[..n - 1];
    }
  }

  /** The map that loading makes of saved rows. */
  ghost predicate MapOf(m: map<int, Row>, rows: seq<Row>)
  {
    && (forall c :: c in m <==> FIRST_ID <= c < FIRST_ID + |rows|)
    && (forall k :: 0 <= k < |rows| ==> FIRST_ID + k in m && m[FIRST_ID + k] == rows[k])
  }

  lemma {:induction false} SavedMap(types: Types, store: Store, rows: seq<Row>, roots: seq<(int, Item)>,
        nodes: seq<Item>, first: seq<nat>)
    requires Saved(types, store, rows, roots, nodes, first)
    ensures MapOf(RowMap(types, rows), rows)
  {
    forall k | 0 <= k < |rows| ensures rows[k].sid == FIRST_ID + k && types(rows[k].data.id) != Unknown {
      assert Typed(types, nodes[k]);
    }
    RowMapSaved(types, rows, |rows|);
    assert rows[..|rows|] == rows;
  }

  /** A row is a child of row `k` exactly when it stands where the children of `k` were placed. */
  lemma {:induction false} IsKid(types: Types, store: Store, rows: seq<Row>, roots: seq<(int, Item)>,
        nodes: seq<Item>, first: seq<nat>, k: nat, r: nat)
    requires Saved(types, store, rows, roots, nodes, first) && k < |rows| && r < |rows|
    ensures !IsRoot(store, rows[r].pid) && rows[r].pid == FIRST_ID + k
       <==> nodes[k].kids != [] && first[k] <= r < first[k] + |nodes[k].kids|
  {
    if nodes[k].kids != [] && first[k] <= r < first[k] + |nodes[k].kids| {
      assert Placed(rows, nodes, k, first[k]);
      assert nodes[first[k] + (r - first[k])] == nodes[k].kids[r - first[k]];
    } else if r >= |roots| {
      assert HasParent(rows, nodes, first, r);
    }
  }

  lemma {:induction false} SavedKids(types: Types, store: Store, rows: seq<Row>, roots: seq<(int, Item)>,
        nodes: seq<Item>, first: seq<nat>, m: map<int, Row>, k: nat, lo: int, hi: int)
    requires Saved(types, store, rows, roots, nodes, first) && MapOf(m, rows) && k < |rows| && FIRST_ID + |rows| <= hi
    ensures nodes[k].kids == [] ==> KidsFrom(m, store, FIRST_ID + k, lo, hi) == []
    ensures nodes[k].kids != [] ==>
              KidsFrom(m, store, FIRST_ID + k, lo, hi) ==
              Range(if lo < FIRST_ID + first[k] then FIRST_ID + first[k] else lo, FIRST_ID + first[k] + |nodes[k].kids|)
    decreases hi - lo
  {
    if nodes[k].kids != [] {
      assert Placed(rows, nodes, k, first[k]);
    }
    if lo < hi {
      SavedKids(types, store, rows, roots, nodes, first, m, k, lo + 1, hi);
      if FIRST_ID <= lo < FIRST_ID + |rows| {
        IsKid(types, store, rows, roots, nodes, first, k, lo - FIRST_ID);
        assert m[FIRST_ID + (lo - FIRST_ID)] == rows[lo - FIRST_ID];
      }
    }
  }

  /** The objects in a list, each of them once, all have `n` for a parent. */
  ghost predicate Beneath(objects: set<ItemNode>, n: ItemNode, list: seq<ItemNode>)
    reads objects
  {
    && (forall i :: 0 <= i < |list| ==> list[i] in objects && list[i].parent == n)
    && (forall i, j :: 0 <= i < j < |list| ==> list[i] != list[j])
  }

  /** The object `n` and all that hangs below it make up `item`, linked both ways. */
  ghost predicate Represents(objects: set<ItemNode>, n: ItemNode, item: Item)
    reads objects
    decreases item
  {
    && n in objects
    && n.data == item.data
    && |n.itemlist| == |item.kids| && Beneath(objects, n, n.itemlist)
    && forall i :: 0 <= i < |item.kids| ==> Represents(objects, n.itemlist[i], item.kids[i])
  }

  /** The top-level items at `key`, in the order they were saved. */
  function AtKey<T>(store: Store, key: int, roots: seq<(int, T)>): (items: seq<T>)
  {
    if roots == [] then []
    else
      var rest := AtKey(store, key, roots[1..]);
      if RootKey(store, roots[0].0) == key then [roots[0].1] + rest else rest
  }

  /** What loading leaves behind for saved rows. */
  ghost predicate Loaded(types: Types, player: Player, rows: seq<Row>, items: ItemMap, hi: int)
    reads player, NodesOf(items)
  {
    && Created(types, RowMap(types, rows), items) && MapOf(RowMap(types, rows), rows) && FIRST_ID + |rows| <= hi
    && player.KidsDone(RowMap(types, rows), items, 0, hi)
    && player.RootsDone(RowMap(types, rows), items, 0, hi)
    && ParentsDone(player.store, RowMap(types, rows), items, 0)
  }

  /** The children of a saved row are rows further down. */
  lemma {:induction false} KidRow(rows: seq<Row>, roots: seq<(int, Item)>, nodes: seq<Item>, first: seq<nat>, k: nat,
        i: nat)
    requires Flattened(rows, roots, nodes, first) && k < |rows| && i < |nodes[k].kids|
    ensures k < first[k] + i < |rows| && nodes[first[k] + i] == nodes[k].kids[i]
  {
    assert Placed(rows, nodes, k, first[k]);
  }

  /** The numbers of the children of a saved row. */
  lemma {:induction false} KidIds(types: Types, store: Store, rows: seq<Row>, roots: seq<(int, Item)>,
        nodes: seq<Item>, first: seq<nat>, m: map<int, Row>, k: nat, hi: int)
    requires Saved(types, store, rows, roots, nodes, first) && MapOf(m, rows) && k < |rows| && FIRST_ID + |rows| <= hi
    ensures var ids := if types(nodes[k].data.id) == Holder then KidsFrom(m, store, FIRST_ID + k, 0, hi) else [];
      |ids| == |nodes[k].kids| && forall i :: 0 <= i < |ids| ==> ids[i] == FIRST_ID + first[k] + i
  {
    assert Typed(types, nodes[k]);
    SavedKids(types, store, rows, roots, nodes, first, m, k, 0, hi);
  }

  /** The object of row `k` has the data of its item, and a list as long as that item's. */
  ghost predicate NodeMade(items: ItemMap, nodes: seq<Item>, k: nat)
    reads NodesOf(items)
    requires k < |nodes|
  {
    && FIRST_ID + k in items
    && items[FIRST_ID + k].0.data == nodes[k].data
    && |items[FIRST_ID + k].0.itemlist| == |nodes[k].kids|
  }

  /** In that list, the `i`th object is the one made for the item's `i`th child. */
  ghost predicate KidMade(items: ItemMap, nodes: seq<Item>, first: seq<nat>, k: nat, i: nat)
    reads NodesOf(items)
    requires |nodes| == |first| && k < |nodes| && NodeMade(items, nodes, k) && i < |nodes[k].kids|
  {
    var c := first[k] + i;
    && k < c < |nodes| && nodes[c] == nodes[k].kids[i]
    && FIRST_ID + c in items && items[FIRST_ID + k].0.itemlist[i] == items[FIRST_ID + c].0
    && items[FIRST_ID + c].0.parent == items[FIRST_ID + k].0
  }

  ghost predicate NodeDone(items: ItemMap, nodes: seq<Item>, first: seq<nat>, k: nat)
    reads NodesOf(items)
    requires |nodes| == |first| && k < |nodes|
  {
    NodeMade(items, nodes, k) && forall i :: 0 <= i < |nodes[k].kids| ==> KidMade(items, nodes, first, k, i)
  }

  lemma {:induction false} NodeRestored(types: Types, store: Store, rows: seq<Row>, roots: seq<(int, Item)>,
        nodes: seq<Item>, first: seq<nat>, items: ItemMap, hi: int, k: nat)
    requires Saved(types, store, rows, roots, nodes, first) && k < |rows| && FIRST_ID + |rows| <= hi
    requires MapOf(RowMap(types, rows), rows) && Created(types, RowMap(types, rows), items)
    requires ParentsDone(store, RowMap(types, rows), items, 0)
    requires var n := items[FIRST_ID + k].0;
      SameNodes(items, n.itemlist, if n.holder then KidsFrom(RowMap(types, rows), store, FIRST_ID + k, 0, hi) else [])
    ensures NodeDone(items, nodes, first, k)
  {
    var m, s := RowMap(types, rows), FIRST_ID + k;
    assert m[s] == rows[k];
    var ids := if items[s].0.holder then KidsFrom(m, store, s, 0, hi) else [];
    KidIds(types, store, rows, roots, nodes, first, m, k, hi);
    assert NodeMade(items, nodes, k);
    forall i | 0 <= i < |nodes[k].kids| ensures KidMade(items, nodes, first, k, i) {
      KidRow(rows, roots, nodes, first, k, i);
      assert ids[i] == FIRST_ID + first[k] + i;
      IsKid(types, store, rows, roots, nodes, first, k, first[k] + i);
      assert m[ids[i]] == rows[first[k] + i] && ParentDone(store, m, items, ids[i]) && Typed(types, nodes[k]);
    }
  }

  /** No two rows share an object. */
  ghost predicate Unshared(items: ItemMap)
  {
    forall s, t :: s in items && t in items && items[s].0 == items[t].0 ==> s == t
  }

  lemma {:induction false} NodeBeneath(nodes: seq<Item>, first: seq<nat>, items: ItemMap, k: nat)
    requires |nodes| == |first| && k < |nodes| && Unshared(items) && NodeDone(items, nodes, first, k)
    ensures var n := items[FIRST_ID + k].0; n in NodesOf(items) && Beneath(NodesOf(items), n, n.itemlist)
  {
    var n := items[FIRST_ID + k].0;
    forall i | 0 <= i < |n.itemlist| ensures n.itemlist[i] in NodesOf(items) && n.itemlist[i].parent == n {
      assert KidMade(items, nodes, first, k, i);
    }
    forall i, j | 0 <= i < j < |n.itemlist| ensures n.itemlist[i] != n.itemlist[j] {
      assert KidMade(items, nodes, first, k, i) && KidMade(items, nodes, first, k, j);
    }
  }

  /** The object of a row stands for the item that the row was made from. */
  lemma {:induction false} ItemRestored(nodes: seq<Item>, first: seq<nat>, items: ItemMap, k: nat)
    requires |nodes| == |first| && k < |nodes| && Unshared(items)
    requires forall j :: 0 <= j < |nodes| ==> NodeDone(items, nodes, first, j)
    ensures FIRST_ID + k in items && Represents(NodesOf(items), items[FIRST_ID + k].0, nodes[k])
    decreases |nodes| - k
  {
    hide Beneath;
    assert NodeDone(items, nodes, first, k);
    NodeBeneath(nodes, first, items, k);
    forall i | 0 <= i < |nodes[k].kids|
      ensures Represents(NodesOf(items), items[FIRST_ID + k].0.itemlist[i], nodes[k].kids[i])
    {
      assert KidMade(items, nodes, first, k, i);
      ItemRestored(nodes, first, items, first[k] + i);
    }
  }

  /** The list `list` of objects makes up `expected`. */
  ghost predicate AllRepresent(objects: set<ItemNode>, list: seq<ItemNode>, expected: seq<Item>)
    reads objects
  {
    |list| == |expected| && forall i :: 0 <= i < |list| ==> Represents(objects, list[i], expected[i])
  }

  /** The numbers of the top-level rows from the `i`th on that belong at `key`. */
  function RootIds(store: Store, key: int, roots: seq<(int, Item)>, i: nat): (ids: seq<int>)
    requires i <= |roots|
    decreases |roots| - i
  {
    if i == |roots| then []
    else
      var rest := RootIds(store, key, roots, i + 1);
      if RootKey(store, roots[i].0) == key then [FIRST_ID + i] + rest else rest
  }

  lemma {:induction false} SavedRootsAbove(types: Types, store: Store, rows: seq<Row>, roots: seq<(int, Item)>,
        nodes: seq<Item>, first: seq<nat>, m: map<int, Row>, key: int, lo: int, hi: int)
    requires Saved(types, store, rows, roots, nodes, first) && MapOf(m, rows) && FIRST_ID + |roots| <= lo
    ensures RootsFrom(m, store, key, lo, hi) == []
    decreases hi - lo
  {
    if lo < hi {
      SavedRootsAbove(types, store, rows, roots, nodes, first, m, key, lo + 1, hi);
      if lo in m {
        assert HasParent(rows, nodes, first, lo - FIRST_ID);
        assert m[FIRST_ID + (lo - FIRST_ID)] == rows[lo - FIRST_ID];
      }
    }
  }

  lemma {:induction false} SavedRoots(types: Types, store: Store, rows: seq<Row>, roots: seq<(int, Item)>,
        nodes: seq<Item>, first: seq<nat>, m: map<int, Row>, key: int, i: nat, hi: int)
    requires Saved(types, store, rows, roots, nodes, first) && MapOf(m, rows) && i <= |roots| && FIRST_ID + |rows| <= hi
    ensures RootsFrom(m, store, key, FIRST_ID + i, hi) == RootIds(store, key, roots, i)
    ensures store == Inventory && RootIds(store, key, roots, i) != [] ==>
      exists j :: i <= j < |roots| && roots[j].0 == key
    decreases |roots| - i
  {
    if i == |roots| {
      SavedRootsAbove(types, store, rows, roots, nodes, first, m, key, FIRST_ID + i, hi);
    } else {
      SavedRoots(types, store, rows, roots, nodes, first, m, key, i + 1, hi);
      assert m[FIRST_ID + i] == rows[i];
    }
  }

  lemma {:induction false} RootsBelow(m: map<int, Row>, store: Store, key: int, rows: seq<Row>, lo: int, hi: int)
    requires MapOf(m, rows) && lo <= FIRST_ID
    ensures RootsFrom(m, store, key, lo, hi) == RootsFrom(m, store, key, if hi < FIRST_ID then hi else FIRST_ID, hi)
    decreases FIRST_ID - lo
  {
    if lo < FIRST_ID && lo < hi {
      RootsBelow(m, store, key, rows, lo + 1, hi);
    }
  }

  ghost predicate RootDone(roots: seq<(int, Item)>, items: ItemMap, j: nat)
    reads NodesOf(items)
    requires j < |roots|
  {
    FIRST_ID + j in items && Represents(NodesOf(items), items[FIRST_ID + j].0, roots[j].1)
  }

  lemma {:induction false} IdsRepresent(store: Store, roots: seq<(int, Item)>, items: ItemMap, key: int, i: nat,
        list: seq<ItemNode>)
    requires i <= |roots| && SameNodes(items, list, RootIds(store, key, roots, i))
    requires forall j :: 0 <= j < |roots| ==> RootDone(roots, items, j)
    ensures AllRepresent(NodesOf(items), list, AtKey(store, key, roots[i..]))
    decreases |roots| - i
  {
    if i < |roots| {
      assert roots[i..][1..] == roots[i + 1..];
      if RootKey(store, roots[i].0) == key {
        assert RootDone(roots, items, i);
        assert RootIds(store, key, roots, i)[1..] == RootIds(store, key, roots, i + 1);
        IdsRepresent(store, roots, items, key, i + 1, list[1..]);
        PrependRepresents(NodesOf(items), list, roots[i].1, AtKey(store, key, roots[i + 1..]));
      } else {
        IdsRepresent(store, roots, items, key, i + 1, list);
      }
    }
  }

  lemma {:induction false} PrependRepresents(objects: set<ItemNode>, list: seq<ItemNode>, item: Item, rest: seq<Item>)
    requires list != [] && Represents(objects, list[0], item) && AllRepresent(objects, list[1..], rest)
    ensures AllRepresent(objects, list, [item] + rest)
  {
    forall i | 0 <= i < |list| ensures Represents(objects, list[i], ([item] + rest)[i]) {
      if i > 0 {
        assert list[i] == list[1..][i - 1];
      }
    }
  }

  /** Loading saved rows brings back every place with its items in order, and every item with its
      data and with the same items in it, in order, to any depth. */
  lemma {:induction false} Restored(types: Types, player: Player, rows: seq<Row>, roots: seq<(int, Item)>,
        nodes: seq<Item>, first: seq<nat>, items: ItemMap, hi: int, key: int)
    requires Saved(types, player.store, rows, roots, nodes, first) && Loaded(types, player, rows, items, hi)
    ensures AllRepresent(NodesOf(items), player.Place(key), AtKey(player.store, key, roots))
  {
    var m := RowMap(types, rows);
    forall k | 0 <= k < |nodes| ensures NodeDone(items, nodes, first, k) {
      NodeRestored(types, player.store, rows, roots, nodes, first, items, hi, k);
    }
    forall j | 0 <= j < |roots| ensures RootDone(roots, items, j) {
      ItemRestored(nodes, first, items, j);
    }
    RootsBelow(m, player.store, key, rows, 0, hi);
    SavedRoots(types, player.store, rows, roots, nodes, first, m, key, 0, hi);
    assert SameNodes(items, player.Place(key), RootsFrom(m, player.store, key, 0, hi));
    IdsRepresent(player.store, roots, items, key, 0, player.Place(key));
    assert roots[0..] == roots;
  }

  /** Saving a player's items and loading them again restores every place. */
  method SaveAndLoad(types: Types, store: Store, itemList: seq<(int, Item)>)
    returns (player: Player, ghost objects: set<ItemNode>)
    requires forall i :: 0 <= i < |itemList| ==> Typed(types, itemList[i].1) && IsRoot(store, itemList[i].0)
    requires store == Inventory ==> forall i, j :: 0 <= i < j < |itemList| ==> itemList[i].0 != itemList[j].0
    ensures forall key :: AllRepresent(objects, player.Place(key), AtKey(store, key, itemList))
  {
    var rows;
    ghost var nodes, first;
    rows, nodes, first := SaveItems(types, itemList);
    player := new Player(store);
    SavedMap(types, store, rows, itemList, nodes, first);
    ghost var m := RowMap(types, rows);
    var itemMap, bound := LoadItems(types, rows);
    if bound < FIRST_ID {
      bound := FIRST_ID;
    }
    assert rows != [] ==> FIRST_ID + (|rows| - 1) in m;
    player.Rebuild(types, m, itemMap, bound);
    objects := NodesOf(itemMap);
    forall key ensures AllRepresent(objects, player.Place(key), AtKey(store, key, itemList)) {
      Restored(types, player, rows, itemList, nodes, first, itemMap, bound, key);
    }
  }

  lemma {:induction false} NumberAtTopLevel(store: Store, m: map<int, Row>, key: int, sid: int, lo: int, hi: int)
    requires store != Inventory && sid in m && RootKey(store, m[sid].pid) == key && lo <= sid < hi
    ensures sid in RootsFrom(m, store, key, lo, hi) <==> 0 <= m[sid].pid < 100
    decreases hi - lo
  {
    if lo < sid {
      NumberAtTopLevel(store, m, key, sid, lo + 1, hi);
    }
  }

  /** The bound on parent ids is exact: once all rows have been placed, the item of a row lies at the top level
      of a depot or an inbox if and only if the row's parent id is below one hundred. */
  lemma {:induction false} FoundAtTopLevel(types: Types, player: Player, m: map<int, Row>, items: ItemMap, sid: int,
        hi: int)
    requires Created(types, m, items) && player.RootsDone(m, items, 0, hi)
    requires player.store != Inventory && sid in m && 0 <= sid < hi
    ensures items[sid].0 in player.Place(RootKey(player.store, m[sid].pid)) <==> 0 <= m[sid].pid < 100
  {
    var key := RootKey(player.store, m[sid].pid);
    var list, ids := player.Place(key), RootsFrom(m, player.store, key, 0, hi);
    NumberAtTopLevel(player.store, m, key, sid, 0, hi);
    assert SameNodes(items, list, ids);
    if items[sid].0 in list {
      var i :| 0 <= i < |list| && list[i] == items[sid].0;
      assert ids[i] == sid;
    }
    if sid in ids {
      var i :| 0 <= i < |ids| && ids[i] == sid;
      assert list[i] == items[sid].0;
    }
  }
}
