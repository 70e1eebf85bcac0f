# Verified models of the game server's stateful algorithms

The server keeps items in trees of containers, writes trees, conditions and nodes into byte streams,
moves items and gold between players, and runs schedulers and protocols around them. This project models
these algorithms in Dafny and proves what they are for. `dafny verify dfyconfig.toml` checks all of it.

What the program does in place is modelled in place, with classes, loops and arrays; each such method is proved
against functions that say what it computes, and lemmas say what these functions mean.

| file | what it models |
|---|---|
| `Common.dfy`, `Arithmetic.dfy` | what several models use |
| `Bytes.dfy`, `Streams.dfy` | little-endian integers; the streams that blobs are written to and read from |
| `NodeFormat.dfy`, `FileLoader.dfy` | the escaped, nested node format, and the loader that reads it through three cached blocks |
| `ItemCodec.dfy`, `MapSerialize.dfy` | the attributes of an item and whole trees of items as bytes |
| `LoginData.dfy`, `LoginItems.dfy` | a player's items as numbered rows, and their way back; the same with all attributes |
| `ItemTree.dfy`, `ContainerOps.dfy` | the forest of items as a value: weights, queries, operations, runs |
| `Container.dfy`, `ContainerIterator.dfy` | the same on objects, and the breadth-first walk |
| `Moves.dfy`, `GameMoves.dfy`, `GameAdd.dfy` | moving items between containers and adding new ones |
| `Money.dfy`, `MoneyWalk.dfy` | paying and changing coins; finding them in containers in containers |
| `Market.dfy` | offers to buy and sell, and a ledger of gold and items |
| `DecayWheel.dfy` | the four buckets of decaying items |
| `TradeMoves.dfy`, `TradeBook.dfy`, `Trade.dfy` | how two items change hands; who trades with whom; both on the objects, over runs |
| `DatabaseTasks.dfy` | the task queue of the database thread, over all interleavings |
| `WalkCache.dfy` | the cache of walkable tiles around a creature |
| `DamageList.dfy`, `ConditionCodec.dfy` | the blows of a lasting damage; conditions as bytes |

Some things the program does are not what one might expect, and the model keeps them as they are:

- A step south-east or south-west leaves wrong cells in the walk cache. The branch for a negative distance in
  `src/creature.cpp:527` is never taken, as `Position::getDistanceY` returns an absolute value. `OnOwnMove` says
  exactly when the cache is right all the same, and `SouthEastGoesWrong` is a step after which it is not.
- An offer that expires pays out what was fetched, even if part of it has been accepted meanwhile. `FairIff` says
  exactly when gold and items stay as many, and `GoldFromSale` is a run in which gold grows.
- `addMoney` multiplies in 32 bits. From 4294970000 on it makes the right coins only by chance.
- A damage list may sum up to more than the amount: each value is dealt at least once (`TenForFive`); and with no
  value to start from it is empty, whatever the amount.
- A trade may take an item and give nothing. The tests before it count room in stacks and overlook items that
  cannot be moved, the moves after it need a free place (`TestIff`, `MovesIff`), and what the second move returns is
  ignored. `SwappedIff` says exactly when both items change hands, and `OneSided` is a trade in which one does not.
- With FLAG_NOLIMIT a move may lose items: `addThing` silently drops what has an index behind the capacity.
  `MoveItemKeeps` says when and how many, and `FiftyLost` is such a move.
- Charges on an item whose type has none come back as its count; a text of more than 65535 bytes is dropped.
  The owner of an item or corpse, unique ids and door ids are never written with the attributes.

## Model

| member | source | states |
|---|---|---|
| NodeFormat.UnescapeEscape | src/fileloader.cpp:181-219 | Escaped properties pass for well escaped, and unescaping gives back the original, for all bytes. |
| NodeFormat.ParsePrint | src/fileloader.cpp:84-179 | A list of nodes printed in a file parses to exactly the nodes laid out for it, with their offsets and property sizes, up to the end of the list; this includes the step back when a child list ends. |
| NodeFormat.ParseListStands | src/fileloader.cpp:84-179 | Whatever a file holds: if it parses, what was read is a document printed there, byte for byte, and the nodes built are the ones laid out for it. |
| NodeFormat.AcceptsIff | src/fileloader.cpp:84-179 | A file parses if and only if some document is printed there, followed by nothing or by the end of an outer node; no other file is accepted. |
| NodeFormat.ParseListReadable | src/fileloader.cpp:84-219 | Whatever a file holds: if it parses, the properties of every node lie inside the file and can be unescaped. |
| NodeFormat.ExtractLayout | src/fileloader.cpp:181-219 | Reading type and properties of all nodes laid out for the escaped form of a document gives that document. |
| NodeFormat.ReadPrint | src/fileloader.cpp:39-219 | For every document, reading the file printed for it gives the same types, unescaped properties, children and siblings. |
| FileLoader.AndNotRange | src/fileloader.cpp:339-358 | `pos & ~(c - 1)` lies at or below `pos` and less than `c` below it for every `c >= 1`, also when `c` is no power of two. |
| FileLoader.CacheSizeRange | src/fileloader.cpp:65 | The cache block size is a multiple of 8192 from 8192 to 32768, the largest such up to a twentieth of the file size where that lies between. |
| FileLoader.FileLoader.LoadCacheBlock | src/fileloader.cpp:360-405 | Loads the file's bytes of a block into the first free slot, else the first that holds a block more than two blocks away, else the first slot, which may be the current one; the other slots stay as they are, and all keep showing the file. |
| FileLoader.FileLoader.GetCacheBlock | src/fileloader.cpp:339-358 | Finds or loads the slot that shows the file's bytes around a position. |
| FileLoader.FileLoader.SafeSeek | src/fileloader.cpp:316-326 | Afterwards the position is the one asked for. |
| FileLoader.FileLoader.SafeTell | src/fileloader.cpp:328-337 | Tells the position before the current one, as its callers expect. |
| FileLoader.FileLoader.ReadByte | src/fileloader.cpp:261-284 | Returns the file's byte at the position, whatever was loaded or evicted before, and fails exactly at the end of the file. |
| FileLoader.FileLoader.ReadBytes | src/fileloader.cpp:286-314 | Copies exactly the file's bytes of a range inside the file, across any number of blocks, and terminates. |
| FileLoader.FileLoader.ParseNode | src/fileloader.cpp:84-179 | The loop that links nodes in place agrees with the parser of the format on every file: same success, same tree of objects, same end. |
| FileLoader.FileLoader.OpenFile | src/fileloader.cpp:39-82 | Opens exactly the files with an accepted identifier after which a document is printed; the linked nodes are laid out for that document, and for the escaped form of a document they are its tree. |
| FileLoader.FileLoader.UnescapeBuffer | src/fileloader.cpp:190-216 | Unescapes in place: the front of the buffer becomes the unescaped properties. |
| FileLoader.FileLoader.GetProps | src/fileloader.cpp:181-219 | Returns the unescaped properties of a node, in a buffer that grows when it is too small. |
| Streams.PropWriteStream.Write | src/fileloader.h:208-247 | Appends the little-endian bytes of a number. |
| Streams.PropWriteStream.WriteString | src/fileloader.h:208-247 | Appends length and characters; a string that is too long is written as an empty one. |
| Streams.PropStream.Read | src/fileloader.h:164-173 | Reads the number that stands at the position, or nothing at all if too few bytes are left. |
| Streams.PropStream.ReadString | src/fileloader.h:175-192 | Reads a string, and succeeds exactly if length and characters are there. |
| Streams.PropStream.Skip | src/fileloader.h:194-201 | Moves on by `n` bytes, or not at all if there are fewer. |
| ItemCodec.SerializeAttr | src/item.cpp:646-752 | Written attribute by attribute, with its own condition for each: appends the bytes of the tokens of those that are present, in the fixed order. |
| ItemCodec.ReadAttr | src/item.cpp:366-625 | Reads one attribute as the token reader of the format says, with the same failures. |
| ItemCodec.UnserializeAttr | src/item.cpp:627-639 | Reads attribute after attribute up to the end mark, as the reader function says, with the announced number of held items. |
| ItemCodec.ReadAttrsStand | src/item.cpp:627-752 | Tokens that stand in a stream are all read and applied, and the position moves by exactly their bytes. |
| ItemCodec.TokensApplied | src/item.cpp:366-752 | What was written for an item makes its normal form out of a new item of its type. |
| ItemCodec.UnchangedIff | src/item.cpp:366-752 | An item comes back unchanged if and only if each of its attributes, of all there are, fits its field, is written at all and is kept by its type, and its count is one unless it is stackable; an owner, for one, never comes back. |
| ItemCodec.NormalIsLastingIff | src/item.cpp:366-752 | Saved and loaded once, an item comes back the same from then on, if and only if its date does not vanish in 32 bits, a duration its type brings is not negative, charges on a fluid fit a byte, and charges on an item without any come to 0 or a count of 1. |
| MapSerialize.SaveItem | src/iomapserialize.cpp:219-237 | Appends exactly the bytes of an item and, last one first, of all it holds. |
| MapSerialize.LoadItem | src/iomapserialize.cpp:136-217 | Reads an item with all it holds as the reader function says, to the same position. |
| MapSerialize.LoadContainer | src/iomapserialize.cpp:118-134 | Reads the announced number of items, each put in front, and the end mark. |
| MapSerialize.ReadSavedKids | src/iomapserialize.cpp:118-134 | Items written last one first and put in front one by one are back in their order. |
| MapSerialize.LoadSaved | src/iomapserialize.cpp:118-237 | Loading what was saved consumes exactly its bytes, whatever stands around them, and gives the item with all it holds, in order, in normal form. |
| MapSerialize.RestoredIff | src/iomapserialize.cpp:118-237 | A tree of items comes back exactly as it was if and only if every item in it can be stored as it is. |
| LoginData.SaveItems | src/iologindata.cpp:568-635 | The rows are the breadth-first flattening of the forest: numbers run from 101, each row names its parent, children stand together in order, and below the top level parent numbers never fall, so the rows go level by level. |
| LoginData.LoadItems | src/iologindata.cpp:947-971 | One new object per row of a known type, with its data, under the row's number. |
| LoginData.Player.AddRoot | src/player.cpp:3140-3156 | Equips an item or puts it at the front of a chest; a slot already taken keeps its item. |
| LoginData.Player.Rebuild | src/iologindata.cpp:454-542 | Placing rows by descending number leaves in every container and place the rows that name it, in ascending order, and gives every item its container for a parent. |
| LoginData.Restored | src/iologindata.cpp:454-635 | For saved rows, every place and every container holds again what it held, in order and to any depth, with every object once and its parent set. |
| LoginData.SaveAndLoad | src/iologindata.cpp:454-635 | Saving and loading any forest of items restores every place, with parents set and no object shared within a container. |
| LoginData.FoundAtTopLevel | src/iologindata.cpp:454-542 | After loading, a row's item lies at the top level of depot or inbox if and only if its parent id is below 100. |
| LoginItems.CountMatters | src/item.cpp:147-169 | A new item made with the count of its row and one made without are the same once the count written among the attributes is read. |
| LoginItems.RowRead | src/iologindata.cpp:947-971 | The row saved for an item is loaded, and gives the item in its normal form. |
| LoginItems.SaveAndLoad | src/iologindata.cpp:454-635 | Saving and loading any forest of items with all their attributes restores every place, every item in its normal form, with what it holds in order, to any depth. |
| ItemTree.AddUpGood | src/container.cpp:148-154 | Passing a difference up through all holders makes every cached weight exact, when only the lowest was off by it. |
| ItemTree.AddedGood | src/container.cpp:479-509 | Adding an item that does not hold the container keeps the forest acyclic and linked both ways, and every cached weight exact. |
| ItemTree.RemovedGood | src/container.cpp:580-590 | Removing an item does too, although its weight is taken off before it is unlinked. |
| ItemTree.UpdatedGood | src/container.cpp:511-532 | Changing an item in place does too. |
| ItemTree.ReplacedGood | src/container.cpp:534-556 | Replacing an item does too, in the order the program works in. |
| ItemTree.CachedIsWhole | src/container.cpp:156-159 | With exact caches, an item's weight is the recursive weight of all it holds, however deep. |
| ContainerOps.RunSound | src/container.cpp:268-591 | Over every run of guarded additions, updates, replacements and removals, the forest stays a forest with every cache exact after each step. |
| ContainerOps.QueryAddSafe | src/container.cpp:268-328 | What `queryAdd` accepts can be put there without an item coming to hold itself; without an index, there is a free place. |
| ContainerOps.FindStack | src/container.cpp:444-456 | The first stack that an item can be put onto, or none. |
| ContainerOps.IndexOf | src/container.cpp:593-603 | The first position of an item, or -1. |
| ContainerOps.PutGains | src/container.cpp:479-498 | An addition gives the container the units of the item, and no other container or kind changes. |
| ContainerOps.RemovedGains | src/container.cpp:580-590 | A removal takes them, and no other container or kind changes. |
| ContainerOps.UpdateGains | src/container.cpp:511-532 | A change of count changes just the units of that kind in that container. |
| Container.Item.UpdateItemWeight | src/container.cpp:148-154 | Adds the difference to this container's cache and to those of all its holders, and to no other. |
| Container.Item.AddThing | src/container.cpp:479-498 | The forest of objects becomes what the operation on values says: the item in front, weights passed up; nothing if the index is past the capacity. |
| Container.Item.AddItemBack | src/container.cpp:500-509 | The same with the item last. |
| Container.Item.InternalAddThing | src/container.cpp:674-684 | The same with the item in front, whatever the index. |
| Container.Item.UpdateThing | src/container.cpp:511-532 | An item of this container gets type and count, and weights follow; other items are ignored. |
| Container.Item.ReplaceThing | src/container.cpp:534-556 | The new item stands in the old one's place, weights follow, and the old item has no parent. |
| Container.Item.RemoveThing | src/container.cpp:558-591 | Part of a stack is taken, or the item leaves the list and has no parent; weights follow. |
| Container.Item.GetThingIndex | src/container.cpp:593-603 | The first position of an item, or -1. |
| Container.Item.QueryAdd | src/container.cpp:268-328 | The walk over the holders refuses exactly the items that are the container or hold it; all other refusals in the program's order. |
| Container.Item.QueryMaxCount | src/container.cpp:330-381 | The number that fits: free places times 100 and the room in stacks, or the free places. |
| Container.Item.StackRoom | src/container.cpp:344-357 | The sum of the room in all stacks an item can be put onto. |
| Container.Item.QueryRemove | src/container.cpp:383-403 | Refuses items not in this container, counts of 0 or above the stack, and what cannot be moved. |
| Container.Item.QueryDestination | src/container.cpp:405-472 | The container, index and item that an item is sent to. |
| ContainerIteration.VisitOrderly | src/container.cpp:708-726 | One step of the walk visits an item that has not been visited, no less deep than any before. |
| ContainerIteration.WalkOn | src/container.cpp:708-726 | `advance` keeps the queue, the position and what has been visited in step. |
| ContainerIteration.WalkDone | src/container.cpp:693-726 | At the end of the walk every descendant has been visited exactly once, level after level. |
| ContainerIteration.ContainerIterator.constructor | src/container.cpp:693-701 | The walk starts with nothing visited, and is over at once for an empty container. |
| ContainerIteration.ContainerIterator.Advance | src/container.cpp:708-726 | Visits one more descendant and keeps the walk valid; fewer remain, so it terminates. |
| ContainerIteration.GetItemHoldingCount | src/container.cpp:201-208 | The number of all items in the container, however deep. |
| ContainerIteration.IsHoldingItem | src/container.cpp:210-218 | Holds exactly for the items in the container, however deep. |
| Moves.SettleOnce | src/game.cpp:1044-1052 | The destination settles after at most one change of container: the bound of 16 is never reached. |
| Moves.PlanFair | src/game.cpp:1040-1117 | When a move goes ahead, the destination does not lie in the item, the amount is in the stack, and a new place in the list is free if one is needed. |
| Moves.TakesWhatFits | src/game.cpp:1044-1117 | Whether a move without FLAG_NOLIMIT goes ahead, said by containers, places and stacks alone: it does if the item may go there and there is a free place or room on the stack it is sent to; of a stack as much is taken as the free places and that stack hold, and the answer is NoError exactly if that is all. |
| Moves.LeavesNoRoom | src/game.cpp:1028-1201 | When such a move carries fewer units than asked, the list it went to has no free place afterwards and the stack it was put onto is full. |
| Moves.TakesAllWithoutLimit | src/game.cpp:1054-1096 | With FLAG_NOLIMIT a move takes all that was asked, and goes ahead if and only if the item may be moved there. |
| Moves.TopsUpFirst | src/container.cpp:444-456 | Without an index, a stack from elsewhere is put onto the first stack in the list that has room, and to the front of the list only when none has. |
| Moves.IndexLeads | src/container.cpp:401-472 | Where an index leads: into the container it names, onto the item it names, out to the container around, or to the front of the list. |
| Moves.MoveItemKeeps | src/game.cpp:1028-1201 | A move keeps the forest sound and stacks at 1 to 100; of the moved kind exactly the amount leaves one container and arrives in the other, which may be the same, and nothing else changes, if and only if what needs a place of its own has one, and if it has none exactly that is lost; without FLAG_NOLIMIT it always has, and no container exceeds its capacity. |
| Moves.CarryLoses | src/game.cpp:1134-1164 | Without a place, exactly the rest is lost: all of the amount leaves, what the stack found could take arrives, and nothing else changes. |
| Moves.FiftyLost | src/game.cpp:1134-1164 | A concrete move with FLAG_NOLIMIT of 100 coins onto a stack of 50 that lies behind the capacity, with no index as all callers do it: 50 coins are gone. |
| GameMoves.FindGoal | src/game.cpp:1044-1052 | The loop ends with the settled destination and the flags that hold there. |
| GameMoves.Decide | src/game.cpp:1044-1132 | All refusals in the program's order, the amount, and the code returned when not all could be moved. |
| GameMoves.InternalMoveItem | src/game.cpp:1028-1201 | The forest of objects and the code returned are those of the move on values, and the forest stays sound with stacks at 1 to 100. |
| GameAdd.RestAccepted | src/game.cpp:1210-1285 | If an addition was accepted, the rest left after filling one stack is accepted too, and goes to the same container. |
| GameAdd.AcceptedFits | src/game.cpp:1210-1285 | An accepted addition has a place in the list free when it needs one. |
| GameAdd.AddIff | src/game.cpp:1210-1285 | An addition is accepted if and only if the container it is sent to is unlocked and does not lie in the item, the item can be picked up, a place is free there if no index is named, and the container asked has a free place or room for all of the stack. |
| GameAdd.InternalAddItem | src/game.cpp:1210-1285 | Terminates; what is accepted arrives to the last unit in the container it is sent to, stacks there are filled from first to last and the list grows only when all are full, nothing else changes, the remainder is 0, and what is refused or only tested changes nothing. |
| Money.MintedExactly | src/game.cpp:1479-1520 | Amounts whose crystal coins are worth less than 2^32 are made exactly, in stacks of at most 100. |
| Money.MadeExactly | src/game.cpp:1484-1520 | Below that bound, an amount is made in as few coins as it has: as many crystal, platinum and gold coins as its ten thousands, hundreds and ones. |
| Money.MintedTooMuch | src/game.cpp:1484-1485 | 4294970000, the first amount beyond that bound, is not made exactly. |
| Money.MintedByChance | src/game.cpp:1484-1485 | The bound cannot be an equivalence: a larger amount comes out right by chance. |
| Money.SplitFits | src/game.cpp:1464-1469 | Splitting a stack takes no more coins than it has, and the change is worth at most one of them. |
| Money.Purse.AddItem | src/game.cpp:1210-1285 | Coins fill one stack after another if free places and room suffice for all of them, and otherwise all drop to the tile; the coins of that value, in purse and on tile, are more by exactly the number, those of other values stay as many, and as few new stacks as possible are made. |
| Money.Purse.AddMoney | src/game.cpp:1479-1520 | Purse and tile gain as many coins of each value as are made, below the bound exactly the ten thousands, hundreds and ones of the amount; nothing drops to the tile if and only if there are places for all the new stacks needed. |
| Money.Purse.Look | src/game.cpp:1410-1453 | All coins of the purse are noted once each, cheapest first, and their worth is the total. |
| Money.Purse.RemoveMoney | src/game.cpp:1400-1477 | Pays if and only if the coins are worth the amount; then the total, with what dropped to the tile, falls by exactly the amount, and otherwise nothing changes; a stack is touched only when all cheaper ones are gone. |
| Money.Purse.Split | src/game.cpp:1464-1469 | Paying less than a stack is worth takes as few of its coins as reach the amount and brings back what is too much, less than one of them, in as few coins as possible. |
| MoneyWalk.FindMoney | src/game.cpp:1410-1453 | The walk through containers in containers ends, and finds exactly the coins in them, however deep, each once, those lying directly in the first one first; the amount counted is their worth. |
| MoneyWalk.RemoveMoney | src/game.cpp:1400-1477 | An amount is paid if and only if all coins in a container and below it, however deep, are worth as much, and then the purse they make up is worth exactly that much less. |
| WalkCache.Creature.UpdateMapCache | src/creature.cpp:295-309 | Every cell shows what its tile answers. |
| WalkCache.Creature.UpdateTileCache | src/creature.cpp:311-316 | Sets the cell at an offset in reach, and no other. |
| WalkCache.Creature.MoveRows | src/creature.cpp:497-519 | After a step north or south the rows are shifted and the new row is read. |
| WalkCache.Creature.MoveColumns | src/creature.cpp:521-567 | After a step east or west the columns are shifted, but for the first row after a step to another row, and the new column is read. |
| WalkCache.Creature.OnOwnMove | src/creature.cpp:490-571 | After a step in all directions but south-east and south-west, a teleport or a change of floor, every cell but the creature's own shows what its tile answers; after those two, if and only if the first and last row look the same shifted by one. |
| WalkCache.Creature.OnOtherMove | src/creature.cpp:572-584 | When another creature moves, the cache keeps showing what the tiles answer. |
| WalkCache.Creature.GetWalkCache | src/creature.cpp:328-357 | Answers for every position in reach what its tile answers, 2 out of reach, and always 2 for a creature that keeps no cache. |
| WalkCache.EdgesDecide | src/creature.cpp:521-567 | After a step south-east or south-west the cache is right if and only if the edge rows are alike. |
| WalkCache.SouthEastGoesWrong | src/creature.cpp:521-543 | A concrete step after which the cache is wrong. |
| Market.Fee | src/game.cpp:4976-4981 | A hundredth of the total, at least 20 and at most 1000. |
| Market.GetMarketItemList | src/game.cpp:5277-5316 | Finds items of the ware that together reach the amount, each once and none in vain, exactly when there are enough. |
| Market.TakeItems | src/game.cpp:4998-5013 | Exactly the amount of the ware is taken: of stacks as much as is needed, of other items all that were found. |
| Market.GiveItems | src/game.cpp:5059-5085 | Exactly the amount is given, in new stacks of at most 100 or one by one. |
| Market.Market.CreateOffer | src/game.cpp:4929-5032 | An offer is made exactly when arguments and funds allow; then it stands in the table, and exactly the fee and the gold or items offered are gone from the player; otherwise nothing changes. |
| Market.Market.CancelOffer | src/game.cpp:5034-5093 | Only the owner can cancel; then the offer is gone and the owner has exactly what it held; otherwise nothing changes. |
| Market.Market.AcceptOffer | src/game.cpp:5095-5263 | An offer is accepted, in part or in full, exactly when there are funds; buyer and seller get the items and the gold, and the offer shrinks by the amount; otherwise nothing changes. |
| Market.Market.ProcessExpired | src/iomarket.cpp:120-192 | If the offer of the row is still there it is deleted and its owner gets what the row says, items only if the owner can be loaded; otherwise nothing but the row goes. |
| Market.Market.FetchExpired | src/iomarket.cpp:194-200 | Appends the rows of exactly the numbers given that are in the table, as they stand there. |
| Market.Run | src/game.cpp:4929-5263 | Over every run of the five operations the states follow each other as the operations say; gold never gets less, and if no expiry meets an offer that has shrunk since it was fetched or items of an unknown owner, gold in bank, offers and fees and all items of every ware, held and offered, are exactly as many as before. |
| Market.Traded | src/game.cpp:4929-5263 | An offer that can be paid for is made, another player takes any part of it, the rest is taken back: each step succeeds, fee, items and price are exactly where they belong, and nothing of the offer is left. |
| Market.ExpiredUnsold | src/iomarket.cpp:120-192 | An offer of which nothing was taken expires: its owner has all of it back, and only the fee is gone. |
| Market.CreatedKeeps | src/game.cpp:4929-5032 | Making an offer keeps all gold, with the fee, and all items of every ware. |
| Market.AcceptedKeeps | src/game.cpp:5095-5263 | Accepting an offer, in part or in full, keeps all gold and all items of every ware, also between a player and itself. |
| Market.ExpiredChanges | src/iomarket.cpp:120-192 | An expiry adds the price of what was accepted since the row was fetched, and adds or loses the matching items. |
| Market.FairIff | src/iomarket.cpp:120-192 | An expiry keeps all gold and all items if and only if the offer is gone, or nothing of it was accepted since the row was fetched and the owner of items can be loaded. |
| Market.RunChanges | src/game.cpp:4929-5263 | Over every run, what is there in the end is what was there before and what each unfair expiry added or lost. |
| Market.GoldStays | src/iomarket.cpp:120-192 | Gold from a stale row stays for ever: from then on there is more than before. |
| Market.GoldFromSale | src/iomarket.cpp:120-192 | A concrete run, an offer to buy two, fetched, half accepted, then expired, after which there are 10 gold more. |
| DecayWheel.FiresInTime | src/game.cpp:4239-4281 | An item decays less than 250 ms late and less than 875 ms early. |
| DecayWheel.AfterIs | src/game.cpp:4254-4275 | An item filed with duration D decays 4 * (D / 1000) ticks later, one more if D % 1000 >= 875, and on the next tick below 1000. |
| DecayWheel.Wheel.StartDecay | src/game.cpp:4205-4223 | A marked item or one that cannot decay is left alone; one with time left is marked and noted in front of the new ones, and one without turns into the next at once. |
| DecayWheel.Wheel.Cleanup | src/game.cpp:4392-4400 | Every new item is put into a bucket, where it will decay at this tick plus the ticks of its duration; no other item is touched. |
| DecayWheel.Wheel.LookAt | src/game.cpp:4246-4277 | The item decays exactly if it is due, and otherwise keeps its due tick in one bucket or is dropped when it cannot decay. |
| DecayWheel.Wheel.CheckDecay | src/game.cpp:4239-4281 | Exactly the items due at this tick decay; every item in a bucket that does not keeps its due tick and is in a bucket, and new ones are filed. |
| DecayWheel.Passes | src/game.cpp:4255-4276 | What one look does with the time left, as ticks until it decays: it decays, moves to the next bucket or stays, and no tick is lost. |
| DecayWheel.Run | src/game.cpp:4205-4281 | Over every run of starts, looks, tidying and removals, the buckets keep to the timetable of ticks: the items that decay in a step are exactly those due then. |
| DecayWheel.DecaysWhenDue | src/game.cpp:4205-4281 | An item told to decay with time left decays, unless it is removed, exactly at the tick of its filing plus the ticks of its duration and at none before, whatever else happens. |
| DecayWheel.DecaysThroughStages | src/game.cpp:4205-4281 | An item told to decay and not removed decays at the tick of its filing plus the ticks of its duration, again after those of every next stage, and at no other tick; stages of no time are passed over at once, and after the last it is gone. |
| TradeMoves.TestIff | src/game.cpp:2578-2580 | The test before a trade says yes if and only if the receiving container is unlocked and does not lie in the item, the item can be picked up, and there is a free place in the list or, for a stack from elsewhere, room for all of it in the stacks there. |
| TradeMoves.MovesIff | src/game.cpp:2588-2592 | The move after the test, of the whole count and without stacking, goes ahead if and only if the item is moveable, the list has a free place, and it is not put into the item it is traded for; then it goes to the front, and otherwise nothing changes. |
| TradeMoves.SwappedIff | src/game.cpp:2576-2600 | For every forest and every two items: both change hands if and only if all tests pass, the partner has a free place, and the player has one or gets one by giving; only the first does if and only if the player then has none; units are carried over exactly, and if nothing is moved nothing changes. |
| TradeMoves.OneSided | src/game.cpp:2576-2600 | A concrete trade: all tests pass, the box goes to one player, and the coins offered for it stay with that player, as they fit on a stack but need a place. |
| TradeMoves.ExchangeKeeps | src/game.cpp:2576-2600 | After a trade, items that neither lay in each other nor in the two traded still do not, nothing has disappeared, and no container is new. |
| TradeMoves.ExchangeTotal | src/game.cpp:2576-2600 | However far a trade comes, all containers together hold as many units of every kind as before. |
| TradeBook.OneOfferEach | src/game.cpp:2496-2527 | No item is offered by two players, and no player is the partner of two. |
| TradeBook.OfferSane | src/game.cpp:2496-2527 | An offer between players free for each other keeps partners matched, their states in step, and the list of offers exact. |
| TradeBook.CloseSane | src/game.cpp:2727-2769 | Closing a trade does too, and touches no trade whose items are being moved. |
| TradeBook.AcceptSane | src/game.cpp:2529-2628 | An acceptance does too, whatever else is closed while the items are moved; when it ends a trade, both players are free again and nothing of theirs is offered. |
| TradeBook.BothOffered | src/game.cpp:2496-2527 | Two players who do not trade can offer to each other, one after the other, and then both offers stand. |
| TradeBook.BothAccepted | src/game.cpp:2529-2576 | Once both have offered, the first acceptance only waits and the second sets the items moving. |
| TradeBook.AcceptedForNothing | src/game.cpp:2529-2628 | If one of the two has offered nothing and both accept, nothing is to change hands, and both are free again. |
| Trade.Game.Free | src/game.cpp:2447-2481 | An item is free exactly if neither it, nor anything it holds or lies in, is offered, however deep. |
| Trade.Game.RequestTrade | src/game.cpp:2387-2494 | An offer is made exactly when the players are two and free for each other, the item can be picked up, is free and holds fewer than 100, and script and place allow; otherwise nothing changes, and offered items never lie in each other. |
| Trade.Game.InternalStartTrade | src/game.cpp:2496-2527 | Succeeds exactly between players free for each other, and then the states of both and the list are those of the offer. |
| Trade.Game.InternalCloseTrade | src/game.cpp:2727-2769 | Ends the trade for both and strikes their offers, or does nothing at all while items are being moved. |
| Trade.MoveItems | src/game.cpp:2576-2600 | On the objects: the tests change nothing, the first move and if it succeeds the second are those on values. |
| Trade.Game.AcceptTrade | src/game.cpp:2529-2628 | The states of all players are those of an acceptance, and the forest changes exactly when both have accepted and offered and the script agrees, by the deal of the two; both items change hands exactly under the condition of `SwappedIff`. |
| Trade.Game.Run | src/game.cpp:2387-2769 | Over every run of requests, acceptances and closings by any players, each does what it should, and in every state trades are between two, no item is offered twice, and none that is offered lies in another. |
| Trade.TradeHappens | src/game.cpp:2387-2628 | In every such run, when two players who do not trade offer free items to each other and both accept, in whatever order, there is a deal over exactly these items, both are free again, and both items change hands if and only if the tests pass and each has a place to go. |
| Trade.RunKeeps | src/game.cpp:2387-2769 | Over every such run, all containers together hold as many units of every kind at the end as at the start. |
| DatabaseTasks.StepExclusive | src/databasetasks.cpp:34-67 | Each step of any thread keeps the lock with exactly the thread between taking and releasing it. |
| DatabaseTasks.StepInOrder | src/databasetasks.cpp:34-67 | Each step keeps: accepted is taken followed by waiting, and taken is done with at most the one running. |
| DatabaseTasks.StepNotForgotten | src/databasetasks.cpp:34-67 | Each step keeps: while the worker waits and the list is not empty, a signal is still due, although only the thread that found the list empty signals. |
| DatabaseTasks.RunInv | src/databasetasks.cpp:34-67 | All three hold after every step of every interleaving. |
| DatabaseTasks.RunFromInit | src/databasetasks.cpp:34-67 | So they hold in every state of every run from the start. |
| DatabaseTasks.Rouses | src/databasetasks.cpp:53-67 | While the worker waits on a list that is not empty, one thread wakes it with at most two steps of its own. |
| DatabaseTasks.Drains | src/databasetasks.cpp:34-51 | With no other thread at work the worker comes to rest only when every accepted task has been run. |
| DamageList.CloserIs | src/condition.cpp:1213-1215 | The comparison of the two relative errors holds exactly if less than twice the distance is added. |
| DamageList.AgainFits | src/condition.cpp:1205-1216 | If a value is worth adding again, all smaller values still fit into the amount. |
| DamageList.GenerateDamageList | src/condition.cpp:1199-1217 | Terminates with a falling list of exactly the values from start to 1, each dealt as often as brings the sum so far closest to its share of the amount; the sum is the larger of the amount and 1 + 2 + ... + start, or 0 for no value, and so is the amount if and only if start is positive and start * (start + 1) / 2 does not exceed it, or start and amount leave nothing to deal. |
| DamageList.OnlyList | src/condition.cpp:1199-1217 | These shares leave no choice: for an amount and a start there is only one falling list that keeps them. |
| DamageList.SumIsAmount | src/condition.cpp:1199-1217 | The condition follows from the sum for every start, also below 1, and holds whenever start * start does not exceed the amount. |
| DamageList.TenForFive | src/condition.cpp:1199-1217 | A concrete list whose sum exceeds the amount: five dealt from four on come to ten. |
| ConditionCodec.Serialize | src/condition.cpp:111-127 | Appends header and properties of a condition of any kind, field by field. |
| ConditionCodec.SaveConditions | src/iologindata.cpp:659-665 | Appends all persistent conditions, each with its end mark. |
| ConditionCodec.CreateCondition | src/condition.cpp:204-253 | Reads the five leading properties in their order and makes the condition they announce, or fails. |
| ConditionCodec.UnserializeProp | src/condition.cpp:870-897 | Reads a property the condition knows and applies it, or fails without moving on. |
| ConditionCodec.Unserialize | src/condition.cpp:51-60 | Reads property after property up to the end mark, as the reader function says. |
| ConditionCodec.LoadConditions | src/iologindata.cpp:291-304 | Loads the conditions of a stream, each to the front of the list, and stops where a header cannot be read. |
| ConditionCodec.AttributesRead | src/condition.cpp:368-391 | Skills and stats written in order are read back into the same positions. |
| ConditionCodec.DamageRead | src/condition.cpp:870-913 | A damage condition comes back with its stretches, and ticks counted up from them. |
| ConditionCodec.TicksAreLength | src/condition.cpp:887-893 | Those ticks are the sum of the lengths of the stretches. |
| ConditionCodec.BodyRead | src/condition.cpp:62-127 | Of every kind, the properties written make the same condition again. |
| ConditionCodec.HeaderRead | src/condition.cpp:204-253 | A written header announces its condition: the id -1 survives the unsigned 32 bits. |
| ConditionCodec.SavedIsLoaded | src/iologindata.cpp:291-304 | Loading what was saved consumes the whole stream and brings back every persistent condition. |
| ConditionCodec.RestoredIsReversed | src/iologindata.cpp:296-304 | The list comes back reversed. |
| ConditionCodec.RestoredInParts | src/iologindata.cpp:296-304 | Of two lists of conditions saved one after the other, the second comes back in front of the first. |
| ConditionCodec.ComesBack | src/condition.cpp:263-274 | Saved and loaded, a condition is there again if and only if it has an end and one of the two ids that are kept; it is as it was, but for where the next skill and stat go, and for the ticks of damage, which are the sum of its stretches. |
| ConditionCodec.EveryKind | src/condition.cpp:146-202 | There is a condition for each of the 28 kinds, which are single bits, and for nothing else. |
| ConditionCodec.SaveAndLoad | src/iologindata.cpp:659-665 | Saving conditions and loading them gives the persistent ones, reversed, in normal form. |

## Left out

- Scripts, events, configuration, sockets, messages, logging and the text of queries: answers of scripts and database become parameters.
- Reference counts and the release of objects; items that are no longer used simply stay unreachable.
- Players and tiles as holders of items, `NEEDEXCHANGE`, and the parents of depots, inboxes and lockers: moves are between plain containers, inboxes accept everything, the outermost container has no holder that objects.
- Moves and additions with FLAG_CHILDISOWNER set by the caller; additions with FLAG_NOLIMIT or FLAG_IGNOREAUTOSTACK, with which part of an addition may be refused or lost.
- Stackable containers: a stack is never a holder. Two items count as equal when their kinds are equal; a kind stands for the type and all attributes that `equals` compares.
- The change of decay attributes in `setID`, and the 32-bit wrap-around of the cached weights, whose sums are far below it.
- Money.MintedExactly: goes one way only, as larger amounts may come out right by chance; `MintedByChance` is one.
- Money.Purse.RemoveMoney: all coins are removable; other items only take up places, and the order among stacks of equal worth is that of their numbers.
- MoneyWalk.RemoveMoney: the coins are taken from the purse that those found make up, not from the forest of objects.
- Money.Purse.AddItem: adds coins to a purse of stacks and free places, not to the forest of `ContainerOps.dfy`.
- Doors, beds, teleports and depots when items are saved, unique ids (also one that a stream sets), stationary items matched in `loadItem`, tiles in `saveTile`, and id changes in `CreateItem`: items are plain and their types do not change.
- The type of a loaded item announces whether it is a container; a container count is assumed to fit in 32 bits.
- FileLoader.FileLoader.ReadBytes: for ranges inside the file only; reads past the end, failures of the file system, `lastError` and files above 2^31 bytes are not modelled.
- WalkCache.Creature.OnOwnMove: for creatures at least 11 tiles away from the edges of the 16-bit map; nearer to them coordinates wrap around.
- DamageList.GenerateDamageList: rationals in place of `float` and `double`, and no overflow of `n * amount`.
- Market.Fee: exact hundredths in place of `double`, and balances without the 64-bit limit.
- Market.Market.FetchExpired: which offers have expired is a parameter, not a comparison of dates; a ware has one item type.
- LoginItems.LoadData: of an item whose attributes cannot be read to their end, only that it is kept.
- ItemCodec.UnserializeAttr: the decay that may start once an item is loaded is not modelled.
- Market.TakeItems: an item that does not come in stacks counts one; a count that charges without a type left on it is not modelled.
- Market.Market.AcceptOffer: the buyer of an offer can always be loaded; if not, the program does nothing.
- Market lookups by time stamp and low 16 bits of the number: an offer is found by its number.
- DecayWheel.Wheel.StartDecay: what an item turns into is a list of durations; changes of an item's type or duration from elsewhere are not modelled.
- Trade.Game.RequestTrade: distance, sight and the script are one answer; unique ids, which bar an item, are not modelled.
- Trade.Game.AcceptTrade: players receive in one container of their own, not in slots and backpacks; other trades are told to close after the two moves, not between them.
- Trade.Game.Run: items are moved by trades only; when an offered item is moved otherwise, the program closes its trade.
- ConditionCodec.UnserializeProp: a skill or stat beyond the last is refused, where the program would write past its array; floating point numbers and outfits are their bytes.
- Shutdown and flush of the task queue, and the tasks themselves: only the queue, the lock and the signal are modelled.
- Combat, spells, chat, houses, pathfinding, monsters, npcs, map loading and everything else.
