# A model of the SDK's stores, application state machine, coins and packets

This project models the parts of a blockchain SDK on which everything else rests, and proves what they promise:

- **Stores.** Caches over parents and prefixed views, stacked to any height, with the iterator that merges a cache
  with its parent (`MergeIteration`, `PrefixRange`, `Stores`, `StoreRuns`, `StoreIteration`), many stores at once
  (`MultiStores`, `MultiRuns`), and the write lock between sibling caches (`WriteLocks`).
- **Blocks and commits.** The application's check, deliver and committed states (`BaseApps`, `TxLaws`), the same as caches
  over the mounted stores (`AppStores`, `AppRefines`), and committing many versioned trees with pruning and crashes
  (`Commits`).
- **Packets between chains.** Persistent queues (`Queues`) and the relayed packet protocol (`Ibc`, `IbcProtocol`,
  `IbcLaws`, `IbcNetwork`, `IbcProgress`, `IbcSelfPost`, `IbcExact`).
- **Coins and numbers.** Bounded integers (`BigInts`), banker's rounding (`Rationals`), coin lists and their text form
  (`Coins`, `CoinText`, `TextLaws`, and `Coins64` for the wrapping `int64` coins of the older transaction code).
- **Transactions.** Payments and plugin calls on a ledger (`ExecTxs`, `AppTxs`, `Execution`, `SendLaws`, `AppLaws`,
  `CodeLaws`).

`dafny verify dfyconfig.toml` checks all of it.

## How the model is built

Code that changes objects is modelled by classes and methods with the source's loops; each method is proved against a
function on values, and the theorems are about those functions. Modules named `…Laws` say what such functions compute
without referring to their definitions, field by field and case by case. Go's `string` and `[]byte` are byte sequences, nil is
`None`, a panic is an error value, and 64-bit wrap-around is written out (`MachineInts.Int64`, `Queues.Successor`).

Most theorems compare the code with an independent description: iteration with the overlaid finite map, the layered
application with a machine of three unrelated maps and that machine with a fold over blocks, concurrent writers with a
serial run, checked arithmetic with exact arithmetic, the digit test of rounding with nearest-even, coin lists with
functions from denominations to amounts, queues with sequences, and accepted packets with sent ones.

What the model takes as given is a parameter or an explicit hypothesis: message handlers, ante handlers, hooks and
plugins are arbitrary functions; signature verification is an arbitrary predicate; packet encoding is injective and
longer than a counter (`Ibc.GoodEncoding`); a proof that verifies shows what is in the committed state (`Ibc.Sound`); stored
headers are correct and packet bytes are written to queue slots only (`IbcProtocol.Fair`); a tree accepts saving an existing
version again only unchanged (`Commits.Allowed`).

## Where the code and its documentation differ

- `Coins.Plus` is documented never to return a zero coin. It can: `Coins.NoZeroIff` gives the exact condition and
  `Coins.ZeroCoinSurvives` an input.
- `Coins.IsValid` is documented to refuse zero amounts. It does not look at the first of several:
  `Coins.ValidIffCanonicalOrLeadingZero`, `Coins.LeadingZeroIsValid`.
- A cache is to write back what was set. A nil value over a live key is not: `Stores.WriteBackExact`,
  `Stores.NilOverLiveIsNotWritten`.
- An iterator with crossed bounds is to be empty. The dirty items are then read as a descending range:
  `MergeIteration.GuessIsAscending`, `MergeIteration.CrossedBoundsGuessWrong`, `StoreIteration.ForwardCutExact`.
- Committing is to survive a crash. With no recent version kept it need not (`Commits.CrashSafeIff`,
  `Commits.UnsafeLosesRecorded`), and unless every version is a waypoint a replayed prune can be refused
  (`Commits.ReplayableIff`, `Commits.RefusedReplay`).
- `SendTx` is to conserve coins. With overflowing `int64` sums it does so only modulo 2^64: `ExecTxs.SendConserves`,
  `ExecTxs.OverflowLosesCoins`.
- The funds test is to refuse what an account does not have. It compares wrapped differences: `Coins64.GTE64Iff`,
  `Coins64.OverflowPassesAsGTE`.
- Accepted packets are to be a prefix of the enqueued ones. They are for two different chains and fewer than 2^64
  packets, and only then (`IbcExact.PrefixIff`): with one chain in both roles it fails
  (`IbcSelfPost.SelfAcceptedNeedNotBeSent`), since the proof's key is not compared with the queue's, and so it does when
  the counter wraps around (`IbcExact.WrappedAcceptsTwice`).
- A queue is to be first in, first out. It is unless a push finds 2^64-1 values: `Queues.FirstInFirstOut`.
- A cache reads its parent through. What it remembers from reading goes stale when another cache is written to that
  parent: `AppStores.FreshReadsIff`, `AppStores.StaleRead`. The application never reads a stale one: `AppStores.RunApp`.

## Model

| member | source | states |
|---|---|---|
| `MergeIteration.MergeIsOverlay` | store/cachemergeiterator.go:55-224 | merging any strictly ordered parent cursor with any strictly ordered cache cursor, in either direction, lists exactly the live entries of the overlaid map, each once and in strict key order |
| `MergeIteration.EnumerationUnique` | store/cachemergeiterator.go:55-224 | a strictly ordered listing is determined by the map it denotes, so iteration has one right answer |
| `MergeIteration.CacheMergeIterator.constructor` | store/cachemergeiterator.go:22-30 | a new merge iterator will yield the merge of what its two cursors still hold |
| `MergeIteration.CacheMergeIterator.SkipCacheDeletes` | store/cachemergeiterator.go:163-170 | skipping delete markers below the parent's key never changes what is yielded and stops at a live item or at that key |
| `MergeIteration.CacheMergeIterator.SkipOnce` | store/cachemergeiterator.go:175-224 | one round of the skip loop keeps what is yielded and either knows the answer or has consumed an item |
| `MergeIteration.CacheMergeIterator.SkipUntilExistsOrInvalid` | store/cachemergeiterator.go:175-224 | the skip loop ends, keeps what is yielded, and says whether anything is left |
| `MergeIteration.CacheMergeIterator.Valid` | store/cachemergeiterator.go:50-52 | true exactly when an item is left; the cursors may move but the remaining items stay the same |
| `MergeIteration.CacheMergeIterator.Next` | store/cachemergeiterator.go:55-82 | drops exactly the first remaining item |
| `MergeIteration.CacheMergeIterator.Key` | store/cachemergeiterator.go:85-112 | the key of the first remaining item, with the remaining items unchanged, so it may be asked any number of times |
| `MergeIteration.CacheMergeIterator.Value` | store/cachemergeiterator.go:115-142 | the value of the first remaining item, with the remaining items unchanged |
| `MergeIteration.Iter.Valid` | store/cachemergeiterator.go:50-52 | the same stability at every nesting of caches and prefixes |
| `MergeIteration.Iter.Key` | store/prefixstore.go:98-102 | the first remaining key, with a stripped prefix removed, at every nesting |
| `MergeIteration.Iter.Value` | store/prefixstore.go:105-107 | the first remaining value, at every nesting |
| `MergeIteration.Iter.Next` | store/prefixstore.go:93-95 | advances by exactly one item, at every nesting |
| `MergeIteration.MemIterator.constructor` | store/memiterator.go:18-31 | keeps the items of the domain that is guessed from the bounds |
| `MergeIteration.MemIterator.Next` | store/memiterator.go:47-50 | drops the first item |
| `MergeIteration.GuessIsAscending` | store/memiterator.go:18-31 | the guessed domain is the ascending range on every key if and only if the bounds are not crossed |
| `MergeIteration.GuessIsDescending` | store/memiterator.go:18-31 | the guessed domain is the descending range on every key if and only if both bounds are open or both are given with start at or above end |
| `MergeIteration.CrossedBoundsGuessWrong` | store/memiterator.go:18-31 | a concrete crossed range in which the guess takes in a key outside the ascending range |
| `PrefixRange.PrefixIsRange` | types/store.go:257-278 | for every non-empty prefix, a key has the prefix if and only if it lies from the prefix up to the computed end |
| `PrefixRange.PrefixEndBytes` | types/store.go:257-278 | the loop computes that end, which is open exactly when all bytes are 255 |
| `Stores.CacheKVStore.constructor` | store/cachekvstore.go:29-35 | a new cache shows its parent's contents |
| `Stores.CacheKVStore.Get` | store/cachekvstore.go:43-57 | reads the overlaid contents; the cache gains at most a clean entry, and no view of any layer changes |
| `Stores.CacheKVStore.Set` | store/cachekvstore.go:60-66 | the view gains the value, or loses the key for nil; every layer below is untouched |
| `Stores.CacheKVStore.Delete` | store/cachekvstore.go:75-81 | the view loses the key; every layer below is untouched |
| `Stores.CacheKVStore.Write` | store/cachekvstore.go:89-118 | the parent becomes the child's view if and only if no live parent key was set to nil, and so whenever nothing was set to nil; the cache is emptied, the child then shows the parent, and layers below the parent are untouched |
| `Stores.CacheKVStore.FlushKeys` | store/cachekvstore.go:105-114 | the write-back loop, entry by entry in key order, overlays the parent with the written entries |
| `Stores.CacheKVStore.WriteEntry` | store/cachekvstore.go:106-113 | what the loop body does for a deleted, a nil and a set entry |
| `Stores.WriteBackExact` | store/cachekvstore.go:89-118 | writing back reproduces the child's view for given contents if and only if no live key was set to nil |
| `Stores.NilOverLiveIsNotWritten` | store/cachekvstore.go:106-113 | a concrete cache in which a key set to nil stays in the parent |
| `Stores.KVStore.Get` | store/prefixstore.go:23-25 | lookup in the view of any stack of caches and prefixes, changing no view |
| `Stores.KVStore.Set` | store/prefixstore.go:33-35 | updates the view of any stack and, of all its layers, only the top one, at the fully prefixed key |
| `Stores.KVStore.Delete` | store/prefixstore.go:38-40 | removes from the view of any stack and, of all its layers, only from the top one |
| `Stores.UnprefixLookup` | store/prefixstore.go:23-25 | reading below a prefix is reading the prefixed key |
| `StoreRuns.RunAndWrite` | store/cachekvstore.go:43-118 | after any run of reads, sets and deletes on a cache over a stack of any height, Write makes the parent equal the child's view, which is that of a plain map after the same calls; it changes no read through the child and no layer below the parent |
| `StoreRuns.RunCalls` | store/cachekvstore.go:43-81 | any run of calls through any stack reads and leaves what a plain map would, and no layer below the top one changes, so the top one can be discarded |
| `StoreRuns.WriteThrough` | store/cachekvstore.go:89-118 | writing every cache of a stack back, from the top down, empties them all and changes no read |
| `StoreIteration.YieldForward` | store/cachekvstore.go:141-152 | forward iteration over any stack of caches and prefixes visits exactly the entries of its view in the range |
| `StoreIteration.YieldReverse` | store/cachekvstore.go:137-152 | reverse iteration over any stack of caches visits exactly the range of its view that the bottom store reads from the bounds, where the caches read the same range |
| `StoreIteration.ForwardCutExact` | store/cachekvstore.go:141-152 | cutting parent and cache to a range before overlaying them is right for all contents if and only if the bounds are not crossed |
| `StoreIteration.NewIterator` | store/cachekvstore.go:132-152 | the iterator built for any stack lists, in strict key order, exactly the entries that iteration is to visit |
| `StoreIteration.CacheIterator` | store/cachekvstore.go:141-152 | the same for a cache over any parent |
| `StoreIteration.DirtyCursor` | store/cachekvstore.go:154-172 | the dirty entries, sorted in the direction of iteration and cut to the guessed domain, whatever order the map is visited in |
| `StoreIteration.PrefixIterator` | store/prefixstore.go:48-58 | the same for a prefixed view of any store |
| `StoreIteration.PrefixedCut` | store/prefixstore.go:48-58 | the range asked of the underlying store holds exactly the prefixed keys of the asked range |
| `StoreIteration.InnerHasPrefix` | store/prefixstore.go:98-102 | every key that the underlying iterator can yield has the prefix, so stripping is defined |
| `StoreIteration.BaseIterator` | store/iavlstore.go:147-160 | the cursor of the bottom store, with the tree's and the database's reading of reverse bounds |
| `StoreIteration.Subspace` | store/iavlstore.go:203-212 | draining the prefix iterator collects exactly the entries with the prefix, in key order |
| `MultiStores.CacheMultiStore.Write` | store/cachemultistore.go:49-54 | every cache is emptied into its parent, whatever order the map of stores is visited in, and no layer below a parent changes; every parent and cache then shows what the cache showed, unless a live key was set to nil |
| `MultiStores.CacheMultiStore.WriteStore` | store/cachemultistore.go:49-54 | writing one store leaves all other stores and caches alone |
| `MultiStores.CacheStores` | store/cachemultistore.go:20-30 | a new cache over every mounted store, each showing the contents of its store, no two sharing an object, and nothing but the stores and the new caches within reach of the result, so a caller who may change the stores may use and write it |
| `MultiStores.CacheCaches` | store/cachemultistore.go:32-41 | the same over the caches of another multistore |
| `MultiRuns.RunAndWriteAll` | store/cachemultistore.go:20-54 | caches over all mounted stores, any calls on them in any order, and a write: every store is the plain map after its own calls, every read returned what it returns there, and no lower layer changed |
| `MultiRuns.Perform` | store/cachemultistore.go:66-80 | any calls on the caches of a multistore leave every cache at the plain map after its own calls, and all stores below as they were |
| `AppStores.RunApp` | baseapp/baseapp.go:252-268 | over any calls of an application, its check and deliver states as caches over the same stores, and those stores, show what three unrelated plain maps would, and every read returned what it returns there, so none was stale |
| `AppStores.App.RunSteps` | baseapp/baseapp.go:470-625 | the same from any state of the application |
| `AppStores.App.Commit` | baseapp/baseapp.go:595-625 | the stores take over the deliver state and the check state is replaced, whatever its caches still remember |
| `AppStores.App.DeliverTx` | baseapp/baseapp.go:500-579 | a transaction on the deliver state, with the messages on a cache over it that is kept or dropped, leaves the stores and the check state alone |
| `AppStores.App.CheckTx` | baseapp/baseapp.go:500-579 | the same for the check state |
| `AppStores.RunTx` | baseapp/baseapp.go:512-579 | ante handler's calls on a state and messages' calls on a cache over it: the state shows the plain maps after both, or after the first only |
| `AppStores.FreshReadsIff` | baseapp/baseapp.go:602-617 | a cache over a store that another one wrote reads what the layer of its dirty entries shows if and only if no key that it remembers from reading has changed |
| `AppStores.StaleRead` | baseapp/baseapp.go:602-617 | a cache that read a key before another was written back still returns the old value |
| `AppStores.CallsAreDelta` | baseapp/baseapp.go:512-579 | the calls of a handler change each store as a layer of dirty entries does, which is how the block state machine describes them |
| `AppRefines.RunAgrees` | baseapp/baseapp.go:252-625 | over any run of the block state machine, the caches and the store of an application that makes the calls behind its writes show the machine's committed, check and deliver contents |
| `AppRefines.CallAgrees` | baseapp/baseapp.go:252-625 | the same for every single call, genesis and block hooks included |
| `BaseApps.OrderedRunIsBlockFold` | baseapp/baseapp.go:382-401 | every protocol-ordered run, with InitChain before any block and checks, simulations and queries anywhere, splits into committed blocks and an open rest, and its committed contents are the fold of those blocks, each starting over from its last InitChain if it has one |
| `BaseApps.CommittedIsBlockFold` | baseapp/baseapp.go:587-625 | the same for any run whose consensus calls are given as blocks |
| `BaseApps.GenesisThenBlocks` | baseapp/baseapp.go:291-304 | a chain started by InitChain commits the fold of its blocks over the genesis writes |
| `BaseApps.RunGenesis` | baseapp/baseapp.go:291-304 | of several InitChain calls before a block only the last has an effect |
| `BaseApps.ChecksDoNotInterfere` | baseapp/baseapp.go:404-470 | a run reaches the same committed and deliver states as its consensus calls alone |
| `BaseApps.CheckFollowsCommit` | baseapp/baseapp.go:595-625 | after any Commit the check state shows the committed contents, until a check or simulation moves it |
| `BaseApps.OrderedCanRun` | baseapp/baseapp.go:587-625 | calls in protocol order never dereference a missing deliver state |
| `BaseApps.BaseApp.RunTx` | baseapp/baseapp.go:470-584 | for any ante handler and handlers: the state after a transaction is the post-ante state, or the in-order composition of all handlers on it exactly when every message is routed and succeeds; simulation keeps no message effects; the result is that of the first test that fails |
| `BaseApps.BaseApp.RunLayer` | baseapp/baseapp.go:499-584 | the same for the layer that the mode selects, panics included |
| `BaseApps.BaseApp.RunMsgs` | baseapp/baseapp.go:533-570 | the message loop succeeds exactly when every message does on the contents left by its predecessors, and then holds their composition; otherwise it reports the first message that does not |
| `BaseApps.BaseApp.SetCheckState` | baseapp/baseapp.go:252-258 | the check state shows exactly the committed contents, with the new header |
| `BaseApps.BaseApp.SetDeliverState` | baseapp/baseapp.go:260-266 | the deliver state shows exactly the committed contents, with the new header |
| `BaseApps.BaseApp.DoInitChain` | baseapp/baseapp.go:291-304 | agrees with the reference machine, whose three states are unrelated maps |
| `BaseApps.BaseApp.DoBeginBlock` | baseapp/baseapp.go:382-401 | agrees with the reference machine, keeping a deliver state left by InitChain |
| `BaseApps.BaseApp.DoCheckTx` | baseapp/baseapp.go:404-426 | agrees with the reference machine, also for undecodable bytes and before any check state exists; OK exactly when the transaction succeeds, and otherwise the result of the first test that fails |
| `BaseApps.BaseApp.DoDeliverTx` | baseapp/baseapp.go:429-451 | agrees with the reference machine; OK exactly when the transaction succeeds, and otherwise the result of the first test that fails |
| `BaseApps.BaseApp.DoSimulate` | baseapp/baseapp.go:459-461 | agrees with the reference machine |
| `BaseApps.BaseApp.DoEndBlock` | baseapp/baseapp.go:587-593 | agrees with the reference machine |
| `BaseApps.BaseApp.DoCommit` | baseapp/baseapp.go:595-625 | agrees with the reference machine: layers flushed, check state renewed, deliver state gone |
| `BaseApps.BaseApp.RunAll` | baseapp/baseapp.go:252-625 | any sequence of calls takes the layered application where the reference machine goes |
| `TxLaws.DeliverTxLaw` | baseapp/baseapp.go:429-584 | what DeliverTx leaves, written out: a malformed transaction changes nothing; else the ante handler's writes stay in any case, and on top of them the left-to-right fold of all handlers' writes if it lets the transaction through and every message is routed and succeeds, and nothing otherwise; the ante handler's context has the transaction's bytes and the block's validators |
| `TxLaws.CheckTxLaw` | baseapp/baseapp.go:404-426 | the same for CheckTx on the check state, with the transaction's bytes in the context |
| `TxLaws.SimulateTxLaw` | baseapp/baseapp.go:459-579 | a simulation runs on the check state with a context that is not for checking, keeps the ante handler's writes and no message's |
| `TxLaws.ReportLaw` | baseapp/baseapp.go:404-584 | the result names what stopped the transaction: the decoder, the lack of messages, an invalid message, a missing state, the ante handler, or the first message without route, failing or panicking |
| `TxLaws.InitChainLaw` | baseapp/baseapp.go:291-304 | both states start from the committed contents, and the hook's writes go to the deliver state |
| `TxLaws.BeginBlockLaw` | baseapp/baseapp.go:382-401 | a pending deliver state goes on under the new header, or a new one starts from the committed contents; the hook's writes go to it |
| `TxLaws.EndBlockLaw` | baseapp/baseapp.go:587-593 | the hook's writes go to the deliver state |
| `TxLaws.CommitLaw` | baseapp/baseapp.go:595-625 | the deliver state becomes the committed contents and the check state a view of them |
| `WriteLocks.CwwMutex.TryWriteLock` | store/cacheiterkvstore.go:171-185 | succeeds exactly for the current version, which is then used up |
| `WriteLocks.CacheIterKVStore.Write` | store/cacheiterkvstore.go:84-122 | writes back exactly when its lock version is current; otherwise nothing changes |
| `WriteLocks.CacheIterKVStore.Get` | store/cacheiterkvstore.go:45-59 | the cached value or the parent's, which is then remembered |
| `WriteLocks.CacheIterKVStore.Perform` | store/cacheiterkvstore.go:61-80 | the cache and the answers after a read, set or remove |
| `WriteLocks.Family.Write` | store/cacheiterkvstore.go:84-122 | on a parent with any children, a write succeeds exactly when the transition system's does, and leaves the objects in its state |
| `WriteLocks.Family.RunSteps` | store/cacheiterkvstore.go:45-122 | any interleaving of the children's calls takes the objects where the transition system goes |
| `WriteLocks.RunFamily` | store/cacheiterkvstore.go:45-122 | in every interleaving over a new parent, the parent object ends with what the successful writers give when run one after another, and every writer read what it reads in that serial run; if no nil was set, both are those of a plain map |
| `WriteLocks.WritersAreSerial` | store/cacheiterkvstore.go:84-122 | in every interleaving of children, no two successful writes share a version or a child, and the parent and all reads are those of running the successful children one after another |
| `WriteLocks.WritersArePlain` | store/cacheiterkvstore.go:45-122 | in every interleaving of children that set no nil, the parent is the plain map after the calls of the successful writers, one writer after another, and each of them read what that map gave it in its turn |
| `WriteLocks.SoloIsPlain` | store/cacheiterkvstore.go:45-122 | a child alone reads what a plain map gives and shows that map after its calls; it writes that map back if and only if it set no key of the parent to nil |
| `WriteLocks.OnlyWritesChangeParent` | store/cacheiterkvstore.go:84-122 | a run without a successful write ends with the parent it started from |
| `WriteLocks.RunKeepsInv` | store/cacheiterkvstore.go:45-122 | children with the current version are always where a solo run on the present parent would be |
| `Commits.KeptStep` | store/iavlstore.go:70-95 | saving a version and deleting the released one takes the kept set of n commits to that of n+1, and the released version is present and not the latest |
| `Commits.IavlStore.Commit` | store/iavlstore.go:70-95 | the stored versions stay exactly the kept ones and no delete is refused |
| `Commits.IavlStore.CommitAll` | store/iavlstore.go:70-95 | after N commits from an empty tree the versions are exactly those at least N-numRecent and the multiples of storeEvery, each with the contents of its commit |
| `Commits.CrashSafe` | store/rootmultistore.go:142-161 | with numRecent at least 1, or storeEvery 1, stopping after any write of any number of commits, with stores in any order and crashes in between, leaves the recorded version loadable in every store with the contents of that one commit |
| `Commits.CrashSafeIff` | store/rootmultistore.go:142-161 | every run from an empty disk can be recovered from if and only if numRecent is at least 1, storeEvery is 1 or there are no stores |
| `Commits.UnsafeLosesRecorded` | store/iavlstore.go:79-92 | for every other configuration, a run from an empty disk after which the recorded version does not load |
| `Commits.ReleasesRecorded` | store/iavlstore.go:79-92 | a commit deletes the recorded version if and only if numRecent is 0 and that version is no waypoint |
| `Commits.PrunedRecoverableIff` | store/rootmultistore.go:377-397 | after a store has pruned, a crash is recoverable if and only if that pruning did not delete the recorded version |
| `Commits.ReplayedPruneIff` | store/iavlstore.go:79-92 | a store that pruned before a crash can prune again on replay if and only if nothing is to be released |
| `Commits.ReplayableIff` | store/iavlstore.go:79-92 | every prune of every run from an empty disk can be replayed after a crash if and only if storeEvery is 1 or there are no stores |
| `Commits.RefusedReplay` | store/iavlstore.go:79-92 | for every other configuration, however many recent versions are kept, a run after which the replayed prune is refused |
| `Commits.RootMultiStore.constructor` | store/rootmultistore.go:37-45 | mounted stores over an empty disk are ready to commit |
| `Commits.RootMultiStore.Commit` | store/rootmultistore.go:142-161 | on a disk with any versions, as a crash may leave it, succeeds exactly when every tree lacks the next version or holds it unchanged and has the version to be released; then every tree gains the one and loses the other, and the version loads with what was committed; else nothing is recorded; the writes made are a run of the crash model; trees with exactly the kept versions refuse nothing and keep them exactly |
| `Commits.RootMultiStore.CommitAll` | store/rootmultistore.go:142-161 | after any number of commits from an empty disk every kept version loads with the contents of its commit in all stores |
| `Commits.RootMultiStore.CommitStores` | store/rootmultistore.go:377-397 | the stores commit one after another in any order, each save followed by its prune, up to the first tree that refuses; if none does, every tree ends as its own commit leaves it |
| `Commits.RootMultiStore.LoadVersion` | store/rootmultistore.go:84-134 | succeeds exactly when the recorded version of every store is present, and otherwise changes nothing; panics only on a recorded store that is not mounted, and then unless a missing version comes first |
| `BigInts.MulExact` | types/int.go:193-204 | Mul gives the product exactly when it is in range, so the length test on the operands never rejects a representable product |
| `BigInts.ProductLong` | types/int.go:193-204 | the bound behind the length test: a product has at least the summed length less one |
| `BigInts.FitsIffInRange` | types/int.go:163-171 | the bit-length test is the range of the type, signed and unsigned |
| `BigInts.RangesWrittenOut` | types/int.go:72-101 | Int holds exactly the numbers strictly between -2^255 and 2^255, Uint those from 0 to 2^256-1, with the powers written out |
| `BigInts.QuotientInRange` | types/int.go:212-219 | Euclidean quotients stay in range, so Div needs no test |
| `BigInts.EvalIsExact` | types/int.go:360-415 | any chain of operations, signed or unsigned, panics exactly when a step leaves the range or divides by zero, and otherwise gives the true result |
| `Rationals.EvaluateBig` | types/rational.go:148-175 | the nearest integer, ties to even, for every rational of either sign |
| `Rationals.DigitDecides` | types/rational.go:161-174 | the first-digit test selects that integer |
| `Rationals.NearestEvenUnique` | types/rational.go:148-175 | the rounding is one integer, also across representations of the rational |
| `Rationals.NearestEvenMonotone` | types/rational.go:148-175 | rounding is monotone |
| `Rationals.NearestEvenOdd` | types/rational.go:148-175 | rounding is odd-symmetric |
| `Rationals.IntegersRoundToThemselves` | types/rational.go:148-175 | rounding is the identity on integers |
| `Rationals.Round` | types/rational.go:188-191 | the result is within 1/(2p) of the rational if and only if the scaled rounding is an int64 |
| `Coins.SameAmountsSameList` | types/coin.go:119-202 | canonical lists with equal amounts of every denomination are equal |
| `Coins.PlusAmount` | types/coin.go:119-150 | addition of sorted lists adds amounts per denomination |
| `Coins.PlusCanonical` | types/coin.go:119-150 | addition keeps lists canonical |
| `Coins.PlusCommutative` | types/coin.go:119-150 | addition is commutative |
| `Coins.PlusAssociative` | types/coin.go:119-150 | addition is associative |
| `Coins.PlusThenMinus` | types/coin.go:165-167 | adding and then subtracting the same coins gives the first operand back |
| `Coins.MinusAmount` | types/coin.go:165-167 | subtraction subtracts amounts per denomination |
| `Coins.GTEIffAmounts` | types/coin.go:172-178 | comparison holds if and only if every denomination's amount is at least the other's |
| `Coins.MinusCoins` | types/coin.go:165-167 | negation and merge give the difference, or panic exactly when an addition overflows |
| `Coins.IsGTECoins` | types/coin.go:172-178 | the comparison, or the panic of the subtraction inside |
| `Coins.DifferencesFitIff` | types/coin.go:165-178 | on sorted lists subtraction and comparison panic exactly when the difference of a shared denomination is out of range |
| `Coins.NoZeroIff` | types/coin.go:117-150 | the promise that a sum has no zero coin holds if and only if every zero coin of an operand meets its denomination in the other |
| `Coins.ZeroCoinSurvives` | types/coin.go:117-150 | a concrete sum with a zero coin |
| `Coins.PlusCoins` | types/coin.go:119-150 | the merge loop gives the sum, or panics exactly when an addition it makes overflows |
| `Coins.SumsFitIff` | types/coin.go:119-150 | the additions made on sorted lists are those of the shared denominations |
| `Coins.NegativeCoins` | types/coin.go:153-162 | the loop negates every amount |
| `Coins.NegativeAmount` | types/coin.go:153-162 | negation negates the amount of every denomination |
| `Coins.IsValid` | types/coin.go:95-115 | the loop accepts exactly the strictly sorted lists without zero amounts, not looking at the first of several amounts |
| `Coins.ValidIffCanonicalOrLeadingZero` | types/coin.go:95-115 | what is accepted: canonical lists, and those that fail only by a zero amount in front |
| `Coins.LeadingZeroIsValid` | types/coin.go:95-115 | a concrete list that is accepted and not canonical |
| `Coins.IsEqual` | types/coin.go:192-202 | the loop decides equality of lists |
| `Coins.AmountOfIsAmount` | types/coin.go:233-254 | on sorted lists the binary search finds the amount |
| `CoinText.ParseAfterPrint` | types/coin.go:285-330 | parsing the printed form of valid coins, canonical ones in particular, with amounts from 0 to 2^63-1 and well-formed denominations gives the same list |
| `CoinText.ParsedIsReprintable` | types/coin.go:306-330 | whatever parses is valid, well formed and non-negative, and survives printing and parsing |
| `CoinText.RoundTripIff` | types/coin.go:285-330 | the lists that parsing their printed form gives back are exactly the valid lists of such coins |
| `CoinText.ParsePrintedCoin` | types/coin.go:285-303 | the round trip of one coin |
| `CoinText.PrintLoop` | types/coin.go:82-92 | the loop joins the printed coins with commas |
| `CoinText.ParseCoins` | types/coin.go:306-330 | the parser as specified: trim, split, parse each, sort, validate |
| `CoinText.ParseParts` | types/coin.go:313-320 | the loop stops at the first part that does not parse |
| `TextLaws.ParsedIff` | types/coin.go:306-330 | a text parses as a list if and only if it is blank, for the empty list, or comma-separated coins; the result is the valid list with the same coins, whatever their order in the text |
| `TextLaws.ParseCoinIff` | types/coin.go:276-303 | a text parses as a coin if and only if it is digits that fit in 64 bits, white space and a denomination, with any white space around; the digits' value is the amount |
| `TextLaws.ParseAnyOrder` | types/coin.go:306-330 | coins with different denominations and no zero amount, printed in any order, parse to the one canonical list with these coins |
| `TextLaws.SortOrdered` | types/coin.go:266-270 | sorting orders the coins by denomination and keeps each of them |
| `TextLaws.SortStrictIff` | types/coin.go:266-270 | the sorted list is strictly sorted, as validation wants it, if and only if no denomination occurs twice |
| `TextLaws.ValueOfCons` | types/coin.go:295-299 | the value of digits is decimal: the first of n+1 digits counts for 10^n |
| `TextLaws.TrimIs` | types/coin.go:286-286 | trimming takes white space, ASCII or wider, off both ends and nothing else |
| `TextLaws.TrimAround` | types/coin.go:286-286 | and takes off all of it |
| `TextLaws.SplitIs` | types/coin.go:312-312 | splitting at commas is undone by joining with them, and no part has a comma |
| `Coins64.Plus64Amount` | types/coins.go:98-134 | with int64 amounts, addition of sorted lists adds amounts per denomination with wrap-around |
| `Coins64.Minus64Amount` | types/coins.go:147-149 | subtraction subtracts with wrap-around |
| `Coins64.Plus64Good` | types/coins.go:98-134 | sums of sorted int64 lists are sorted int64 lists |
| `Coins64.PlusCoins64` | types/coins.go:98-134 | the merge loop computes the sum |
| `Coins64.GTE64Iff` | types/coins.go:151-157 | the comparison holds if and only if no denomination's difference, as an int64, is negative |
| `Coins64.GTE64Exact` | types/coins.go:151-157 | without overflow it is comparison of all amounts |
| `Coins64.OverflowPassesAsGTE` | types/coins.go:151-157 | with overflow it is not: a concrete negative balance that passes as at least one coin |
| `ExecTxs.SendConserves` | state/execution.go:18-77 | an accepted delivered SendTx lowers the sum of all balances of a denomination by the fee and the coins sent to other chains, always modulo 2^64, and exactly if and only if the carries, known beforehand, cancel |
| `ExecTxs.NoOverflowConserves` | state/execution.go:227-310 | without int64 overflow nothing is carried, so conservation is exact |
| `ExecTxs.OverflowLosesCoins` | state/execution.go:292-310 | a concrete accepted SendTx that carries: a credit to a full balance wraps around |
| `ExecTxs.RunConserves` | state/execution.go:18-77 | over any run of SendTx, accepted or not, the sum of all balances falls by fees and remote outputs, up to the carries |
| `ExecTxs.DebitedTotal` | state/execution.go:277-290 | debiting the inputs lowers the sum by their coins |
| `ExecTxs.CreditedTotal` | state/execution.go:292-310 | crediting local outputs raises the sum by their coins |
| `ExecTxs.SidesBalance` | state/execution.go:42-54 | the balance test makes inputs equal outputs plus fee, up to whole words |
| `ExecTxs.NoReplay` | state/execution.go:243-248 | in any run of SendTx, checked or delivered, the accepted sequence numbers of an address are consecutive from the stored one, so none is accepted twice |
| `ExecTxs.StepAdvances` | state/execution.go:277-290 | a step accepts at most one sequence number of an address, the next, and stores it; others stay |
| `Execution.State.ExecSendTx` | state/execution.go:18-77 | accepts exactly when every validation holds; then the ledger is debited, credited and extended by packets as specified, in CheckTx without the credits; a rejected transaction changes nothing and reports the code of the first test that fails |
| `Execution.State.CheckSendTx` | state/execution.go:18-57 | the validations in order, with the code of the first that fails and the loaded accounts |
| `Execution.ValidateInputBasic` | types/tx.go:74-94 | the tests on an input alone |
| `Execution.ValidateOutputBasic` | types/tx.go:140-153 | the tests on an output alone, its address format included |
| `Execution.ValidateInputsBasic` | state/execution.go:216-224 | the loop accepts exactly when every input passes |
| `Execution.ValidateOutputsBasic` | state/execution.go:260-268 | the loop accepts exactly when every output passes |
| `Execution.State.GetInputs` | state/execution.go:167-186 | loads exactly when all addresses are known and different, with supplied keys set; otherwise the code of the first input that does not load |
| `Execution.State.GetOrMakeOutputs` | state/execution.go:188-213 | loads exactly when local outputs are pairwise different and no inputs; unknown ones start empty |
| `Execution.State.ValidateInputAdvanced` | state/execution.go:243-258 | next sequence number, sufficient balance and good signature, each tested, with its code |
| `Execution.State.ValidateInputsAdvanced` | state/execution.go:227-241 | the loop approves exactly when every input passes, and totals them |
| `Execution.SumOutputs` | state/execution.go:270-275 | the loop totals the outputs |
| `Execution.State.AdjustByInputs` | state/execution.go:277-290 | the loop leaves the debited accounts and nothing else changed, and its sanity panic cannot fire |
| `Execution.State.AdjustByOutputs` | state/execution.go:292-310 | the loop credits local outputs unless checking, and enqueues a packet per remote output |
| `Execution.State.ExecAppTx` | state/execution.go:79-155 | verdict, code and ledger of a plugin call, for an arbitrary plugin: rejected unchanged with the code of the first failing test, checked charged, delivered kept or refunded |
| `Execution.State.CallPlugin` | state/execution.go:114-155 | the plugin works on a copy that is kept only if it succeeds |
| `AppTxs.FailureChargesOnlyTheFee` | state/execution.go:79-155 | a failing plugin leaves the ledger unchanged but for the payer's record: the sequence number is used, a supplied key stored, and every denomination's balance down by the fee, exactly if and only if that is an int64 |
| `AppTxs.RefundAmount` | state/execution.go:148-153 | taking the input and giving back all but the fee takes the fee, with any wrap-around in between |
| `SendLaws.AcceptsIff` | state/execution.go:18-54 | a payment is accepted if and only if every input is known, in order, signed under the supplied or else the stored key, has the next sequence number and leaves no int64 difference negative, every output is in order, no address of this chain occurs twice and both sides have the same total |
| `SendLaws.AcceptedIsCovered` | state/execution.go:249-252 | nobody spends more of any denomination than they have, unless the difference overflows |
| `SendLaws.PayerAfter` | state/execution.go:277-290 | the account of every input has the input's sequence number, the supplied or stored key and, in every denomination, the balance less the coins, checked or delivered |
| `SendLaws.PayeeAfter` | state/execution.go:292-310 | the account of every local output keeps its key and sequence number and gains the coins in every denomination, and is made if there was none |
| `SendLaws.OthersAfter` | state/execution.go:277-310 | no other account changes, appears or vanishes, and in checking no output is paid |
| `SendLaws.PacketsAfter` | state/execution.go:294-298 | an accepted payment adds exactly the packets of its remote outputs, in order, each with the chain before the first slash, the twenty bytes after it and the coins |
| `SendLaws.PacketsCarryRemote` | state/execution.go:294-298 | what leaves for other chains is what those packets carry, in every denomination |
| `SendLaws.RemoteIff` | types/tx.go:120-138 | a remote address is a chain id without slash, a slash and twenty bytes |
| `SendLaws.WellFormedIff` | types/tx.go:120-138 | an address is accepted if and only if it is twenty bytes or a remote one |
| `AppLaws.AppCallLaw` | state/execution.go:112-155 | an accepted plugin call hands the plugin the ledger with the whole input taken, and in the context the input less the fee in every denomination; if the plugin succeeds what it returns is the new ledger, and if it fails the call does; in checking the charged ledger is the new one |
| `AppLaws.AppAcceptsIff` | state/execution.go:79-110 | a plugin call is accepted if and only if its input stands as that of a payment does, is signed, covers the fee in every denomination, and there is such a plugin |
| `CodeLaws.SendCodeTells` | state/execution.go:18-54 | the code of a payment names a test that it fails: an input or output out of order, an unknown or repeated address, a wrong sequence number, an uncovered denomination, a signature that does not verify, or unequal totals |
| `CodeLaws.AppCodeTells` | state/execution.go:79-110 | the same for a plugin call, and that a plugin failed |
| `Queues.CountRoundTrip` | state/queue.go:86-98 | a stored counter reads back |
| `Queues.SlotInjective` | state/queue.go:101-106 | different positions have different keys |
| `Queues.PushHolds` | state/queue.go:58-64 | a push appends to what the store holds, also when the counter wraps around: the last 2^64 values pushed are there |
| `Queues.PushLoads` | state/queue.go:58-64 | a push leaves one value more in the queue, except that at 2^64 values it shows none |
| `Queues.PopLoads` | state/queue.go:67-76 | a pop drops the oldest value, also when the counter wraps around |
| `Queues.Queue.constructor` | state/queue.go:40-45 | loading gives the queue that was stored |
| `Queues.Queue.Push` | state/queue.go:58-64 | appends and returns the position, except that a queue of 2^64-1 values shows none after one more |
| `Queues.Queue.Pop` | state/queue.go:67-76 | takes the oldest value, unless the queue is empty or its size is no positive int64 |
| `Queues.Queue.Item` | state/queue.go:79-84 | the value at a position between head and tail, counted from the head, and nil elsewhere, also when the tail wrapped around below the head |
| `Queues.Queue.Size` | state/queue.go:53-55 | the number of values, converted to int64 |
| `Queues.Queue.RunCalls` | state/queue.go:58-76 | over any calls, the queue holds what a sequence would, and every pop returns what it returns there, including when it returns nothing |
| `Queues.FirstInFirstOut` | state/queue.go:58-76 | what came out and what is left is what was there and came in, in that order, if and only if no push finds 2^64-1 values |
| `Queues.LossesAddUp` | state/queue.go:58-64 | every push that finds 2^64-1 values loses exactly 2^64 values |
| `Ibc.SpaceInjective` | stack/prefixstore.go:120-134 | keys of spaces with NUL-free names determine space and key |
| `Ibc.QueuesDisjoint` | _attic/ibc/store.go:110-122 | different queues share no key |
| `Ibc.Node.CreatePacket` | _attic/ibc/handler.go:170-211 | enqueues a packet with the next sequence number and stamped permissions exactly when the destination is registered and all permissions are held; otherwise changes nothing |
| `Ibc.Node.VerifyPost` | _attic/ibc/middleware.go:64-120 | accepts a packet into the input queue exactly when all tests pass; otherwise changes nothing |
| `Ibc.Node.PermissionsFrom` | context.go:55-62 | the loop accepts exactly when every permission is from the chain |
| `IbcProtocol.AcceptedIsPrefixOfSent` | _attic/ibc/middleware.go:64-120 | in every run, of any length, of any number of chains and an arbitrary relayer, in which a chain enqueued fewer than 2^64 packets for another, the packets accepted are a prefix of them: each once, in sequence order, with that chain's permissions |
| `IbcProtocol.AcceptedWereSent` | _attic/ibc/middleware.go:64-120 | in every run, also when counters wrap around, each packet accepted from another chain was enqueued there, and the numbers accepted are those of a 64-bit counter |
| `IbcProtocol.PostIsNext` | _attic/ibc/middleware.go:84-111 | a post that passes carries a packet that the peer enqueued, with the next number, although its key is not compared with the queue's |
| `IbcProtocol.QueuesHoldTheLog` | _attic/ibc/store.go:110-122 | in every run the stored queues are those to which exactly the packets sent and accepted were pushed |
| `IbcProtocol.NextCanBePosted` | _attic/ibc/middleware.go:64-120 | acceptance never gets stuck: the next packet, once provable against a stored header, passes all tests |
| `IbcProgress.CatchUp` | _attic/ibc/middleware.go:64-120 | with a complete prover, every world that keeps the invariant, with fewer than 2^64 packets enqueued, continues by fair steps, with nothing more sent, to one in which all of them are accepted |
| `IbcProgress.EveryRunCanCatchUp` | _attic/ibc/middleware.go:64-120 | the same for every run from a fresh world |
| `IbcSelfPost.SelfAcceptedNeedNotBeSent` | _attic/ibc/middleware.go:105-114 | for any chain in both roles the packet theorem fails: a fair run in which a chain that registered itself accepts from itself a packet it never enqueued for itself |
| `IbcExact.WrappedAcceptsTwice` | _attic/ibc/middleware.go:83-91 | for any two chains and any encoding the packet theorem fails with 2^64 packets: a fair run in which the counter wraps around and one packet more is accepted than was enqueued |
| `IbcExact.PrefixIff` | _attic/ibc/middleware.go:64-120 | so accepted packets are a prefix of the enqueued ones in all runs with at most a given number of them if and only if the two chains are different and that number is below 2^64 |
| `IbcNetwork.RunNetwork` | _attic/ibc/middleware.go:64-120 | for chains as objects over new stores and any fair run: every chain's stored queues are those of the packets that the run sent and accepted, and what was accepted is a prefix of what was sent |
| `IbcNetwork.Network.RunSteps` | _attic/ibc/middleware.go:64-120 | any fair run of the chain objects goes where the transition system goes, and every queue that a handler loads is one that it may load |
| `IbcNetwork.Network.Act` | _attic/ibc/handler.go:170-211 | one step of one chain object is that of the transition system and leaves the other chains alone |
| `IbcProtocol.NextKeepsInv` | _attic/ibc/handler.go:170-211 | every step of every chain keeps the protocol invariant |
| `IbcProtocol.CreateKeepsInv` | _attic/ibc/handler.go:204-207 | an enqueued packet has the next sequence number and disturbs no other queue |
| `IbcLaws.SentFromCreate` | _attic/ibc/handler.go:170-211 | in every run each packet sent comes from a call of the run, in order, made while the destination was registered, whose caller held the right to send and every permission sent; the packet carries its transaction and permissions, stamped with the chain |
| `IbcLaws.CreateIff` | _attic/ibc/handler.go:170-211 | a call sends if and only if the destination is registered and the caller holds everything; otherwise nothing changes |
| `IbcLaws.AcceptedFromPost` | _attic/ibc/middleware.go:64-120 | in every run each packet accepted comes from a post of the run that proved it against a stored header of the registered peer, with permissions of that peer only |
| `IbcLaws.PostIff` | _attic/ibc/middleware.go:64-120 | a post is accepted if and only if all its tests hold, written out; otherwise nothing changes |
| `IbcLaws.QueueKeyBytes` | _attic/ibc/store.go:110-122 | the bytes of the queues' keys |

## Left out

- Iteration with crossed bounds, beyond the exact condition above.
- Reverse iteration of prefixed stores, which passes an unprefixed start.
- The goroutine and channels inside the tree's iterator, and the mutexes of the stores; each call is one step.
- Nil keys, on which the stores panic.
- PrefixRange.PrefixEndBytes: an empty prefix that is not nil is excluded, because the code indexes out of range on it.
- Commits.RootMultiStore.LoadVersion: loading version 0 is stated for empty trees only; reloading it over trees with versions is up to the tree library.
- The raw database's cache in a multistore counts as one of the mounted stores.
- Gas totals, logs, tags and the data of results.
- Panics of the hooks that begin and end blocks, peer filters, and queries other than store lookups.
- IbcProgress.CatchUp: is about fewer than 2^64 packets; afterwards an accepted packet need not be a new one, as `IbcExact.WrappedAcceptsTwice` shows.
- AppStores.RunApp: handlers are given by the calls they make, none of which sets a nil value; `AppRefines` relates them to the block state machine one store at a time.
- Registration and header storage of the packet protocol, which are one abstract step with a correct header.
- Light-client certification, hashing, serialisation, signatures and the tree library, which appear as hypotheses.
- Span, Set, roles, routing, gas meters, contexts, staking and the other modules, which would add easy members.
- Command line, REST, RPC, key management and server start-up.
