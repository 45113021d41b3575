# The daemon's payment protocol, verified

The daemon sits in front of an AI service and is paid per call through payment channels
of the MultiPartyEscrow contract. Several daemons of one group share an etcd store. This
project models the parts on which the money depends and proves what they guarantee over
every run:

* **The store and its transactions** (`EtcdStore`, `EtcdClient`, `Locking`, `LockRefinement`). etcd is a map
  from keys to values with create and modification revisions and a global counter. The
  client's optimistic transactions run against a server to which other clients write,
  delete and re-create before every request, and on which requests and replies get lost.
  A transaction that answers true was one atomic step; locks exclude each other.
* **The layers above it** (`Layers`, `TypedStorage`, `ChannelStorage`, `MemoryStorage`): every
  operation of a typed storage behind any number of prefixes is that operation on a private
  typed map, storages do not see each other, and the records and claims of the protocol are
  two such maps. The in-memory store agrees with etcd when nobody interferes.
* **The payment-channel protocol** (`Channel`, `Protocol`, `ProtocolTheorems`, `ClaimTheorems`,
  `TokenTheorems`): a labelled
  transition system of paid calls, token requests, claims, clean-up and chain steps,
  interleaved at every read and write and with any write lost or unanswered. One invariant
  over chain, channel record and claims gives solvency, the revenue ledger and the life
  cycle of claims.
* **The code of the services** (`SharedWorld`, `EscrowService`): the payment-channel
  service, the payment handler, the interceptors and the claim operations as methods. They
  run against shared stores for all channels while an arbitrary schedule of foreign events
  moves on between their requests. Every request of a method is shown to be a step of the
  protocol, so whatever the methods leave in the stores is a reachable protocol state.
* **Accounting** (`Prepaid`, `Spending`, `FreeCalls`, `ModelLists`): prepaid counters, their
  cover by signed amounts, free-call counters and model-id lists.
* **Encodings** (`Decimal`, `Encoding`): storage keys, signed messages, free-call tokens.

Methods that change state are proved against functions and predicates of the old state.
A run is a sequence of labels; a label that does not apply changes nothing, so statements
about all label sequences are statements about all interleavings.

## What does not hold

Where the code misses a property, the model keeps the code, a member gives the input, and
another says exactly when the property holds.

* `storage/atomic_storage.go:21-25` promises that a swap fails only because the value
  differs. A rewrite of the same value between read and commit also makes it fail:
  `EtcdClient.RewritingTheSameValueRefusesTheSwap`. A swap whose value was there when it was
  read succeeds exactly when nobody wrote the key afterwards and no message was lost:
  `EtcdClient.CompareAndSwap`.
* A token request reads the authorized amount before it takes the lock. A call that pays
  in between is overwritten: `TokenTheorems.OverlappingTokenRequestLosesRevenue`. Everything
  planned and earned is signed for if and only if token requests were not overtaken on
  balance: `TokenTheorems.PlanAccounting`; and they are not overtaken when no other payment
  is written during a token request: `TokenTheorems.PlannedIsSigned`.
* A free call reads its counter before it takes the lock. With an allowance of one, any
  number of calls can be served: `FreeCalls.OneFreeCallCanServeAnyNumber`; the counter
  counts every call if and only if none was overtaken: `FreeCalls.CounterBoundAndDrift`.
* The free-call forecast and the free-call check take different branches:
  `FreeCalls.ForecastIsExactIff`.
* The comment at `escrow/control_service.go:106-108` promises the claims started before an
  error; `startClaims` returns none of them. `EscrowService.StartClaims` says exactly when, from
  the request and the stores before the call (`EscrowService.MadeExactly`): the reply is
  complete if and only if all channels are claimable and no two are the same; it hides
  started claims if and only if the first channel is claimable and that fails further on. A
  claimable channel named twice is one such request, a claimable channel followed by one
  that is not is another.
* `GetChannelState` reads record, chain, chain and claims one after the other. A claim that
  is settled and cleaned up before the last read makes it fail:
  `ClaimTheorems.CleanUpBeforeTheLastRead`, with the exact condition in
  `ClaimTheorems.ChannelStateInterleaved`.
* Channel ids of 2^63 and more collide in the multi-channel message:
  `Encoding.LargeIdsCollide`, with the exact condition in `Encoding.MultiClaimMessageIff`.
* Prefix removal trims slashes that prefix adding keeps: `Layers.RemoveLeavesSlashes`, with the
  exact condition in `Layers.RemoveUndoesAddIff`.
* The in-memory store does not notice changed values: `MemoryStorage.ChangedValueGoesUnnoticed`.
  What a commit does is given by `MemoryStorage.CompleteExactly`, and when its answer is
  etcd's by `MemoryStorage.AnswersAgreeIff`.
* A typed update entry that is not present stores an empty value instead of deleting:
  `TypedStorage.AbsentUpdateCorrupts`; without such entries the update is the typed one:
  `TypedStorage.StackRefinesTypedMap`.
* A model list that is deleted during an add comes back: `ModelLists.DeletedIdsComeBack`, with
  the exact condition in `ModelLists.SecondReadingIsCurrentIff`. The daemon itself never
  deletes a list; the delete has to come from outside it.

## Model

| member | source | states |
|---|---|---|
| `EtcdStore.MatchingSnapshotIsCurrent` | etcddb/etcddb_client.go:423-431 | The compares of an old snapshot hold if and only if no condition key changed since, through any writes, deletes and re-creations; then the snapshot describes the store now. |
| `EtcdStore.RefusalNeedsInterference` | etcddb/etcddb_client.go:443-469 | A commit is refused only if somebody wrote or deleted a condition key since the snapshot. |
| `EtcdClient.GetStates` | etcddb/etcddb_client.go:499-513 | The entries read, in request order, and exactly the condition keys that no response had. |
| `EtcdClient.CheckTxnResponse` | etcddb/etcddb_client.go:472-497 | The result is a snapshot of the store: every present key in request order, then every missing key once, in some order. |
| `EtcdClient.StartTransaction` | etcddb/etcddb_client.go:528-557 | Writes nothing; unless a message was lost, the transaction holds a snapshot that is current. |
| `EtcdClient.CompleteTransaction` | etcddb/etcddb_client.go:408-470 | True: the snapshot was current and all updates were applied in one step. False: nothing written, the snapshot replaced by a current one, and a foreign write to a condition key is to blame. Error: a lost message or a key named twice; the update applied completely or not at all. |
| `EtcdClient.ExecuteTransaction` | etcddb/etcddb_client.go:363-392 | Linearizability under any interference: true means one atomic step from the update function's answer on values current at commit; false and every error but one of the commit wrote nothing; why it gave up; and at most one attempt more than there were interfering writes. |
| `EtcdClient.CompareAndSwap` | etcddb/etcddb_client.go:286-301 | True: swapped atomically on the value current at commit. False: nothing written, and the value differs or somebody wrote the key after this call read it. If the value was there at the read, it succeeds exactly when nobody wrote or deleted the key since and no message was lost. |
| `EtcdClient.PutIfAbsent` | etcddb/etcddb_client.go:339-353 | True: inserted atomically while absent. False: nothing written, and the key is there or somebody wrote it after this call read it. |
| `EtcdClient.RewritingTheSameValueRefusesTheSwap` | storage/atomic_storage.go:21-25 | A rewrite of the very same value makes the compare of an earlier read fail. |
| `Locking.Lock` | escrow/lock.go:36-58 | Acquired by one atomic write over a key that did not say locked; refused without a trace, and without interference only because the key held something other than unlocked; an error needs a lost message. |
| `Locking.Unlock` | escrow/lock.go:65-74 | Writes at most unlocked over locked in one step; an answered, undisturbed unlock leaves the key not locked; only a lost message makes it fail. |
| `Locking.UnlockPreserves` | escrow/lock.go:65-74 | In every state the invariant allows, the holder's swap is won when it is answered, and the key is unlocked when it is delivered. |
| `Locking.MutualExclusion` | escrow/lock.go:36-74 | In every interleaving of reads, snapshots and commits with messages lost anywhere: at most one owner, the key says locked exactly while there is one, and no unlock loses its swap. |
| `Locking.LockedExactlyWhileHeld` | escrow/lock.go:36-74 | Without lost messages, locked means that a live process holds or is releasing the lock. |
| `Locking.FreeLockCanBeTaken` | escrow/lock.go:36-58 | From every state the invariant allows in which the key does not say locked, an undisturbed Lock ends in possession. |
| `LockRefinement.RequestIsOneStep` | escrow/lock.go:36-74 | Every single request of Lock and Unlock, delivered, lost or unanswered, is a step of an abstract lock that is free, held or abandoned, or no step at all. |
| `LockRefinement.RunIsAbstract` | escrow/lock.go:36-74 | Every run of the requests is a run of the abstract lock. |
| `LockRefinement.StepIsOneStep` | escrow/escrow.go:98-117 | Every step of the channel protocol is a step of the same abstract lock, or none. |
| `LockRefinement.ProtocolFollows` | escrow/escrow.go:197-217 | Whatever visible step the requests of the lock make, the protocol makes it in one step wherever the code calls Lock (payments, claims, token requests) or Unlock, and both are in the same abstract state again. |
| `Layers.RemoveUndoesAddIff` | storage/atomic_storage.go:121-150 | For every prefix and key, removing the prefix gives the key back if and only if the prefix does not end in a slash. |
| `Layers.RemoveLeavesSlashes` | storage/atomic_storage.go:142-150 | For every prefix that ends in n slashes, n of any size, exactly these n slashes stay before the key. |
| `Layers.AppendKeyPrefix` | storage/atomic_storage.go:121-128 | The in-place rewrite prefixes every key, in order. |
| `Layers.RemoveKeyValuePrefix` | storage/atomic_storage.go:142-150 | The in-place rewrite takes the prefix off every key, in order, and keeps the values. |
| `Layers.ThroughReflects` | storage/atomic_storage.go:156-169 | Behind any number of prefixes that do not end in a slash, what reaches the caller's update function answers for the private map, whatever order the values come in. |
| `Layers.ThroughWrites` | storage/atomic_storage.go:130-140 | An update through all layers is that update of the private map. |
| `Layers.ThroughDelete` | storage/atomic_storage.go:91-93 | A delete through all layers is that delete on the private map. |
| `Layers.ListingThrough` | storage/atomic_storage.go:72-74 | A listing through all layers returns the values of a listing of the private map: the same values in the same order, each key once. |
| `Layers.KeySpacesMeetIff` | storage/atomic_storage.go:121-128 | Two storages, behind any layers, can reach a common key if and only if the string that one puts before its keys begins that of the other. |
| `Layers.StoragesAreApart` | snetd/cmd/components.go:196-244 | All twelve storages of the daemon, those behind the contract's address and those directly under the network, are pairwise apart. |
| `Layers.StoragesAreSlashFree` | snetd/cmd/components.go:196-244 | None of their prefixes ends in a slash if the network's and the contract's do not. |
| `TypedStorage.ConvertToTyped` | storage/atomic_storage.go:346-371 | The loop gives one typed value per condition key, in the caller's order, or an error if one does not decode. |
| `TypedStorage.StackSeesTypedMap` | storage/atomic_storage.go:382-405 | Over etcd and any number of prefix layers the typed update function is called with the reads of the typed map in its own key order, however etcd ordered them. |
| `TypedStorage.StackRefinesTypedMap` | storage/atomic_storage.go:382-405 | One linearized transaction of the typed storage behind any number of prefixes is one transaction on the private typed map. |
| `TypedStorage.StackGet` | storage/atomic_storage.go:234-254 | Under interference: the value that the typed map has for the key at that moment, or that it has none; an error only for a lost message; nothing is written. |
| `TypedStorage.StackGetAll` | storage/atomic_storage.go:265-286 | Every value of the typed map at that moment, once for each of its keys. |
| `TypedStorage.StackPut` | storage/atomic_storage.go:288-301 | Puts one entry into the typed map as it is then; an unanswered one may. |
| `TypedStorage.StackPutIfAbsent` | storage/atomic_storage.go:303-316 | True: the typed map had no such key and has the entry, in one step. False: nothing written, and the key is there or was written after this call read it. |
| `TypedStorage.StackCompareAndSwap` | storage/atomic_storage.go:318-335 | True: the typed map had the expected value, compared as a value, and has the new one, in one step. False: nothing written, and it has another or the key was written after this call read it. |
| `TypedStorage.StackDelete` | storage/atomic_storage.go:337-344 | Deletes one entry of the typed map as it is then; an unanswered one may. |
| `TypedStorage.Isolation` | snetd/cmd/components.go:212-244 | No put or delete behind one storage changes what a storage apart from it holds, and so what any of its operations, listings included, returns. |
| `TypedStorage.UpdatesStayWithin` | storage/atomic_storage.go:130-140 | All that a storage writes in a transaction stays behind its own prefixes. |
| `TypedStorage.ForeignWritesElsewhere` | storage/atomic_storage.go:67-93 | Any number of operations of storages that are apart leave the typed map as it is. |
| `TypedStorage.AbsentUpdateCorrupts` | storage/atomic_storage.go:418-441 | An update entry that is not present leaves a store that represents no typed map. |
| `ChannelStorage.PaymentCodecFaithful` | escrow/payment_storage.go:17-24 | Claims are stored under keys that never collide, so with any exact value encoding the payment storage is a map from channel and nonce to claims. |
| `ChannelStorage.ChannelCodecFaithful` | escrow/payment_channel_storage.go:26-34 | The same for channel records by channel id. |
| `ChannelStorage.RecordStored` | escrow/payment_channel_storage.go:77-80 | Storing a record changes that record, no other record and no claim. |
| `ChannelStorage.ClaimStored` | escrow/payment_storage.go:46-48 | Storing a claim changes that claim, no other claim and no record. |
| `ChannelStorage.ClaimDeleted` | escrow/payment_storage.go:50-52 | Deleting a claim removes that claim, no other claim and no record. |
| `ChannelStorage.OneClaimChanges` | escrow/payment_storage.go:46-52 | Seen by channel and nonce: one entry of one channel changes, all other channels keep their claims. |
| `ChannelStorage.StepIsOneRequest` | escrow/escrow.go:117-137 | Every step of the protocol, on whatever channel, is at most one put or delete in one of the two storages, and the store goes on mirroring all channels. |
| `ChannelStorage.RunIsStored` | escrow/escrow.go:98-276 | From an empty store, among any puts and deletes of other storages, what the requests of any run of the protocol on any number of channels leave in the two storages are exactly its records and claims. |
| `MemoryStorage.MemoryStorage.CompleteTransaction` | storage/memory_storage.go:136-166 | The loop does what the pass over the condition values says, with its early exits and the writes made before them. |
| `MemoryStorage.MemoryStorage.ExecuteTransaction` | storage/memory_storage.go:169-205 | The retry loop, with its hundred attempts on condition values that are never read again. |
| `MemoryStorage.CompleteExactly` | storage/memory_storage.go:136-166 | For distinct keys and whatever happened since the read: the answer is true if and only if no key is blocked (gone, or to be inserted and there), and exactly the unchanged or absent keys before the first blocked one are written. |
| `MemoryStorage.AnswersAgreeIff` | storage/memory_storage.go:136-166 | Its answer is etcd's on the same snapshot if and only if no condition key was written since, or one is blocked. |
| `MemoryStorage.UnchangedStoreCompletes` | storage/memory_storage.go:136-166 | On unchanged contents and distinct condition keys it answers true and applies the first update entry of each condition key, and no others. |
| `MemoryStorage.ChangedValueGoesUnnoticed` | storage/memory_storage.go:136-166 | When a value changed and no key is blocked, it answers true where etcd answers false, and the changed key is not written. |
| `MemoryStorage.TypedIsOrderInsensitive` | storage/atomic_storage.go:346-380 | For every typed request the order of the condition values does not matter. |
| `MemoryStorage.RunBothTyped` | storage/memory_storage.go:169-205 | Without interference, every typed request through any layers with distinct condition keys that writes condition keys only gets the same answer from etcd and from memory, and leaves the same contents. |
| `Prepaid.UsageWritesConditionKeys` | escrow/prepaid_service.go:41-85 | Usage updates are such requests. |
| `Channel.ValidateExactly` | escrow/validation.go:169-206 | A payment is accepted if and only if nonce, signer, known block, block plus threshold below the expiration, and amount within the full amount all hold; and which error each failing clause gives. |
| `Channel.RecordUpdates` | escrow/payment_channel_api.go:209-214 | A claim leaves the record at the next nonce, with the claimed amount taken off the full amount, nothing authorized, no signature and every other field as it was; the claim has the old nonce, authorized amount and signature. A payment changes authorized amount and signature only. |
| `ProtocolTheorems.Solvency` | escrow/escrow.go:98-147 | In every run: the chain's nonce is not ahead of the record's, the authorized amount is within the full amount, and the chain covers all started and unsettled claims on top of the record's full amount, also when writes of a claim are lost. |
| `ProtocolTheorems.RevenueLedger` | escrow/payment_handler.go:48-69 | In every run without token requests the prices of all calls whose payment was written add up to all claims ever started plus the authorized amount. |
| `ProtocolTheorems.RecordIsNeverBehind` | escrow/payment_channel_storage.go:143-158 | In every reachable state with a record the merged channel is the record, whatever the node answers; only when record and chain are at the same nonce, the node is current and the recipient is right, full amount and expiration are the chain's, and those are never less. |
| `ProtocolTheorems.UnpaidChannelIsTheChains` | escrow/escrow.go:46-70 | Without a record: missing exactly when the node says so, and a channel exactly when the node is current and recipient and group are the daemon's; it then holds the chain's fields, with nothing authorized and no signature. |
| `ProtocolTheorems.FundsAndExtensionsArrive` | escrow/payment_channel_storage.go:143-158 | In every reachable state: after funds were added and the channel was extended, the next payment is judged on the new amount and the new date if no claim is outstanding, and on the record otherwise. |
| `ClaimTheorems.ClaimLifeCycle` | escrow/escrow.go:125-141 | A nonce from the chain's up to the record's has its claim on record if and only if its loss was not reported and it is not about to be written; and the claim carries a good signature for exactly its nonce and amount. |
| `ClaimTheorems.OnlySettledClaimsAreRemoved` | escrow/control_service.go:389-418 | Whatever step makes a claim disappear is a clean-up of a claim the chain has settled. |
| `ClaimTheorems.OnwardRun` | escrow/control_service.go:389-418 | Over every run no start is undone, no claim on record is changed, it goes only after the chain has settled it, and never comes back. |
| `ClaimTheorems.OutstandingClaimsCanBeCollected` | escrow/state_service.go:79-88 | All outstanding claims can be settled in full, in nonce order, and what remains covers the record. |
| `ClaimTheorems.ChannelStateIsAnswered` | escrow/state_service.go:89-163 | Read at one instant with no claim lost or in flight, an admitted caller gets an answer with the record's nonce, authorized amount and signature; it names the previous claim, with an amount and signature that the contract honours, exactly when the nonces differ, and leaves at least as much unspent as the daemon will still accept, for any number of pending claims. A caller who is not admitted gets an error. |
| `ClaimTheorems.ChannelStateInterleaved` | escrow/state_service.go:89-163 | With anything happening between the four reads: an error exactly when the nonces differ and the claim below is off the record, which cannot be while the chain has not settled it; the signatures in the answer belong to its amounts; and what the reply leaves unspent covers what was still acceptable, if the chain had not settled it at the first read. |
| `ClaimTheorems.CleanUpBeforeTheLastRead` | escrow/state_service.go:124-141 | From every reachable state with one pending claim: settled and cleaned up before the last read, it makes the answer an error. |
| `TokenTheorems.PlannedIsSigned` | escrow/token_service.go:66-107 | In every run in which no other payment is written between the first read and the write of a token request, claims allowed, the planned amount is at most the signed growth of token requests, and with the revenue of calls at most what is claimed or authorized. |
| `TokenTheorems.PlanAccounting` | escrow/token_service.go:66-107 | In every run what token requests planned, are about to plan and failed to plan is the growth they signed for plus the amounts by which they were overtaken; so all that was planned and earned is signed for if and only if they were not overtaken on balance. |
| `TokenTheorems.OverlappingTokenRequestLosesRevenue` | escrow/token_service.go:66-107 | A run in which a call worth 5 and a token for 3 leave only 3 signed for, the token being overtaken by 5. |
| `TokenTheorems.TokenIsEligibleIff` | escrow/token_service.go:66-93 | A token request goes on to its payment if and only if the channel is there, the request is authentic, the payment is acceptable and signs for more than is authorized; it remembers what was authorized then. |
| `TokenTheorems.TokenRequestAlone` | escrow/token_service.go:66-107 | Left alone, a token request changes something if and only if the lock is free and it is eligible; then its payment is the record, the planned amount grows by what it signs for on top of what was authorized, and the lock is free again. |
| `Protocol.StepKeeps` | escrow/escrow.go:98-290 | Every step of every process and of the chain keeps the protocol invariant. |
| `SharedWorld.ReplayIsRun` | escrow/escrow.go:242-276 | Channels do not influence each other: each sees a run of the protocol. |
| `SharedWorld.AlienReplay` | escrow/escrow.go:197-217 | Whatever others do, a process keeps its place, and while it holds the lock, the lock and the record stand still. |
| `SharedWorld.PaymentAmongOthers` | escrow/escrow.go:197-276 | With anything that others and the chain do before each of its four steps, a payment is judged on the record as it was when the lock was taken and on the chain as it is at the check; if it is acceptable there, its amount and signature become the record's and nothing else of the record changes, and then the lock is free. |
| `SharedWorld.World.StoresAreReachable` | escrow/escrow.go:197-276 | Whatever the methods below leave in the stores is a reachable state of the protocol. |
| `EscrowService.StartPaymentTransaction` | escrow/escrow.go:197-240 | Started: the process holds the lock, and the payment has the channel's nonce, a signature of its signer or sender, a block read that stays clear of the expiration, and an amount within the channel. Otherwise it is idle, nothing was written and a lock it took was given back once; the error code tells which. Left alone, it is started if and only if the lock is free and all of these hold of what record and chain give together, which is the channel returned; and which error code each failing clause gives. |
| `EscrowService.HandlePayment` | escrow/payment_handler.go:48-69 | Accepted: the payment is acceptable at the block that was read, and pays exactly its price on top of the authorized amount. Refused: also after an income mismatch the lock was given back once and nothing was written. Left alone, it accepts exactly the payments that can be started and whose income is the price; and the error code of each refusal. |
| `EscrowService.Complete` | escrow/payment_handler.go:101-106 | One commit and one unlock; unless the write failed, when the lock is given back the record is the channel with the payment's amount and signature and every other field unchanged, whatever others did meanwhile. |
| `EscrowService.CompleteAfterError` | escrow/payment_handler.go:144-146 | One rollback and one unlock, and no write. |
| `EscrowService.StreamIntercept` | handler/stream_interceptor.go:305-355 | On every path, with success, error or panic of the service and with any interference: a lock obtained is given back exactly once, an accepted payment is committed exactly once or rolled back exactly once as the outcome demands, and a served call's payment is the record, which was not expired at the block that was read. Left alone, a call is refused exactly when it is not payable, otherwise the outcome is reported, and only success changes the record. |
| `EscrowService.UnaryIntercept` | handler/unary_interceptor.go:62-125 | The same balance for the two paid methods; all others change nothing. |
| `EscrowService.StartClaim` | escrow/escrow.go:98-147 | On every path one unlock for one lock. A claim that is returned holds exactly what the record authorized under the lock, at its nonce and with its signature, will be honoured by the contract, and is stored or already settled; the record is at the next nonce, its full amount less the claim, nothing authorized or signed, all other fields as they were. Left alone it succeeds exactly when the lock is free and there is a record. |
| `EscrowService.ClaimLeavesTheRest` | escrow/payment_channel_api.go:206-214 | In every reachable state after a claim, each payment at the next nonce that is signed, not expired and within the full amount less the claim can be started. |
| `EscrowService.BeginClaimOnChannel` | escrow/control_service.go:295-322 | The same; left alone it succeeds exactly when the lock is free and the record authorizes an amount that is not zero modulo 2^64. |
| `EscrowService.StartClaims` | escrow/control_service.go:131-145 | Claims start in order until one fails; success answers with one claim per channel in order, failure with none although the claims before it were made. Left alone, every claim in the reply has the nonce, amount and signature of its channel's record before the call; the reply is complete if and only if all channels are claimable and different, the claims made are the longest such beginning of the request, and they are hidden if and only if the first channel is claimable and not all are. |
| `EscrowService.RemoveClaimedPayments` | escrow/control_service.go:389-418 | Does nothing but delete claims. Whatever others do, if it comes to its end the claims settled when it began are gone, and every claim not settled when it returns is still there, unchanged; it stops early only because a request of its own was lost, a node did not answer with the channel, or a channel with a claim pays somebody else, and without an error only because a node found no channel. Left alone it comes to its end if and only if no channel with a claim pays somebody else, and then removes exactly the settled claims of all channels. |
| `Prepaid.ConvertToUsage` | escrow/prepaid_service.go:89-110 | The loop gives the last amount read for each of the three types, 0 where there is none, and an error if and only if a reading has an unknown usage type. |
| `Prepaid.UpdateOnMap` | escrow/prepaid_service.go:127-183 | On the typed map an update is accepted if and only if it is no charge or used plus the amount is at most planned plus refund; it then adds the amount to the one counter of the one channel, and no other entry changes. |
| `Prepaid.UpdateUsage` | escrow/prepaid_service.go:41-77 | Against the live store under interference: success adds the amount to one counter in one step on values current at commit, on which it fits; an error of the update itself means exactly that it does not fit on current values; without lost messages there is no third outcome; an unknown usage type touches nothing. |
| `Prepaid.UsageStaysBounded` | escrow/prepaid_service.go:127-183 | In every behaviour of the store, any interleaving of updates by any daemons with puts and deletes of other storages keeps used within planned plus refund on all channels. |
| `Prepaid.PrepaidConservation` | escrow/prepaid_handler.go:61-130 | In every run used minus refund is the price of running and succeeded calls plus exactly what lost messages cost, and stays within the planned amount. |
| `Prepaid.CountersAreStored` | escrow/prepaid_handler.go:61-130 | Over every run against the stack, among updates of other channels and operations of other storages, the counters of the calls are the stored counters of the channel: each charge, refund or plan that arrives is one linearized usage update when the update function agrees, and nothing when it does not. |
| `Prepaid.RefundRestoresRoom` | escrow/prepaid_handler.go:116-130 | A charge within the room, up to its last token, makes the call run and is added to used; a refund after a failure leaves the room for further calls as it was. A charge beyond the room changes nothing. |
| `Spending.ServedIsSigned` | escrow/token_service.go:66-107 | In every run of channel and prepaid counters as one system, in which no payment is written during a token request, prepaid usage net of refunds plus the revenue of calls is at most all claims ever started plus the authorized amount. |
| `FreeCalls.ForecastIsExactIff` | escrow/free_call_state_service.go:135-167 | For all configured values, metadata and counters: the forecast is the number of calls that will be let in if and only if the stated condition on the three holds; an unlimited user is told 99999999. |
| `FreeCalls.UserService.StartFreeCallUserTransaction` | escrow/free_call.go:80-144 | Busy exactly when locked; started exactly when free and within the allowance, with the lock kept; otherwise the lock is back. |
| `FreeCalls.UserService.Commit` | escrow/free_call.go:146-171 | Stores the count read at the start plus one, if it can be stored, and unlocks in any case. |
| `FreeCalls.UserService.Session` | escrow/free_call_state_service.go:135-167 | In any sequence of succeeding and failing calls, one after the other, exactly as many are counted as were forecast, and a further one is let in exactly while fewer have succeeded. |
| `FreeCalls.CounterBoundAndDrift` | escrow/free_call.go:80-171 | In every interleaving the lock is held exactly while a call runs, the counter stays within the allowance, and it has counted every success if and only if no call read the counter before another was stored. |
| `FreeCalls.CallAlone` | escrow/free_call.go:80-171 | A call that is left alone is let in exactly when the lock is free and the counter is accepted; success adds one to the counter, and nothing else changes. |
| `FreeCalls.OneFreeCallCanServeAnyNumber` | escrow/free_call.go:87-102 | For every n there is a run that serves n calls on an allowance of one. |
| `ModelLists.Remove` | training/util.go:77-84 | The loop removes the first occurrence and keeps the order of the rest. |
| `ModelLists.WithoutContents` | training/util.go:77-84 | On a list without duplicates the id is gone and nothing else is. |
| `ModelLists.ListsStayClean` | training/storage.go:310-427 | In every run, deletes included, a list holds no id twice, and right after its commit an added id is listed and a removed one is not. |
| `ModelLists.SecondReadingIsCurrentIff` | training/storage.go:373-427 | At a successful commit the second reading is the current list if and only if the snapshot found a list or the second reading found none. |
| `ModelLists.CommittedOperationsAreAtomic` | training/storage.go:310-427 | Without deletes of the key the list is the committed operations applied one after the other, each in order when it was applied. |
| `ModelLists.ListedIff` | training/storage.go:465-521 | Without deletes an id is listed if and only if the last committed operation on it was an add. |
| `ModelLists.ListedInOrder` | training/storage.go:310-427 | Without deletes the list is in the order in which its ids were last added. |
| `ModelLists.OperationAlone` | training/storage.go:310-427 | An add that is left alone appends an id that is not listed, a removal cuts out its first occurrence; known ids and missing lists change nothing, and no other key does. |
| `ModelLists.DeletedIdsComeBack` | training/storage.go:310-371 | A run in which an add brings back the ids of a list that was deleted, from outside the daemon, before its commit. |
| `Decimal.ParsePrint` | escrow/payment_channel_api.go:35-37 | Reading back the decimal text of any integer gives the integer. |
| `Decimal.PaymentIDInjective` | escrow/payment_channel_api.go:31-37 | Claim keys are equal if and only if channel and nonce are, for all integers. |
| `Decimal.ChannelKeyInjective` | escrow/payment_channel_api.go:47-49 | Record keys and lock names are equal if and only if the channels are. |
| `Decimal.PrepaidKeyInjective` | escrow/prepaid_storage.go:38-40 | Counter keys are equal if and only if channel and usage type are. |
| `Encoding.IntBytesRoundTrip` | escrow/validation.go:289-295 | Decoding undoes encoding if and only if the value is in [0, 2^256). |
| `Encoding.PaymentMessageIff` | escrow/validation.go:308-315 | Two payment messages are equal if and only if contract and all fields agree, as far as 32 bytes without sign can tell. |
| `Encoding.PaymentMessageLayout` | escrow/validation.go:308-315 | The message is the fixed prefix, the contract address, and three 32-byte words that read as channel id, nonce and amount, in this order. |
| `Encoding.SortIds` | escrow/control_service.go:180-188 | The in-place sort gives a sorted permutation. |
| `Encoding.BytesOfChannelIds` | escrow/control_service.go:158-178 | The bytes are those of the sorted permutation of the ids. |
| `Encoding.EncodingIgnoresOrder` | escrow/control_service.go:158-178 | The encoded list does not depend on the order of the ids. |
| `Encoding.MultiClaimMessageIff` | escrow/control_service.go:148-156 | Two multi-channel messages are equal if and only if blocks agree and ids agree after losing their sign. |
| `Encoding.MultiClaimMessageLayout` | escrow/control_service.go:148-178 | The message is the fixed prefix, the contract address, one 32-byte word per id in the order given, and a last word that reads as the block. |
| `Encoding.SmallIdsAreBound` | escrow/control_service.go:148-178 | For ids below 2^63 they are equal if and only if the multisets of ids and the blocks agree. |
| `Encoding.LargeIdsCollide` | escrow/control_service.go:158-178 | Ids 1 and 2^64 - 1 are signed alike. |
| `Encoding.TokenRoundTrip` | escrow/validation.go:68-81 | Every signature, with any bytes, and every deadline are read back from the token. |
| `Encoding.IssuedTokenParses` | escrow/validation.go:45-66 | An issued token is read back as issued, with the deadline asked for if it is within the fixed lifetime, and the fixed lifetime otherwise. |

## Left out

- Signature recovery, hashing and address formats: the signer is an arbitrary function of message and signature, so forged signatures are outside the model.
- gob serialization: any encoder with an exact decoder that rejects the empty string (`TypedStorage.Faithful`); failing encoders are not modelled.
- The contract itself: the chain adds funds, extends expiry and settles, at its current nonce, at most the amount of a claim that the daemon started; sending the rest back and the sender's timeout after expiry are excluded, as `escrow/state_service.go:79-88` assumes.
- Stale answers of Ethereum nodes: a node answers with the current state, not at all, or that there is no channel.
- Time-outs, sessions, connection set-up and size limits of etcd; the order of the keys in a listing is not fixed.
- `CloseChannel`: the control service passes only `IncrementChannelNonce`.
- The command that unlocks a channel by hand, and the command that resets a free-call counter.
- `escrow/train_pay_handler.go`: repeats the payment handler with another source of the price.
- `license_server/`: counters of the prepaid kind with weaker guarantees.
- The user index of trained models (`training/service.go:633-806`): mixed with remote calls.
- Injectivity of free-call keys and free-call messages: their fields are not delimited.
- Pricing, rate limiting, configuration, metering, heartbeat, proxies, codecs, token signing and command line.
- GetListUnclaimed, GetListInProgress and the signature checks of the control service: they add only reads and comparisons.
- EscrowService.StreamIntercept: prices are taken as given and not negative; the selection of a payment handler and failures before it are left out, as is a panic inside Payment.
- EscrowService.HandlePayment: header parsing is left out, the headers are parameters.
- EscrowService.StartPaymentTransaction: `SharedWorld.World` has an entry for every channel id that anybody mentions, whether or not the chain knows it.
- FreeCalls.CounterBoundAndDrift: the lock is one atomic step here; its requests are the subject of `Locking` and `LockRefinement`.
- Locks in `Protocol` and `SharedWorld` are single steps that may be lost, unanswered or contended; `LockRefinement` shows that the requests of Lock and Unlock are such steps.
- ProtocolTheorems.RevenueLedger: a commit whose reply was lost counts as a committed call, since its payment is on record.
