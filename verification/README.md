# A verified model of the OpenIM server core

This project models the parts of the OpenIM instant-messaging server that keep state, and proves what
they promise over every input, every interleaving and every run:

- **Message transfer** (`Pipeline`, `PipelineTheorems`, `PipelineSources`, `BatchSplit`, `SeqCaches`,
  `Storage`, `StorageRuns`, `StorageSteps`, `StorageOrder`, `StorageQueues`, `StorageFailures`,
  `MongoBlocks`, `Transfer`, `TransferOrder`): Kafka claims buffer records, a ticker cuts the buffer into
  chunks, one distributor groups a chunk by key and feeds 100 hashed channels, and one worker per channel
  splits each command, numbers and caches the messages, queues them for Mongo and for the pusher; Mongo
  consumers move them into documents of 100. The pipeline and the stores are transition systems in which
  the single operations of all goroutines interleave freely, any store operation may fail and map
  iteration takes any order.
- **Gateway** (`UserMaps`, `Gateway`, `GatewayRuns`, `RegistryRuns`, `Cluster`, `ClusterRuns`,
  `ClusterTokens`): the connection registry of one node, its register/unregister/kick loop, the
  multi-terminal policy and its tokens, and several nodes that report logins to each other and share the
  tokens.
- **Groups** (`Groups`, `GroupRuns`, `GroupHistory`): all membership and role requests over the group,
  member and request tables.
- **Ids and flags** (`ConversationIds`, `Messages`): conversation ids, transfer keys, option maps.
- **Reading and pushing** (`ReadCursor`, `ReadCursorRuns`, `OfflinePush`): read cursors, clearing, and
  whom a group message is pushed to.

Code that updates state is a class or a loop here too; each method is proved against a function or a
predicate of the old state, and the theorems are about those. Redis, Mongo, SQL and Kafka are maps and
queues; HTTP callbacks are off; hashing, protobuf decoding, the slice difference of the utility library
and the answers of other services are parameters. `dafny verify dfyconfig.toml` checks everything.

## Main results

1. `PerKeyFifo`, `RecordsInPlace`: for each claim and key, accepted = delivered ++ waiting, in order, in
   every state of every interleaving, record by record; `DrainedMeansDelivered` with `DrainIsBounded`:
   without new records every schedule empties the pipeline in a bounded number of steps, and then
   everything was delivered.
2. `TransferSafety` and `TransferLosesNothing`, end to end: while messages that share a conversation
   share their transfer key, every conversation belongs to one worker; hence, although reading, caching
   and raising the newest number are separate unlocked steps, no two messages are pushed under one
   number, and while cache and Mongo take what they are given every number reads back as its own message
   at every moment. `KeysApartWhen`: that holds for all underscore-free ids, and for any ids whatever
   while every server notification chat goes along its key. `HandledBySteps` ties the steps to the
   handlers' contracts, for all faults. `TransferInOrder`: where workers serve in order and nothing that
   numbers or pushes fails, number q of a conversation is with the q-th stored message of its key, in
   every state of every interleaving, and the pushes follow that order (`PushQueueExactly`).
   `MongoGetsAll`: while nothing fails on the way, all numbers end in Mongo.
3. `ClusterSingleTerminal`, `NewestNeverKicked`, `NewestLoginWins`, `KickableExactly`: however logins and
   their reports overlap, a drained cluster holds at most the newest login of each user and guarded
   platform. With logins taken in turn no kick and no other login ever closes or removes that login; a
   login can be kicked while it is the newest if and only if it came out of turn.
   `TokenMarkableExactly`: the same for its token, whose condition is stronger.
4. `OneOwner`, `EmptiedForever`, `HarmlessExactly`: one owner per group until it is emptied, which is
   for good; for app managers the exact condition under which a request keeps this. `MembersExactly`,
   `OpenExactly`, `AcceptedExactly`: members, open requests and permissions by history and roles alone.
5. `AuthorityIsStrict`, `RevokeIsStrict`: whoever acts on another member stands strictly above.
6. `BatchInsertBlock` refines one flat table, whichever documents exist and wherever Mongo fails.
7. `SplitConserves`, `RoutingAgrees`, `DeliveredBatchesAreRouted`: the batch split conserves messages
   and files each under its own conversation, end to end.
8. `ReadOnce`, `MarkedExactly`, `ClearThenAppend`: every number a cursor passes is accounted for once.
9. `Push2SuperGroup`: the set pushed offline is exact for any number of gateways.
10. `ConnectionCount`, `UserCountExact`: what the two gateway counters are, exactly, over every run;
    `RegistryIsOpen`: when the registry holds open connections only.

## Where a plausible property fails

The code is modelled as it is. Each of these has a counterexample or an exact condition.

- Nothing locks a conversation between reading its newest number and raising it: from any state, two
  workers with jobs for one conversation can give the same numbers to both
  (`StorageFailures.NumberTwice`).
- Different transfer keys can share a conversation when ids contain underscores
  (`ConversationIds.KeysShareConversation`). Exactly when: messages named by their keys never do
  (`NamedKeysAgree`); a message shares its conversation with a message along another key if and only if
  it goes against its own key and its two ids do not join to one string either way round
  (`SharesOnlyItsKeyExactly`); for two messages against their keys see `AgainstKeysAgreeExactly`.
- A chunk carries up to 1000 records, but a batch of more than 100 stored messages of one conversation
  is refused as a whole (`Transfer.NumberedIfTheyFit`), and a worker can be given one
  (`Transfer.OversizedCommand`).
- A failed Mongo insert still removes the batch from the cache: a message the clean-up came to survives
  if and only if Mongo took it before failing (`StorageFailures.MongoFailureLoses`). A failed cache
  write is only logged (`StorageFailures.CacheFailureHides`); after a newest number that could not be
  saved, the cache can then answer with another message (`StorageFailures.StaleCacheAnswers`).
- The clone of a notification is always pushed offline and counted as unread, even if the notification
  itself had that turned off, because NewMsgOptions returns an empty map (`BatchSplit.CloneFlags`).
- Only reliability level 2 makes a notification stored, level 3 does not
  (`Messages.GetOptionsByNotification`).
- ParseConversationID has no case for group chats (`ConversationIds.ParseAgreement`).
- Messages that share a transfer key can belong to different conversations
  (`BatchSplit.RoutingExact`). Two pairs of users can share a single chat
  (`ConversationIds.UnderscoresCollide`), exactly when one pair, sorted, shifts to the other over an
  underscore (`ConversationIds.SingleChatsShareExactly`).
- The PCAndOther policy is described as letting all other terminals exclude each other; the code only
  excludes equal platforms (`GatewayRuns.OtherTerminalsCoexist`).
- The user counter drifts: a repeat login takes one off and never puts it back, and forcing off a
  user's last connection leaves it one too high, for good (`GatewayRuns.UserCountExact`,
  `GatewayRuns.ForcedOffStaysCounted`).
- Two logins of one user and platform that overlap on two nodes kick each other, and none is left
  (`ClusterRuns.OverlapKicksBoth`). The newest login can be kicked exactly if, when it came in, a report of
  an earlier one was still on its way to its node (`ClusterRuns.KickableExactly`).
- Even a login that no kick can take may lose its token: a kick for an older connection on another node
  marks every token but that of the login it is for (`ClusterTokens.InTurnIsNotEnough`); exactly when is
  `ClusterTokens.TokenMarkableExactly`.
- The event loop may take a client's unregistration before its registration; then the closed client is
  registered and stays (`RegistryRuns.ClosedStaysRegistered`), exactly then (`StaysOpenExactly`).
- App managers can leave a group without an owner or with two (`GroupRuns.TransferExact`, `KickExact`,
  `SetInfoExact`, `HarmlessExactly`).
- Clearing a conversation that has no messages yet writes nothing, so the count after it is off by one
  (`ReadCursorRuns.ClearThenAppend`, `ClearOfEmptyMiscounts`); and when one bound cannot be written, no
  cursor is, so that hidden messages stay unread (`ReadCursorRuns.ClearThenUnread`).
- A read cursor can fall: SetConversationHasReadSeq lowers it, and so do a clear or a message of one's
  own when the cursor is beyond the newest message (`ReadCursorRuns.LowersExactly`), which happens when
  a conversation is marked beyond it or a newest number could not be saved
  (`ReadCursorRuns.BeyondMaxExactly`).
- The "PC" test on failed pushes never holds (`OfflinePush.NeverPC`).

## Model

| member | source | states |
|---|---|---|
| `Pipeline.SplitBuffer` | internal/msgtransfer/online_history_msg_handler.go:455-468 | the chunks are non-empty, at most 1000 long, all but the last full, and concatenate to the flushed buffer |
| `Pipeline.ClaimConsumer.OnMessage` | internal/msgtransfer/online_history_msg_handler.go:474-481 | an empty record is skipped, any other is appended to the buffer |
| `Pipeline.ClaimConsumer.OnTick` | internal/msgtransfer/online_history_msg_handler.go:443-472 | a tick empties the buffer into chunks that split it, and does nothing when it is empty |
| `Pipeline.Aggregate` | internal/msgtransfer/online_history_msg_handler.go:342-382 | each key with a decodable record gets exactly its decodable messages of the chunk, in order, and no other key appears |
| `Pipeline.ChannelOf` | internal/msgtransfer/online_history_msg_handler.go:386-387 | the channel index is below 100, a function of the key alone |
| `Pipeline.StepKeepsInv` | internal/msgtransfer/online_history_msg_handler.go:330-483 | every step of every goroutine keeps the order of every claim's messages per key and the routing |
| `PipelineTheorems.PerKeyFifo` | internal/msgtransfer/online_history_msg_handler.go:330-483 | in every state of every run the accepted messages of a claim and key are the delivered ones followed by the waiting ones, in order |
| `PipelineTheorems.CommandsAreRouted` | internal/msgtransfer/online_history_msg_handler.go:384-401 | every command, queued or delivered, sits in its key's one channel, below 100, and carries at least one message |
| `PipelineTheorems.RunKeepsLabels` | internal/msgtransfer/online_history_msg_handler.go:342-401 | whatever relates a message to its record key at the source still relates it to the key it travels under |
| `PipelineTheorems.InternalStepWorks` | internal/msgtransfer/online_history_msg_handler.go:330-483 | every step other than taking a record reduces the work left |
| `PipelineTheorems.DrainIsBounded` | internal/msgtransfer/online_history_msg_handler.go:330-483 | a run without new records has at most as many steps as there was work |
| `PipelineTheorems.ProgressPossible` | internal/msgtransfer/online_history_msg_handler.go:330-483 | while anything is inside the pipeline some goroutine can move it on |
| `PipelineTheorems.DrainedMeansDelivered` | internal/msgtransfer/online_history_msg_handler.go:330-483 | where no internal step is left, the workers have taken exactly what was accepted, key by key |
| `PipelineTheorems.OneCommandRun` | internal/msgtransfer/online_history_msg_handler.go:330-483 | up to a thousand records of one key can reach their worker as one command |
| `PipelineSources.DecodeExactly` | internal/msgtransfer/online_history_msg_handler.go:345-378 | grouping keeps, in record order, exactly the records under the key whose body decodes, whatever claims they come from |
| `PipelineSources.AcceptedExactly` | internal/msgtransfer/online_history_msg_handler.go:474-481 | what a claim accepts under a key is, in order, its records that are not empty and decode |
| `PipelineSources.CarriedExactly` | internal/msgtransfer/online_history_msg_handler.go:384-401 | the messages of a claim and key that a worker was given, place by place in its commands |
| `PipelineSources.RecordsInPlace` | internal/msgtransfer/online_history_msg_handler.go:330-483 | in every state of every interleaving the x-th place of the worker that holds a message of a claim and key holds that of the x-th non-empty decodable record the claim took under the key; once drained every such record has its place |
| `Transfer.DeliveredMeets` | internal/msgtransfer/online_history_msg_handler.go:384-401 | a delivered command belongs to its worker's channel, and all its messages to its key |
| `Transfer.DeliveredBatchesAreRouted` | internal/rpc/msg/send.go:71-173 | end to end: with single chats and super groups (underscore-free group ids), everything a worker files of any command goes to its own conversation, clones included |
| `Transfer.DeliveredRoutedExactly` | internal/rpc/msg/send.go:71-173 | with server notification chats too, whatever the ids contain: each filed message has its own id iff its input has the first one's peer (and, in the chat lists, type); for underscore-free ids that is iff both or neither go along the key |
| `Transfer.RunCommand` | internal/msgtransfer/online_history_msg_handler.go:114-170 | one command: its chat messages, then its notifications, handled under the two ids of its first message; every stored chat message counts once |
| `Transfer.CommandBySteps` | internal/msgtransfer/online_history_msg_handler.go:114-170 | for every fault, a worker that takes the chat job and then the notification job of a command through their single steps reaches exactly the stores RunCommand promises |
| `Transfer.NumberedIfTheyFit` | pkg/common/db/controller/msg.go:355-396 | the stored messages of a command get numbers iff at most a hundred and the sequence store answers, all or none |
| `Transfer.OversizedCommand` | internal/msgtransfer/online_history_msg_handler.go:455-468 | a run delivers a command with more than a hundred stored messages of one conversation, none of which is ever numbered, whatever works |
| `Transfer.WorkersOwnConversations` | internal/msgtransfer/online_history_msg_handler.go:384-398 | while messages that share a conversation share their key, no two workers are given jobs for one conversation |
| `Transfer.ShareExactly` | pkg/msgprocessor/conversation.go:26-68 | two messages can be filed under one conversation iff they have one peer |
| `Transfer.KeysApartWhen` | pkg/msgprocessor/conversation.go:26-68 | messages that share a conversation share their key if all ids are underscore-free, and for any ids if every server notification chat goes along its key (or its ids join to one string either way round) |
| `Transfer.TransferSafety` | internal/msgtransfer/online_history_msg_handler.go:237-405 | end to end over all interleavings and failures: one message per pushed number, numbers without gaps, counters equal submitted less under way |
| `Transfer.TransferLosesNothing` | internal/msgtransfer/online_msg_to_mongo_handler.go:67-98 | end to end: while cache and Mongo take what they are given, every number reads back as its own message at any moment |
| `TransferOrder.TransferInOrder` | internal/msgtransfer/online_history_msg_handler.go:114-170 | end to end, with workers serving in order and no failing number access or push, in every state: number q of a conversation is with the q-th stored message delivered for its key and pushes follow that order, all of them once served; each claim's messages are delivered in the order it accepted them, all of them once drained |
| `TransferOrder.BegunIsDelivered` | internal/msgtransfer/online_history_msg_handler.go:114-170 | what a worker that serves in order has begun to store in a conversation is the beginning of the stored messages delivered for its key |
| `TransferOrder.OneConversationWhen` | pkg/msgprocessor/conversation.go:26-68 | messages of one key have one chat and one notification conversation for single chats and super groups with underscore-free group ids; one notification conversation whenever conversations are named by keys |
| `BatchSplit.CloneNotification` | internal/msgtransfer/online_history_msg_handler.go:195-215 | the notification ends with offline push and unread off, the clone with a fresh option map, and storage is not affected |
| `BatchSplit.GetPushStorageMsgList` | internal/msgtransfer/online_history_msg_handler.go:177-235 | the five lists are what each input contributes, in input order |
| `BatchSplit.SplitConserves` | internal/msgtransfer/online_history_msg_handler.go:177-235 | the four lists together hold each input once and one clone per cloned notification, nothing else |
| `BatchSplit.SplitKeepsOrder` | internal/msgtransfer/online_history_msg_handler.go:177-235 | the inputs behind the entries of each list stand at strictly increasing positions and none that belongs there is missing |
| `BatchSplit.FiledByFlags` | internal/msgtransfer/online_history_msg_handler.go:177-235 | which lists a message enters, by its raw flags alone, and that nothing of it changes but offline push and unread of a cloned notification; a clone keeps all fields but the flags, none of which is off |
| `BatchSplit.SplitByFlags` | internal/msgtransfer/online_history_msg_handler.go:177-235 | each of the five lists holds, in input order, exactly what the inputs with the right flags or content types become |
| `BatchSplit.CloneFlags` | pkg/msgprocessor/options.go:44-55 | of a notification and its clone exactly the clone is pushed offline and counted unread; the clone has every flag on |
| `BatchSplit.ConfiguredNotification` | pkg/common/config/parse.go:55-72 | what a configured notification means for the split: cloned iff isSendMsg, stored iff level 2, pushed offline itself iff enabled and not cloned |
| `BatchSplit.RoutingAgrees` | internal/msgtransfer/online_history_msg_handler.go:150-159 | the two ids computed from the first message of a uniform batch are the own ids of all that is filed under them, clones included |
| `BatchSplit.RoutingExact` | pkg/msgprocessor/conversation.go:26-68 | for one key: what an input adds to the chat lists, a clone included, is filed under its own id iff the input has the first one's type (and direction, for notification chats); what it adds to the notification lists, iff it has the first one's peer, that is, for underscore-free ids, iff both or neither go along the key |
| `Storage.MsgDatabase.BatchInsertChat2Cache` | pkg/common/db/controller/msg.go:355-396 | for every fault: the batch is numbered after the newest and cached up to the first failing write, the newest number raised if that works, and every sender's read cursor moved to its last message; it succeeds iff 1 to 100 messages and both accesses to the newest number work |
| `Storage.NumberMessages` | pkg/common/db/controller/msg.go:370-377 | the messages with consecutive numbers, and for each sender the number of its last message |
| `Storage.MsgDatabase.RaiseSeqs` | pkg/common/db/controller/msg.go:385-395 | how both writes of numbers look to every user, each of them failing or not |
| `Storage.MsgDatabase.SetMessageToCache` | pkg/common/db/cache/msg.go:399-410 | the messages before the first failing write are cached |
| `Storage.MsgDatabase.ToPushTopic` | internal/msgtransfer/online_history_msg_handler.go:263-271 | every message is queued for push in order, except those whose send fails |
| `Storage.MsgDatabase.HandleMsg` | internal/msgtransfer/online_history_msg_handler.go:273-328 | for every fault: the exact effect on all stores and numbers; each message submitted for storage counts once as success or failure |
| `Storage.MsgDatabase.HandleNotification` | internal/msgtransfer/online_history_msg_handler.go:237-261 | the same for notifications, without the counters |
| `Storage.MsgDatabase.BatchInsertChat2DB` | pkg/common/db/controller/msg.go:281-326 | a batch with consecutive numbers is written up to a failure, any other not at all |
| `Storage.MsgDatabase.DeleteFromCache` | pkg/common/db/cache/msg.go:556-562 | the slots of the messages before the first failing deletion leave the cache, and no others |
| `Storage.MsgDatabase.HandleChatWs2Mongo` | internal/msgtransfer/online_msg_to_mongo_handler.go:49-99 | for every fault: the batch is inserted as far as Mongo takes it and leaves the cache all the same, as far as the clean-up gets |
| `Storage.PutLookup` | pkg/common/db/controller/msg.go:373-378 | consecutively numbered messages are all found under their numbers and no other slot changes |
| `StorageRuns.StorageSafety` | pkg/common/db/controller/msg.go:355-396 | where each conversation belongs to one worker, in every interleaving of the single store operations, whatever fails: numbers without gaps; no two messages pushed under one number, none before it has it; Mongo never holds a wrong message; success plus failed equals submitted less under way |
| `StorageRuns.NothingStoredIsLost` | internal/msgtransfer/online_msg_to_mongo_handler.go:67-98 | there too, while cache writes and Mongo inserts succeed, a reader who asks the cache and then Mongo gets exactly the message of the number, in every intermediate state |
| `StorageRuns.NumbersStay` | pkg/common/db/controller/msg.go:370-377 | a number never changes hands later |
| `StorageRuns.StepKeepsBookkeeping` | internal/msgtransfer/online_history_msg_handler.go:237-328 | every single store operation of every worker and consumer keeps the bookkeeping |
| `StorageRuns.InsertFresh` | pkg/common/db/controller/msg.go:370-377 | a new batch takes exactly the slots after those in use |
| `StorageOrder.NumbersFollowLog` | pkg/common/db/controller/msg.go:370-388 | where each conversation belongs to one worker, whatever fails: its numbers 1, 2, ... are with the messages of the jobs that were numbered, in the order they were |
| `StorageOrder.FirstInFirstOut` | internal/msgtransfer/online_history_msg_handler.go:237-328 | there too, while numbering and pushing work, in every state: what the owner was given is, in order, what is numbered and then its current job; what is numbered is what was pushed and then what is to push |
| `StorageOrder.QueueHoldsStored` | internal/msgtransfer/online_history_msg_handler.go:263-271 | in every state of every run the push queue holds the pushed stored messages in that order, among the others |
| `StorageQueues.PushQueueExactly` | internal/msgtransfer/online_history_msg_handler.go:237-328 | while numbering and pushing work, in every state: the messages of a conversation in the push queue and then those its owner is to push are, job by job, the unstored ones and then the stored ones under their numbers |
| `StorageQueues.MongoGetsAll` | internal/msgtransfer/online_msg_to_mongo_handler.go:49-99 | while nothing fails on the way, in every state each number is in Mongo, queued for it or about to be; with the queue empty Mongo holds every message under its number |
| `StorageSteps.HandledBySteps` | internal/msgtransfer/online_history_msg_handler.go:237-328 | for every job and every fault, a worker's single steps add up to exactly the effect the handlers promise |
| `StorageSteps.MongoHandledBySteps` | internal/msgtransfer/online_msg_to_mongo_handler.go:49-99 | for every fault a consumer's single steps add up to exactly the effect of handleChatWs2Mongo |
| `StorageSteps.DeletesReach` | internal/msgtransfer/online_msg_to_mongo_handler.go:82-86 | the clean-up steps remove exactly the batch's first messages from the cache, one after the other |
| `StorageFailures.MongoFailureLoses` | internal/msgtransfer/online_msg_to_mongo_handler.go:67-98 | after the handler a reader finds under the number of a message of a new batch what the clean-up left in the cache, if it failed before that number; else the message iff its batch was in order and Mongo took it before failing |
| `StorageFailures.CacheFailureHides` | pkg/common/db/controller/msg.go:378-384 | under a just given number a reader finds the message iff it was written or already there, else what was left under that number, if anything |
| `StorageFailures.StaleCacheAnswers` | pkg/common/db/controller/msg.go:378-388 | an unsaved newest number and then a failed cache write: number 1 is given to y and reads back as x |
| `StorageFailures.NumberTwice` | pkg/common/db/controller/msg.go:355-396 | from any state with two free workers, any two jobs of 1 to 100 stored messages on one conversation: both can be pushed under the same numbers, all count as stored, the later one reads back and its last number is the newest |
| `MongoBlocks.CheckSeqs` | pkg/common/db/controller/msg.go:186-203 | the batch passes iff its numbers are consecutive from the first |
| `MongoBlocks.MsgDocDatabase.BuildDoc` | pkg/common/db/controller/msg.go:236-266 | the new document holds exactly the longest run of messages that belong into it, at their indexes, and nothing else |
| `MongoBlocks.MsgDocDatabase.UpdateOne` | pkg/common/db/controller/msg.go:205-223 | writing one message into an existing document is one row of the flat table; without the document nothing happens |
| `MongoBlocks.MsgDocDatabase.CreateBlock` | pkg/common/db/controller/msg.go:236-277 | creating a document writes all its messages to the flat table, or reports that it exists |
| `MongoBlocks.MsgDocDatabase.BatchInsertBlock` | pkg/common/db/controller/msg.go:180-279 | for any existing documents and any point of failure the documents represent the flat table with a prefix of the batch written, all of it on success; twice as many answers as messages suffice |
| `MongoBlocks.SlotInBlock` | pkg/common/db/table/unrelation/msg.go:152-173 | document and index together name exactly one number |
| `MongoBlocks.DocumentNumbers` | pkg/common/db/table/unrelation/msg.go:152-173 | document d holds exactly the numbers from 100 d + 1 to 100 d + 100, in order |
| `MongoBlocks.PutRange` | pkg/common/db/controller/msg.go:180-279 | what writing a consecutive batch does to any one slot |
| `UserMaps.UserMap.GetAll` | internal/msggateway/user_map.go:33-39 | all connections of the user, and whether there are any |
| `UserMaps.UserMap.Get` | internal/msggateway/user_map.go:41-56 | the user's connections on the platform in order, and whether there are any of either kind |
| `UserMaps.UserMap.Set` | internal/msggateway/user_map.go:58-71 | the connection is appended to its user's list; nothing else changes |
| `UserMaps.UserMap.Delete` | internal/msggateway/user_map.go:73-92 | exactly the connections at the address are removed; true iff the user's last one goes; no empty list stays |
| `UserMaps.UserMap.DeleteClients` | internal/msggateway/user_map.go:94-116 | exactly the connections at the given addresses are removed; true iff the user's last one goes |
| `UserMaps.OnPlatformMembers` | internal/msggateway/user_map.go:41-56 | the filtered list has exactly the members on the platform |
| `UserMaps.WithoutMembers` | internal/msggateway/user_map.go:73-116 | removing addresses keeps exactly the members at other addresses |
| `UserMaps.WithoutIsExact` | internal/msggateway/user_map.go:94-116 | where addresses tell connections apart, exactly the given connections are removed |
| `UserMaps.OnPlatformOfWithout` | internal/msggateway/user_map.go:41-116 | filtering by platform and removing addresses commute |
| `Gateway.WsServer.KickOnlineMessage` | internal/msggateway/client.go:241-252 | a client is closed at most once, and its unregistration queued exactly then |
| `Gateway.WsServer.MultiTerminalLoginChecker` | internal/msggateway/n_ws_server.go:283-357 | the old connections go and are closed exactly when the policy kicks; then all other known tokens of that user and platform check as kicked and no other token changes |
| `Gateway.WsServer.KickTokens` | internal/msggateway/n_ws_server.go:343-356 | every known token of the user and platform except the new one checks as kicked, all others as before |
| `Gateway.WsServer.RegisterClient` | internal/msggateway/n_ws_server.go:214-239 | the whole effect of a login on registry, queues, counters and tokens |
| `Gateway.WsServer.UnregisterClient` | internal/msggateway/n_ws_server.go:359-371 | the connections at the client's address go, the counters follow |
| `Gateway.WsServer.KickUserConn` | internal/msggateway/n_ws_server.go:278-281 | the connections at the client's address leave the registry and the client is closed; no counter changes |
| `Gateway.WsServer.KickUserOffline` | internal/msggateway/hub_server.go:179-196 | every connection of the user on the platform is removed and closed, the user counter not looked at |
| `Gateway.WsServer.MultiTerminalLoginCheck` | internal/msggateway/hub_server.go:198-218 | a reported login queues a kick of what this node holds of that user and platform |
| `GatewayRuns.RegisteredAlone` | internal/msggateway/n_ws_server.go:214-239 | after a login that kicks, the new connection is alone on its platform |
| `GatewayRuns.RegisteredMembers` | internal/msggateway/n_ws_server.go:214-239 | who is registered after a login: the newcomer and those whose address was not kicked |
| `GatewayRuns.SingleTerminal` | internal/msggateway/n_ws_server.go:167-302 | in every state of every run a user has at most one connection on each guarded platform |
| `GatewayRuns.OtherTerminalsCoexist` | internal/msggateway/n_ws_server.go:283-302 | under PCAndOther two different mobile platforms of a user stay connected |
| `GatewayRuns.EndsExactly` | internal/msggateway/n_ws_server.go:283-302 | a login ends another connection of the user on its platform iff the policy is AllLoginButSameTermKick, or PCAndOther and the platform no PC |
| `GatewayRuns.PCsCoexist` | internal/msggateway/n_ws_server.go:284-289 | under PCAndOther logins on a PC platform end nothing: all stay registered and open |
| `GatewayRuns.ForcedOffLeavesNone` | internal/msggateway/hub_server.go:179-196 | after a forced logout no connection of the user on the platform is registered, and all there were are closed |
| `GatewayRuns.ConnectionCount` | internal/msggateway/n_ws_server.go:221-238 | the connection counter equals registers less unregisters processed; with empty queues, clients accepted and not closed |
| `GatewayRuns.UserCountExact` | internal/msggateway/n_ws_server.go:214-371 | in every state of every run the user counter exceeds the users in the registry by the times a user's last connection was forced off less the repeat logins |
| `GatewayRuns.UserCountStep` | internal/msggateway/n_ws_server.go:214-371 | every event changes that surplus by -1 exactly on a repeat login, by +1 exactly on a forced-off last connection, else not at all |
| `GatewayRuns.ForcedOffStaysCounted` | internal/msggateway/n_ws_server.go:278-281 | forcing off the only connection leaves the counter at 1 with an empty registry, its unregistration included |
| `RegistryRuns.StaysOpenExactly` | internal/msggateway/n_ws_server.go:168-181 | a step keeps every registered or waiting client open or about to be unregistered iff it does not unregister a client that still waits to be registered |
| `RegistryRuns.RegistryIsOpen` | internal/msggateway/client.go:241-252 | in every state of every run without such a step each registered connection is open or its unregistration is queued; with that queue empty all are open |
| `RegistryRuns.ClosedStaysRegistered` | internal/msggateway/n_ws_server.go:168-181 | a run in which a client is unregistered before it was registered and stays in the registry, closed, with all queues empty |
| `Cluster.ReportDooms` | internal/msggateway/hub_server.go:198-218 | a delivered report condemns every connection the node holds of that user and platform |
| `Cluster.MoveKeepsInv` | internal/msggateway/n_ws_server.go:186-239 | every cluster step, reports delivered one by one and in any order, keeps: each guarded connection is the newest login, condemned, or about to be reported |
| `Cluster.ClusterSingleTerminal` | internal/msggateway/n_ws_server.go:186-239 | however logins overlap, with reports arrived and kick queues drained the whole cluster holds at most the newest login of a user and guarded platform |
| `Cluster.MoveKeepsKnown` | internal/msggateway/n_ws_server.go:186-302 | with distinct addresses and logins in turn every step keeps: no queued kick and no report under way names or reaches the newest login of its kind |
| `ClusterRuns.MoveKeepsAlive` | internal/msggateway/n_ws_server.go:186-302 | there no step ends the newest login but a drop of its connection or a forced logout on its node; no kick and no other login does |
| `ClusterRuns.NewestNeverKicked` | internal/msggateway/n_ws_server.go:186-302 | with distinct addresses and logins in turn, in every state of every run: if the newest login of a user and platform is closed or no longer registered, its connection dropped or the user was forced off there since it logged in |
| `ClusterRuns.NewestLoginWins` | internal/msggateway/n_ws_server.go:186-302 | there, unless dropped or forced off since its login, the newest login is registered on its node, alone on its platform; drained, no other node has one |
| `ClusterRuns.OverlapKicksBoth` | internal/msggateway/n_ws_server.go:186-239 | a run without drops or forced logouts in which two overlapping logins, the newest one included, are closed by kicks and none is left |
| `ClusterRuns.KickableExactly` | internal/msggateway/n_ws_server.go:186-302 | after any run with distinct addresses and logins in turn, a new login on a guarded platform can be closed and removed by later steps (none from outside) while it is the newest iff it comes out of turn |
| `ClusterRuns.OutOfTurn` | internal/msggateway/n_ws_server.go:186-239 | after any run at all, if a report of its kind is on its way to its node, a new login on a guarded platform can be kicked while it is the newest |
| `ClusterTokens.ReportSparesItsToken` | internal/msggateway/hub_server.go:198-218 | once the kick of a reported login is handled every other known token of the user on the platform reads as kicked, the reported one as before, and no other token is touched |
| `ClusterTokens.StepKeepsTokenSafe` | internal/msggateway/n_ws_server.go:283-357 | every step keeps: while a login is the newest its token is admitted and no kick or report that would mark it is on its way |
| `ClusterTokens.NewestTokenKept` | internal/msggateway/n_ws_server.go:283-357 | from any state, the token of a login that comes in turn with every kick and report of another token stays admitted as long as the login is the newest |
| `ClusterTokens.TokenMarkableExactly` | internal/msggateway/n_ws_server.go:283-357 | in any state, an admitted token of a login that may enter can be marked while the login is the newest iff a kick is queued, or a report under way that will find a connection, for a login of the kind with another token |
| `ClusterTokens.InTurnIsNotEnough` | internal/msggateway/n_ws_server.go:186-357 | an orderly run after which a login is in turn (no kick can take its connection) and its token can be marked all the same |
| `ConversationIds.AtMostIsTotalOrder` | pkg/msgprocessor/conversation.go:42-48 | the string order behind the sorting is total and antisymmetric |
| `ConversationIds.AtMostExactly` | pkg/msgprocessor/conversation.go:42-48 | that order is the lexicographic one: a prefix comes first, else the first difference decides |
| `ConversationIds.IdsInOrder` | pkg/msgprocessor/conversation.go:42-68 | the ids and the key of a single chat name the lexicographically first user first, whoever sends; a server notification chat has such a key and ids in sending order |
| `ConversationIds.JoinSplit` | pkg/msgprocessor/conversation.go:117-125 | splitting at underscores and rejoining gives back any string |
| `ConversationIds.TwinLaw` | pkg/msgprocessor/conversation.go:117-125 | for arbitrary ids, splitting and rejoining a chat id gives the notification id |
| `ConversationIds.NoTwin` | pkg/msgprocessor/conversation.go:117-125 | a string without an underscore has no notification id |
| `ConversationIds.IdTellsNotification` | pkg/msgprocessor/conversation.go:70-97 | a message's id is its notification or chat id, and carries the notification prefix iff the message is a notification |
| `ConversationIds.ParseAgreement` | pkg/msgprocessor/conversation.go:149-171 | ParseConversationID agrees with the id iff the message is no group chat, and its flag is right |
| `ConversationIds.SortedPairSymmetric` | pkg/msgprocessor/conversation.go:42-56 | a single chat's id does not depend on who sends |
| `ConversationIds.SortedPairInjective` | pkg/msgprocessor/conversation.go:42-56 | for underscore-free user ids it determines the unordered pair |
| `ConversationIds.JoinedExactly` | pkg/msgprocessor/conversation.go:42-56 | two pairs of arbitrary ids join to one string iff they are equal or one shifts to the other over an underscore |
| `ConversationIds.SingleChatsShareExactly` | pkg/msgprocessor/conversation.go:42-56 | two single chats share their conversation iff they are between the same users or one sorted pair shifts to the other |
| `ConversationIds.ChatIdsSeparate` | pkg/msgprocessor/conversation.go:42-56 | chat ids are equal iff session type and peer are; different session types never collide |
| `ConversationIds.UnderscoresCollide` | pkg/msgprocessor/conversation.go:42-56 | two different pairs of users that share one single chat |
| `ConversationIds.SameKeySameChat` | pkg/msgprocessor/conversation.go:58-68 | when messages of one transfer key have the same chat id |
| `ConversationIds.PlainGroupKeyIsNotSingle` | pkg/msgprocessor/conversation.go:58-68 | a single chat's key is never an underscore-free group id |
| `ConversationIds.SameKeySamePeer` | pkg/msgprocessor/conversation.go:26-40 | messages of one key have the same notification id iff the same peer; for underscore-free ids iff both or neither go along the key |
| `ConversationIds.IdTellsKey` | pkg/msgprocessor/conversation.go:26-68 | for underscore-free ids both conversation ids of a message determine its transfer key |
| `ConversationIds.NamedKeysAgree` | pkg/msgprocessor/conversation.go:26-68 | for arbitrary ids: messages that go along their keys (or whose ids join to one string either way round) have one notification id iff one key; with a message that does not, one id means two keys |
| `ConversationIds.SharesOnlyItsKeyExactly` | pkg/msgprocessor/conversation.go:26-68 | a message shares its notification id only with messages of its own key, among those along their keys, iff it goes along its key or its ids join to one string either way round |
| `ConversationIds.AgainstKeysAgreeExactly` | pkg/msgprocessor/conversation.go:26-68 | two messages against their keys with one notification id have one key iff the same sender and receiver, or shifted over a part that joins with the rest to one string either way round |
| `ConversationIds.KeysShareConversation` | pkg/msgprocessor/conversation.go:26-68 | two messages of different keys with one notification id |
| `Messages.GetOptionsByNotification` | pkg/common/config/parse.go:55-72 | the flags read back exactly as configured; history and persistence only for level 2 |
| `Groups.Duplicate` | internal/rpc/group/group.go:219-221 | true iff some id occurs twice |
| `Groups.GroupServer.CreateGroup` | internal/rpc/group/group.go:203-302 | succeeds iff the request is in order, and then writes the group, its owner, admins and members |
| `Groups.GroupServer.InsertMembers` | pkg/common/db/controller/group.go:157-192 | inserting fails as a whole when one of the users is a member already |
| `Groups.GroupServer.InviteUserToGroup` | internal/rpc/group/group.go:353-456 | succeeds iff permitted; adds ordinary members, or files requests where approval is needed |
| `Groups.GroupServer.JoinGroup` | internal/rpc/group/group.go:806-865 | succeeds iff the user exists, is no member and the group is not dismissed; joins or files a request |
| `Groups.GroupServer.CreateRequests` | pkg/common/db/controller/group.go:464-474 | a new request replaces an earlier one of the same user |
| `Groups.GroupServer.GroupApplicationResponse` | internal/rpc/group/group.go:732-804 | succeeds iff the operator may decide and the request is open; agreeing adds one ordinary member unless already in |
| `Groups.GroupServer.KickGroupMember` | internal/rpc/group/group.go:504-610 | succeeds iff every kicked user is a member the operator may kick, and removes exactly those |
| `Groups.GroupServer.QuitGroup` | internal/rpc/group/group.go:867-904 | anyone but the owner may leave; exactly that member goes |
| `Groups.GroupServer.TransferGroupOwner` | internal/rpc/group/group.go:998-1036 | succeeds iff permitted and both rows change; the new user becomes owner and the old one takes the role the new one had |
| `Groups.GroupServer.SwapRoles` | pkg/common/db/controller/group.go:416-434 | both role updates or none; a row that does not change undoes the transaction |
| `Groups.GroupServer.UpdateRoleLevel` | pkg/common/db/relation/group_member_model.go:62-72 | the update and the number of rows it changed |
| `Groups.GroupServer.CheckEntry` | internal/rpc/group/group.go:1351-1401 | the permission of one change by an operator who is no app manager |
| `Groups.GroupServer.TargetsFound` | internal/rpc/group/group.go:1322-1349 | true iff no target repeats and every target is a member |
| `Groups.GroupServer.CheckEntries` | internal/rpc/group/group.go:1351-1403 | true iff every change is permitted |
| `Groups.GroupServer.TouchesOwner` | internal/rpc/group/group.go:1404-1411 | true iff some change sets the role of an owner |
| `Groups.GroupServer.SetGroupMemberInfo` | internal/rpc/group/group.go:1314-1443 | succeeds iff no target repeats, all are members, all changes are permitted and no owner's role is set; then all roles are set |
| `Groups.GroupServer.MuteGroupMember` | internal/rpc/group/group.go:1207-1288 | succeeds iff the role switch permits; only the mute time of that member changes |
| `Groups.GroupServer.SetGroupStatus` | internal/rpc/group/group.go:1290-1312 | an owner, admin or app manager overwrites the status, whatever it was |
| `Groups.GroupServer.DismissGroup` | internal/rpc/group/group.go:1158-1205 | succeeds iff there is an owner and the operator may; sets the status and, if asked, removes all members |
| `Groups.WithRowsLookup` | pkg/common/db/controller/group.go:157-192 | writing rows for some users of one group changes exactly those rows |
| `GroupRuns.CreateKeeps` | internal/rpc/group/group.go:203-302 | a new group has exactly the named owner as its owner |
| `GroupRuns.RolesSetAt` | internal/rpc/group/group.go:1414-1425 | what a batch of role changes does to any one member |
| `GroupRuns.Ordinary` | internal/rpc/group/group.go:540-561 | requests of operators who are no app managers never do what could break ownership |
| `GroupRuns.HarmlessExactly` | internal/rpc/group/group.go:545-1411 | whoever the operator is, an accepted request keeps one owner per group iff it meets a condition on the request and the tables before it |
| `GroupRuns.OneOwner` | internal/rpc/group/group.go:213-1411 | in every state of every run each group has exactly one owner and known roles, or was dismissed and emptied |
| `GroupRuns.OnlyDismissalEmpties` | internal/rpc/group/group.go:1158-1180 | a group never disappears, and loses its owner only to a dismissal that deletes members (or an app manager kicking everyone out of a dismissed group) |
| `GroupRuns.EmptiedForever` | internal/rpc/group/group.go:353-1312 | no later request puts a member into an emptied group again |
| `GroupRuns.KickedBelow` | internal/rpc/group/group.go:540-561 | who is kicked stands strictly below the operator |
| `GroupRuns.AuthorityIsStrict` | internal/rpc/group/group.go:540-1411 | in every run, kick, mute, unmute and edit of another member come from strictly above |
| `GroupRuns.CheckRevoke` | internal/rpc/msg/revoke.go:47-101 | lets pass exactly app managers, the sender of a single chat message, and in a group whom CanRevoke admits |
| `GroupRuns.RevokeIsStrict` | internal/rpc/msg/revoke.go:74-94 | another member's group message can be revoked iff the role is strictly above |
| `GroupRuns.TransferExact` | internal/rpc/group/group.go:1026-1031 | a transfer keeps one owner iff it starts from the owner |
| `GroupRuns.KickExact` | internal/rpc/group/group.go:545-548 | a kick keeps one owner iff the owner is not kicked |
| `GroupRuns.SetInfoExact` | internal/rpc/group/group.go:1404-1411 | a batch of role changes keeps one owner in a group iff it appoints none there |
| `GroupHistory.MemberStep` | internal/rpc/group/group.go:203-1205 | who is a member after an accepted request: who was and did not leave by it, and whom it lets in |
| `GroupHistory.RoleStep` | internal/rpc/group/group.go:203-1443 | the role of every member after an accepted request |
| `GroupHistory.RequestStep` | internal/rpc/group/group.go:353-865 | the request row of every user after an accepted request: filed and open, answered with the result, or as before |
| `GroupHistory.GroupStep` | internal/rpc/group/group.go:203-1312 | which groups exist after an accepted request, with which status and approval setting |
| `GroupHistory.MuteStep` | internal/rpc/group/group.go:1207-1288 | how long every member is muted after an accepted request |
| `GroupHistory.MembersExactly` | internal/rpc/group/group.go:203-1205 | in every state of every run a user is a member iff some accepted request let the user in and none since ended that |
| `GroupHistory.OpenExactly` | internal/rpc/group/group.go:353-865 | in every state of every run a request is open iff a join or invitation that needs approval filed it and no response since answered it |
| `GroupHistory.AnswersOneRequest` | internal/rpc/group/group.go:732-804 | an accepted response, agreeing or refusing, has a request filed after the last response before it: nobody is let in unasked and no request is answered twice |
| `GroupHistory.ApprovalStays` | internal/rpc/group/group.go:203-302 | a group keeps the approval setting of its creation |
| `GroupHistory.AcceptedExactly` | internal/rpc/group/group.go:203-1443 | in every state of every run a request is accepted iff the roles permit it; a member who is no app manager may kick, mute or edit exactly the members strictly below |
| `ReadCursor.GetMinSeqs` | internal/rpc/msg/delete.go:30-36 | every conversation gets its newest number plus one |
| `SeqCaches.SeqCache.SetHasReadSeqs` | pkg/common/db/cache/msg.go:281-285 | in any order, exactly the given users' cursors are written, up to a failure |
| `SeqCaches.WithConversations` | pkg/common/db/cache/msg.go:217-224 | in any order, exactly the given conversations' numbers of the user are written, up to a failure, which is reported |
| `SeqCaches.SeqCache.GetMaxSeqs` | pkg/common/db/cache/msg.go:162-177 | the newest numbers, leaving out those that are 0 or missing |
| `ReadCursor.SeqServer.MarkMsgsAsRead` | internal/rpc/msg/as_read.go:91-128 | refused for no numbers or one beyond the newest; otherwise marks all numbers named and raises the cursor to the last one or leaves it |
| `ReadCursor.SeqServer.MarkConversationAsRead` | internal/rpc/msg/as_read.go:130-185 | marks exactly the consecutive numbers after the cursor, on single chats, and raises the cursor of three conversation types |
| `ReadCursor.SeqServer.SetConversationHasReadSeq` | internal/rpc/msg/as_read.go:70-89 | sets the cursor unless beyond the newest message |
| `ReadCursor.SeqServer.ClearConversation` | internal/rpc/msg/delete.go:145-197 | for each conversation with messages the bound moves past the newest and the cursor to it, each write as far as it gets; no cursor is written unless all bounds were; other users see at most the shared bound change |
| `ReadCursorRuns.LowersExactly` | internal/rpc/msg/as_read.go:102-163 | neither way of marking lowers the cursor; each other request does iff its guard says so |
| `ReadCursorRuns.ReadsExactly` | internal/rpc/msg/as_read.go:70-163 | in every state of every run: marking messages is accepted, marks all and raises the cursor to the last iff that is not beyond the newest; the three conversation types raise it as marked; it can be set to anything up to the newest |
| `ReadCursorRuns.CursorWithinMax` | internal/rpc/msg/as_read.go:102-163 | over runs whose marks stay within the newest message and whose numbers are saved, so does the cursor, and only SetConversationHasReadSeq can lower it |
| `ReadCursorRuns.BeyondMaxExactly` | internal/rpc/msg/as_read.go:157-172 | one step takes the cursor beyond the newest message iff it marks a conversation beyond it or a sender's cursor moves for a batch whose newest number was not saved |
| `ReadCursorRuns.ReadOnce` | internal/rpc/msg/as_read.go:102-163 | every number the cursor passed was marked by exactly one MarkConversationAsRead or skipped by exactly one other event |
| `ReadCursorRuns.MarkedExactly` | internal/rpc/msg/as_read.go:142-163 | the lists marked are, one after the other, exactly the numbers from the first cursor to the last |
| `ReadCursorRuns.MarkedAtMostOnce` | internal/rpc/msg/as_read.go:142-163 | no number is marked twice and none outside the cursor's way |
| `ReadCursorRuns.ClearThenAppend` | internal/rpc/msg/delete.go:163-195 | since the last clear, newest − bound + 1 equals the arrivals iff the conversation was not empty at the clear and the bound was written, or the bound was there already |
| `ReadCursorRuns.ClearThenUnread` | internal/rpc/msg/delete.go:163-195 | with nothing read or sent since, newest − cursor equals the arrivals iff the clear found messages and wrote the cursor, or everything had been read |
| `ReadCursorRuns.ClearOfEmptyMiscounts` | internal/rpc/msg/delete.go:163-195 | clearing an empty conversation and receiving one message counts two |
| `OfflinePush.PushToUser` | internal/msggateway/hub_server.go:147-169 | online iff some connection is a phone, is tried and works; the report lists failures, background iOS and phone successes in order |
| `OfflinePush.SuperGroupOnlineBatchPushOneMsg` | internal/msggateway/hub_server.go:128-177 | one result per target, in order |
| `OfflinePush.GetConnsAndOnlinePush` | internal/push/push_to_client.go:282-301 | the results of all answering gateways, one after the other |
| `OfflinePush.AllResultsMembers` | internal/push/push_to_client.go:282-301 | a result is reported iff some answering gateway has it for a target |
| `OfflinePush.ReportsFailedOnWeb` | internal/msggateway/hub_server.go:147-169 | a user's report has a failed web push iff some web connection of the user is broken |
| `OfflinePush.ResultsTell` | internal/push/push_to_client.go:213-237 | the reports name as online exactly the targets some gateway reached, as missed exactly those it failed on the web |
| `OfflinePush.NeverPC` | internal/push/push_to_client.go:230-232 | no platform name equals "PC" |
| `OfflinePush.Collect` | internal/push/push_to_client.go:208-237 | the sender and exactly the users with an eligible delivery; exactly the users missed on the web |
| `OfflinePush.CountFailedOnWeb` | internal/push/push_to_client.go:225-236 | a user is added iff some failed result is on the web platform |
| `OfflinePush.GetConversationOfflinePushUserIDs` | internal/rpc/conversation/conversaion.go:320-345 | exactly the given users who receive the conversation's messages; an empty conversation id is an error |
| `OfflinePush.DueExactly` | internal/push/push_to_client.go:143-280 | whom the offline push is due to, in terms of the answers: the addressed users less the sender, those with a working Android or foreground iOS connection on an answering gateway, those not receiving and, but for signaling, those not to be disturbed |
| `OfflinePush.AnsweredExactly` | internal/push/push_to_client.go:150-280 | which answers an offline push cannot do without, by content type |
| `OfflinePush.ReportsExactly` | internal/msggateway/hub_server.go:147-169 | which results are reported of a user, connection by connection |
| `OfflinePush.MissedExactly` | internal/push/push_to_client.go:213-237 | whom the web is tried for again: a gateway that spared the user nothing has a broken web connection |
| `OfflinePush.Push2SuperGroup` | internal/push/push_to_client.go:143-280 | offline push goes to exactly targets − sender − reached on a phone by some gateway − do-not-disturb (unless signaling) − not receiving; nobody when it is off or an answer is missing; again online to exactly those missed on the web |

## Left out

- HTTP and RPC plumbing, configuration, discovery, metrics, Kafka sessions, TLS, tools: no state of interest.
- HTTP callbacks: they may rewrite anything, so they are off.
- Notifications and conversation updates that follow a successful group request; error codes (a refused request changes nothing).
- Super-group-typed groups, which cannot be created; SetGroupInfo and the query handlers, which touch no role.
- The modify-message queue send, the first-conversation creation of handleMsg and the context bookkeeping of the workers: easy side effects.
- Blocking on a full unregister or kick channel, client pool reuse and the unlocked check in close: clients are fresh values and each registry call is one step.
- Aliasing of Go slices and option maps (an appended client slice, the options of a cloned notification): values here; the changed value takes its place in the outputs.
- Expiry of cached messages, and revoked or deleted entries in Mongo documents.
- 64-bit wrap-around of sequence numbers; numbers start at 1, where Go's division and Dafny's agree.
- BatchInsertBlock: other processes creating documents between its update and its create are not modelled; a duplicate key arises from documents that exist.
- ClusterSingleTerminal: reports arrive sooner or later; a lost report leaves the other node's connection in place.
- TransferSafety: assumes that messages sharing a conversation share their key (KeysApartWhen says when), without which two workers can share a conversation (NumberTwice).
- TransferInOrder: assumes that all messages of the key have one conversation of the kind, so it leaves out keys under which single chats and server notification chats mix.
- MarkConversationAsRead: a redis write that fails after the messages were marked, here and in the other single-conversation requests, is left out; so are failing reads, which change nothing.
- DeliveredBatchesAreRouted: assumes underscore-free group ids, because a group id can otherwise equal a single chat's key.
- Push2SuperGroup: a failing push provider, after which the second online attempt is skipped, and the clean-up after quit, kick and dismissal are not modelled.
- Push2User, MarkGroupMessageRead, random paging, token parsing and compression.
