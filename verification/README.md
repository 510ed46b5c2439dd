# A verified model of the messaging client

The project models the protocol core of a C++ Telegram client and proves what that core is
for. Operations that the client carries out step by step are methods that change fields,
arrays or linked nodes; each is proved to compute a function on states, and the lemmas are
about those functions and about whole runs. `dafny verify dfyconfig.toml` checks everything.

| file | what it models |
|---|---|
| `SecretChat`, `SecretChatHistory`, `SecretChatNetwork`, `SecretChatAnswers` | sequencing of secret-chat messages: the chat object, everything one receiver can see, two peers over a network that drops, repeats and reorders, and what becomes of requests for missing messages |
| `KeyExchange`, `KeyExchangeRuns`, `KeySwitch` | re-keying of a secret chat: one side, both sides in every interleaving, and holes across a switch of keys |
| `Ige`, `Parts`, `Upload`, `UploadRuns`, `Download`, `DownloadRuns`, `Progress` | chained encryption, and files that travel in parts acknowledged and received in any order |
| `Treap`, `TreapInPlace` | the search tree of the parser generator, as a value and as linked nodes |
| `Framing`, `NetConnection`, `MessageIds` | length-prefixed packets over a queue of buffers, and message ids |
| `Updates`, `UpdatesRuns`, `UpdatesSeq` | gap detection with pts, qts and seq under a difference lock |
| `Queries`, `QueryTable`, `QuerySteps`, `QueriesRuns`, `QueriesSent`, `QueriesNotices` | queries, their clients, the active map, pending lists and timers, which queries go out and which wait |
| `Factorize`, `ModArith` | factoring by doubling and adding, and modular arithmetic |
| `Codec`, `Serializer`, `Envelope`, `Encryptor`, `RsaPadding` | the base types of TL as bytes, the envelope of a secret message, RSA padding |
| `Schema`, `Parsers`, `EmittedParsers`, `Agreement`, `Converse`, `Levels`, `Kinds`, `Writer` | the parsers that the generator emits for a schema, and what they make of written values |
| `Bytes`, `Wrappers` | bytes, options, least elements of sets |

Where the code and its own comments or the protocol's intent part, the model follows the code
and says exactly when the intended property holds:

* A commit of a new key that is queued behind another query is encrypted under the new key and
  cannot be read, so the two sides never agree again (`KeyExchangeRuns.LateCommitIsLost`); they
  agree in every run without such a commit and in no other (`QuietMeansAgreed`). Two requests
  with equal ids block each other (`EqualIdsWedge`). A message up to the commit that is lost is
  lost for good, since its copy comes under the new key; when a switch is survived is exactly
  `KeySwitch.SwitchSurvivedIff`.
* A packet of 2^24 bytes or more is announced as skipped but its body is read as packets
  (`Framing.OversizeIsReadAsPackets`).
* A comment expects a difference to correct a qts that is too high; it never does
  (`UpdatesRuns.HighQtsIsNotCorrected`). A failed difference leaves the lock on for good
  (`DeafAfterFailure`), and nothing else does (`StuckIffFailed`). An update that counts nothing can move pts past a gap
  (`ZeroCountUpdate`), and a combined batch without a first number moves seq past one
  (`UpdatesSeq.UnnumberedJumps`).
* A message id that is active already is not counted again (`QueriesRuns.CollidingId`). An
  error that is handled without a retry ends a query with nobody told (`DroppedSilently`). A
  waiting query that is refused because its client logs out keeps its timeout running, so it
  can be told twice if its object is still held (`TimeoutLeftRunning`, `ToldTwice`).
* A failed download whose stream could not be opened again for a late answer goes on asking for
  parts with the next one (`DownloadRuns.LateAnswersAskAgain`), and an upload of which a part has
  failed goes on sending parts (`UploadRuns.LateSuccessSendsOn`).
* Inserting a key that is in the treap with a lower priority stores it twice
  (`Treap.DuplicateSlipsIn`).
* The envelope of a secret message always carries a long length, which the reader of strings
  accepts only from 254 bytes on, and which is cut off at 2^24 (`Envelope.ReadableIffBody`).
* The building parser of a bare type with several constructors does not put its cursor back
  after a try that fails (`Levels.BareTriesCanDisagree`); when that matters is exactly
  `Levels.TriesAgreeExactly`, and a check of the schema that rules it out is part of
  `Agreement.FetchFollowsSkip`.
* The shift that computes the limit of a factoring round exceeds the width of a word after
  thirteen rounds (`Factorize.LimitLeavesTheWord`), which C++ leaves undefined; the model takes
  the shift modulo 32.

What the model takes as given: block ciphers and their inverses undo each other, SHA-1 gives
20 bytes, RSA exponents invert each other modulo N, random numbers and clocks are arbitrary
inputs, message ids are fresh, a reader of a file gives the bytes of the file in order, and the
key exchange runs over the in-order channel that sequencing provides, with fresh exchange ids
and keys. A key stands for its own fingerprint. Of the classes of queries it is taken as given
that those that start a timeout while they wait are not sent again after it, and that those that
are sent again do nothing in their timeout handler.

## Model

| member | source | states |
|---|---|---|
| `SecretChat.Chat.MessageReceived` | src/secret_chat.cpp:330-390 | one arriving message takes the chat from its old state to the specified new one and puts the specified copies on the wire; what it does with which message is stated by `SecretChatAnswers.RequestsAreAnswered`, `WhatIsDropped` and `NumberlessIsProcessed`, and by the results over runs |
| `SecretChat.Chat.ResendMessages` | src/secret_chat.cpp:1146-1165 | the copies put back on the wire are exactly the stored messages of the asked range, in order, and the chat itself is unchanged |
| `SecretChat.Chat.QueueUnconfirmedIncoming` | src/secret_chat.cpp:456-474 | a message past a hole is queued under its own number, and an entry already there is kept |
| `SecretChat.Chat.DequeueUnconfirmedIncoming` | src/secret_chat.cpp:524-549 | the messages taken off are exactly the consecutive run from in_seq_no on, with the new message in it, and nothing else leaves the queue |
| `SecretChat.Chat.PopRun` | src/secret_chat.cpp:535-541 | the front entries are removed for as long as they are consecutive, and returned in order |
| `SecretChat.Chat.ProcessMessages` | src/secret_chat.cpp:575-668 | a batch is processed message by message, counters move past its last message, everything the peer says it has is dropped from the outgoing maps, and a resend request in it is answered (`SecretChatAnswers.RequestsAreAnswered`) |
| `SecretChat.Chat.IncomingMessagesDeleted` | src/secret_chat.cpp:929-963 | for every deleted id the first queued message with that id loses its content and keeps its slot |
| `SecretChat.Chat.EraseFirstWithId` | src/secret_chat.cpp:942-958 | the walk over the queue stops at the first match and empties that slot only |
| `SecretChat.Chat.TrimUnconfirmedOutgoing` | src/secret_chat.cpp:642-667 | exactly the records below the peer's in_seq_no leave both outgoing maps and the store |
| `SecretChat.Chat.FirstUnfilledHole` | src/secret_chat.cpp:562-573 | the hole runs from in_seq_no to just below the first queued number, (-1, -1) when nothing is queued |
| `SecretChat.Chat.SkipFirstHole` | src/secret_chat.cpp:476-498 | the skip timer processes exactly the first queued run and takes it off the queue |
| `SecretChat.Chat.CollectRun` | src/secret_chat.cpp:485-491 | the loop collects the longest consecutive run from the first queued number on |
| `SecretChat.Chat.SendContent` | src/secret_chat.cpp:551-560 | new content goes out under the next number and is recorded in both maps and the store; content that is still unconfirmed goes out again unchanged under its old number |
| `SecretChat.RunProcessed` | src/secret_chat.cpp:575-640 | processing a run of queued messages leaves in_seq_no just past the run |
| `SecretChat.InOrderAdvances` | src/secret_chat.cpp:378-384 | a message that is next in order moves in_seq_no past every message that was waiting directly behind it |
| `SecretChat.ReceiveWellFormed` | src/secret_chat.cpp:330-390 | whatever arrives, every queued key stays above in_seq_no and under its own number |
| `SecretChat.SkipHoleWellFormed` | src/secret_chat.cpp:476-498 | skipping a hole keeps every queued key above in_seq_no and moves in_seq_no past the first queued run |
| `SecretChat.RunIsMaximal` | src/secret_chat.cpp:535-541 | a stretch of queued numbers with a gap behind it is the whole run |
| `SecretChat.EraseIdsKeys` | src/secret_chat.cpp:929-963 | deleting messages never removes a queued slot, so no hole opens |
| `SecretChat.ProcessAllFrame` | src/secret_chat.cpp:575-640 | while a batch is processed no counter and no outgoing record changes, and the queue changes only by emptying slots |
| `SecretChatHistory.ReceivedExactly` | src/secret_chat.cpp:358-384 | without hole skipping, after any accepted messages in any order with repeats: in_seq_no is the least number never received, the queue holds exactly the received numbers above it, and the first copies were processed once each in increasing order |
| `SecretChatHistory.EventKeepsStep` | src/secret_chat.cpp:358-384 | every single event keeps that description of the receiver |
| `SecretChatHistory.NumbersStrictlyIncrease` | src/secret_chat.cpp:476-498 | with the skip timer interleaved in any way, processed numbers are strictly increasing and queued keys stay above in_seq_no |
| `SecretChatHistory.FirstHoleIsMaximal` | src/secret_chat.cpp:562-573 | the first hole is the longest stretch of missing numbers that starts at in_seq_no |
| `SecretChatHistory.FillingRemovesOneHole` | src/secret_chat.cpp:500-519 | once every number of the first hole has been accepted, in any order and with repeats, exactly one hole fewer is left |
| `SecretChatHistory.ArrivalsAccepted` | src/secret_chat.cpp:345-384 | arrivals from a peer's log that continues this chat's own are all accepted or were accepted before |
| `SecretChatHistory.RoundsEmptyTheQueue` | src/secret_chat.cpp:500-519 | filling first holes one after the other empties the queue in exactly as many rounds as there were holes |
| `SecretChatHistory.RoundsExist` | src/secret_chat.cpp:500-519 | there are such rounds: each first hole is filled with the messages of the log in turn |
| `SecretChatHistory.OutgoingMapsAgree` | src/secret_chat.cpp:551-560 | in every run the two outgoing maps are inverse to each other and list exactly the stored messages |
| `SecretChatHistory.SameIdSameNumber` | src/secret_chat.cpp:551-560 | content whose id is unconfirmed goes out under its first number |
| `SecretChatHistory.DeliveredInLogOrder` | src/secret_chat.cpp:575-640 | the user gets exactly the plain messages of the processed log, in its order |
| `SecretChatNetwork.HolesStayResendable` | src/secret_chat.cpp:1146-1165 | in every two-party run over a network that drops, repeats and reorders, each side's store holds every number from the other's in_seq_no up to its own out_seq_no, unaltered, so any hole the peer can ask for is answered with exactly the missing messages |
| `SecretChatNetwork.NothingInFlightIsRejected` | src/secret_chat.cpp:345-362 | no message in flight in any such run fails the parity or counter checks |
| `SecretChatNetwork.RequestInRange` | src/secret_chat.cpp:500-519 | a request for the first hole never asks beyond what the other side has sent |
| `SecretChatNetwork.DeliveredInOrderOnce` | src/secret_chat.cpp:378-384 | without skipping, what one side has processed is the other's log up to its in_seq_no, message for message |
| `SecretChatNetwork.HolesCloseInRounds` | src/secret_chat.cpp:500-519 | from every state of such a run, closing first holes from the peer's log empties the queue in as many rounds as there are holes |
| `SecretChatNetwork.ClosingRoundsExist` | src/secret_chat.cpp:1146-1165 | from every state of such a run there are rounds, as many as there are holes, made of nothing but what the peer's store holds, that empty the queue |
| `SecretChatNetwork.HonestNeverRejected` | src/secret_chat.cpp:345-362 | a logged message of the peer is a repeat, waits behind a hole or is next in order, and nothing else |
| `SecretChatNetwork.RunInv` | src/secret_chat.cpp:330-668 | every step of every run keeps the links between the two chats, their logs, stores and counters |
| `SecretChatAnswers.RequestsAreAnswered` | src/secret_chat.cpp:364-384 | in every run, whichever side hears a message: a request that was not heard before is answered with exactly the log entries it asks for of which copies are kept, each once and in order, whether it is next in order or arrives past a hole; no other message puts a copy on the wire |
| `SecretChatAnswers.HolesAreResent` | src/secret_chat.cpp:500-519 | from a request to the missing messages: one side asks for its first hole under a new id, the request reaches the other some steps later, and every number of the hole that is missing even then is on its way, as it was first sent |
| `SecretChatAnswers.NoRequestIsPassedOver` | src/secret_chat.cpp:364-384 | without hole skipping, once a side is past the number of a request, there was a step in which the request reached it and was answered with exactly what it asks for of what was kept at that time |
| `SecretChatAnswers.SkippingIsSilent` | src/secret_chat.cpp:476-498 | in every run the skip timer puts nothing on the wire, since no request waits in a queue |
| `SecretChatAnswers.DeletionReachesTheQueue` | src/secret_chat.cpp:929-963 | a deletion that is next in order takes the content of the first message with that id that is still queued afterwards |
| `SecretChatAnswers.WhatIsDropped` | src/secret_chat.cpp:345-362 | a message without content, with only one number, of the wrong parity, that claims to have seen what was never sent, or that was received before changes nothing |
| `SecretChatAnswers.NumberlessIsProcessed` | src/secret_chat.cpp:385-386 | a message of a peer that does not number is processed at once and moves no counter |
| `SecretChatAnswers.EmptyRangeIsIgnored` | src/secret_chat.cpp:1146-1165 | a request past a hole for a range that ends before it starts, or with a negative end, puts nothing on the wire |
| `SecretChatAnswers.FirstCopyIsKept` | src/secret_chat.cpp:456-474 | a copy of a message that waits behind a hole changes nothing |
| `SecretChatAnswers.OnlyTheFirstIsErased` | src/secret_chat.cpp:942-958 | a deleted id empties one queued message at most, the first that carries it |
| `SecretChatAnswers.StampsSayWhatWasHeard` | src/secret_chat.cpp:551-560 | in every run new content goes out under the next number and says how many of the peer's messages have been received without a hole |
| `SecretChatAnswers.ConfirmedIsForgotten` | src/secret_chat.cpp:642-667 | in every run, after a message that is next in order exactly the copies and records below the number that the last message processed with it carries are given up |
| `KeyExchange.Exchange.RequestKeyExchange` | src/secret_chat.cpp:1206-1247 | a request is queued and the own id and exponent are kept, in whatever state the exchange is |
| `KeyExchange.Exchange.AcceptKeyExchange` | src/secret_chat.cpp:1249-1307 | the new key is derived from the offer and an acceptance is queued |
| `KeyExchange.Exchange.CommitKeyExchange` | src/secret_chat.cpp:1330-1366 | the new key is derived from the answer and a commit is queued |
| `KeyExchange.Exchange.ConfirmKeyExchange` | src/secret_chat.cpp:1309-1328 | the new key is installed and the exchange is over |
| `KeyExchange.Exchange.ProcessAction` | src/secret_chat.cpp:595-616 | each handshake action is acted on only in the state and for the id it belongs to; a competing request wins only with the smaller id |
| `KeyExchange.Exchange.FetchMessage` | src/secret_chat.cpp:752-778 | a message is read exactly when its fingerprint is that of the current key, where the first message under the new key first confirms a committed exchange |
| `KeyExchange.Exchange.SendFirstQuery` | src/secret_chat.cpp:1382-1387 | a query is encrypted under the current key, and a committed side switches to the new key with it |
| `KeyExchange.HandshakeDerivesPower` | src/secret_chat.cpp:1206-1366 | a whole handshake message by message: offer, answer of a side that is idle or has asked under a larger id, commit and noop leave both sides idle under the generator to the power of both exponents |
| `KeyExchange.WrongPhaseIsIgnored` | src/secret_chat.cpp:595-616 | an offer, an answer or a commit outside its phase or for another exchange changes nothing |
| `ModArith.SharedKey` | src/secret_chat.cpp:1249-1366 | (g^a)^b and (g^b)^a are equal modulo p, so both sides derive one key |
| `KeyExchangeRuns.QuietMeansAgreed` | src/secret_chat.cpp:1309-1328 | in every run, once no handshake message is on its way, both sides are idle under one key if and only if no commit was queued behind another query |
| `KeyExchangeRuns.CommittedMeansAccepted` | src/secret_chat.cpp:1330-1366 | in every run a committed side has a peer that has accepted the same exchange with the same key, and where the keys differ the side with the old one has accepted the other |
| `KeyExchangeRuns.NeverBothProceed` | src/secret_chat.cpp:595-609 | in every interleaving the two sides never both accept nor both commit |
| `KeyExchangeRuns.HandshakesNeverDropped` | src/secret_chat.cpp:752-778 | no handshake message is dropped for a foreign fingerprint as long as no commit is queued behind another query; otherwise one has been dropped by the time none is on its way |
| `KeyExchangeRuns.SmallerIdProceeds` | src/secret_chat.cpp:595-609 | when both sides have asked with different ids, in every run the exchange with the smaller id is the one that goes on, until its owner commits it |
| `KeyExchangeRuns.EqualIdsWedge` | src/secret_chat.cpp:595-609 | with equal ids both sides stay with their requests and their old keys for good, whatever is sent and read |
| `KeyExchangeRuns.LateCommitIsLost` | src/secret_chat.cpp:1330-1387 | after a commit that was queued behind another query one side has accepted and keeps its old key for good, in every continuation |
| `KeyExchangeRuns.LateRunHappens` | src/secret_chat.cpp:1330-1387 | there is such a run: a text is waiting when the acceptance is read |
| `KeyExchangeRuns.SentUndisturbed` | src/secret_chat.cpp:1330-1387 | if everything is sent and read after the acceptance, the peer switches if and only if no query waited in front of the commit |
| `KeyExchangeRuns.IdleMeansAgreed` | src/secret_chat.cpp:1309-1328 | in every run two idle sides have the same key, whatever is on its way |
| `KeyExchangeRuns.AcceptorUnheard` | src/secret_chat.cpp:756-766 | from its commit on a side can read nothing that its peer sent before switching too, neither what is in flight nor what is sent next, and only then |
| `KeySwitch.SwitchSurvivedIff` | src/secret_chat.cpp:752-778 | a side that waits for a commit can still switch if and only if every number up to the commit that it has not received is in flight under the old key, since all copies put back on the wire come under the new one |
| `KeySwitch.HoleStaysOpen` | src/secret_chat.cpp:1146-1165 | any other missing number stays missing in every continuation, and the side never switches |
| `KeySwitch.InFlightSuffices` | src/secret_chat.cpp:752-778 | hearing what is in flight under the old key is enough to switch where nothing else is missing |
| `KeyExchangeRuns.RunInv` | src/secret_chat.cpp:1206-1387 | every step of every run stays within the phases of the exchange, or in the state of a lost commit if and only if a commit was queued behind another query |
| `Ige.RoundTrip` | src/transfer_manager.cpp:725-742 | decrypting what was encrypted under the same iv gives the data and leaves the same chaining values |
| `Ige.EncryptInPieces` | src/transfer_manager.cpp:423-427 | encrypting chunk after chunk with the carried iv is encrypting the whole in one piece |
| `Ige.DecryptInPieces` | src/transfer_manager.cpp:738-742 | the same for decryption |
| `Ige.PieceOfThree` | src/transfer_manager.cpp:725-754 | a piece from the middle, decrypted with the iv carried that far, gives its own plain bytes |
| `Ige.BlockRoundTrip` | src/transfer_manager.cpp:738-742 | one block is recovered with the chaining values it was encrypted with |
| `Ige.EncryptGarbles` | src/crypto/crypto_aes.h:47-50 | every block of the ciphertext is the cipher of its plain block mixed with the ciphertext block in front, mixed with the plain block in front, with the halves of the iv in front of the first |
| `Download.DownloadTask.DownloadPart` | src/transfer_manager.cpp:781-822 | the next offset is awaited and the offset moves on by one part |
| `Download.DownloadTask.DownloadMultipleParts` | src/transfer_manager.cpp:774-779 | parts are asked for until the count or the size is reached |
| `Download.DownloadTask.DownloadEnd` | src/transfer_manager.cpp:670-692 | the first end closes the file, and removes it unless parts were being downloaded; later ends do nothing |
| `Download.DownloadTask.DownloadPartFinished` | src/transfer_manager.cpp:694-772 | one answer takes the task to its specified state: failed, cancelled, stored, decrypted, asked for more, or ended |
| `Download.DownloadTask.StoreEncryptedPart` | src/transfer_manager.cpp:726-754 | a part the chain waits for is decrypted with everything kept behind it; any other part is kept with its own copy of the bytes |
| `Download.DownloadTask.DrainParts` | src/transfer_manager.cpp:727-749 | the loop decrypts parts from the front for exactly as long as the next part of the chain is there |
| `Download.DownloadTask.DecryptFrontPart` | src/transfer_manager.cpp:729-748 | one part is decrypted with the carried iv, cut at the size of the file and written at its offset |
| `DownloadRuns.UploadIsGood` | src/transfer_manager.cpp:386-435 | an uploaded file can be decrypted part by part with the chaining values in front of each part |
| `DownloadRuns.Arrival` | src/transfer_manager.cpp:694-772 | any awaited part may arrive next: the download stays in order or is complete, and exactly this part is no longer awaited |
| `DownloadRuns.FrontDecrypts` | src/transfer_manager.cpp:729-748 | decrypting the front part appends exactly its plain bytes, the padding cut off |
| `DownloadRuns.DrainKeepsChain` | src/transfer_manager.cpp:727-749 | draining keeps the chain and stops in front of a part that has not arrived |
| `DownloadRuns.RunHolds` | src/transfer_manager.cpp:694-772 | in every order of arrival each part issued has arrived or is awaited, and none arrives twice |
| `DownloadRuns.EndsWithTheLastPart` | src/transfer_manager.cpp:767-771 | a download, encrypted or plain, ends exactly once and exactly when its last part arrives, and the file is then the original |
| `DownloadRuns.PartsInHand` | src/download_task.h:39-66 | in every encrypted download the parts in hand are the issued and not yet decrypted ones, the one the chain waits for has not arrived, and every arrived one owns its bytes |
| `DownloadRuns.BreaksOff` | src/transfer_manager.cpp:694-704 | a lost answer or a cancellation ends the download once, removes the file and forgets all parts |
| `DownloadRuns.OverStaysOver` | src/transfer_manager.cpp:694-723 | answers that come in after that change neither the outcome nor the disk |
| `DownloadRuns.LateAnswersAskAgain` | src/transfer_manager.cpp:706-771 | yet such an answer makes an ended download ask for another part if and only if the download had failed, another late answer with a reply came before, and parts are left to ask for |
| `Upload.UploadTask.UploadPart` | src/transfer_manager.cpp:376-435 | the next chunk is read, padded where it is encrypted, encrypted with the carried iv and sent under the next number; the assertions of the source about the chunk hold for every reader that fits the announced size |
| `Upload.UploadTask.UploadMultipleParts` | src/transfer_manager.cpp:337-342 | parts are sent until the count or the size is reached |
| `Upload.UploadTask.UploadPartFinished` | src/transfer_manager.cpp:344-374 | an acknowledgement takes its part off and sends the next, ends the upload, or waits |
| `Upload.UploadTask.UploadEnd` | src/transfer_manager.cpp:306-335 | the first end posts the file only if the upload was under way; later ends do nothing |
| `Upload.PaddedIsWhole` | src/transfer_manager.cpp:415-421 | padding makes a whole number of blocks and is shorter than one |
| `UploadRuns.SentNext` | src/transfer_manager.cpp:386-433 | the next chunk, padded only where it is the last, continues what has been sent |
| `UploadRuns.NextPartMatches` | src/transfer_manager.cpp:386-433 | after any number of parts the sent parts are the encryption of the padded prefix in one piece |
| `UploadRuns.PostedMeansStored` | src/transfer_manager.cpp:306-374 | in every run the file is posted at most once, and only when every part was confirmed; the parts then make up the file, encrypted in one piece |
| `UploadRuns.CleanRunPosts` | src/transfer_manager.cpp:344-374 | when nothing fails the file is posted exactly with the last confirmation |
| `UploadRuns.LateSuccessSendsOn` | src/transfer_manager.cpp:344-374 | after a part has failed the upload is over, yet a later success sends another part if and only if nobody has cancelled and parts are left |
| `UploadRuns.ThroughTheServer` | src/transfer_manager.cpp:386-435 | a file uploaded part by part and downloaded with the same key, iv and size is the original byte for byte, whatever the order of acknowledgements and arrivals |
| `Progress.UploadedBytesAreExact` | src/transfer_manager.cpp:344-350 | in every run the bytes reported for an upload are those of as many full parts as were acknowledged, and never more than the file has |
| `Progress.NothingReadFails` | src/transfer_manager.cpp:400-413 | should the reader give nothing although more was announced, the upload fails and ends without posting |
| `Progress.LaterEndsDoNothing` | src/transfer_manager.cpp:306-335 | an upload that has ended stays ended, and its message is not sent once more |
| `Progress.DownloadedBytesAreExact` | src/transfer_manager.cpp:756-771 | in every order of arrival the bytes reported for a download are those of the parts that have arrived |
| `Progress.ClosedFileIsWrittenAnew` | src/transfer_manager.cpp:706-724 | an answer with bytes that finds a file closed that was named before writes it anew from the start |
| `TreapInPlace.SplitInPlace` | generator/tree.h:47-60 | relinking nodes yields two disjoint trees that are the halves of the value-level split |
| `TreapInPlace.InsertInPlace` | generator/tree.h:62-82 | relinking yields the tree of the value-level insertion, made of all old nodes and exactly one new one |
| `TreapInPlace.MergeInPlace` | generator/tree.h:84-96 | two disjoint trees are relinked into their value-level merge |
| `TreapInPlace.DeleteInPlace` | generator/tree.h:98-114 | relinking yields the tree of the value-level deletion, made of all old nodes but exactly the one with the key |
| `TreapInPlace.LookupInPlace` | generator/tree.h:123-130 | the loop finds what the value-level search finds |
| `TreapInPlace.MinInPlace` | generator/tree.h:116-121 | the loop finds the least entry |
| `Treap.SplitCuts` | generator/tree.h:47-60 | a split cuts the ordered entries behind the key |
| `Treap.MergeJoins` | generator/tree.h:84-96 | a merge joins the ordered entries |
| `Treap.SplitHeap` | generator/tree.h:47-60 | a split keeps the heap order |
| `Treap.MergeHeap` | generator/tree.h:84-96 | a merge keeps the heap order |
| `Treap.LookupFinds` | generator/tree.h:123-130 | a search finds an entry with the key exactly when there is one |
| `Treap.MinIsFirst` | generator/tree.h:116-121 | the minimum is the first entry in order |
| `Treap.InsertPlaces` | generator/tree.h:63-82 | the assertion on the comparison fails exactly when the key is there with at least the new priority; otherwise the entry goes behind the entries up to its key |
| `Treap.InsertAdds` | generator/tree.h:63-82 | inserting an absent key keeps search order and heap order and adds exactly that entry |
| `Treap.DuplicateSlipsIn` | generator/tree.h:67-74 | a key that is there with a lower priority slips past the assertion and breaks the order |
| `Treap.DeleteRemoves` | generator/tree.h:99-114 | deletion fails exactly on an absent key; otherwise it keeps both orders and removes exactly that entry |
| `Treap.ShapeFromEntries` | generator/tree.h:154-166 | with distinct priorities the shape depends only on the set of entries |
| `Treap.DeleteUndoesInsert` | generator/tree.h:63-114 | deleting the key just inserted restores the tree |
| `Treap.InsertionOrderIrrelevant` | generator/tree.h:63-82 | any two orders of insertion build the same tree |
| `NetConnection.Connection.Peek` | src/net/tgl_net_base.cpp:116-145 | peeking over the buffer queue shows the front of the flat byte sequence and changes nothing |
| `NetConnection.Connection.Read` | src/net/tgl_net_base.cpp:361-397 | reading takes exactly the front bytes of the flat sequence, and the counter stays the sum of the buffer sizes |
| `NetConnection.Connection.TakeFront` | src/net/tgl_net_base.cpp:377-383 | advancing the front buffer removes it exactly when it is used up |
| `NetConnection.Connection.Append` | src/net/tgl_net_base.cpp:348-355 | received bytes go behind the unread ones, unless the connection is closed |
| `NetConnection.Client.TryRpcExecute` | src/mtproto_client.cpp:159-213 | the loop hands over exactly the packets of the unread bytes and stops where the specification stops |
| `NetConnection.Client.LookAhead` | src/mtproto_client.cpp:169-190 | the header is told from the front bytes without taking any |
| `NetConnection.Client.RpcExecute` | src/mtproto_client.cpp:1400-1413 | a body below the limit is read and handed over; a longer one is left unread |
| `NetConnection.Client.DataReceived` | src/net/tgl_net_base.cpp:337-359 | each buffer hands over exactly the packets it completes |
| `NetConnection.Client.RpcSendMessage` | src/mtproto_client.cpp:249-268 | a packet goes out behind its header of one byte or four |
| `Framing.ReceiveFrame` | src/mtproto_client.cpp:159-213 | the first thing done with a sent packet below the limit is to hand it over |
| `Framing.WireFormat` | src/mtproto_client.cpp:249-268 | what stands on the wire: below 0x7f words the number of words in one byte, from there on the byte 0x7f and the number in three bytes, least significant first, and then the packet |
| `Framing.ReceiveInPieces` | src/mtproto_client.cpp:159-213 | for any bytes, well formed or not, taking them in two pieces is taking them in one |
| `Framing.AnyCut` | src/net/tgl_net_base.cpp:337-359 | however the bytes are cut into buffers, the same packets are handed over and the same bytes are left |
| `Framing.AsSoonAsComplete` | src/mtproto_client.cpp:159-213 | after any number of bytes exactly the packets that lie wholly within them have been handed over |
| `Framing.CompletedIsMost` | src/mtproto_client.cpp:159-213 | that number of packets is the most that fit into the bytes |
| `Framing.PacketsSurviveAnyCut` | src/mtproto_client.cpp:159-213 | for every list of packets under 2^24 bytes and every splitting of the stream, the receiver hands over exactly that list |
| `Framing.HandedOverIffBelowLimit` | src/mtproto_client.cpp:1405-1408 | a packet that may be sent is handed over if and only if it is below 2^24 bytes |
| `Framing.OversizeIsReadAsPackets` | src/mtproto_client.cpp:1405-1408 | a longer packet is not skipped: after its header its body is read as if it were packets |
| `MessageIds.Session.GenerateNextMsgId` | src/mtproto_client.cpp:781-790 | ids grow and stay multiples of four even when the clock is put back |
| `MessageIds.IdsIncrease` | src/mtproto_client.cpp:781-790 | whatever the clock does, no id of a session comes twice |
| `MessageIds.NearestInTime` | src/mtproto_client.cpp:781-790 | an id taken from the clock is the last multiple of four that is not later |
| `Updates.UserAgent.SetPts` | src/user_agent.cpp:302-314 | pts moves only upwards and only without the lock, unless forced |
| `Updates.UserAgent.SetQts` | src/user_agent.cpp:288-300 | qts moves only upwards and only without the lock |
| `Updates.UserAgent.SetDate` | src/user_agent.cpp:316-328 | the date moves only upwards and only without the lock, unless forced |
| `Updates.UserAgent.SetSeq` | src/user_agent.cpp:330-341 | seq moves only upwards and only without the lock |
| `Updates.UserAgent.GetDifference` | src/user_agent.cpp:1296-1325 | the lock is taken once, and one query is sent that carries the counters |
| `Updates.Updater.CheckPtsDiff` | src/updater.cpp:46-73 | the verdict, and a difference exactly on a gap |
| `Updates.Updater.CheckQtsDiff` | src/updater.cpp:75-100 | the verdict, and a difference on a gap and on a repeat |
| `Updates.Updater.CheckSeqDiff` | src/updater.cpp:129-156 | the verdict, and a difference exactly on a gap; what the verdict means for a batch is `UpdatesSeq.BatchByNumber` |
| `Updates.Updater.WorkUpdate` | src/updater.cpp:158-475 | an update is carried out and counted, dropped, or starts a difference |
| `Updates.Updater.WorkUpdates` | src/updater.cpp:493-575 | a batch is checked by its number and worked update by update; the outcome by number is `UpdatesSeq.BatchByNumber` |
| `Updates.Updater.WorkAnyUpdates` | src/updater.cpp:683-714 | every kind of push takes the agent to its specified state |
| `Updates.Updater.DifferenceAnswered` | src/query/query_get_difference.cpp:38-106 | an answer unlocks, carries out what was missed, sets the counters, and asks for more where there is more |
| `Updates.Updater.DifferenceFailed` | src/query/query_get_difference.cpp:108-115 | a failed difference leaves the lock as it is |
| `UpdatesRuns.AppliedRangesAreContiguous` | src/updater.cpp:46-100 | for every sequence of pushes with positive counts the ranges applied between differences are contiguous and disjoint and end where the counters stand |
| `UpdatesRuns.EachEventOnce` | src/updater.cpp:46-100 | in every run with lost, repeated and reordered pushes and honest differences, the client has applied a prefix of the server's events and of its secret messages, each once and in order |
| `UpdatesRuns.EventChecked` | src/updater.cpp:46-73 | an event is applied exactly when it is the next one, a later one starts a difference, an earlier one is dropped |
| `UpdatesRuns.GapIsClosed` | src/user_agent.cpp:1296-1325 | a gap starts a difference and the complete answer applies what was missed |
| `UpdatesRuns.GapFreezesTheBatch` | src/updater.cpp:493-536 | a gap found in a batch freezes pts, qts, date and seq for the rest of it |
| `UpdatesRuns.ZeroCountUpdate` | src/updater.cpp:53-56 | an update with a zero pts_count passes whatever its pts is; the client stays in step if and only if that pts is not ahead of its own |
| `UpdatesRuns.HighQtsIsNotCorrected` | src/updater.cpp:78-85 | a qts that is too high stays, whatever the answers to a difference are and however many: the update is dropped before it and after it |
| `UpdatesRuns.AnswerSetsQts` | src/query/query_get_difference.cpp:89-98 | what a difference delivers sets qts to its own if and only if the counter was not ahead |
| `UpdatesRuns.DeafAfterFailure` | src/query/query_get_difference.cpp:108-115 | after a failed difference no push and no new session changes anything any more |
| `UpdatesRuns.StuckIffFailed` | src/query/query_get_difference.cpp:108-115 | in every run the agent is locked with no query on its way if and only if the query for a difference has failed, and then it stays as it is |
| `UpdatesRuns.AnswerSyncs` | src/query/query_get_difference.cpp:38-106 | an honest answer moves the applied prefix to the counters it carries |
| `UpdatesSeq.BatchByNumber` | src/updater.cpp:129-156 | a batch that reaches an unlocked agent is worked if it has no number or the next one, dropped if its number is earlier or none is known yet, and past a gap nothing of it is applied, seq stays, and a query is on its way behind the lock |
| `UpdatesSeq.WorkedNumbersAreContiguous` | src/updater.cpp:493-575 | for every sequence of pushes between two differences the number ranges of the batches that moved seq are contiguous and disjoint and end at seq, if and only if each of them carries a first number |
| `UpdatesSeq.UnnumberedJumps` | src/updater.cpp:538-575 | a combined batch without a first number moves seq however far it is |
| `UpdatesSeq.UpdateByNumber` | src/updater.cpp:46-73 | of single updates with a positive count the next one is applied, an earlier one is dropped, and a later one is not applied and asks for the difference |
| `UpdatesSeq.TooLongAsks` | src/updater.cpp:683-714 | a push that is too long to be sent asks for the difference |
| `UpdatesSeq.CompleteAnswerCounts` | src/query/query_get_difference.cpp:38-106 | a complete answer unlocks the agent, applies what was missed and moves every counter to its own value, none of them back |
| `UpdatesSeq.PartialAnswerAsksOn` | src/query/query_get_difference.cpp:89-106 | an answer that is not complete applies its updates and asks for the rest from the counters it carries |
| `UpdatesSeq.AskFromStart` | src/user_agent.cpp:1296-1325 | asking for everything puts counters that are zero to one |
| `UpdatesSeq.SettersByForce` | src/user_agent.cpp:288-341 | without force no counter moves back and none moves under the lock; force overrides both for pts and date, and only the order for qts |
| `QueryTable.Table.AddActiveQuery` | src/user_agent.cpp:443-453 | a new entry is counted at the client of its query; an id that is there is taken over without counting |
| `QueryTable.Table.RemoveActiveQuery` | src/user_agent.cpp:465-474 | an entry that is there is taken out and counted off |
| `QueryTable.Table.IncreaseActiveQueries` | src/mtproto_client.cpp:1646-1652 | the count goes up and the cleanup timer is stopped |
| `QueryTable.Table.DecreaseActiveQueries` | src/mtproto_client.cpp:1654-1671 | the count goes down, and an idle client other than the current one starts its cleanup timer |
| `QueryTable.Table.AddPendingQuery` | src/mtproto_client.cpp:1673-1678 | a query is pending at most once |
| `QueryTable.Table.RemovePendingQuery` | src/mtproto_client.cpp:1680-1683 | every occurrence leaves the list and the others keep their order |
| `QueryTable.Table.SendQuery` | src/query/query.cpp:54-77 | a sent query is active under its new id with its timeout running; one that cannot be sent ends with an error |
| `QueryTable.Table.CheckPending` | src/query/query.cpp:454-486 | a query that must wait starts its timeout if its class wants that, and goes on the list of its client; which queries must wait is stated by their fields in `QueriesSent.ReadyQueriesDoNotWait` |
| `QueryTable.Table.AlarmQuery` | src/query/query.cpp:79-117 | the query is taken out of the active ones and sent again or made to wait |
| `QueryTable.Table.TimeoutQuery` | src/query/query.cpp:128-141 | a query that is not sent again calls its handler and leaves both the active ones and the list of waiting ones; another is sent again |
| `QueryTable.Table.WillBePending` | src/query/query_with_timeout.h:42 | the timeout is started for classes that time their waiting, and for no others |
| `QueryTable.Table.RetryQuery` | src/query/query.cpp:411-425 | the retry timer lets go of the query and sets off its alarm |
| `QueryTable.Table.PromptForPassword` | src/query/query_sign_in.cpp:69-87 | the query is active again, with a prompt open and no timer |
| `QueryTable.Table.PromptReturned` | src/query/query_sign_in.cpp:88-111 | the prompt calls back and takes the query out if its object is still there |
| `QueryTable.Table.RegenQuery` | src/query/query.cpp:119-126 | the retry timer is started and a session that is gone is forgotten |
| `QueryTable.Table.ExecuteQuery` | src/query/query.cpp:143-166 | a new query is sent, waits, or is refused while logging out; which of the three is stated by the fields of query and client in `QueriesSent.ReadyQueriesDoNotWait` |
| `QueryTable.Table.HandleQueryError` | src/query/query.cpp:285-383 | every error takes the query out and retries it, moves it to another client, asks for a password, fails it or drops it |
| `QueryTable.Table.HandleQueryResult` | src/query/query.cpp:502-555 | an answered query is out of the active ones with no timer left |
| `QueryTable.Table.AckQuery` | src/query/query.cpp:229-246 | the first acknowledgement restarts the timeout |
| `QueryTable.Table.SendPendingQueries` | src/mtproto_client.cpp:1634-1644 | each query of the list is tried once and leaves the list unless it must go on waiting |
| `QueryTable.Table.CleanupTimerExpired` | src/mtproto_client.cpp:1685-1691 | the session is given up only by an idle client |
| `QueriesRuns.CountsAreExact` | src/mtproto_client.cpp:1646-1671 | after any run the count of every client is the number of entries of the active map that belong to its queries |
| `QueriesRuns.OneWayOrAnother` | src/query/query.cpp:54-141 | in every run no query is both active and pending; an active one has its timeout or a password prompt, a pending one its timeout exactly if its class starts it; nothing is called while a query is in play, one thing at its end, and a second only by a timeout left running |
| `QueriesRuns.CleanupSparesTheBusy` | src/mtproto_client.cpp:1685-1691 | the cleanup timer takes the session of a client exactly when none of its queries is active or pending |
| `QueriesRuns.CollidingId` | src/user_agent.cpp:443-453 | should an id be active already, the counts stay exact if and only if both queries belong to one client |
| `QueriesRuns.DroppedSilently` | src/query/query.cpp:285-383 | in every run a query ends with neither answer, error nor timeout passed on if and only if an error has come that is handled without another try |
| `QueriesRuns.TimeoutLeftRunning` | src/query/query.cpp:441-486 | in every run a query that is out of play has its timeout running if and only if it was refused while it waited, or taken out by its password prompt, its object is kept alive, and the timeout has not gone off since |
| `QueriesRuns.ToldTwice` | src/query/query.cpp:441-451 | there is a run in which a waiting query is refused with its timeout running, and is told of both |
| `QueriesRuns.ToldNever` | src/query/query.cpp:352-370 | there is a run in which a query meets an internal failure and nobody is told |
| `QuerySteps.SendOrWaitKeeps` | src/query/query.cpp:441-486 | sending or waiting keeps all tables in step, touches no other query, and does one of four things with its own |
| `QuerySteps.ErrorKeeps` | src/query/query.cpp:285-383 | handling an error keeps all tables in step, touches no other query, and leaves its own retried, asking or at rest |
| `QuerySteps.PromptKeeps` | src/query/query_sign_in.cpp:69-111 | a password prompt that comes back takes its query out, and its timers stay only with an object that is kept alive |
| `QueriesRuns.StepInv` | src/query/query.cpp:54-555 | every event keeps the invariant, and leaves a timeout running or ends a query silently exactly in the cases named |
| `QueriesSent.OnlyReadyQueriesGoOut` | src/query/query.cpp:454-486 | in every run, where a message id is active after a step and was not before, the step had a connection for it, and the client of its query has a session, is configured unless the query is forced, and is logged in unless it is forced or logs in |
| `QueriesSent.ReadyQueriesDoNotWait` | src/query/query.cpp:441-486 | in every run a query that is executed, restarted, retried or sent again after its timeout is neither sent nor listed if its client logs out and it is not forced; while all that it needs is there it is not listed, and sent if there is an id for it; otherwise it is listed and not sent |
| `QueriesSent.ListIsTriedInTurn` | src/mtproto_client.cpp:1634-1644 | in every run a query stays on the list of its client exactly if it is not turned away and something that it needs is missing at its turn, where a session is there if it was before or a query in front of it was not turned away |
| `QueriesSent.StepSends` | src/query/query.cpp:54-166 | a step activates no message id but those of messages that go out in it |
| `QueriesNotices.SentByFields` | src/query/query.cpp:54-77 | in every run a query that has just been sent has its timeout running and nothing acknowledged, and belongs to the session of its client, whose cleanup timer is stopped |
| `QueriesNotices.ErrorsByFields` | src/query/query.cpp:285-383 | in every run an error leaves client, session and current client as they were, except that a query moved to another client forgets its session and makes that client the current one, and one that may not go on with an unconfigured client forgets it after an internal failure |
| `QueriesNotices.BadMessageByFields` | src/query/query.cpp:119-126 | in every run a query whose message was bad is tried again, and keeps its session exactly if that is still the one of a client it may use |
| `QueriesNotices.FirstAckCounts` | src/query/query.cpp:229-246 | in every run the first acknowledgement restarts the timeout of a query and later ones do nothing |
| `QueriesNotices.LastAnswerStartsCleanup` | src/mtproto_client.cpp:1654-1671 | in every run the answer to the last active query of a client starts its cleanup timer, unless queries wait for the client or it is the current one |
| `Factorize.MulAdd` | src/mtproto_utils.cpp:177-191 | doubling and adding computes x * x + c modulo the number, and no intermediate value leaves 64 bits |
| `Factorize.Walk` | src/mtproto_utils.cpp:170-204 | every candidate found divides the number |
| `Factorize.Factor` | src/mtproto_utils.cpp:162-217 | when the final assertion passes, the two results are proper factors in order, the two primes if there are only two, and for a prime it never passes |
| `Factorize.LimitLeavesTheWord` | src/mtproto_utils.cpp:174 | the limit of a round is the power of two it is meant to be for the first thirteen rounds and never after |
| `Factorize.GcdDivides` | src/mtproto_utils.cpp:35-38 | the greatest common divisor divides both numbers |
| `Factorize.Bezout` | src/mtproto_utils.cpp:35-38 | it is a combination of both, so every common divisor divides it |
| `Factorize.OnlyThePrimes` | src/mtproto_utils.cpp:206-216 | a product of two primes has only one pair of proper factors |
| `Serializer.Serializer.OutString` | src/mtproto_common.h:169-193 | a string below 2^24 bytes is appended behind its length and padded with zeros; a longer one is refused and nothing is written |
| `Serializer.Serializer.OutBignum` | src/mtproto_common.h:205-216 | a big number is appended as a string of its bytes |
| `Serializer.SerializeBignum` | src/mtproto_common.cpp:171-199 | the encoding where it fits, the negated size where it does not, for numbers of any size |
| `Serializer.Serializer.OutI32At` | src/mtproto_common.h:140-143 | exactly the four bytes at the position are replaced |
| `Serializer.Serializer.OutI64` | src/mtproto_common.h:150-155 | eight bytes are appended in two words |
| `Serializer.Serializer.OutValues` | src/mtproto_common.h:129-216 | a list of values is appended value by value |
| `Serializer.InBuffer.LookAtStrlen` | src/mtproto_common.h:267-282 | the length of the string at the cursor, or -1 |
| `Serializer.InBuffer.FetchStr` | src/mtproto_common.h:284-295 | the string whose length was found is returned and the cursor stands behind it, within the buffer |
| `Serializer.InBuffer.FetchI32` | src/mtproto_common.h:324-328 | the number at the cursor is returned and the cursor moves on by one word |
| `Serializer.InBuffer.FetchI64` | src/mtproto_common.h:357-364 | the number at the cursor is returned and the cursor moves on by two words |
| `Serializer.InBuffer.FetchSkipStr` | src/mtproto_common.h:303-310 | a string is skipped, and nothing happens where there is none |
| `Serializer.InBuffer.FetchBignum` | src/mtproto_common.cpp:221-231 | the number written by the serializer is returned, or the error of the length |
| `Codec.StrInBounds` | src/mtproto_common.h:267-295 | on any buffer a length that is not negative keeps the fetch within the buffer |
| `Codec.StrFound` | src/mtproto_common.h:267-282 | a written string is found with its length in front of anything |
| `Codec.FetchWritten` | src/mtproto_common.h:267-364 | each value written is fetched again and the cursor stands behind it |
| `Codec.ListRoundTrip` | src/mtproto_common.h:129-364 | any list of numbers, strings and big numbers reads back as itself with the cursor exactly at its end |
| `Codec.SignedRoundTrip` | src/mtproto_common.h:324-364 | a signed number of either width comes back from its two's complement |
| `Codec.BigRoundTrip` | src/mtproto_common.cpp:171-231 | a number comes back from its shortest bytes |
| `Codec.WholeWords` | src/mtproto_common.h:169-216 | everything written is a whole number of words |
| `Codec.LeastFirst` | src/mtproto_common.h:135-155 | the byte at place i of a written number counts multiples of 0x100 to the power of i |
| `Codec.MostFirst` | src/mtproto_common.cpp:171-199 | the last byte of a big number is the least significant one, and the first is never zero |
| `Codec.StringLayout` | src/mtproto_common.h:169-203 | a string is written byte by byte as its length, in one byte below 254 and otherwise in three behind 254, least significant first; then the string, and zeros up to a whole number of words |
| `Codec.ShortStringNeedsShortLength` | src/mtproto_common.h:276-278 | behind a long length a string is accepted exactly when its length modulo 2^24 is at least 254 and it lies within the buffer |
| `Encryptor.SecretChatEncryptor.Start` | src/secret_chat_encryptor.cpp:87-90 | room for length, fingerprint, message key and body length is reserved |
| `Encryptor.SecretChatEncryptor.End` | src/secret_chat_encryptor.cpp:92-114 | the words written behind the room end up as one envelope, padded, labelled and encrypted in place, and nothing in front of it changes |
| `Encryptor.SecretChatEncryptor.Pad` | src/secret_chat_encryptor.cpp:94-99 | the loop adds exactly the words that complete the last block |
| `Encryptor.SecretChatEncryptor.EncryptDecryptedMessage` | src/secret_chat_encryptor.cpp:34-85 | the region is encrypted under the key and iv that the encryptor derives from the message key |
| `Encryptor.SecretChatEncryptor.SealingBuffers` | src/secret_chat_encryptor.cpp:68-79 | the encryptor's own cipher key and iv, put together in two buffers from four digests |
| `Encryptor.SecretChatEncryptor.SealingDigests` | src/secret_chat_encryptor.cpp:46-66 | the four digests, each over the first 48 bytes of one buffer that is filled anew |
| `Encryptor.DecryptMessage` | src/secret_chat.cpp:670-739 | the region is decrypted in place under the key and iv that the receiver derives, the rest of the buffer is kept, and the verdict is that of the specification |
| `Encryptor.OpeningBuffers` | src/secret_chat.cpp:708-719 | the receiver's own cipher key and iv, put together in two buffers from its own four digests |
| `Encryptor.OpeningDigests` | src/secret_chat.cpp:688-706 | the receiver's four digests, each over the first 48 bytes of one buffer that is filled anew |
| `Envelope.SealingKey` | src/secret_chat_encryptor.cpp:46-79 | every byte of the cipher key and of the iv of the encryptor is the byte of the digest that the protocol names for its place |
| `Envelope.OpeningKey` | src/secret_chat.cpp:688-719 | the same of the key and iv that the receiver works out on its own |
| `Envelope.DerivedOnce` | src/secret_chat.cpp:708-719 | the places determine key and iv, so both sides have the same |
| `Envelope.SealedLayout` | src/secret_chat_encryptor.cpp:92-114 | what stands where in an envelope: the fingerprint, sixteen bytes of the digest of length and body, and length, body and padding encrypted under key and iv derived from these |
| `Envelope.OpenedIff` | src/secret_chat.cpp:670-739 | what is opened, bit for bit: the bytes carry the fingerprint, and what comes out under key and iv derived from their message key starts with a length that is a whole number of words within it, whose digest up to there gives the message key |
| `Envelope.OpenSealed` | src/secret_chat.cpp:670-778 | opening with the key and iv of the receiver what was sealed with those of the encryptor gives the body for every body length; the encrypted region is a whole number of blocks and the padding at most three words |
| `Envelope.RegionComesBack` | src/secret_chat.cpp:708-725 | decryption under the key and iv that the receiver derives undoes encryption under those of the encryptor |
| `Envelope.ReadableIffBody` | src/secret_chat_encryptor.cpp:101 | since the length is always written in its long form and cut to 24 bits, the reader gets the envelope if and only if the body has 224 to 2^24 - 36 bytes |
| `RsaPadding.PaddedLength` | src/mtproto_common.cpp:235-236 | every input gets 32 to 286 bytes of padding, and the total is a multiple of 255 |
| `RsaPadding.ChunkRoundTrip` | src/mtproto_common.cpp:251-261 | a chunk is below every modulus of 2041 to 2048 bits, encrypts to 256 bytes and decrypts to itself |
| `RsaPadding.PaddedRoundTrip` | src/mtproto_common.cpp:233-293 | for every input decryption gives the padded input back, and the ciphertext has the announced size |
| `RsaPadding.PadRsaEncrypt` | src/mtproto_common.cpp:233-263 | the padding goes behind the input in its own buffer, and the output holds the encrypted chunks in order |
| `RsaPadding.PadRsaDecrypt` | src/mtproto_common.cpp:265-293 | the decrypted chunks in order, or -1 for a bad length or a chunk that does not fit |
| `RsaPadding.FixedRoundTrip` | src/mtproto_common.cpp:255-258 | bytes come back from their number when zeros are put in front |
| `RsaPadding.ChunkNumbers` | src/mtproto_common.cpp:245-261 | the i-th 256 bytes of the ciphertext are the number of the i-th 255 bytes of the input to the power of the public exponent |
| `Parsers.Skip` | generator/generate.c:1549-1575 | for every schema whose bare types are nested acyclically the skipping parser terminates, never moves back and never passes the end |
| `Parsers.SkipTries` | generator/generate.c:1561-1575 | the constructors of a bare type are tried from one place, within the buffer |
| `Parsers.SkipCtor` | generator/generate.c:1126-1175 | the fields of a constructor are skipped within the buffer |
| `Parsers.SkipFields` | generator/generate.c:463-530 | fields are skipped one after the other within the buffer; that exactly those are skipped whose bit is set is `Writer.WrittenIsRead` |
| `Parsers.Fetch` | generator/generate.c:1706-1735 | the building parser terminates as well and stays within the buffer wherever it does not assert |
| `Parsers.FetchTries` | generator/generate.c:1722-1735 | the tries of the building parser move the cursor on, yet the value is built from the start |
| `Parsers.FetchCtor` | generator/generate.c:1373-1439 | the value of a constructor is built within the buffer, or an assertion fails, or a null comes back |
| `EmittedParsers.InBuffer.SkipType` | generator/generate.c:1549-1575 | the emitted parser of a type moves its cursor as specified |
| `EmittedParsers.InBuffer.TryConstructors` | generator/generate.c:1561-1575 | the cursor is put back after each constructor that does not fit |
| `EmittedParsers.InBuffer.SkipConstructor` | generator/generate.c:1126-1175 | the emitted parser of a constructor moves its cursor as specified |
| `EmittedParsers.InBuffer.SkipArguments` | generator/generate.c:463-530 | the loop over the fields moves the cursor as the specification does, with the numbers read bound for the later ones |
| `EmittedParsers.InBuffer.SkipArgument` | generator/generate.c:493-525 | the loop over a multiplicity skips as many elements as the number says |
| `EmittedParsers.InBuffer.FetchType` | generator/generate.c:1706-1735 | the emitted building parser ends as specified |
| `EmittedParsers.InBuffer.FetchByTrying` | generator/generate.c:1722-1735 | the cursor is put back only when a constructor fits |
| `EmittedParsers.InBuffer.FetchConstructor` | generator/generate.c:1373-1439 | the emitted parser of a constructor builds its value as specified |
| `EmittedParsers.InBuffer.FetchArguments` | generator/generate.c:795-893 | the loop over the fields builds the record of the specification, whose contents are stated by `Writer.WrittenIsRead` |
| `EmittedParsers.InBuffer.FetchArgument` | generator/generate.c:831-888 | the loop over a multiplicity builds as many elements as the number says |
| `Agreement.FetchFollowsSkip` | generator/generate.c:795-893 | for every schema whose bare types have one constructor, or constructors of which all but the last fail before they move: whatever the skipping parser accepts, the building parser builds without a failed assertion, and it stops at the same place |
| `Converse.FetchMeansSkip` | generator/generate.c:463-530 | the other direction: where every field names a declared type whose results match, whatever the building parser builds the skipping parser accepts, up to the same place, and no null comes back |
| `Converse.SkipsIffBuilds` | generator/generate.c:795-893 | both directions: a buffer is skipped up to some place if and only if it is built up to there, and every other one fails an assertion |
| `Converse.UndeclaredIsBuilt` | generator/generate.c:795-893 | a field of a type that is not declared is refused by the skipping parser and built as a null by the other |
| `Converse.UnmatchedIsNull` | generator/generate.c:1373-1439 | a constructor whose result does not match is refused by the skipping parser, while the building one gives a null and stays in place |
| `Kinds.KindedFits` | generator/generate.c:1126-1175 | a check of the schema by the kinds of its types, under which everything the parsers are called with fits |
| `Kinds.CheckedSchemasAgree` | src/query/query.cpp:526-544 | for a schema that passes the checks by levels and kinds and any closed type the two parsers do the same on every buffer |
| `Agreement.CtorAgrees` | generator/generate.c:1373-1439 | the same for a single constructor |
| `Agreement.FieldsAgree` | generator/generate.c:463-530 | the same for the fields of a constructor |
| `Agreement.ItemsAgree` | generator/generate.c:521-523 | the same for the elements of an array |
| `Agreement.BytesAgree` | generator/generate.c:1409-1419 | the building parser of byte strings, which has code of its own, stops where the skipping parser of their one string field stops |
| `Writer.WrittenIsRead` | generator/generate.c:463-530 | for every schema in which parameters fit, every value that can be written and whatever stands behind it: the building parser returns exactly this value and stops at its end, and the skipping one stops there too, if and only if no constructor in front of the right one fits where a bare value of several constructors was written |
| `Writer.WrittenIsAlwaysRead` | generator/generate.c:795-893 | without that condition for every schema that uses only types with one constructor bare |
| `Writer.ReadsBack` | generator/generate.c:1706-1735 | the same at any place in any buffer |
| `Writer.FieldsRead` | generator/generate.c:795-893 | a field with a condition is read exactly if the number written for it is an odd multiple of the value of the bit and less than one more, and fields come in order |
| `Writer.ItemsRead` | generator/generate.c:521-523 | the elements of an array come in order, as many as the number written for it says |
| `Writer.BitIsSet` | generator/generate.c:468 | when a bit of a number of either sign counts as set |
| `Writer.CreateUndoesMatch` | generator/generate.c:316-460 | a pattern that matches a parameter binds its variables so that the parameter can be created again, offsets undone |
| `Writer.FlagIsObeyed` | generator/generate.c:463-530 | an example: a number behind flags is written exactly if they are odd |
| `Levels.LevelledIsAcyclic` | generator/generate.c:1126-1175 | a schema in which every bare field is of lower level than the type it belongs to has parsers that terminate |
| `Levels.AnswerIsBuilt` | src/query/query.cpp:526-544 | an answer that was skipped to its end is built to its end |
| `Agreement.FailsInPlace` | generator/generate.c:463-530 | a constructor with at most one number or base field leaves the cursor in place when its parser fails |
| `Agreement.TriesAgreeIfNoneMoves` | generator/generate.c:1722-1735 | for a bare type with several constructors the parsers agree when no failing try but the last moves the cursor |
| `Levels.TriesAgreeExactly` | generator/generate.c:1722-1735 | for any number of constructors, where parameters fit, they agree if and only if none fits, or one also fits from the carried cursor and the first such one is skipped from the start like the first that fits from there |
| `Levels.PairAgreesExactly` | generator/generate.c:1722-1735 | for two constructors: if and only if the first fits, or the second does not, or the second also fits from where the first has failed |
| `Levels.BareTriesCanDisagree` | generator/generate.c:1722-1735 | without that they do not: a schema with two constructors and one word that is skipped but not built |

## Left out

- OpenSSL, zlib, sockets, timers and clocks: parameters, arbitrary inputs or steps that may happen at any time.
- SHA-1, AES, primality tests and the checks on Diffie-Hellman parameters and public values.
- Turning wire structures into messages, users, chats, documents, photos and web pages; the query wrappers; login; logging.
- Raw sequence numbers beyond 31 bits: numbers are unbounded, so the sign change after 2^30 messages is not modelled; nor is the overflow of pts + pts_count.
- Messages without sequence numbers in runs: the chat object processes them, the results over runs are about numbered messages.
- Loading stored secret messages after a restart, and the store of received messages: the store is a map of what was sent and is loaded from the start.
- Service actions other than resend, delete and the key exchange: they have no effect on sequencing.
- Aborted key exchanges, and re-key requests from any state but none.
- Thumbnail uploads, which are acknowledged outside the running parts, and downloads without a size or near 2^31 bytes.
- The buffer shared by a borrowed part of a download and the network answer: parts are values tagged borrowed or owned, so decryption in the shared buffer is not modelled as aliasing.
- Callbacks into user code that call back into the client.
- Queries, clients and their references to each other as separate objects: they are entries of tables named by numbers. A query that nobody refers to any more loses its timers; the objects of clients are never destroyed.
- The logout query and the key binding query, which a client can withdraw, and the workload of workers.
- Channel counters: the source accepts every channel update.
- The check, count, clear and visitor operations of the treap.
- Nested arrays as type arguments, constructors that take a request, and the printing, storing and freeing parsers of the generator; a number that is read twice into one variable, for which the generator emits code that does not compile.
- The AES padding helpers of `src/mtproto_common.cpp`.
- Input to decryption whose announced length exceeds the buffer: the model answers that it cannot be opened.
- SecretChat.Chat.QueueUnconfirmedIncoming: leaves out the copy in the store of received messages and the start of the fill timer, which may go off at any time.
- SecretChat.Chat.ProcessMessages: user callbacks, and the key exchange, layer and timer actions, are one action without effect here; the key exchange has its own model.
- SecretChat.Chat.IncomingMessagesDeleted: leaves out the callback for ids that are not queued and the stored copy.
- KeyExchange.Exchange.AcceptKeyExchange: leaves out the aborts for a bad public value.
- KeyExchange.Exchange.CommitKeyExchange: leaves out the aborts for a bad public value.
- NetConnection.Client.TryRpcExecute: leaves out the branch that restarts a missing session.
- Updates.Updater.WorkUpdate: what an update of each kind does is one entry in the list of applied updates.
- QueryTable.Table.ExecuteQuery: leaves out the transfer of the authorization to the client of a waiting query.
- QueryTable.Table.AckQuery: leaves out the acknowledged logout, which counts as its answer.
- Encryptor.DecryptMessage: asks for a whole number of blocks, since what the cipher does with a broken block is the library's.
