# styrened in Dafny

styrened is the daemon of a mesh-networking stack: it answers remote procedure calls over a lossy
radio network, serves a local control socket, keeps messages and contacts in SQLite, and decides who
may do what from a configuration file. This project models its stateful parts one module at a time and
proves what each of them keeps over every run or every input.

| file | models |
|---|---|
| `StyreneWire.dfy` | the versioned binary envelope |
| `RpcClient.dfy` | request/response correlation of the RPC client over a network that loses, duplicates and reorders |
| `MessageDispatch.dfy` | reception of messages, registration and dispatch of handlers |
| `IpcProtocol.dfy` | length-prefixed frames and the stream reader of the control socket |
| `ControlClient.dfy` | pending table and demultiplexer of the control client |
| `PathLimiter.dfy` | the sliding-window limiter of path requests |
| `HubConnection.dfy` | the hub connection as a state machine with a clock |
| `MessageIndex.dfy` | the full-text index that triggers keep beside the message table |
| `ContactsBackfill.dfy` | the rekeying of placeholder contacts |
| `AttachmentStore.dfy` | oldest-first eviction of attachments |
| `Rbac.dfy`, `RbacPolicy.dfy` | the authorization policy, its mutators and its cache of allow lists |
| `RbacConfig.dfy` | the two parsers and the printer of the policy |
| `CoreConfig.dfy`, `ServiceConfig.dfy` | the configuration record with all its sections, its defaults and its printer |
| `ConfigLoad.dfy`, `ConfigReader.dfy` | what a file means as a configuration, and the loader that computes it |
| `ConfigMeaning.dfy`, `ConfigLoadable.dfy` | what a file means value by value, and which files load, written out apart from the loader |
| `ConfigRoundTrip.dfy` | what saving and loading keeps |
| `DeepMerge.dfy` | recursive merge of profile overlays |
| `LeakDetection.dfy` | least-squares leak detection, over the reals |
| `InterfaceParser.dfy` | the streaming parser of `ifconfig` output |
| `AnnounceData.dfy` | the colon-separated announce format |
| `Prelude.dfy`, `Strings.dfy`, `Values.dfy`, `Sections.dfy`, `Hex.dfy` | options and results, strip/lower/sort/split/join, dynamically typed values, configuration sections and paths, hexadecimal |

What the code takes from outside is a parameter or a field: msgpack is a codec whose unpacking undoes its
packing, the tokenizer of the full-text index and the regular expressions of the interface parser are
functions, `Transport.has_path` is an oracle's answer at each query, time is an argument that does not run
backwards where a run is considered, ids from `os.urandom` are fresh, file listings and query results come
in an order the caller cannot choose, and `Values.Host` holds home directories, the default texts of
replies and prompts, the text Python gives numbers and collections, and the numbers `int()` and `float()`
read from text. Paths are texts that are not normalised.

## Where the code and its promises differ

- `save_core_config` promises `load(save(config)) == config` for all sections
  (src/styrened/services/config.py:811-812). That holds exactly for configurations in the normal form of
  `ConfigRoundTrip.NormalForm`; yggdrasil's `peer_discovery`, `security` and `logging` are written and never
  read, and the mesh VPN's `peer_discovery` is not even written.
- A second save and load changes nothing more, except for blocked prefixes made of whitespace: such a
  prefix is loaded as the empty prefix, which blocks everyone, and is gone after the next round
  (`RbacConfig.WhitespacePrefixFlips`).
- An empty `notifications` section does not keep the profile's default: it turns notifications on
  (`ConfigRoundTrip.EmptySectionsKeepDefaults`).
- `get_allow_list` leaves out nobody for being blocked by prefix; `has_capability` does. Apart from that the
  two differ, for a rostered identity, exactly when it is not listed itself but shares its bytes with one that
  is (`RbacPolicy.ListedIffCapable`). An identity off the roster has the default role's capabilities and is on
  no list, unless it shares its bytes with a listed one (`RbacPolicy.UnrosteredListedIff`).
- The two policy parsers differ on an `rbac` key that holds an empty value which is not a mapping
  (`RbacConfig.ParsersAgreeIff`).
- The limiter's constant reads as 30 requests an hour; the code allows 378, and no more
  (`PathLimiter.WindowBudget`, `PathLimiter.BudgetIsReached`). The 30 are guaranteed exactly to programs that
  ask for at most two destinations (`PathLimiter.ThirtyKeptIff`); for any other bound the number of
  destinations decides too (`PathLimiter.GuaranteeIff`).
- On a database that already holds messages the full-text index starts out of step
  (`MessageIndex.UpgradeStartsInStep`).
- The contacts rekeying does not depend on the order of its query exactly when no two movable placeholders
  (flagged, resolved to an identity that is no key yet) share an identity and no flagged one resolves to a
  movable one (`ContactsBackfill.OrderFreeIff`, with `ContactsBackfill.SharedTarget` and
  `ContactsBackfill.ChainedTarget` for the two ways it fails).
- A hub whose path is lost in a health check is shown as WAITING for as long as nobody reconnects, never
  as DISCONNECTED, which is shown exactly when a waiting timer ran out (`HubConnection.LostPathStaysWaiting`,
  `HubConnection.DisconnectedIff`).
- Merging three overlays is associative exactly when they are compatible (`DeepMerge.AssociativeIffCompatible`,
  with `DeepMerge.NotAssociative` for a conflict).
- The dispatcher awaits the internal handler outside any `try` and then iterates a live list: every external
  handler is called exactly once, in order, exactly when there is none or the internal handler does not raise
  and none but the last unregisters one on the list (`MessageDispatch.EveryHandlerOnceIff`). The internal
  handler of a chat raises when the payload decodes to anything but a mapping; the message then reaches no
  handler and is not stored (`MessageDispatch.ChatWithoutMapping`). An oversized payload is a ValueError that
  reception, which catches only the errors of the wire format, lets through
  (`MessageDispatch.StyreneProtocol.HandleMessage`). A handler that unregisters itself costs the next its
  call (`MessageDispatch.SelfRemovalSkipsNext`).
- 32 accepted characters of a hub address need not be 16 bytes, since `bytes.fromhex` skips whitespace
  (`Hex.TwoDigitsPerByte`).

## Model

| member | source | states |
|---|---|---|
| StyreneWire.ConstructedIffValid | src/styrened/models/styrene_wire.py:245-260 | construction keeps an envelope's own fields exactly when the envelope is valid, and constructs only valid ones |
| StyreneWire.DecodeEncode | src/styrened/models/styrene_wire.py:271-356 | decode after encode is the identity for the supported versions and is refused for all others |
| StyreneWire.EncodeDecode | src/styrened/models/styrene_wire.py:271-356 | an accepted byte string is the encoding of what it decodes to |
| StyreneWire.CodecIsBijection | src/styrened/models/styrene_wire.py:263-356 | valid envelopes and accepted byte strings correspond one to one; expecting a response survives the trip |
| StyreneWire.DecodesIff | src/styrened/models/styrene_wire.py:286-356 | what the bytes of an accepted message are, place by place |
| StyreneWire.RefusedIff | src/styrened/models/styrene_wire.py:245-336 | which messages are refused for version, type or size; size is looked at last |
| StyreneWire.KnownTypesAre | src/styrened/models/styrene_wire.py:93-169 | the message types, one by one |
| RpcCorrelation.RpcClient.AddPendingRequest | src/styrened/rpc/client.py:423-447 | an id is filed with the call that waits for it |
| RpcCorrelation.RpcClient.RemovePendingRequest | src/styrened/rpc/client.py:449-457 | the id's entry goes, nothing else changes |
| RpcCorrelation.RpcClient.StartCall | src/styrened/rpc/client.py:502-530 | an envelope without a usable id is rebuilt with a generated one, which version 1 refuses; the entry is filed before sending |
| RpcCorrelation.RpcClient.SendFailed | src/styrened/rpc/client.py:530-538 | a failed send ends the call and drops its entry |
| RpcCorrelation.RpcClient.HandleResponse | src/styrened/rpc/client.py:147-200 | the future filed under the envelope's id is completed if still open, and the entry is dropped either way |
| RpcCorrelation.RpcClient.HandleMessage | src/styrened/rpc/client.py:227-308 | raw data counts only when it decodes to an envelope of an RPC response type |
| RpcCorrelation.RpcClient.Cancel | src/styrened/rpc/client.py:540-543 | the deadline cancels an open future; the entry stays for the moment |
| RpcCorrelation.RpcClient.TimedOut | src/styrened/rpc/client.py:543-552 | clean-up after a timeout drops the entry and ends the call |
| RpcCorrelation.OnlyOwnIdIsTouched | src/styrened/rpc/client.py:147-200 | data changes only the call filed under its own id, and never with NO_CORRELATION or a foreign type |
| RpcCorrelation.DuplicateIsIgnored | src/styrened/rpc/client.py:166-184 | in every run data delivered a second time changes nothing, whatever steps were taken in between |
| RpcCorrelation.LateIsIgnored | src/styrened/rpc/client.py:166-184 | a response that arrives after its call has ended changes nothing |
| RpcCorrelation.AnswerIsReturned | src/styrened/rpc/client.py:328-403 | an encoded answer under a waiting call's id ends the call with the payload's mapping or, for an error report or any other payload, as invalid; other types leave it waiting |
| RpcCorrelation.RunKeepsInv | src/styrened/rpc/client.py:147-200 | the correlation invariant holds in every state of every run over a losing, duplicating, reordering network |
| RpcCorrelation.ReturnedResponseIsOwn | src/styrened/rpc/client.py:502-552 | a returned response carries the call's own id, was sent in answer to it and holds the mapping of its payload; a call fails only on an envelope that cannot be read |
| RpcCorrelation.TableFollowsCalls | src/styrened/rpc/client.py:423-457 | every call that can still be answered is in the table, and no ended call is |
| RpcCorrelation.OutcomeIsFinal | src/styrened/rpc/client.py:176-184 | once ended, a call never changes again |
| RpcCorrelation.EndsExactlyOnce | src/styrened/rpc/client.py:481-552 | every call ends at most once, and has ended exactly when one of its ending steps was taken |
| RpcCorrelation.CallCanAlwaysEnd | src/styrened/rpc/client.py:540-552 | from every reachable state the call's own deadline leads to its end with its entry gone |
| RpcCorrelation.ReusedIdBreaksCorrelation | src/styrened/rpc/client.py:513-527 | with a reused id the older call is never answered and its clean-up removes the newer entry |
| MessageDispatch.StyreneProtocol.RegisterHandler | src/styrened/protocols/styrene.py:112-129 | the handler goes to the end of its type's list, other lists stay |
| MessageDispatch.StyreneProtocol.UnregisterHandler | src/styrened/protocols/styrene.py:131-147 | the first occurrence is removed, a missing handler is ignored |
| MessageDispatch.StyreneProtocol.DispatchMessage | src/styrened/protocols/styrene.py:205-242 | who is called, in what order, over the live list, and nobody when the internal handler raises; handled means an internal handler or one that did not raise |
| MessageDispatch.StyreneProtocol.HandleMessage | src/styrened/protocols/styrene.py:172-203 | data that is missing or no envelope changes nothing, and raises only when its payload is oversized; any other message is dispatched, and stored unless the dispatch raised |
| MessageDispatch.EveryHandlerOnce | src/styrened/protocols/styrene.py:233-239 | with the list undisturbed each handler is called exactly once in order, whichever raise, unless the internal handler raises, and all stay registered |
| MessageDispatch.EveryHandlerOnceIff | src/styrened/protocols/styrene.py:225-239 | each handler is called exactly once in order exactly when there is none or the internal handler does not raise and none but the last unregisters one on the list |
| MessageDispatch.SentReachesHandlers | src/styrened/protocols/styrene.py:172-276 | from encoded bytes to handlers: the envelope arrives as sent exactly in a supported version, and reaches every handler exactly when it is no chat without a mapping and none but the last unregisters one on the list |
| MessageDispatch.InternalHandlers | src/styrened/protocols/styrene.py:214-276 | which message types have an internal handler, and when it raises |
| MessageDispatch.ChatWithoutMapping | src/styrened/protocols/styrene.py:225-276 | a chat whose payload is a number reaches none of its handlers, however harmless |
| MessageDispatch.SelfRemovalSkipsNext | src/styrened/protocols/styrene.py:233-239 | a handler that unregisters itself costs exactly its successor the call |
| IpcProtocol.TypesPartition | src/styrened/ipc/protocol.py:369-402 | every message type is exactly one of request, response, event |
| IpcProtocol.KnownTypesAre | src/styrened/ipc/protocol.py:51-152 | the message types, one by one |
| IpcProtocol.StreamReader.Feed | src/styrened/ipc/protocol.py:287-347 | a chunk yields all frames that are now complete and keeps the rest |
| IpcProtocol.ChunkingIsInvisible | src/styrened/ipc/protocol.py:287-347 | what is read depends on the bytes, not on the chunks |
| IpcProtocol.StreamOfBodies | src/styrened/ipc/client.py:217-246 | any sequence of well-sized bodies, accepted or rejected, is read one by one with nothing left over |
| IpcProtocol.ReadOversized | src/styrened/ipc/protocol.py:287-347 | an oversized frame is rejected for its length alone, and its body is read as further frames |
| IpcProtocol.ReadEmpty | src/styrened/ipc/protocol.py:287-347 | a frame without a type ends the reading |
| IpcProtocol.StreamRoundTrip | src/styrened/ipc/protocol.py:192-347 | concatenated encoded frames, however chunked, are read back as exactly those frames |
| IpcProtocol.DecodeEncode | src/styrened/ipc/protocol.py:192-284 | the whole-string decoder undoes the encoder, trailing bytes or not |
| IpcProtocol.EncodesIff | src/styrened/ipc/protocol.py:192-232 | what encoding refuses |
| IpcProtocol.RefusedIff | src/styrened/ipc/protocol.py:235-284 | why the whole-string decoder refuses |
| IpcProtocol.AcceptedHasFullId | src/styrened/ipc/protocol.py:235-284 | a body is accepted exactly when it is a known type, a full request id and a packed mapping, and the frame is made of these |
| IpcProtocol.DecodersAgree | src/styrened/ipc/protocol.py:235-347 | on the bytes of one frame both decoders report the same exactly when it is not oversized |
| ControlClient.Client.StartRequest | src/styrened/ipc/client.py:346-357 | a request is filed under its id, or refused when not connected |
| ControlClient.Client.HandleFrame | src/styrened/ipc/client.py:217-266 | an event goes to the queue, anything else resolves the future popped under its id |
| ControlClient.Client.Receive | src/styrened/ipc/client.py:217-246 | the loop handles every frame of the bytes that arrived |
| ControlClient.Client.Close | src/styrened/ipc/client.py:186-215 | open futures of the table are cancelled and the table is emptied |
| ControlClient.RunKeepsInv | src/styrened/ipc/client.py:186-246 | the table invariant holds in every state of every run |
| ControlClient.IdsSplitByFate | src/styrened/ipc/client.py:346-381 | ids sent split disjointly into answered, timed out, write-failed, cancelled and pending, and each call's fate is that of the ending step taken for it |
| ControlClient.EndsExactlyOnce | src/styrened/ipc/client.py:354-381 | in every run a request ends at most once, and its outcome is the one of its only ending step |
| ControlClient.AnswerCameFromItsFrame | src/styrened/ipc/client.py:217-246 | an answered request was resolved by a frame with its id, type and payload decoded from bytes received in the run; a cancelled one by a disconnect |
| ControlClient.FrameTouchesOwnCall | src/styrened/ipc/client.py:217-246 | a frame completes only the open future filed under its own id |
| ControlClient.EventsBypassTable | src/styrened/ipc/client.py:248-266 | event frames change neither calls nor table |
| ControlClient.CompletionIsFinal | src/styrened/ipc/client.py:217-246 | a completed future and an ended call never change again |
| ControlClient.DisconnectSettlesAll | src/styrened/ipc/client.py:186-215 | after disconnect the table is empty and the futures still open are exactly the abandoned ones; all are done exactly when no write of the run failed while its future was open |
| ControlClient.AbandonedIff | src/styrened/ipc/client.py:358-364 | in every run a future is left open for good exactly when its write failed while it was open |
| ControlClient.AnswerReachesItsCall | src/styrened/ipc/client.py:217-246 | the daemon's encoded answer, in any chunks, resolves exactly the request it answers |
| ControlClient.StreamReachesCalls | src/styrened/ipc/client.py:217-246 | whatever well-sized bodies arrive in whatever chunks, rejected ones among them, the client stays connected and each open request is resolved by the first accepted frame with its id |
| ControlClient.RejectedAreSkipped | src/styrened/ipc/client.py:239-240 | a rejected frame leaves the loop running and the state alone |
| ControlClient.ConnectedIff | src/styrened/ipc/client.py:217-246 | in every run the client is connected exactly when it connected and no close, disconnect or empty frame came since |
| ControlClient.CallCanAlwaysEnd | src/styrened/ipc/client.py:366-375 | from every reachable state a request's own deadline leads to its end with its entry gone |
| PathLimiter.PathRequestLimiter.CanRequestPath | src/styrened/services/rns_limits.py:18-50 | the answer and the purged and updated table |
| PathLimiter.PathRequestLimiter.RequestPathOnce | src/styrened/services/rns_limits.py:53-60 | a request reaches the network exactly when it is granted |
| PathLimiter.TableIsRecentGrants | src/styrened/services/rns_limits.py:22-50 | after any calls the table holds exactly the last grants of the past hour, and grants to one destination are 300 s apart |
| PathLimiter.OneDestCount | src/styrened/services/rns_limits.py:32-38 | at most 13 grants go to one destination in an hour |
| PathLimiter.WindowBudget | src/styrened/services/rns_limits.py:41-50 | at most 30 destinations and 378 grants in every closed hour |
| PathLimiter.BudgetIsReached | src/styrened/services/rns_limits.py:41-50 | thirty destinations can make 378 grants in one hour |
| PathLimiter.PeakBounds | src/styrened/services/rns_limits.py:18-50 | an hour sees at most 13 grants for each destination asked for, and 378 in all |
| PathLimiter.PeakIsReached | src/styrened/services/rns_limits.py:18-50 | for every set of destinations some run makes exactly that many |
| PathLimiter.GuaranteeIff | src/styrened/services/rns_limits.py:18-50 | a bound holds in every hour of every run over a set of destinations exactly when it is at least that peak |
| PathLimiter.ThirtyKeptIff | src/styrened/services/rns_limits.py:12-50 | the 30 requests an hour are guaranteed exactly to programs that ask for at most two destinations |
| PathLimiter.ThirtyWithoutRepeats | src/styrened/services/rns_limits.py:12-50 | the grants of a window are as many as its destinations exactly when none repeats, and then at most 30 |
| HubConnection.HubConnection.IsConnected | src/styrened/services/hub_connection.py:76-110 | the answer and the state after a health check that is due |
| HubConnection.HubConnection.ForceCheck | src/styrened/services/hub_connection.py:112-141 | the same without waiting for the interval |
| HubConnection.HubConnection.BeginWait | src/styrened/services/hub_connection.py:184-193 | the timer starts only when an address is known and nothing is connected |
| HubConnection.HubConnection.GetStatus | src/styrened/services/hub_connection.py:195-230 | the status shown, after polling |
| HubConnection.HubConnection.Attempt | src/styrened/services/hub_connection.py:232-310 | the state after connecting; true exactly when initialized, acceptable, reachable and the hop count answered |
| HubConnection.HubConnection.Drop | src/styrened/services/hub_connection.py:312-325 | address, connection and timer go, the time of the last check stays |
| HubConnection.HubConnection.RetryConnection | src/styrened/services/hub_connection.py:327-344 | reconnects to the stored address, unless connected or without one |
| HubConnection.RunKeepsInv | src/styrened/services/hub_connection.py:76-344 | in every run connected implies a decodable address of 32 characters and no waiting timer |
| HubConnection.ConnectedMeansRecentPath | src/styrened/services/hub_connection.py:76-110 | whenever `is_connected` is true, the current hub was seen to have a path at most 30 s earlier |
| HubConnection.LosingThePath | src/styrened/services/hub_connection.py:95-103 | a due check without a path disconnects and starts no timer |
| HubConnection.LostPathStaysWaiting | src/styrened/services/hub_connection.py:195-230 | from there the status stays WAITING however long nobody reconnects |
| HubConnection.DisconnectedIff | src/styrened/services/hub_connection.py:207-230 | DISCONNECTED is shown exactly when a waiting timer ran out |
| HubConnection.FieldByField | src/styrened/services/hub_connection.py:76-344 | for each field, which events change it and to what |
| HubConnection.AddressIsSought | src/styrened/services/hub_connection.py:232-344 | in every run the address is the target of the last attempt to connect, reachable or not, unless disconnected since |
| HubConnection.ConnectedIff | src/styrened/services/hub_connection.py:76-344 | in every run the hub is connected exactly when an attempt found a path and no disconnect, attempt or check has lost it since |
| HubConnection.StatusIff | src/styrened/services/hub_connection.py:207-230 | which status is shown when |
| HubConnection.CheckIsCached | src/styrened/services/hub_connection.py:76-110 | for thirty seconds after a check the answer does not depend on the path |
| Hex.TwoDigitsPerByte | src/styrened/services/hub_connection.py:250-257 | accepted text is two digits a byte exactly when it holds no whitespace |
| Hex.LowerHexInjective | src/styrened/models/rbac.py:307 | distinct lower-case hashes are distinct bytes |
| Hex.FromToHex | src/styrened/models/rbac.py:307 | every byte string is read back from its lower-case print |
| Hex.ToFromHex | src/styrened/models/rbac.py:307 | lower-case hashes are exactly the texts that are printed |
| Hex.DigitsRead | src/styrened/services/hub_connection.py:255-257 | which characters are digits of which value, and which are skipped |
| MessageIndex.MessageStore.IndexInsert | src/styrened/models/messages.py:603-610 | the row's postings are added |
| MessageIndex.MessageStore.IndexDelete | src/styrened/models/messages.py:613-620 | exactly the postings filed for the row are taken away |
| MessageIndex.MessageStore.InsertRow | src/styrened/models/messages.py:603-610 | an insert keeps the index in step |
| MessageIndex.MessageStore.DeleteRow | src/styrened/models/messages.py:613-620 | a delete keeps the index in step |
| MessageIndex.MessageStore.UpdateRow | src/styrened/models/messages.py:623-633 | an update, changes of id included, keeps the index in step |
| MessageIndex.StatementEffect | src/styrened/models/messages.py:603-633 | what a statement leaves under each id |
| MessageIndex.FiledIsRow | src/styrened/models/messages.py:613-630 | each 'delete' command passes exactly what was indexed for the row |
| MessageIndex.TriggersKeepIndex | src/styrened/models/messages.py:591-633 | after any run the maintained index equals the one built from scratch |
| MessageIndex.SearchIsExact | src/styrened/models/messages.py:585-633 | a search finds exactly the rows whose content or title has the token |
| MessageIndex.UpgradeStartsInStep | src/styrened/models/messages.py:585-601 | on an existing table the empty index is in step exactly when no row has a token |
| ContactsBackfill.ContactsTable.Backfill | src/styrened/models/messages.py:643-696 | table and count after the loop over the snapshot |
| ContactsBackfill.BackfillEffect | src/styrened/models/messages.py:661-696 | no row lost or merged, other columns and unflagged rows kept, the count is the number renamed, and the rows still flagged are those the node store knows nothing new of, in every order |
| ContactsBackfill.SecondRunIsIdle | src/styrened/models/messages.py:661-696 | a second run with the same node store changes nothing and returns 0 |
| ContactsBackfill.OrderFreeIff | src/styrened/models/messages.py:661-696 | the outcome is the same for all orders of the snapshot exactly when no identity is contested |
| ContactsBackfill.UncontestedSettles | src/styrened/models/messages.py:661-696 | without contest every walk leaves movable rows at their identity and all others in place |
| ContactsBackfill.ChainedTarget | src/styrened/models/messages.py:661-696 | two orders that differ because one placeholder resolves to a movable one |
| ContactsBackfill.SharedTarget | src/styrened/models/messages.py:661-696 | two orders that differ because two placeholders resolve to one identity |
| AttachmentStore.AttachmentStore.GetUsage | src/styrened/services/attachment_store.py:279-292 | the bytes all files take, temporary ones included |
| AttachmentStore.AttachmentStore.CollectCandidates | src/styrened/services/attachment_store.py:304-312 | the files that may go, in the order of the walk |
| AttachmentStore.AttachmentStore.Evict | src/styrened/services/attachment_store.py:317-326 | the tried and removable entries go, freed is the sum of their sizes and what the usage dropped by, and the store fits or everything was tried |
| AttachmentStore.AttachmentStore.EnforceBudget | src/styrened/services/attachment_store.py:294-339 | which files are gone after enforcement, failed removals included; freed is their sizes and the usage lost; the store fits or every candidate was tried |
| AttachmentStore.ByAgeSorts | src/styrened/services/attachment_store.py:314-315 | the order of eviction is a permutation, oldest first |
| AttachmentStore.ByAgeIsStable | src/styrened/services/attachment_store.py:314-315 | files of one age keep the order of the walk |
| AttachmentStore.ShortestPrefix | src/styrened/services/attachment_store.py:300-326 | within budget nothing goes; otherwise the shortest prefix that brings the usage within budget, whichever removals fail, or everything removable |
| AttachmentStore.UsageAfter | src/styrened/services/attachment_store.py:317-326 | with a prefix of the order gone the usage has dropped by the sizes of its removable files |
| AttachmentStore.UsageAnyOrder | src/styrened/services/attachment_store.py:279-292 | the usage is the sum of the sizes, in whatever order files are walked |
| AttachmentStore.TemporaryIff | src/styrened/services/attachment_store.py:306-307 | temporary files are those whose name ends in .tmp |
| AttachmentStore.OldestGoFirst | src/styrened/services/attachment_store.py:304-326 | temporary files never go; a removable survivor is no older than any file that went |
| RbacPolicy.RunKeepsCacheExact | src/styrened/models/rbac.py:325-376 | after any interleaving of operations every cached list is the one recomputed from the roster |
| RbacPolicy.RosterAfter | src/styrened/models/rbac.py:329-351 | what an operation does to the roster |
| RbacPolicy.BlockedAfter | src/styrened/models/rbac.py:353-376 | what an operation does to the prefixes |
| RbacPolicy.CacheAfter | src/styrened/models/rbac.py:325-376 | whatever changes the rules empties the cache, a query fills it at its own capability |
| Rbac.DecisionIff | src/styrened/models/rbac.py:147-275 | a capability is held exactly when no blocked prefix meets the identity, its role is not Blocked, and the role's level reaches the capability's or the entry grants it |
| Rbac.RolesAreLevels | src/styrened/models/rbac.py:119-181 | a role has exactly the capabilities its level reaches |
| Rbac.CapabilitiesAre | src/styrened/models/rbac.py:54-116 | the capabilities there are, and which two are granted only |
| Rbac.ListedIff | src/styrened/models/rbac.py:302-309 | whose entries are listed, by level and grants |
| Rbac.ExecAndVpn | src/styrened/models/rbac.py:158-275 | without a grant only administrators run commands and nobody joins the VPN |
| RbacPolicy.Policy.ResolveRole | src/styrened/models/rbac.py:229-250 | blocked prefix, then roster, then default |
| RbacPolicy.Policy.HasCapability | src/styrened/models/rbac.py:252-275 | the capability decision |
| RbacPolicy.Policy.GetAllowList | src/styrened/models/rbac.py:277-309 | the list from cache or roster; a hash that is not hexadecimal fails and caches nothing |
| RbacPolicy.Policy.AddEntry | src/styrened/models/rbac.py:329-336 | the table changes at the entry's hash only, and the cache is emptied |
| RbacPolicy.Policy.RemoveEntry | src/styrened/models/rbac.py:338-351 | that hash goes, and the answer tells whether it was there |
| RbacPolicy.Policy.Block | src/styrened/models/rbac.py:353-361 | the prefix is on the list afterwards, once |
| RbacPolicy.Policy.Unblock | src/styrened/models/rbac.py:363-376 | the first occurrence goes |
| RbacPolicy.AllowListMembers | src/styrened/models/rbac.py:302-309 | a list holds exactly the decoded hashes of listed entries |
| RbacPolicy.ListComputesIff | src/styrened/models/rbac.py:302-309 | the list can be computed exactly when every listed hash decodes |
| RbacPolicy.OnListIff | src/styrened/models/rbac.py:302-309 | an identity is on the list exactly when its entry is listed or a listed one has the same bytes |
| RbacPolicy.ListedIffCapable | src/styrened/models/rbac.py:252-309 | for a rostered identity, when the capability holds and exactly when being on the list agrees with it |
| RbacPolicy.UnrosteredListedIff | src/styrened/models/rbac.py:229-309 | an identity off the roster has the default role's capabilities unless blocked, and is on a list exactly by sharing its bytes with a listed one |
| RbacPolicy.HexRosterHasNoAlias | src/styrened/models/rbac.py:302-309 | lower-case hexadecimal rosters decode and have no two hashes of the same bytes |
| RbacPolicy.BlockDenies | src/styrened/models/rbac.py:240-264 | blocking denies every matching identity everything and no other decision changes |
| RbacPolicy.UnblockUndoesBlock | src/styrened/models/rbac.py:353-376 | with any other operations in between, unblocking gives the rules as if the prefix had never been blocked, exactly when it was new |
| Rbac.TableOfPut | src/styrened/models/rbac.py:335 | assigning an entry in insertion order updates the lookup table at its hash |
| Rbac.TableOfDrop | src/styrened/models/rbac.py:347-348 | deleting removes that hash from the lookup table |
| RbacConfig.ParseRbac | src/styrened/services/config.py:214-270 | the loader's parser computes the reference reading |
| RbacConfig.FromDict | src/styrened/models/rbac.py:378-436 | the policy's own parser computes the reference reading, with an empty section giving the default |
| RbacConfig.ParsersAgreeIff | src/styrened/models/rbac.py:399-436 | the two parsers agree exactly on true or mapping sections |
| ConfigMeaning.DefaultRoleIs | src/styrened/services/config.py:228-233 | the default role is the one named in any case, otherwise peer |
| ConfigMeaning.ItemIs | src/styrened/services/config.py:237-261 | which roster items give which entries, and which are skipped |
| ConfigMeaning.ItemFails | src/styrened/services/config.py:237-261 | which roster items raise what |
| RbacConfig.RosterToList | src/styrened/models/config.py:1141-1152 | the roster is printed in ascending order of hash |
| RbacConfig.EntryToDict | src/styrened/models/config.py:1144-1151 | empty labels and grants are left out |
| RbacConfig.LoadOfSaved | src/styrened/models/config.py:1141-1158 | loading a saved policy always succeeds and gives its normal form, with either parser |
| RbacConfig.RoundTripIffNormal | src/styrened/services/config.py:225-270 | loading a saved policy gives it back exactly when it is in normal form and its entries are filed under their own hashes |
| RbacConfig.SecondPassIff | src/styrened/services/config.py:263-268 | a second pass is idle exactly when no prefix is blank |
| RbacConfig.WhitespacePrefixFlips | src/styrened/services/config.py:263-268 | the blank prefix blocks everybody after one pass and nobody after two |
| Strings.SortedIsAscending | src/styrened/models/config.py:1143 | sorted output ascends in code-point order |
| Strings.CaseOfLetters | src/styrened/services/config.py:60-61 | case mapping exchanges the letters of the two alphabets and nothing else |
| Strings.StripTakesEnds | src/styrened/services/config.py:238 | stripping takes white space from the ends and nothing else |
| ConfigLoad.ReadPeers | src/styrened/services/config.py:386-399 | the peers of a file, in order, items without a host skipped |
| ConfigLoad.MergeHubs | src/styrened/services/config.py:401-414 | the configured peers with the missing well-known hubs appended |
| ConfigLoad.ReadStaticPeers | src/styrened/services/config.py:601-606 | the 32-character entries of the list, in order |
| ConfigReader.ReadInterfaces | src/styrened/services/config.py:371-414 | server, peers and the hub merge over the defaults |
| ConfigReader.ReadReticulum | src/styrened/services/config.py:321-414 | the reticulum section, read key by key, is the reference reading with its faults |
| ConfigReader.ReadIdentity | src/styrened/services/config.py:507-546 | the identity section, read key by key, is the reference reading |
| ConfigReader.ReadDiscovery | src/styrened/services/config.py:426-450 | the discovery section, read key by key, is the reference reading |
| ConfigReader.ReadNotifications | src/styrened/services/config.py:548-562 | the notifications section starts from the class default, not the profile's |
| ConfigReader.ReadLxmf | src/styrened/services/config.py:564-616 | the lxmf section, read key by key, is the reference reading with its faults |
| ConfigReader.LoadCoreConfig | src/styrened/services/config.py:273-713 | the loader computes the reference reading, section by section in the source's order over the profile's defaults |
| ConfigMeaning.FileMeans | src/styrened/services/config.py:273-805 | every file that loads gives the configuration it means: the profile it names, and in each section what the value of each key says or, without one, the profile's default |
| ConfigLoadable.FileLoadsIff | src/styrened/services/config.py:214-805 | a file loads exactly when it has no legacy bridge section, every number is one, every path has a home, every list can be iterated and the policy is a mapping of such |
| ConfigMeaning.RefusedFiles | src/styrened/services/config.py:103-128 | legacy bridge sections refuse the file; a file that is no mapping gives the operator's defaults |
| ConfigMeaning.PeersGrow | src/styrened/services/config.py:386-399 | which item of a peers list is which peer, is skipped, or fails |
| ConfigMeaning.HubIsAppendedIff | src/styrened/services/config.py:401-414 | a well-known hub is appended exactly when no peer has its host and port |
| ConfigMeaning.StaticPeersGrow | src/styrened/services/config.py:601-606 | the texts of 32 characters are kept, in order |
| ConfigMeaning.ShortNames | src/styrened/models/config.py:278-288 | which texts are valid short names |
| ConfigMeaning.SwitchReads | src/styrened/services/config.py:37-62 | text is on when it is true, yes, 1 or on in any case, other values when they count as true |
| ConfigMeaning.NumberReads | src/styrened/services/config.py:331-342 | which number a value is, and which values raise what |
| ConfigMeaning.HomeIsExpanded | src/styrened/services/config.py:345-369 | what a leading ~ or ~user of a path becomes |
| ConfigMeaning.NamesArePrinted | src/styrened/models/config.py:41-90 | a value names a member of an enumeration exactly when it is what printing the member gives |
| ConfigMeaning.ProfilesDiffer | src/styrened/services/config.py:130-202 | what the three profiles differ in |
| ConfigRoundTrip.HubsPresentAfterMerge | src/styrened/services/config.py:401-414 | configured peers stay in front in order, only missing hubs are added, none is missing after |
| ConfigRoundTrip.SecondMergeAddsNothing | src/styrened/services/config.py:401-414 | a second merge adds none |
| ConfigRoundTrip.EveryLoadHasHubs | src/styrened/services/config.py:371-414 | every configuration that loads has every well-known hub by host and port, after the peers the file lists |
| ConfigRoundTrip.PeersFixpoint | src/styrened/models/config.py:911-920 | which peer lists come back unchanged, and that a second pass never changes one |
| ConfigRoundTrip.ReticulumSurvives | src/styrened/models/config.py:886-921 | what the reticulum section is after a round |
| ConfigRoundTrip.ReticulumFixpoint | src/styrened/services/config.py:321-369 | when it comes back unchanged, and that a second round changes nothing |
| ConfigRoundTrip.IdentitySurvives | src/styrened/models/config.py:923-938 | what the identity section is after a round |
| ConfigRoundTrip.IdentityFixpoint | src/styrened/services/config.py:507-546 | when it comes back unchanged, and that a second round changes nothing |
| ConfigRoundTrip.DiscoverySurvives | src/styrened/models/config.py:947-956 | what the discovery section is after a round |
| ConfigRoundTrip.DiscoveryFixpoint | src/styrened/services/config.py:426-450 | when it comes back unchanged, and that a second round changes nothing |
| ConfigRoundTrip.NotificationsSurvive | src/styrened/services/config.py:548-562 | hours outside 0 to 23 are lost |
| ConfigRoundTrip.LxmfSurvives | src/styrened/models/config.py:1014-1036 | what the lxmf section is after a round |
| ConfigRoundTrip.LxmfFixpoint | src/styrened/services/config.py:564-616 | when it comes back unchanged, and that a second round changes nothing |
| ServiceConfig.ChatSurvives | src/styrened/services/config.py:452-480 | the chat section comes back, chatbot included |
| ServiceConfig.ApiSurvives | src/styrened/services/config.py:482-505 | the api section comes back, metrics and authentication included |
| ServiceConfig.IpcSurvives | src/styrened/services/config.py:618-626 | the socket path comes back expanded |
| ServiceConfig.TerminalSurvives | src/styrened/services/config.py:628-649 | an empty shell and shells that are not absolute are lost |
| ServiceConfig.PageServerSurvives | src/styrened/services/config.py:650-660 | the pages directory comes back expanded, an empty name is lost |
| ServiceConfig.PqcSurvives | src/styrened/services/config.py:662-683 | the section comes back |
| ServiceConfig.MeshVpnSurvives | src/styrened/services/config.py:685-696 | everything but `peer_discovery` comes back |
| ServiceConfig.RelaySurvives | src/styrened/services/config.py:716-730 | the section comes back |
| ServiceConfig.YggdrasilSurvives | src/styrened/services/config.py:733-757 | everything but `peer_discovery` comes back |
| ServiceConfig.I2pSurvives | src/styrened/services/config.py:760-782 | the section comes back |
| ServiceConfig.GroupThreadsSurvive | src/styrened/services/config.py:785-805 | the section comes back |
| ServiceConfig.NormalFixpoint | src/styrened/models/config.py:958-1129 | which services come back unchanged, and that a second round changes nothing |
| ConfigRoundTrip.ServicesSurvive | src/styrened/services/config.py:452-805 | all service sections of a saved configuration come back in their normal form |
| ConfigRoundTrip.UnreadSections | src/styrened/models/config.py:1131-1138 | the two switches that are written though nothing reads them |
| ConfigRoundTrip.LoadOfSaved | src/styrened/services/config.py:808-849 | loading a saved configuration gives its normal form, or fails on a `~user` path of an unknown user |
| ConfigRoundTrip.RoundTripIffNormal | src/styrened/services/config.py:811-812 | the promised round trip of all sections holds exactly for configurations in normal form |
| ConfigRoundTrip.SecondRoundIff | src/styrened/services/config.py:808-849 | load(save(n)) = n for n = load(save(c)) exactly when c blocks no blank prefix |
| ConfigRoundTrip.EmptySectionsKeepDefaults | src/styrened/services/config.py:130-202 | empty sections leave the profile's defaults, but notifications restart from the class default |
| ConfigRoundTrip.PeersAfterRoundTrip | src/styrened/services/config.py:386-414 | user peers stay an order-preserving prefix and every well-known hub appears |
| DeepMerge.DeepMerge | dev/merge_profile.py:27-35 | the loop computes the key-wise merge |
| DeepMerge.OverlayLeavesKept | dev/merge_profile.py:27-35 | every leaf of the overlay is in the merge |
| DeepMerge.BaseLeavesKept | dev/merge_profile.py:27-35 | a leaf of the base survives where the overlay is silent |
| DeepMerge.MergedLeavesHaveOrigin | dev/merge_profile.py:27-35 | no leaf is invented, and base leaves only show through silence |
| DeepMerge.EmptyIsIdentity | dev/merge_profile.py:27-35 | the empty mapping is an identity on both sides |
| DeepMerge.CoveredIsReplaced | dev/merge_profile.py:27-35 | merging gives just the overlay exactly when it covers the base |
| DeepMerge.RepeatedOverlayAbsorbed | dev/merge_profile.py:27-35 | merging is idempotent and absorbs a repeated overlay |
| DeepMerge.AssociativeIffCompatible | dev/merge_profile.py:27-35 | three trees merge associatively exactly when a leaf between mappings is covered |
| DeepMerge.AssociativeWithoutConflict | dev/merge_profile.py:27-35 | in particular when no leaf of the middle lies between mappings of both others |
| DeepMerge.NotAssociative | dev/merge_profile.py:27-35 | three profiles that merge differently by grouping |
| LeakDetection.SlopeMinimises | scripts/analyze_metrics.py:81-99 | the rate per hour is that of the least-squares line through times in seconds, and no other rate does as well |
| LeakDetection.ShiftInvariant | scripts/analyze_metrics.py:81-99 | a constant added to all memory values changes nothing |
| LeakDetection.ExactLine | scripts/analyze_metrics.py:81-99 | memory growing by k a second gives 3600 k an hour, and the flag is its comparison with the threshold |
| LeakDetection.NoSpreadNoLeak | scripts/analyze_metrics.py:68-99 | without two distinct times there is no leak |
| InterfaceParser.BlocksPartition | src/styrened/services/hardware.py:244-265 | preamble and blocks put together are the lines |
| InterfaceParser.ParseInterfaces | src/styrened/services/hardware.py:239-293 | the single pass with its flush finds the interfaces of the blocks, one by one |
| InterfaceParser.PreambleIgnored | src/styrened/services/hardware.py:244-265 | lines before the first header contribute nothing |
| InterfaceParser.LastEtherIs | src/styrened/services/hardware.py:267-271 | the hardware address is the last one of the block |
| InterfaceParser.FirstInetIs | src/styrened/services/hardware.py:273-277 | the IPv4 address is the first one on a line without a hardware address |
| AnnounceData.ParsePrint | src/styrened/models/mesh_device.py:258-274 | colon-free fields are looked up by position, whatever their number |
| AnnounceData.ParsedIsPrint | src/styrened/models/mesh_device.py:250-274 | a line is read by position exactly when it is the print of a tag reading styrene in any case and colon-free fields |
| AnnounceData.RecoveredIff | src/styrened/models/mesh_device.py:258-283 | every field is recovered exactly when no optional one is present but empty and the fingerprint is let through |
| AnnounceData.FingerprintIff | src/styrened/models/mesh_device.py:156-169 | which fingerprints are kept |
| AnnounceData.BareTag | src/styrened/models/mesh_device.py:258-274 | the tag alone is a device of which nothing else is known |
| AnnounceData.PrefixAgrees | src/styrened/models/mesh_device.py:259-274 | cutting a line after any field keeps the meaning of what is left and empties the rest |
| AnnounceData.CliLineIsAnnounce | src/styrened/cli.py:1372 | the command line's announce is one of these lines |
| AnnounceData.CliLineRead | src/styrened/cli.py:1372 | it is read as a 7-field announce with one capability and no addresses |

## Left out

- Event-loop mechanics, sockets, LXMF routing, SQLite and the file system: steps, byte sequences, maps and listings stand for them.
- Cancellation of a caller from outside: `call` and `_request` clean up only after a timeout or a failed send.
- Type matching of responses to requests: the correlation code does none.
- msgpack's internals and limits, its failures to pack, its binary and extension values, and Python's recursion limit when a value is logged.
- Event callbacks, the bounded event queue and reconnect backoff of the control client.
- The contacts DDL migration, which depends on driver transactions, and `INSERT OR REPLACE`, which would bypass the delete trigger.
- NaN and infinite floats, and duplicate or non-string keys of YAML mappings.
- Case mapping outside ASCII: `Strings.Lower` and `Strings.Upper` leave other letters alone, so round-trip conditions are stated for ASCII case only.
- Path normalisation by pathlib ("a//b", "."): paths are kept as text.
- The configuration object and its sections are values; that the loader overwrites fields of one object is a sequence of updates, and sharing of sub-objects is not modelled.
- Rosters with entries filed under other hashes than their own are printed in the order of the keys; the code sorts them by the entries' hashes.
- The allow list handed out is the cached list object; a caller that changes it is not modelled.
- ConfigRoundTrip.RoundTripIffNormal: equality of rosters ignores insertion order, as equality of the policy dataclass does.
- LeakDetection.SlopeMinimises: reals instead of floating point, and the rate before it is rounded to two digits.
- Races between walking and removing files, a `stat` that fails, and the removal of empty directories.
- Handlers that register further handlers while they run, concurrent tasks that change the list between awaits, and cancellation inside a handler, which no `except Exception` stops.
- The fields that response objects read from the payload's mapping by name, and the defaults of those missing.
- Custom data that is neither bytes nor text, and a database that refuses the message.
- The rnode, JSON, LXMF and plain-text branches of `parse_announce_data`, and UTF-8 decoding.
- Regular expressions of the interface parser, and how an interface's type is found: functions of the line or the name.
- The node store entry written on connecting to a hub, and the path request made without a path.
- Sanitising of attachment names, `validate_core_config`, roles' inclusion and report printing: easy members.
