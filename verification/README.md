# go-proton-api: a verified model

go-proton-api is a Go client for the Proton mail API together with a mock
server. This project models the parts of both whose correctness is hardest to
see, and proves what they promise.

**The backend** (`server/backend`) keeps accounts, messages, labels,
attachments and their data, and a log of updates for each account. Every call
runs under one lock, so it is one atomic step.

* `Records` holds the state, and `Operations` says what each call does to it.
  `Backend` is the object itself: a class whose methods change maps and lists
  in place, each proved against its specification. `Effects` restates the calls
  as a client sees them: values, log entries, error conditions. `Sending` does so
  for a message that is sent: who gets which copies, and where a send stops.
* `Invariants` says what every reachable state has: dense update IDs,
  increasing and disjoint logs, logs that agree with what is stored, attachment
  data stored exactly for live attachments, lists of live and unshared
  attachments, a label forest, and families that stay within one account.
  `Steps`, `AddressSteps`, `LabelSteps`, `MessageSteps`, `MailSteps`,
  `SendSteps` and `Families` prove that each call keeps this and logs for each
  account whatever changed for it. `Runs` puts the calls together, and `Filings`
  follows the label lists of messages over runs.
* `Updates` is `merge` and its specification, `Events` is `GetEvent`, and
  `Convergence` proves that a client which applies events ends with exactly
  what the server has.
* `Locations`, `LabelForest` and `Attachments` are the label machine of a
  message, the label tree, and attachment ordering and freeing.
  `AddressOrder` is the reordering of addresses.

**Protocols**: `Delivery` is the client's event loop and stream against a
growing log, `Pool` the worker pool, `Tokens` the refresh of a rotating token
pair, `RateLimit` the fixed-window limiter.

**Pipelines**: `Chunking` splits and reassembles imports, `Mime` encrypts a
MIME tree that the server takes apart again, `Paging` fetches by page and by
cursor, and `EventIds` is the text of an event ID (base64url, section 5 of
RFC 4648). `Ids`, `EventLog`, `Views`, `Lexical` and `Measures` are shared by
the others.

## What the code does not do

Each of these is proved as stated.

* Moving a label under itself or one of its descendants is not refused. The
  labels stay a forest if and only if the new parent is not below the label
  (`LabelForest.UpdateKeepsForest`, `Families.UpdateLabelFamily`). In the other
  case the parent walk of `toLabel`, which `UpdateLabel` itself runs, does not
  end (`LabelForest.MovedWalkEnds`, `Families.UpdateLabelWalkEnds`); a folder
  moved under itself is an instance (`Families.FolderUnderItself`).
* With a bound on the updates of an event, an event can be built if and only if
  its window mentions no object whose deletion lies beyond the window
  (`Events.SafeWindows`); `Convergence.BoundedWindowBreaks` gives the runs that
  break it. An event also needs a non-empty log and a primary address.
* A `RefreshMail` logged after a `RefreshAll` in one window hides it, because the
  last flag wins: the client is not asked to fetch everything
  (`Convergence.RefreshMailHidesReset`). A client whose cursor the restarted log
  does not have is asked if and only if the last refresh flag of its window says
  so (`Convergence.PollResets`).
* A send that stops at a bad attachment key leaves the received message stored,
  unlisted and unlogged (`Effects.DeliverOneEffect`).
* Deleting a label leaves its ID in the messages that carry it, and filing such a
  message under a location dereferences the missing label. Filing panics if and
  only if it moves a message that carries a label which is gone
  (`Locations.FilingFails`); no filing panics if and only if every carried label
  exists (`Filings.FilingsAreSafe`), which a deletion keeps if and only if no
  message carries the label or one below it (`Filings.DeletionStrands`). Any
  account can get there with four calls (`Filings.DeletedLabelBreaksFiling`).
* `sortAttachment` drops attachments that share a content ID, or a file name
  without one: it keeps all if and only if no two share
  (`Attachments.SortDropsNothing`).
* Fetching all contacts fails if there are none, or if their number is a
  multiple of the page size above one page (`Paging.GetAllContactsPaged`).
* A message without any text part, all of whose sections are acceptable and all
  of whose leaves decode, reaches the server without a body, and `body[0]` does
  not exist (`Mime.FirstBodyIsTheOnlyOne`); a message that is one attachment is
  an instance (`Mime.LoneAttachmentHasNoBody`).
* Greedy chunks are fewest unless a full chunk is closed by an empty element
  (`Chunking.GreedyIsOptimal`, `Chunking.EmptyElementsBreakOptimality`).
* A call over the rate limit passes the middleware if the clock reaches the
  deadline, or moves beyond it, between the reading that tests for a reset and
  the one the wait is computed from (`RateLimit.RateLimiter.Exceeded`).

## Assumptions on callers

`Runs.Allowed` collects them: calls name the account's own objects (including
a draft's parent and a label's parent), objects that exist where the call does
not check, and no label's own subtree as its new parent; messages are filed
only while their labels exist. It also fixes what look-ups by e-mail and map
iterations happen to find, so every choice the code could make is covered.

## Model

| member | source | states |
|---|---|---|
| Updates.ReplacesTransitive | server/backend/updates.go:53-203 | what replaces a replacing update also replaces what that one replaced |
| Updates.MergeIsSurvivors | server/backend/updates.go:9-21 | `merge` panics exactly when an object is deleted twice, and otherwise returns the elements no later element of the whole window replaces |
| Updates.SurvivorsAreKept | server/backend/updates.go:9-21 | the survivors are the window read at the positions of its unreplaced elements, in order |
| Updates.MergeLaws | server/backend/updates.go:9-21 | `merge` is idempotent, and merging two merged halves is merging the whole |
| Updates.MergedShape | server/backend/updates.go:53-203 | when deletions are final and nothing precedes a creation, a merged window has about an object, in order, nothing, its deletion, its creation, one update, or its creation and one update; and which of these the window decides |
| Updates.MergedRest | server/backend/updates.go:9-203 | a merged window keeps every refresh, in order, and of the settings and of the updates about the user exactly one each if there was any |
| EventIds.RoundTrip | server/backend/types.go:15-36 | parsing the text of any 64-bit ID gives the ID back |
| EventIds.TextIsInjective | server/backend/types.go:15-36 | two IDs never share a text |
| EventIds.DecodeOfEncode | server/backend/types.go:15-36 | base64url with padding decodes to the bytes that were encoded |
| EventIds.LettersAreTheAlphabet | server/backend/types.go:15-17 | the letters are those of the URL-safe alphabet, in its order |
| EventIds.GroupSpells | server/backend/types.go:15-17 | every four letters spell the 24 bits of their three bytes; missing bytes count as zeros and show as padding |
| EventIds.DigitAt | server/backend/types.go:19-25 | the bytes are the base-256 digits of the ID, the lowest one last and the first one not 0 |
| EventLog.FirstIndexAt | server/backend/api.go:1045-1046 | in an increasing log the window starts right after the cursor's own entry |
| EventLog.AppendKeepsFaithful | server/backend/backend.go:693-701 | appending an update about one object keeps a log in agreement with the account's objects |
| Delivery.WindowIsBounded | server/backend/api.go:1023-1046 | a window starts after the cursor, or at the beginning for an unknown one, and holds as many updates as there are, up to the limit if that is positive; `more` says exactly whether the log goes on |
| LabelForest.ToLabel | server/backend/label.go:26-40 | on a forest the parent walk ends, and the path is the parent's path and the label's name |
| LabelForest.MovedWalkEnds | server/backend/label.go:26-40 | after a move the walk from the label ends if and only if the new parent is not the label or below it, and otherwise is at a label in every round |
| LabelForest.GetLabelIDsToDelete | server/backend/api.go:1104-1114 | the recursion ends and returns the label and all its descendants, each once, whatever the order of the map |
| LabelForest.CreateKeepsForest | server/backend/api.go:357-387 | a new label under an existing parent keeps the labels a forest |
| LabelForest.DeleteKeepsForest | server/backend/api.go:419-443 | removing a set closed under children keeps the labels a forest |
| LabelForest.SubtreeIsClosed | server/backend/api.go:1104-1114 | a subtree is closed under children |
| LabelForest.UpdateKeepsForest | server/backend/api.go:389-417 | moving a label keeps the labels a forest if and only if the new parent is not the label or below it |
| Locations.FiledMessage.constructor | server/backend/message.go:49-76 | a new message has no label, no system label and no star |
| Locations.FilingFails | server/backend/message.go:324-351 | filing panics if and only if it moves a message that carries a label which does not exist |
| Locations.FiledMessage.Add | server/backend/message.go:305-351 | in-place filing is the function the refinement is proved about; a panic leaves the message as it was |
| Locations.FiledMessage.Remove | server/backend/message.go:353-387 | in-place unfiling is the function the refinement is proved about |
| Locations.AddRefines | server/backend/message.go:305-351 | filing that does not panic keeps a message neat and moves a machine with one place, a tag set and a star; it cannot panic if every carried label exists |
| Locations.RemRefines | server/backend/message.go:353-387 | unfiling keeps it neat and moves that machine |
| Locations.RelabelRefines | server/backend/api.go:357-443 | labels that are made or deleted meanwhile keep it neat; deleted ones leave the machine |
| Locations.HistoriesRefine | server/backend/message.go:305-387 | so does any sequence of filings, unfilings, label creations and label deletions: never two exclusive places, no label twice |
| Locations.ShownLabels | server/backend/message.go:142-178 | the labels a client is shown are duplicate-free: those the machine's state and the flags give, and carried ones that are gone |
| Attachments.FreeIsExact | server/backend/api.go:695-703 | deleting an attachment frees its data exactly with its last user |
| Attachments.FreeAllIsExact | server/backend/api.go:695-703 | deleting several keeps data stored exactly for the attachments left, unchanged |
| Attachments.SortAttachment | server/backend/api.go:909-947 | the two map passes compute the sorted list of the specification |
| Attachments.SortKeepsOnePerKey | server/backend/api.go:909-947 | sorting takes one attachment of the list for each content ID or file name, none twice |
| Attachments.SortDropsNothing | server/backend/api.go:909-947 | sorting drops nothing if and only if no two attachments share a key |
| Attachments.SortIsOrdered | server/backend/api.go:909-947 | content IDs come first, then file names, each in ascending order, and for each key the last attachment of the list is the one kept |
| Attachments.SortIsDetermined | server/backend/api.go:909-947 | there is only one list with these properties |
| Attachments.SortTwice | server/backend/api.go:909-947 | sorting again changes nothing |
| Lexical.SortStrings | server/backend/api.go:918-921 | sorts the keys of a map |
| Lexical.SortedIsUnique | server/backend/api.go:918-921 | there is only one ascending list of a set |
| Backend.UnsafeBackend.constructor | server/backend/backend.go:92-109 | an empty backend |
| Backend.UnsafeBackend.NewUpdate | server/backend/backend.go:693-701 | the next ID is the number of updates; it is appended to the account's log |
| Backend.UnsafeBackend.CreateUser | server/backend/backend.go:123-156 | a new account with an empty log |
| Backend.UnsafeBackend.RemoveUser | server/backend/backend.go:158-187 | removes the account, its labels, and its messages with their attachments; unknown users are an error |
| Backend.UnsafeBackend.RefreshUser | server/backend/backend.go:189-206 | logs the flag; RefreshAll restarts the log |
| Backend.UnsafeBackend.SetUserSettingsTelemetry | server/backend/api.go:114-132 | stores and logs the settings with the new value |
| Backend.UnsafeBackend.SetUserSettingsCrashReports | server/backend/api.go:134-152 | stores and logs the settings with the new value |
| Backend.UnsafeBackend.DeleteAttachments | server/backend/api.go:695-703 | the in-place loop is the function the exactness is proved about |
| Backend.UnsafeBackend.DeleteMessage | server/backend/api.go:686-719 | drops the message with its attachments, logs and unlists it; unknown messages are an error |
| Backend.UnsafeBackend.CreateAddress | server/backend/backend.go:287-367 | stores the address last in order and logs its creation, or an update if asked; a key that cannot be made is an error |
| Backend.UnsafeBackend.SetAddressStatus | server/backend/api.go:193-225 | enables or disables, and logs |
| Backend.UnsafeBackend.DeleteAddress | server/backend/api.go:227-246 | deletes a disabled address, and logs |
| Backend.UnsafeBackend.RemoveAddress | server/backend/backend.go:458-477 | removes an address, and logs; unknown ones are an error |
| Backend.UnsafeBackend.SetAddressOrder | server/backend/api.go:248-282 | the loop computes the specification, for the primary addresses it finds before and after |
| Backend.UnsafeBackend.CreateLabel | server/backend/api.go:357-387 | checks the parent, stores, logs and lists the label |
| Backend.UnsafeBackend.UpdateLabel | server/backend/api.go:389-417 | checks the parent, renames and moves the label, and logs |
| Backend.UnsafeBackend.DeleteLabel | server/backend/api.go:419-443 | deletes the subtree, in whatever order the map lists it, and logs each deletion |
| Backend.UnsafeBackend.FindDuplicate | server/backend/backend.go:536-558 | finds a duplicate if and only if one is stored |
| Backend.UnsafeBackend.CreateMessage | server/backend/backend.go:509-580 | stores, logs and lists a message unless it is taken for a duplicate |
| Backend.UnsafeBackend.CreateDraft | server/backend/api.go:721-756 | stores, logs and lists a draft filed among the drafts |
| Backend.UnsafeBackend.UpdateDraft | server/backend/api.go:758-793 | checks and applies the changes, and logs |
| Backend.UnsafeBackend.EditMessages | server/backend/api.go:571-684 | the loops of SetMessagesRead, SetMessagesForwarded, LabelMessages and UnlabelMessages |
| Backend.UnsafeBackend.CreateAttachment | server/backend/api.go:949-1000 | stores data and attachment, lists it sorted, and logs |
| Backend.UnsafeBackend.SendMessage | server/backend/api.go:795-907 | files and logs the message, then serves the recipients until one fails |
| Backend.UnsafeBackend.Deliver | server/backend/api.go:837-895 | one recipient: stores a copy with copied attachments that share the data, sorts both lists, logs and lists it |
| Backend.UnsafeBackend.BuildEvent | server/backend/api.go:1330-1443 | the loop builds the event of the specification |
| Backend.UnsafeBackend.GetEvent | server/backend/api.go:1031-1071 | decodes the cursor, cuts the window, merges it and builds the event; a bad cursor or user is an error |
| Effects.CreateLabelEffect | server/backend/api.go:357-387 | a label is created exactly when it has no parent or is a folder with an existing one; it is new, shown and logged, and otherwise nothing changes |
| Effects.UpdateLabelEffect | server/backend/api.go:389-417 | name and parent change, the type stays, one update is logged; a refused call changes nothing |
| Effects.DeleteLabelEffect | server/backend/api.go:419-443 | exactly the label and its descendants are gone and unlisted, the others are as before, each deletion is logged once |
| Effects.CreateMessageEffect | server/backend/backend.go:509-580 | the created message is new, shown with its content and without external ID, and logged; with deduplication and a match nothing changes |
| Effects.CreateDraftEffect | server/backend/api.go:721-756 | the draft is new, shown under AllMail, AllDrafts and Drafts, and keeps an existing parent only |
| Effects.UpdateDraftEffect | server/backend/api.go:758-793 | given fields are replaced, others kept; place, flags and attachments stay; one update is logged |
| Effects.EditAllEffect | server/backend/api.go:571-684 | one update is logged for each stored message of the list, in order |
| Effects.EditTwice | server/backend/api.go:571-684 | making an edit again changes nothing |
| Effects.EditAllChanges | server/backend/api.go:571-684 | each stored message of the list is edited, however often it is named, and no other changes |
| Effects.EditShows | server/backend/api.go:571-684 | an edit that does not panic changes the unread mark, the forwarded flag or the place, and nothing else a client sees |
| Effects.EditMessagesEffect | server/backend/api.go:571-684 | the edits fail exactly for a missing account or a collective label; otherwise the stored messages of the list are edited and logged, and no others |
| Effects.DeleteMessageEffect | server/backend/api.go:686-719 | the message is gone, unlisted and logged; its attachments are gone, and their data exactly where no attachment uses them any more |
| Effects.CreateUserEffect | server/backend/backend.go:123-156 | the user is new, has no object and no log, and both settings are on; nothing else changes |
| Effects.RemoveUserEffect | server/backend/backend.go:158-187 | the user is gone with its labels, its messages and exactly their attachments, and data that nobody else uses |
| Effects.RefreshUserEffect | server/backend/backend.go:189-206 | RefreshAll leaves a log of one entry, another flag appends one; no object and no other log changes |
| Effects.SetUserSettingsEffect | server/backend/api.go:114-152 | the settings are stored and logged for this account only, and no object changes |
| Effects.SetAddressStatusEffect | server/backend/api.go:193-225 | the address is shown with the status asked for, its e-mail and order stay, one update is logged, and no other object of the account changes |
| Views.SizesAdd | server/backend/message.go:183-186 | the size of a list of attachments is the sum of the lengths of their data |
| Views.SizeOfSame | server/backend/message.go:183-186 | which does not depend on their order |
| Effects.CreateAttachmentEffect | server/backend/api.go:949-1000 | an inline attachment needs a content ID; the new one is stored with its data and listed, and the list keeps one attachment for each key it had |
| Effects.CreateAttachmentGrows | server/backend/api.go:949-1000 | an attachment under a new content ID or file name adds exactly its length to the size the message is shown with |
| Effects.MarkSentEffect | server/backend/api.go:795-835 | the message is flagged sent and shown under AllSent and Sent; its parent gets one flag more, replied, replied-all or forwarded as the draft was made, or none; both are logged, the parent first |
| Effects.DeliveredMessage | server/backend/api.go:854-883 | the copy has the sent content without blind copies and with the recipient's body, is unread in the inbox, and has attachments with the records, so the data, of those sent, one for each key |
| Effects.DeliverOneEffect | server/backend/api.go:831-895 | who gets the copy and the log entry, which failures leave what behind |
| Sending.SendMessageEffect | server/backend/api.go:795-907 | a send succeeds exactly if no recipient fails to parse, is unknown, or has fewer good keys than the message lists attachments; each account gains, in its list and its log and after the entries for the sender, exactly the copies made for it, in the order of the recipients; on failure exactly those before the first failing recipient are served |
| Sending.AllServed | server/backend/api.go:830-899 | the loop over the recipients, from any reachable state: each copy has the sent content without blind copies, the recipient's body and address, and files that share the data of those sent |
| Effects.CreateAddressEffect | server/backend/backend.go:287-367 | the address is new, last in order, shown and logged; if its key cannot be made nothing changes |
| Effects.RemoveAddressEffect | server/backend/api.go:227-246 | only a disabled address can be deleted, any can be removed; both log the same |
| Invariants.InitialInv | server/backend/backend.go:92-109 | the empty backend has the invariant |
| Invariants.LogsIsAppend | server/backend/backend.go:693-701 | one logged update leaves IDs dense, logs increasing and disjoint, and appends to one log only |
| Invariants.LoggedKeepsCore | server/backend/backend.go:693-701 | a logged change of the object it is about keeps every log in agreement with the objects |
| Steps.TellsComposes | server/backend/backend.go:693-701 | what two changes in a row log tells an account everything that changed for it |
| Steps.RefreshAllKeeps | server/backend/backend.go:189-206 | restarting a log keeps the invariant and all values |
| AddressSteps.SetAddressOrderKeeps | server/backend/api.go:248-282 | reordering keeps the invariant and logs what changed, even when it stops at an unknown address |
| LabelSteps.DropLabelsKeeps | server/backend/api.go:419-443 | deleting own labels keeps the invariant and logs what changed |
| Families.CreateLabelFamily | server/backend/api.go:357-387 | a new label under an own parent keeps the forest within one account |
| Families.UpdateLabelFamily | server/backend/api.go:389-417 | moving a label keeps the forest if and only if it is not moved below itself |
| Families.UpdateLabelWalkEnds | server/backend/api.go:389-417 | UpdateLabel's own walk ends if and only if the label was not moved below itself |
| Families.FolderUnderItself | server/backend/api.go:389-417 | a folder moved under itself is accepted and the walk never ends |
| Families.SubtreeOwned | server/backend/api.go:1104-1114 | a label's descendants belong to its owner |
| Families.DropLabelsFamily | server/backend/api.go:419-443 | deleting a subtree keeps the forest within one account |
| MailSteps.DropMessageMail | server/backend/api.go:686-719 | dropping a message never loses an attachment or data that another message uses |
| MailSteps.DeleteMessageKeeps | server/backend/api.go:686-719 | deleting an own message dereferences nothing missing, keeps the invariant and logs what changed |
| MailSteps.RemoveUserIs | server/backend/backend.go:158-187 | removing a user dereferences nothing missing and leaves every other message with its attachments and data |
| MailSteps.EditMessagesKeeps | server/backend/api.go:571-684 | edits of own messages keep the invariant and log what changed |
| SendSteps.CreateAttachmentKeeps | server/backend/api.go:949-1000 | attaching keeps the invariant: lists stay live, unshared and duplicate-free |
| SendSteps.DeliverAllKeeps | server/backend/api.go:837-895 | serving recipients keeps the invariant, also when it stops half way |
| SendSteps.SendMessageKeeps | server/backend/api.go:795-907 | sending keeps the invariant and tells the sender and every recipient what changed |
| Runs.Step | server/backend/backend.go:57-90 | every allowed call keeps the invariant, and every account whose log it does not reset is told what changed |
| Runs.RunsKeepInv | server/backend/backend.go:57-90 | every reachable state has the invariant |
| Filings.RunsKeepFilings | server/backend/message.go:305-387 | in every reachable state no message carries a label twice or has two locations, and its system label is a fixed one |
| Filings.FilingsAreSafe | server/backend/message.go:324-351 | no filing of any stored message can panic if and only if every carried label exists |
| Filings.StepStrands | server/backend/api.go:419-443 | an allowed call leaves a carried label that is gone if and only if it removes a label a message still carries |
| Filings.DeletionStrands | server/backend/api.go:419-443 | deleting a label keeps every carried label existing if and only if no stored message carries it or one below it |
| Filings.DeletedLabelBreaksFiling | server/backend/message.go:334-338 | from any state of any account: make a tag, make a draft, tag it, delete the tag; all calls are allowed, and moving the draft to the trash panics |
| AddressOrder.Pigeonhole | server/addresses.go:81-91 | equal length and containment hold if and only if the request names every address once |
| AddressOrder.CheckOrder | server/addresses.go:81-91 | the handler's checks pass exactly for such requests |
| AddressOrder.OrderingIsABijection | server/backend/api.go:248-282 | the orders are then 1 to n in request order; an update is logged for exactly the addresses whose order changed, in request order, and one about the user exactly if the primary address changed |
| Events.SafeWindows | server/backend/api.go:1045-1059 | GetEvent can build its event if and only if the log is not empty, there is a primary address, and no object the window mentions is deleted beyond it |
| Events.UnboundedEventsAreSafe | server/backend/api.go:1031-1071 | so with unbounded windows from every cursor |
| Events.WindowMerges | server/backend/api.go:1048-1055 | no window of a faithful log panics in `merge` |
| Events.WindowShape | server/backend/api.go:1048-1055 | in every reachable state, what is left of a window about an object has one of the five shapes |
| Events.ServedWindow | server/backend/api.go:1045-1070 | the event that is built has the ID, the `more` and the updates of the window the client's loop is served |
| Events.EventInOrder | server/backend/api.go:1330-1443 | the event's messages, labels and addresses are each the merged updates of that kind, one item for each and in their order |
| Events.EventActions | server/backend/api.go:1330-1443 | an event creates, updates or deletes an object if and only if the merged window does; created and updated ones carry the account's current value, deleted ones none |
| Events.EventUserInfo | server/backend/api.go:1345-1441 | an event carries the user exactly if its window has an update about it |
| Convergence.ItemsApplied | server/backend/api.go:1330-1443 | applying an event's items leaves each object as its last merged update says |
| Convergence.EventFlags | server/backend/api.go:1345-1441 | an event carries the settings and the refresh flag that come last in its window, and none if the window has none |
| Convergence.PollTracks | server/backend/api.go:1031-1071 | a poll keeps a client on track, in sync when nothing is left to fetch |
| Convergence.PollResets | server/backend/backend.go:189-206 | after a restart of the log the next event asks the client to fetch everything if and only if the last refresh flag of its window says so, and then it is in sync |
| Convergence.MoveFollows | server/backend/api.go:1031-1071 | every allowed call and every poll keeps a client on track |
| Convergence.LogGrows | server/backend/backend.go:693-701 | every allowed call that does not restart or end a log only appends to it, in increasing IDs |
| Convergence.TracesFollow | server/backend/api.go:1031-1071 | so does any interleaving of calls and polls |
| Convergence.TracesConverge | server/backend/api.go:1031-1071 | after every poll with nothing left, and every poll with unbounded windows, the client has exactly the server's messages, labels, addresses and settings |
| Convergence.RefreshMailHidesReset | server/backend/api.go:1343-1346 | RefreshAll then RefreshMail gives an event without the reset |
| Convergence.BoundedWindowBreaks | server/backend/api.go:1045-1059 | with windows of one update, creating and deleting a label makes the next event impossible |
| Delivery.CollectMore | event.go:29-56 | the loop collects contiguous windows while there is more, at most fifty, or fails with nothing |
| Delivery.GetEvent | event.go:29-56 | a call returns contiguous windows from the cursor on; `more` says exactly whether the log goes on |
| Delivery.WindowsCoverTheLog | event.go:29-56 | contiguous windows cover every update after the cursor exactly once |
| Delivery.EventStream.constructor | event.go:60-70 | the stream starts at its cursor |
| Delivery.EventStream.Send | event.go:71-98 | handing out events advances the cursor exactly past them, also when the receiver stops |
| Delivery.EventStream.Tick | event.go:71-98 | a failed fetch loses and repeats nothing; a tick reaches the end of the log or fetches fifty events |
| Pool.StepKeepsInv | pool.go:39-139 | every step of workers, callers and the environment keeps the invariant |
| Pool.ProcessAllIsAligned | pool.go:123-139 | for each of any number of concurrent calls, in every interleaving: without an error every slot holds the outcome of its request; an error says that the pool was closed, that the caller withdrew, or what the work of one of the call's own requests failed with, or gave up with after the caller withdrew |
| Pool.ErrorsAreDue | pool.go:55-121 | every error a call collects is due: a closed pool, an own request that failed with it, or a cancellation by the caller or by an earlier error; a call is cancelled exactly if its caller withdrew or it has collected an error; and every request past its callback has its outcome or its error there |
| Pool.ErrorsStay | pool.go:55-121 | collected errors stay in order, so the first one is returned; a cancelled or withdrawn call stays so |
| Pool.CancelledIsNotWorked | pool.go:39-53 | a job that is not yet worked on when its call is cancelled never is, and its caller receives the cancellation |
| Pool.JobsAreTakenOnce | pool.go:39-53 | over a run a job taken by a worker stays with that worker until it is released and is never queued again; its caller never goes back, and its slot is written once |
| Pool.OneResult | job.go:25-41 | a caller receives exactly one of its own outcome and an error, which is what its own work failed with, or the cancellation of its call |
| Pool.WorkersHoldOne | pool.go:39-53 | a queued job waits once and no worker holds two jobs |
| Pool.Progress | pool.go:62-139 | with at least one worker some step is enabled until every request has ended and every worker is free |
| Pool.StepsDecrease | job.go:25-41 | every such step lowers a measure |
| Tokens.TokensInStep | client.go:174-213 | outside a refresh the client holds the server's tokens, and has told its handlers so |
| Tokens.NoEarlyDeauth | client.go:174-213 | while the session exists no refresh is refused and no deauth handler has run; afterwards they run at most once |
| Tokens.RefusedOnlyWhenDue | server/backend/backend.go:656-671 | a request is refused only if the session is gone or its access token has outlived its time |
| Tokens.RunsKeepInv | client.go:123-213 | every run of concurrent requests keeps the invariant |
| Tokens.SuccessIsAccepted | client.go:123-155 | a request succeeds only with an answer to itself from a server that accepted the access token it was sent with |
| Tokens.RefreshedAfterRefusal | client.go:142-146 | a first refusal is followed by a refresh with the client's refresh token of that time |
| Tokens.SentAgain | client.go:148-150 | a request whose refresh gave tokens is sent once more, with the client's access token of that time, before it ends |
| Tokens.SecondRefusalEnds | client.go:148-154 | a second refusal ends a request without success |
| Tokens.RetriesAreRefreshed | client.go:142-150 | nothing is sent a second time but after a refresh that gave tokens |
| Tokens.FailureHasCause | client.go:123-155 | a request fails only if it or its refresh is lost, if it is refused twice, or if its refresh is refused |
| Tokens.DeauthOnRefusal | client.go:183-194 | the deauth handlers have run exactly if a refresh was refused |
| Tokens.Progress | client.go:123-213 | some request can act until all have finished |
| Tokens.StepsDecrease | client.go:123-213 | every such act lowers a measure |
| Mime.EncryptSection | message_encrypt.go:80-122 | the recursive writer computes the encrypted tree |
| Mime.CollectSection | server/messages.go:516-562 | the recursive split computes bodies and attachments in order |
| Mime.CollectSharesOut | server/messages.go:516-562 | the split accepts exactly the trees whose sections have a media type and whose encrypted multiparts have two parts; each unit becomes, in order, one body or one attachment |
| Mime.PartwiseImport | message_encrypt.go:37-122 | encrypted part by part, the server finds in order bodies and attachments that open to the decoded originals, and at most one body |
| Mime.PartwiseMirrors | message_encrypt.go:80-222 | the encrypted message has the sections of the original in their places: multiparts with their headers; text and message parts armored, without transfer encoding and announcing UTF-8 exactly where they announced a charset; other parts with their headers and base64; each opens to its content |
| Mime.WholeImport | message_encrypt.go:224-331 | otherwise it finds exactly one body, which opens to the whole message |
| Mime.WholeShape | message_encrypt.go:224-331 | it is a multipart/encrypted of the control part with its version and the armored message, under those of the open fields the original has |
| Mime.FirstBodyIsTheOnlyOne | server/messages.go:564-612 | `body[0]` drops no body; it is missing if and only if no part is text, every section is acceptable and every leaf decodes |
| Mime.LoneAttachmentHasNoBody | server/messages.go:564-612 | a message that is a single attachment arrives without a body |
| Mime.WalkCountsTexts | message_encrypt.go:37-78 | the first walk accepts exactly the trees of acceptable sections with at most one text part |
| Mime.TryEncryptAccepts | message_encrypt.go:24-122 | a message is encrypted part by part if and only if every section is acceptable, at most one is text and every leaf decodes |
| Chunking.ChunkSized | message_import.go:126-153 | ends with non-empty chunks within both bounds that concatenate to the input, the greedy ones |
| Chunking.FillIsMaximal | message_import.go:134-146 | the inner loop takes every prefix that fits, unless it stops full at an empty element |
| Chunking.GreedyIsOptimal | message_import.go:126-153 | no split within the same bounds has fewer chunks, unless a full chunk is closed by an empty element |
| Chunking.PositiveSizes | message_import.go:126-153 | positive sizes never do that |
| Chunking.EmptyElementsBreakOptimality | message_import.go:126-153 | an element that fills a chunk before an empty one needs one chunk more than necessary |
| Chunking.ImportChunk | message_import.go:81-124 | each request gets the last response under its name, or none, whatever the server sends |
| Chunking.ImportMessages | message_import.go:34-79 | an import succeeds exactly when every message fits and every answer read is a success |
| Chunking.ImportIsAligned | message_import.go:34-79 | with a server that answers every request the answers are in request order across all chunks |
| Paging.ChunkAt | server/backend/api.go:543-548 | page p of the chunked list is the slice from p times the size |
| Paging.PageIs | server/messages.go:37-48 | a page is the slice of the selection it names; without a page it is the first, without a size it has a hundred messages |
| Paging.SelectIs | server/backend/api.go:479-543 | a filter selects, in the asked order and from the first message with the end ID on, if there is one, exactly the messages that meet every criterion given |
| Paging.ContainsIs | server/backend/api.go:509-520 | a subject matches if and only if the text stands somewhere in it |
| Paging.MetadataIsComplete | message.go:59-68 | pages 0 to total divided by the size give the filtered list in order, also at exact multiples and when the filter drops some |
| Paging.RemainingPages | contact.go:80-106 | the page loop gives all contacts, and fails exactly at a multiple of the page size |
| Paging.GetAllContactsPaged | contact.go:80-106 | every contact once in ID order, exactly when there is one and the total fits one page or is no multiple of the size |
| Paging.GetAllContactEmailsPaged | contact.go:141-167 | the same for contact emails, which may be none |
| Paging.CursorMoves | server/backend/api.go:453-477 | the list after an ID of a duplicate-free list |
| Paging.GetAllMessageIDs | message.go:70-85 | the loop ends with exactly the IDs after the cursor, whatever the length |
| RateLimit.RateLimiter.Exceeded | server/rate_limit.go:39-55 | counts the call in its window; waits exactly for calls over the limit before the deadline |
| RateLimit.TwiceTheLimit | server/rate_limit.go:39-55 | in any interval no longer than the window at most twice the limit pass, in every trace |
| RateLimit.BoundIsTight | server/rate_limit.go:39-55 | for every limit and window, twice the limit can pass around a deadline within one tick |
| RateLimit.NewLimiterBound | server/rate_limit.go:28-55 | from a new limiter, whose deadline has passed, at most twice the limit less one pass in any interval no longer than the window |
| RateLimit.NewLimiterBoundIsTight | server/rate_limit.go:28-55 | and that many can, for every limit and window |

## Left out

- HTTP: requests, retries, routing, TLS, network control and the middleware around the modelled handlers are plumbing over libraries that are not modelled.
- OpenPGP and SRP: encryption is an abstract codec with a left inverse; user and address keys, key packets and signatures are not part of records.
- The RFC 822 parser, the multipart writer and their errors: MIME messages are trees, and message/* parts are leaves.
- Identifiers: UUIDs are a supply of fresh IDs, disjoint from the fixed labels; update IDs are assumed to stay below 2 to the 64.
- CreateAddressKey, RemoveAddressKey, AddLabelCreatedUpdate and its siblings, LabelMessagesNoEvents, and the ChangeAddress calls: they log objects that need not exist, or change state without logging, so convergence does not hold with them.
- Convergence.TracesConverge: compares own fields; a label's path (which changes with an ancestor's name), the number of attachments in message metadata (which counts the data of all accounts), and the user record are not compared. Dates, reply-to lists and reply references are not part of a message.
- Runs.Allowed: says which calls are covered; calls on another account's objects are not.
- Tokens: no handler registration and no Close during the run, so the second lock is not modelled. Requests and refreshes may be lost on their way to the server; the server's answer to a refresh may not.
- Pool.Progress: unbuffered channels are modelled as joint steps of sender and receiver; panics in the work function are not modelled.
- Delivery: timer periods and jitter; a tick is one call.
- Backend.UnsafeBackend.CreateAttachment: the MIME type, key packets and signature are not part of the record, and dispositions other than inline and attachment, which the server refuses, are not representable.
- Backend.UnsafeBackend.Deliver: the new key packets of the copied attachments are not part of their records.
- Backend.UnsafeBackend.SendMessage: the decoded packages are a list of recipients with the outcome of decoding and look-ups, among them the body armored for the recipient.
- Backend.UnsafeBackend.SetUserSettingsTelemetry: values other than enabled and disabled, which the server refuses, are not representable.
- Records are values in maps; pointers shared between Go maps and slice aliasing in returned metadata are not modelled.
- Settings, reports, feature flags, quark commands, observability, contact cards, drive and calendar: getters and setters only.
