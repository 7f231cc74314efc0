# A verified model of the binder driver

Binder passes messages between processes. A message is copied into a buffer of the receiver's; the objects in it
are turned from the sender's nodes and handles into the receiver's; calls nest across threads of several processes
and come back as replies or as failures. This project models what the driver keeps for that, step by step under its
one lock, and proves what holds after every step, over every run. It also models the marshaller and the registry of
the service manager, which sit on top of the driver in user space.

| part | modules | what is kept |
|---|---|---|
| buffer allocator | `Words`, `Layout`, `Pages`, `Trees`, `Indexes`, `Arena` | the buffer list tiles the mapped region, exactly the needed pages are mapped, both trees and the one-way quota are exact |
| nodes and references | `Store`, `Counts`, `Owners`, `Rollback`, `Transfers`, `Undo`, `Tallies`, `Outcomes`, `Departures`, `Prompts`, `Refs`, `Leftovers` | every count is exact, owners are told in order and in time, a failed transaction is taken back exactly when it can be |
| a whole send | `Exchange` | allocator and counts together |
| calls | `Chains`, `Stacks`, `States`, `Popping`, `Lists`, `Transactions`, `Deaths`, `Failures`, `Runs`, `RunSteps`, `Lines`, `Calls` | call chains across threads, replies, failures, thread and process exit, work lists served in order |
| one-way queues | `Async` | one active transaction per node, in order |
| death notifications | `Notices` | at most one of each notice per registration, and none forgotten |
| thread pool | `Pool` | requested, started and waiting threads |
| marshaller | `Bio` | what is put is what is got |
| registry | `Services` | acquires, releases and lookups agree with the history |

The driver's records are maps and sequences in the fields of a class, one class for each part; its commands, work
items and ioctls are the methods of that class. Ghost fields hold what is only needed to say what happened: call
chains, histories, lists of what was put. A method is proved against a function of the old state, and lemmas say what
that function keeps. A `BUG_ON` or `BUG` of the driver is an assertion in the method that contains it.

## Findings

These properties do not hold of the code as it stands. For each there is the exact condition under which it holds,
and an input for which it does not.

- A transaction that fails while its objects are translated does not always leave the counts as they were. The
  results of `binder_inc_ref` are ignored (`driver/binder/binder.c:2057`, `2096`), so a reference made for a handle
  whose count was refused stays behind empty; and a reference that was empty before goes when the count it was lent
  is taken back. `Refs.RefTable.SendObjects` fails exactly at the first object of which `Outcomes.FailsAt` holds, and
  the counts are then restored exactly when `Undo.Undone` holds of the objects before it and it leaves no stray node:
  all three are conditions on the state before and the objects sent. `Leftovers.EmptyReferenceLeft` is a run whose
  last transaction fails and is not taken back.
- If there is no memory for the reference to a node made just before (`driver/binder/binder.c:2027-2051`), the node
  stays behind with no count, no reference and no work item. `Tallies.StraysAt` says for which objects;
  `Leftovers.StrayLeft` is a run.
- A call of a thread to its own process can come back to the thread itself (`driver/binder/binder.c:1901-1920`,
  `2158`), and then has itself below it on the stack once it is taken up (`2900`). `Calls.SendExact` and
  `Calls.Driver.SendCall` say exactly when what holds between steps is lost; `Calls.SelfCall` is a run in which it
  is, and `Calls.SelfCallLoops` shows what comes of it.
- When thread errors are read into a buffer with room for one word only, the second slot is reported and kept, so it
  is reported again (`driver/binder/binder.c:2651-2666`). `Calls.Driver.ReadErrors` says exactly when;
  `Calls.ReadTwice` is a run in which two reads report the same slot.
- A limit on the thread pool that is lowered below the number of threads started is not kept
  (`driver/binder/binder.c:3130-3135`): `Pool.Process.SetMaxThreads`, with the run `Pool.Lowered`.
- A null reference is written without its place being noted (`servicemanager/binder.c:503-519`), so reading it back
  fails (`605-619`), and everything behind it is lost. `Bio.Writer.ComesBack` says that this is the only way;
  `Bio.NullThenWord` is an input.
- `bio_init` sets too few bytes aside for 2^30 offsets or more, because the product wraps around
  (`servicemanager/binder.c:420-437`): `Bio.SplitExact`, and `Bio.NoRoomAtLimit` for 2^30 itself.
- A thread that exits drops the node work items and death notices on its list (`driver/binder/binder.c:2929-2951`,
  `3024`). A node's owner is then not told what it should be, exactly if word was due (`Refs.RefTable.LoseWork`,
  `Prompts.LostExact`); every other owner is, or will be (`Refs.OwnerKnows`, `Refs.OwnerFreed`).
  `Leftovers.OwnerUntold` is a run. A notice is forgotten exactly if it was on a list that was dropped
  (`Notices.Registrations.ReleaseWork`); `Notices.Forgotten` is a run.
- The registry takes names of one length for the same name (`servicemanager/service_manager.c:103-118`), and releases
  what it overrides without taking back its death link (`166-173`). The driver drops the link with the last hold on
  the handle (`driver/binder/binder.c:1572-1597`), but a service held under another length as well keeps it: when that
  one dies, the service now in the entry is released. `Services.ServiceManager.Died` says whose handle is released,
  `Services.ServiceManager.DoAddService` exactly when every death is true to its link after an add, from the history
  alone, and `Services.StaleDeath` is a run in which one is not.

## Model

| member | source | states |
|---|---|---|
| Words.AlignWordExact | driver/binder/binder.c:1146-1147 | rounding up to a word in 32-bit arithmetic is rounding up exactly for sizes that do not wrap, and smaller than the size otherwise |
| Words.SizeGuardExact | driver/binder/binder.c:1146-1154 | the two comparisons after the wrapped sum refuse exactly the requests whose true sum of aligned sizes does not fit 32 bits |
| Layout.SumTiles | driver/binder/binder.c:934-942 | the headers and payloads of the buffer list sum to the mapped region |
| Layout.AllocTiles | driver/binder/binder.c:1194-1218 | taking a buffer that is large enough, with or without splitting it, leaves a list that tiles the region and holds every request |
| Layout.SplitRemainder | driver/binder/binder.c:1194-1216 | a split leaves a free buffer whose payload is over four bytes and which lies inside the region |
| Layout.AllocCoalesced | driver/binder/binder.c:1208-1216 | no two free buffers come to lie side by side by an allocation |
| Layout.FreeTiles | driver/binder/binder.c:1324-1343 | freeing a buffer and merging it with its free neighbours leaves a list that tiles the region |
| Layout.FreeCoalesced | driver/binder/binder.c:1324-1343 | after freeing and merging no two free buffers lie side by side |
| Layout.FreeUndoesAlloc | driver/binder/binder.c:1208-1343 | freeing the buffer just allocated gives back the very list there was before |
| Layout.AllocCharges | driver/binder/binder.c:1156-1224 | allocating a one-way buffer charges its payload and header to the quota, any other nothing |
| Layout.FreeCharges | driver/binder/binder.c:1298-1312 | freeing gives back exactly what was charged |
| Pages.FreshNotNeeded | driver/binder/binder.c:1192-1206 | the pages an allocation maps are needed by no buffer before: none is mapped twice |
| Pages.AllocNeeds | driver/binder/binder.c:1192-1216 | after an allocation exactly the pages needed before and the fresh ones are needed |
| Pages.DropNeeds | driver/binder/binder.c:1244-1289 | when a header goes away, exactly the pages it alone touched are no longer needed |
| Pages.MarkFreeNeeds | driver/binder/binder.c:1320-1323 | when a payload goes away, exactly the pages that lie wholly inside it are no longer needed |
| Trees.BestIsLeast | driver/binder/binder.c:1163-1178 | the descent through the tree of free buffers ends at a least one among those large enough, or finds that there is none |
| Trees.FindExact | driver/binder/binder.c:1003-1026 | the descent by address finds the buffer exactly if it is in the tree |
| Indexes.DescentFindsBestFit | driver/binder/binder.c:1163-1186 | on the tree that indexes the free buffers by size, the search is a best fit and fails only if no free buffer is large enough |
| Arena.Arena.UpdatePageRange | driver/binder/binder.c:1028-1125 | all pages of the range are mapped or none, whichever stage fails; no mapped page is mapped again and no unmapped one freed |
| Arena.Arena.BestFit | driver/binder/binder.c:1163-1186 | the search loop returns a free buffer of least sufficient size, and says whether it fits exactly |
| Arena.Arena.InsertFreeBuffer | driver/binder/binder.c:944-976 | the buffer joins the tree of free buffers, which stays ordered by size |
| Arena.Arena.InsertAllocatedBuffer | driver/binder/binder.c:978-1001 | the buffer joins the tree of allocated buffers, which stays ordered by address; it is not there yet |
| Arena.Arena.Lookup | driver/binder/binder.c:1003-1026 | a user address gives the allocated buffer whose data starts there, and nothing exactly if there is none |
| Arena.Arena.AllocBuf | driver/binder/binder.c:1127-1242 | after an allocation that succeeds the list is split as it should be, and tiling, pages, both trees and the quota are exact; after one that fails, for whatever reason, nothing has changed; the reasons are given exactly, and without a fault in mapping it succeeds exactly if there is room |
| Arena.RoomIs | driver/binder/binder.c:1139-1186 | a request passes the checks and finds a buffer exactly if the region is mapped, some free buffer is large enough and a one-way request is within the quota |
| Arena.Arena.DeleteFreeBuffer | driver/binder/binder.c:1244-1289 | a merged header leaves the list and its pages are given back, if no neighbour shares them |
| Arena.Arena.FreeBuf | driver/binder/binder.c:1291-1344 | after a free the list is merged as it should be, and tiling, pages, both trees and the quota are exact again |
| Arena.Mmap | driver/binder/binder.c:3222-3297 | a new region has one free buffer, the page of its header and half its size as quota; it comes about exactly if that page can be had |
| Arena.Arena.ReleaseAll | driver/binder/binder.c:3456-3495 | on release every buffer is freed, and one free buffer with one page is left |
| Store.DescriptorIsLeast | driver/binder/binder.c:1531-1538 | the walk over the descriptors in use settles on the least unused one from its start on |
| Counts.IncRefKeeps | driver/binder/binder.c:1599-1621 | counting a reference up keeps all counts exact, also when the node refuses |
| Counts.DecRefKeeps | driver/binder/binder.c:1623-1654 | counting a reference down, to its end if it was the last count, keeps all counts exact |
| Counts.DeleteRefKeeps | driver/binder/binder.c:1572-1597 | deleting a reference takes back its strong count and lets its node go if nothing else stands for it |
| Counts.NewRefKeeps | driver/binder/binder.c:1522-1568 | a new reference is in both trees and on its node's list, under a descriptor of its own |
| Owners.AtMostTwo | driver/binder/binder.c:2741-2800 | three turns on one node's work item never give three messages |
| Owners.MessageInOrder | driver/binder/binder.c:2741-2800 | every message to an owner keeps to the protocol: a strong reference on top of a weak one, neither taken back before it was acknowledged |
| Owners.OrphanedKeeps | driver/binder/binder.c:3411-3446 | when a process goes, its nodes die or go, and the counts of all others stay exact |
| Prompts.TranslatedPrompt | driver/binder/binder.c:2022-2103 | after an object is translated, a node others refer to is known to its owner, or its work item is queued |
| Prompts.DecRefTells | driver/binder/binder.c:1623-1654 | when a reference is counted down, or goes, its node's owner is told of the last use |
| Prompts.LostExact | driver/binder/binder.c:2929-2951 | a node that loses its work item is one whose owner waits in vain exactly if word was due |
| Transfers.TranslatedKeeps | driver/binder/binder.c:2022-2103 | translating an object keeps all counts exact, with the pin the receiver's buffer now holds |
| Transfers.TranslatedNames | driver/binder/binder.c:2022-2103 | the receiver's object names the node the sender's object named, as strongly |
| Transfers.ReleasedKeeps | driver/binder/binder.c:1743-1794 | a buffer that lets go of an object finds its node, and all counts stay exact |
| Undo.UndoStep | driver/binder/binder.c:1763-1794 | letting go of an object takes back exactly what was counted for it, and a reference goes exactly with the last count that was lent to it |
| Undo.GrantedUndone | driver/binder/binder.c:2186-2194 | if every count asked for is granted and no reference of the receiver's to what is named is empty, the objects can be undone |
| Tallies.RefusedIs | driver/binder/binder.c:1408-1421 | whether passing an uncounted reference on is refused can be told from the state before the transaction |
| Tallies.TallyStep | driver/binder/binder.c:2013-2149 | through all objects, a reference that counted nothing is counted exactly if one of the objects for it could not be refused |
| Tallies.UndoneAll | driver/binder/binder.c:2186-2194 | what the sender can tell beforehand decides for every reference whether it is left as it was |
| Tallies.RestoredIs | driver/binder/binder.c:2186-2194 | the counts, references and nodes after a failed transaction are those before it exactly if the objects can be undone and no stray node was left |
| Outcomes.OutcomeIs | driver/binder/binder.c:2013-2149 | whether the object at hand fails, after all those before it were translated, can be told from the state before the transaction |
| Outcomes.ForeseenStep | driver/binder/binder.c:2013-2149 | through all objects, addresses, cookies and descriptors are what the sender could foresee |
| Outcomes.GotStep | driver/binder/binder.c:2076-2083 | every node the receiver gets back comes with its own cookie, through all objects |
| Leftovers.EmptyReferenceLeft | driver/binder/binder.c:2094-2096 | a run: a handle passed on more strongly than it is held, and a second object that fails, leave the receiver an empty reference |
| Leftovers.StrayLeft | driver/binder/binder.c:2027-2051 | a run: with no memory for the reference to a node just made, the node stays behind with nothing that stands for it |
| Leftovers.OwnerUntold | driver/binder/binder.c:2929-2951 | a run: a thread exits with a node's work item on its list, and others refer to a node whose owner was told nothing and will not be |
| Refs.RefTable.IncNode | driver/binder/binder.c:1405-1439 | the count goes up and the work item is queued, or the increment is refused, exactly as the branches say; with a list at hand, afterwards the owner holds the reference or will be told |
| Refs.RefTable.DecrementNode | driver/binder/binder.c:1441-1483 | the count goes down; if the owner holds a reference whose last use went with it, the work item is queued, and if the node goes, its owner held nothing |
| Refs.RefTable.GetRefForNode | driver/binder/binder.c:1505-1570 | the reference of the process to the node, or a new one under the least free descriptor; the tree insertion never meets the same key |
| Refs.RefTable.TranslateBinder | driver/binder/binder.c:2022-2068 | the receiver gets a handle for the sender's node; cookie mismatch and lack of memory fail as they do there |
| Refs.RefTable.TranslateHandle | driver/binder/binder.c:2069-2103 | the owner of the node gets the node under its address, with its cookie, anybody else a handle; an unknown handle or lack of memory fails |
| Refs.RefTable.SendObjects | driver/binder/binder.c:1987-2194 | the transaction fails exactly if some object does, at the first that does, and the counts are then those before it exactly if the objects before can be undone and no stray node was left; otherwise the receiver's buffer holds an object for each, naming the same nodes, with the cookies of those it owns, under the descriptors foreseen, and nothing else was added |
| Refs.RefTable.FreeBuffer | driver/binder/binder.c:2400-2401 | a freed buffer lets go of its target and objects, and all counts stay exact |
| Refs.RefTable.CountCommand | driver/binder/binder.c:2238-2293 | the four counting commands move one count of the reference they name by one, or none if the count is zero or the node refuses, and nothing else; a reference goes with its last count |
| Refs.RefTable.Acknowledge | driver/binder/binder.c:2294-2355 | an acknowledgement that is owed by the node's history takes back its local count and is recorded; any other is ignored |
| Refs.RefTable.Notify | driver/binder/binder.c:2741-2800 | draining a node's work item sends at most two messages, in protocol order, recorded in the node's history; with room for them, the owner ends up with exactly the references that are used, and with none if the node goes |
| Refs.OwnerKnows | driver/binder/binder.c:1405-1439 | over any run, while others hold a strong reference to a live node its owner was told to keep it, or the work item that tells it is queued, unless that was lost with a thread |
| Refs.OwnerFreed | driver/binder/binder.c:1441-1483 | over any run, an owner that keeps a node nothing uses has its work item queued, unless that was lost with a thread |
| Refs.RefTable.SetManager | driver/binder/binder.c:3136-3162 | the context manager is set once, with both references granted |
| Refs.RefTable.LoseWork | driver/binder/binder.c:2929-2953 | when a thread that leaves drops a node's work item, all counts stay exact, the node is a stray exactly if nothing else stood for it, and word is lost exactly if some was due |
| Refs.RefTable.ReleaseProc | driver/binder/binder.c:3394-3471 | a process's nodes, references and buffers go, and all counts stay exact |
| Exchange.SendBuffer | driver/binder/binder.c:1969-2199 | a send ends without a buffer exactly if none is to be had, and otherwise at the first object that fails; if it fails, buffer list, pages and quota are those before it, and the counts are under the exact condition; if not, the buffer fits best and holds an object for each, with the cookies of those the receiver owns |
| Chains.ServeOk | driver/binder/binder.c:2899-2902 | a thread that takes up the leaf of a chain it may serve leaves all chains well formed |
| Calls.TopOfStack | driver/binder/binder.c:1833-1842 | the top of a thread's stack is a call, and the thread serves it exactly if the call says so |
| Calls.Driver.FindTarget | driver/binder/binder.c:1901-1920 | the walk up the callers ends, and finds the caller of the target process furthest up |
| Calls.Driver.SendCall | driver/binder/binder.c:1877-2183 | a call is on top of its sender's stack and at the end of the list of the thread or process it goes to, or it is refused and nothing but the error is left; what holds between steps is kept exactly if it is refused or does not come back to its sender |
| Calls.Driver.SendOneWay | driver/binder/binder.c:2159-2173 | a one-way transaction goes to the end of its process's list, or waits at its node if that is busy; no other list changes |
| Calls.Driver.SendReply | driver/binder/binder.c:1832-1876 | the thread's own call is replied to, at the end of its caller's list, and popped off that caller's stack, on top of which it is: the error for a bad target stack is unreachable |
| Calls.Driver.PopTransaction | driver/binder/binder.c:1656-1672 | a transaction leaves its caller's stack, its buffer forgets it, and it is gone; both checks hold |
| Calls.Driver.SendFailedReply | driver/binder/binder.c:1674-1728 | the calls up to the nearest live caller are popped once each, and that caller is told in a free error slot |
| Calls.Driver.TakeNext | driver/binder/binder.c:2703-2717 | the first item of the thread's list is taken, or of its process's, and the receiver may free its buffer from then on |
| Calls.Driver.Deliver | driver/binder/binder.c:2723-2907 | a call delivered is on top of its server's stack, with the rest of that below it; a reply or one-way transaction is gone |
| Calls.Driver.ReadErrors | driver/binder/binder.c:2651-2666 | the error slots are reported and cleared; an error is left to be reported again exactly if both slots were set and there was room for one word |
| Calls.Driver.FreeBuffer | driver/binder/binder.c:2390-2402 | only a buffer handed to the user is freed; a transaction still alive forgets it |
| Calls.Driver.FreeThread | driver/binder/binder.c:2990-3030 | the thread leaves every call on its stack, each of which is to or from it; the call it serves is failed and its list released |
| Calls.Driver.ReleaseWork | driver/binder/binder.c:2929-2953 | the calls on a list are failed, each to its nearest live caller; the rest is dropped |
| Calls.Driver.ReleaseProc | driver/binder/binder.c:3404-3456 | the process's list is released once its threads are gone |
| Calls.SendExact | driver/binder/binder.c:1901-1920 | a call keeps what holds between steps exactly if the search does not come back to its sender |
| Calls.OtherProcess | driver/binder/binder.c:1901-1920 | a call into another process never comes back to its sender |
| Calls.SelfCallLoops | driver/binder/binder.c:2899-2902 | a call that came back to its sender has itself below it on the stack once it is taken up |
| Calls.CalledBack | driver/binder/binder.c:1901-1920 | two calls and two deliveries reach a state from which a self call comes back |
| Calls.SelfCall | driver/binder/binder.c:1901-1920 | in that state a self call is accepted and what holds between steps is lost |
| Calls.ReadTwice | driver/binder/binder.c:2651-2666 | two nested calls and two failing replies fill both slots of a thread, and two reads with room for one word report the same one |
| Failures.FailTells | driver/binder/binder.c:1674-1728 | failing a call ends the calls from the nearest live caller's on, restores that caller's stack and tells it |
| Runs.OverForGood | driver/binder/binder.c:1656-1672 | over any run, a call that is over never comes back: it completes at most once |
| Runs.RestoresStack | driver/binder/binder.c:2151-2158 | over any run, whatever ends a call leaves its caller with the stack from before the call |
| Lines.FirstComeFirstServed | driver/binder/binder.c:2159-2173 | over any run, a list that is there throughout is served from its front, and what came since is behind the rest |
| Lines.NoneOvertakes | driver/binder/binder.c:2703-2717 | over any run, if a transaction left a list, so did those that were before it |
| Calls.ValidOrderly | driver/binder/binder.c:2159-2173 | between steps, what waits on a list was sent before and is on it once |
| Async.CountExact | driver/binder/binder.c:2394-2399 | a node's one-way buffers are as many as wait on its list, and one more exactly if it is busy |
| Async.DeliveredInOrder | driver/binder/binder.c:2159-2173 | what was delivered to a node is a first part of what was sent, in order |
| Async.OneActive | driver/binder/binder.c:2394-2399 | at most one one-way transaction of a node is under way |
| Async.Nodes.Send | driver/binder/binder.c:2159-2173 | the transaction starts if the node was idle, and waits at the end of its list otherwise |
| Async.Nodes.Free | driver/binder/binder.c:2394-2399 | the node is busy when its buffer is freed, and the next transaction starts or the node is idle |
| Async.Nodes.ReleaseOwner | driver/binder/binder.c:3457-3471 | with the owner's buffers gone, the lines of all other nodes are in order |
| Notices.AtMostOnce | driver/binder/binder.c:2801-2834 | an accepted history tells of the death at most once and of the clearing at most once, the latter only after an answer if the death was told |
| Notices.OncePerRegistration | driver/binder/binder.c:2493-2593 | every registration ever made has such a history |
| Notices.DiedPledged | driver/binder/binder.c:3429-3440 | when a node dies, every registration on it has its notice on a list, and every clearing still its confirmation |
| Notices.FinishedPledged | driver/binder/binder.c:2559-2593 | an answer forgets no notice and no confirmation: each is on a list or was told, unless it was lost with its list |
| Notices.Registrations.ReleaseWork | driver/binder/binder.c:2929-2951 | the notices on a dropped list are lost, and no others |
| Notices.Forgotten | driver/binder/binder.c:2493-2524 | a run: a thread asks to be told of a dead node and exits, and nobody in its process is told |
| Notices.Registrations.Request | driver/binder/binder.c:2493-2524 | a second request is refused; one for a dead node is queued at once, at the end of the list of the thread or process |
| Notices.Registrations.Clear | driver/binder/binder.c:2525-2557 | a clear queues its confirmation at the end of the list of the thread or process, or leaves it to the answer if the death is being told; the check on the list holds |
| Notices.Registrations.NodeDies | driver/binder/binder.c:3429-3440 | every registration on the node is queued once, to the process that holds the reference, behind what was there; none was queued before |
| Notices.Registrations.ReadWork | driver/binder/binder.c:2801-2834 | a notice is read off the list, and if it told of a death it goes to the head of those that wait for an answer |
| Notices.Registrations.Done | driver/binder/binder.c:2559-2593 | an answer is matched with the last notice delivered that has its cookie; a clearing that waited for it goes to the end of the list of the thread or process |
| Pool.PlaceCounts | driver/binder/binder.c:2671-2698 | whatever other threads do while the lock is dropped, the number of waiting threads is counted exactly |
| Pool.Process.SetMaxThreads | driver/binder/binder.c:3130-3135 | the limit holds afterwards exactly if it is not below the threads asked for and started |
| Pool.Process.FreeThread | driver/binder/binder.c:2990-3030 | a thread that leaves changes no count; it stays counted as started |
| Pool.Process.RegisterLooper | driver/binder/binder.c:2417-2438 | a thread that was asked for is counted as started; any other is marked invalid |
| Pool.Process.EndWait | driver/binder/binder.c:2693-2698 | the count of waiting threads never falls below zero |
| Pool.Process.Finish | driver/binder/binder.c:2911-2926 | a thread is asked for exactly if none is asked for or waiting, fewer were started than the limit, and the thread is a looper; the limit then holds |
| Bio.RoundTrip | servicemanager/binder.c:574-633 | items laid out one after the other, with no null reference, are all read back, and nothing is left over |
| Bio.NullLost | servicemanager/binder.c:605-619 | if a null reference is among the items, reading them all fails |
| Bio.FailedStays | servicemanager/binder.c:574-588 | after a failed read nothing that takes space can be read |
| Bio.SplitExact | servicemanager/binder.c:420-437 | the bytes set aside hold all offsets exactly if they are fewer than 2^30 |
| Bio.NoRoomAtLimit | servicemanager/binder.c:420-437 | for 2^30 offsets no byte is set aside, whatever the size of the buffer |
| Bio.Writer.BioAlloc | servicemanager/binder.c:439-451 | used and available space always add up to the same |
| Bio.Writer.PutNumber | servicemanager/binder.c:482-487 | a word is put behind the other items, or the writer overflows exactly for lack of room |
| Bio.Writer.PutReference | servicemanager/binder.c:503-519 | a reference is put and its place noted; a null one is put without |
| Bio.Writer.PutText | servicemanager/binder.c:521-572 | a string is put with its length and terminator, an absent or too long one as absent, or the writer overflows exactly for lack of room |
| Bio.Writer.ComesBack | servicemanager/binder.c:411-633 | what was put without overflow is read back, and used up, exactly if no null reference was put |
| Bio.Reader.GetRef | servicemanager/binder.c:605-633 | the search over the offsets finds the object at hand, or the reader fails |
| Services.Balance | servicemanager/service_manager.c:120-195 | acquires less releases of a handle are the entries that hold it |
| Services.NotHeld | servicemanager/service_manager.c:120-195 | a handle was released as often as it was acquired exactly if no name leads to it |
| Services.ServiceManager.FindSvc | servicemanager/service_manager.c:103-118 | the walk finds the entry for names of the length, whatever the name, and fails exactly if there is none |
| Services.ServiceManager.DoFindService | servicemanager/service_manager.c:136-147 | lookup returns the last handle added for the length, unless it was cleared since |
| Services.ServiceManager.SvcinfoDeath | servicemanager/service_manager.c:120-128 | the handle the entry holds now is released, and its death link goes exactly with the last hold on it |
| Services.ServiceManager.Died | servicemanager/service_manager.c:120-128 | a reported death spends its link; a handle other than the one that died is released exactly if the entry holds one |
| Services.ServiceManager.MessageFreed | driver/binder/binder.c:1572-1597 | with the last message that carries a handle, the driver drops it and its link exactly if no name leads to it |
| Services.ServiceManager.DoAddService | servicemanager/service_manager.c:149-195 | an add replaces what was registered for the length, and leaves other lengths alone; deaths are true to their links afterwards exactly if no other handle is still due to be reported for the length |
| Services.Overridden | servicemanager/service_manager.c:166-173 | after two adds for one length the first handle is dropped with its link, and deaths are true to their links |
| Services.StaleDeath | servicemanager/service_manager.c:166-173 | a service under two lengths is overridden under one: when it dies, the service that took its place is released |
| Services.ServiceManager.ListService | servicemanager/service_manager.c:244-255 | the n-th entry counted from the newest, or nothing |

## Left out

- Each part keeps the fields it needs in a class of its own. Only the allocator and the counts are combined, in
  `Exchange`; that a step of one part and a step of another are the same command is not part of the model.
- Sizes and addresses are those of a 32-bit machine; addresses in a region are offsets from its start.
- Rebalancing of red-black trees: any tree with the same order may come of an insertion or an erasure.
- The trees of nodes and references are maps with the ordered walk of the descriptors; descriptors are not bounded
  by 32 bits.
- Locking, wake-ups, priorities, statistics, logs, `user_error` messages and the effective user checks.
- Faults while copying from or to user space, and `put_user` failures.
- Failure of `kzalloc` other than for a new node or reference in a transaction: `BC_INCREFS` and the death
  notification command do not survive or merely report it.
- File descriptors in transactions (`driver/binder/binder.c:2104-2140`): they rest on kernel tables that are not shown.
- Objects of a transaction are given in the order of their offsets, at places that do not overlap; a bad offset or an
  unknown type is the `None` of `Refs.RefTable.SendObjects`.
- Calls.Driver.SendReply: on a cookie mismatch (`driver/binder/binder.c:2039-2046`) the driver leaves the code unset, so
  it reports whatever that variable held; here it may hold anything but the code for no error.
- Calls.Driver.SendOneWay: whether the node is busy is a parameter; `Async` keeps it.
- Work items for completed transactions, nodes and deaths are not on the lists of `Calls`; the pool and the notices
  have their own.
- One-way transactions are dropped when the thread or process whose list they are on goes away, so nothing is said
  about their being delivered in the end.
- A node that stood for nothing but its work item may be gone after a failed transaction; `Rollback.Restored` allows
  that, as it allows a work item that was queued in the meantime.
- Exchange.SendBuffer: the target of the transaction is found before; the lookup of handle 0 and of the target
  reference is not part of it.
- Release of a process is modelled in each part: its threads in `Calls`, its nodes and references in `Refs`, its
  buffers in `Arena`, its one-way buffers in `Async`, its notices in `Notices`. The deferred-work queue that runs them
  is not.
- Bio.Writer.constructor: asks for fewer than 2^30 offsets, because of `Bio.SplitExact`.
- Services.ServiceManager.DoAddService: which handles are carried by messages the driver has not freed is a parameter;
  a weak reference of the service manager's own to a service, which it never takes, would keep a link as well.
- The registry's access check and its message header; names are compared by length alone, as the code does.
- Ioctl transport, `binder_open`, `binder_call` and `binder_loop` of the service manager, and its test program.
