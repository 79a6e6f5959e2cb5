# Power API daemons

This project models the three parts of the Power API reference implementation that have to agree with each
other for a distributed read to return the right number, and proves that they do, or says exactly when they do not.

* **The read protocol.** A context cuts the attribute tree below an object into its own devices and objects left
  to servers, creates a communicator on first use and sends a request. A router numbers the request, sends it to
  every member of every group, perhaps over other routers, gathers the replies per group, adds them row by row
  and answers once. Every server is itself such a context. The theorems at the top are about every run and every
  interleaving:
  * `EndToEnd.ReadIsFlatSum`: an answer is the flat sum over the devices of the tree, and its time stamps are ones that
    servers reported for it (`Stamps.StampsWereReported`);
  * `Runs.AnsweredExactlyOnce`: no read is answered twice, and `Endings.EveryReadAnswered`: without new reads every
    run ends within a bound, and where nothing can be moved any more every read has its answer;
  * `Runs.EveryLookupMet`: create before use, no dangling record, no failing assert, in runs of fit reads;
  * `Runs.LosslessFifo` and `Runs.Progress`: nothing is lost or reordered, and no outstanding read is stuck.

  They are proved in two levels: `Circuits*` has one queue per router and server and carries
  the invariant; `Network` has the shared links, the pending queues and registration, and
  `Simulation.StepSimulates` shows that each of its steps is one circuit step or none. The classes
  `Routers.RouterNode`, `RouterEvents.Requests`, `Gather.CommReqInfo`, `Contexts.DistCntxt`, `Contexts.DistComm` and
  `ServerDaemon.ServerNode` are the imperative code; their methods are proved to take exactly those steps.
  All messages go through the byte serializer (`Serial`, `Events`).
* **The generator** of processes, route file and router links, with the routing core that reads them
  (`TreeRouting`, `Numbering`, `RouteFile`, `RouteText`, `Generated`), and the configuration of the machine file
  (`SiteConfig`, `SiteTotals`). `SiteReads` puts them together: with nothing assumed of the configuration, every read
  of an object of a generated site goes to servers of its route table and gives the flat sum, and a read of the
  platform gives the sum over all nodes (`SiteReads.PlatformRead`).
* **The XML engine** that stores the configuration (`XmlText`, `XmlStrings`, `XmlValues`, `XmlTree`, `XmlLayout`,
  `XmlDocument`, `Dom`, `DomTree`, `MemPool`), and the flattening of a hardware tree into it (`Flattening`).
  `XmlDocument.SaveAndLoad` prints and parses; `XmlValues.ReadValue` says what a value that no printer wrote stands for,
  and `XmlLayout` what texts in another layout do.

Where the code and what it is meant to do differ, the code is modelled and the exact condition is proved:

* The code asserts that an object has devices or a communicator but not both, that it has one communicator only, and
  that the attributes of a request share it. All runs of fit reads go through exactly when every located object has
  devices or children but not both and the same children throughout (`EndToEnd.AllRunsGoThroughIff`); a request is
  ever answered exactly when the servers it names, and those they ask, are located, start, and have the same children
  for all its attributes (`EndToEnd.AnsweredIffFit`, `Serving.StartsIff`, `Serving.AlikeIff`).
* A read by an application succeeds exactly under these conditions, if its attributes are valid and its own devices
  work (`AppRead.DistributedReadIff`). Its value is the flat sum, whatever the devices say, exactly when no device that
  counts below the servers fails, because a server answers 0 for a failed device, and for every attribute after it,
  and drops the error (`AppRead.FlatIffWhole`; over runs `EndToEnd.AnswersFlatIff`; at one server without children
  `Serving.LocalRowCompleteIff`).
* A name that is not in the route table is never dropped, although the code prints that it is: the miss value is
  64 bits of ones and is compared with 32 bits of ones. Events are dropped exactly for an entry with router 0 and
  server -1 (`AppIds.DropsIff`, `AppIds.MissIsRouted`); an id no router has bounces between two routers for ever
  (`TreeRouting.UnknownIdBounces`). The network theorems are about members that are in the table.
* A request is answered at all exactly when it has groups and none is empty (`Gather.AnswerableIff`).
* Group reads put each object's values into its own row exactly when the group is all remote, or all local without
  duplicates (`Groups.RowsInPlaceIff`).
* Boards with one node each lose leaf router 0 to the root router (`TreeRouting.BoardsHostedIff`).
* The route file's second number is cut out of its line with too long a length; atoi stops at the colon, so it is read
  back all the same (`RouteText.LineBack`).
* The in-place entity decoder leaves a stale byte for an unknown entity behind a shorter text
  (`XmlText.InPlaceExactIff`, `XmlText.StaleExample`), and follows a null pointer exactly for a value with a character
  reference that is incomplete or not a number (`XmlStrings.GetStr`).
* A document without elements is printed as a text that the parser reports as empty (`XmlDocument.SaveAndLoad`).
* `InsertAfterChild` follows a null pointer, or builds a cycle of one, in two cases a caller can tell beforehand
  (`Dom.InsertAfterChild`); inserting keeps a tree a tree exactly when the new parent is not below the node
  (`DomTree.StaysTreeIff`).
* Flattened names are cut at 255 characters; every listed child can be found exactly when none is longer
  (`Flattening.FoundIffFits`), and `pwrgen -n` makes duplicate names exactly in the cases of `Flattening.CopiesGoodIff`.

Values are reals, events are values, channels are sequences. Time stamps are whatever the devices report.
`dafny verify dfyconfig.toml` checks everything.

## Model

| member | source | states |
|---|---|---|
| EndToEnd.ReadIsFlatSum | src/pwr/distCntxt.cc:271-323 | in every run, row g, column i of every answer to an application is the sum over all devices configured below the object read, each counted once, when group g is the remote part of its cut and no device that counts in that column fails |
| EndToEnd.AllRunsGoThroughIff | src/pwr/distObject.cc:37-47 | no run of fit reads, in any interleaving, ever meets a missing record or a failing assert, if and only if every located object has devices or children but not both, and the same children throughout |
| EndToEnd.AnsweredIffFit | src/pwr/distObject.cc:171-178 | some run answers a request if and only if every server it names, and every server those ask, is located, starts, and reads all attributes asked for in the same way |
| EndToEnd.AnswersFlatIff | src/pwr/distObject.cc:126-140 | over all runs and all device values, an entry of an answer is the sum over the devices below the group if and only if no device that counts there fails |
| EndToEnd.AnswerIsRead | src/pwr/distObject.cc:158-186 | the row an application receives in a run is the row of the read semantics, for every interleaving |
| EndToEnd.AllAnswered | tools/pwrdaemon/server/commReqEvent.h:63-74 | continued without new reads, every run of a configuration ends within a bound, and at rest no read of any application or server is outstanding |
| EndToEnd.AnswerArrives | tools/pwrdaemon/router/commRespEvent.h:88-97 | a run exists in which the groups are asked once and the answer is received |
| Runs.AnsweredExactlyOnce | tools/pwrdaemon/router/commRespEvent.h:88-97 | at any point of any run a read that was sent is either outstanding or was answered exactly once with its own id, and ids never sent have no answer |
| Runs.AnswerIsSum | tools/pwrdaemon/router/commRespEvent.h:52-67 | every answer has a row for each group, the column sum of what the members of that group owe, and no error; all its members were fit for the request |
| Stamps.StampsWereReported | src/pwr/distRequest.cc:86-105 | in every run, the time stamps an answer has for a group were reported, in a step of that run and for the attributes asked for, by a server at the end of a path of servers asking servers that starts in the group |
| Stamps.RunTimed | tools/pwrdaemon/server/commReqEvent.h:65-67 | in every state of a run, every time stamp in a reply, a record or an answer was reported in that run |
| CircuitStamps.StepTimed | tools/pwrdaemon/router/commRespEvent.h:52-67 | every step hands on only time stamps that were reported |
| Runs.EveryLookupMet | src/pwr/distComm.cc:47-62 | when servers start and applications ask for fit reads, no step of any run meets a missing communicator, member, request record, finiMap entry or full group, nor fails an assert about objects or attributes, at startup or later |
| Runs.RunsGoThroughIff | tools/pwrdaemon/router/rtrRouterEvent.h:26-32 | all runs of fit reads go through if and only if every server that is started gets through its startup |
| CircuitFit.FitAsserted | tools/pwrdaemon/server/commCreateEvent.h:25-39 | when everything under way is fit, no enabled step fails an assert: created members exist, their objects construct, and requests share one communicator |
| CircuitFit.FitKeeps | tools/pwrdaemon/server/commReqEvent.h:29-77 | every step keeps everything under way fit, the requests servers make of their own included |
| Runs.ServerAnswersOnce | tools/pwrdaemon/server/server.cc:77-105 | the finiMap of a server holds exactly the jobs whose remote answer is outstanding; every other one was completed exactly once |
| Runs.PendingIsIncomplete | tools/pwrdaemon/router/commReqEvent.h:41-72 | pending of every outstanding record is the number of its incomplete groups, is positive, and no group holds more replies than members |
| Runs.PendingOnlyBefore | tools/pwrdaemon/router/serverEvents.h:26-34 | in every run a pending queue is empty once its server is registered, nothing reaches a server before that, and the queue holds events for that server only |
| Runs.LosslessFifo | tools/pwrdaemon/router/router.cc:129-194 | the events between a router and a server, over links, forwarding routers, the pending queue and the inbox together, change only by the fan-out appending and the server taking the first: nothing is lost, duplicated or reordered |
| Runs.QuietMeansAnswered | tools/pwrdaemon/server/commReqEvent.h:63-74 | when all queues are empty no read is outstanding, at any depth of servers asking servers |
| Runs.Progress | tools/pwrdaemon/router/serverEvents.h:26-34 | while any read is outstanding, of an application or of a server, some queued event can be moved on, or a started server register for which events wait, and the step fails nothing |
| Endings.EveryReadAnswered | tools/pwrdaemon/router/commRespEvent.h:88-97 | after any run, every continuation without new uses has at most n steps, and where nothing can be moved any more every read of every context has its answer |
| Endings.StepLowers | tools/pwrdaemon/router/router.cc:129-194 | every step but a new use lowers a bound on what the queued events can still cause |
| Endings.EndsWithin | tools/pwrdaemon/router/router.cc:129-194 | a continuation and what its last state can still cause stay within the bound of the state it started from |
| Endings.Completes | tools/pwrdaemon/router/commRespEvent.h:88-97 | every run of fit reads can be continued until nobody waits |
| Measure.AskerAbove | tools/pwrdaemon/router/commRespEvent.h:91-97 | an answer costs less than the reply that completes it, because the server that asked stands above those it asked |
| Runs.MissingReply | tools/pwrdaemon/router/commRespEvent.h:41-43 | a record that still counts a pending group lacks a reply of some member of it |
| Simulation.StepSimulates | tools/pwrdaemon/router/router.cc:129-176 | each step of the multi-hop network is one step of the per-server circuits or leaves them unchanged, and keeps every packet where it may be |
| Simulation.ApplyKeeps | tools/pwrdaemon/router/commRespEvent.h:34-104 | each protocol step that fails no assert keeps the invariant of all contexts, routers and servers |
| Simulation.SimHop | tools/pwrdaemon/router/rtrRouterEvent.h:26-32 | a forwarding step is invisible to the circuits unless the packet is a reply for the forwarding router, and then it is that reply being gathered |
| Simulation.SimRegister | tools/pwrdaemon/router/serverEvents.h:26-34 | registering a server and flushing its queue is invisible to the circuits |
| Simulation.SimServer | tools/pwrdaemon/server/routerEvent.h:26-43 | a server taking an event from its inbox is the circuit step of the event's router |
| CircuitInvariant.InitialInv | tools/pwrdaemon/router/client.cc:16-18 | the invariant holds before anything was sent |
| CircuitInvariant.StepDefined | tools/pwrdaemon/router/client.cc:37-44 | under the invariant every enabled step finds its communicator, record, job and waiting request; what is left are the asserts about the configuration, the subject of CircuitFit.FitAsserted |
| CircuitInvariant.TokenHasRoom | tools/pwrdaemon/router/commRespEvent.h:39-43 | a reply under way refers to a live record whose group still waits for it |
| CircuitSteps.UseKeeps | src/pwr/distComm.cc:47-81 | using a communicator, created on first use, keeps the invariant |
| CircuitRouter.AtRouterKeeps | tools/pwrdaemon/router/commReqEvent.h:29-74 | entering a communicator and fanning a request out keep the invariant |
| CircuitRouter.QueriesCount | tools/pwrdaemon/router/commReqEvent.h:65-72 | a member is sent one query for each time it occurs in a group, stamped with that group |
| CircuitServer.AtServerKeeps | tools/pwrdaemon/server/commReqEvent.h:29-77 | a server taking a create or request event, answering at once or asking others, keeps the invariant |
| CircuitReply.AtReplyKeeps | tools/pwrdaemon/router/commRespEvent.h:34-104 | gathering a reply, and sending the answer with the last one, keep the invariant |
| CircuitReply.CompleteRow | tools/pwrdaemon/router/commRespEvent.h:52-67 | when no group is pending, each row is the sum of what exactly the members of its group owe |
| CircuitReply.LastReplyLeavesNothing | tools/pwrdaemon/router/commRespEvent.h:91-97 | once the answer is sent, nothing in the network refers to the deleted record |
| CircuitDeliver.DeliverKeeps | src/pwr/distCntxt.cc:382-397 | a context processing an answer, and a server sending its own reply on, keep the invariant |
| CircuitDeliver.JobReply | tools/pwrdaemon/server/server.cc:90-105 | the reply of a completed job is the row the server owes, for a record that waits for it |
| Gather.AnswerWhenComplete | tools/pwrdaemon/router/commRespEvent.h:88-97 | in every order of arrival pending is 0 exactly when no group is empty and every member of every group has answered |
| Gather.AnswerableIff | tools/pwrdaemon/router/commReqEvent.h:43-72 | some run of replies leads to an answer if and only if the request has groups and none of them is empty |
| Gather.AnswerOnce | tools/pwrdaemon/router/commRespEvent.h:91-97 | no proper prefix of a run is complete, so the answer leaves with the last reply only |
| Gather.AnswerRow | tools/pwrdaemon/router/commRespEvent.h:52-67 | entry i of row g is the sum of entry i over the replies of group g |
| Gather.RowsIgnoreOrder | tools/pwrdaemon/router/commRespEvent.h:52-67 | two runs delivering the same replies in different orders give the same rows |
| Gather.ErrorsConserved | tools/pwrdaemon/router/commRespEvent.h:69-83 | the answer holds every error every reply reported, as often as it was reported |
| Gather.ErrorsInOrder | tools/pwrdaemon/router/commRespEvent.h:69-83 | the errors of a group stand in the order in which its replies came |
| Gather.IncompleteZero | tools/pwrdaemon/router/commRespEvent.h:43-43 | the count of incomplete groups is 0 exactly when every group is non-empty and full |
| Gather.SumGroup | tools/pwrdaemon/router/commRespEvent.h:52-67 | the accumulation loops compute the column sums of the queued rows and keep the last reply's time stamps |
| Gather.CollectErrors | tools/pwrdaemon/router/commRespEvent.h:69-83 | the error loop appends the errors of all queued replies in order |
| Gather.CommReqInfo.constructor | tools/pwrdaemon/router/commReqEvent.h:41-63 | a new record has one empty queue and the right size for each group and all groups pending |
| Gather.CommReqInfo.OnReply | tools/pwrdaemon/router/commRespEvent.h:34-104 | the record after a reply is the gathering function of the record before; the answer is due exactly when pending reaches 0 |
| AttrTree.HasServerIff | examples/config/pyConfig.py:284-302 | an object has a server exactly when it or an ancestor is located |
| AttrTree.RemoteBelow | src/pwr/distCntxt.cc:276-279 | every object the cut leaves to a server has one and lies below the object read |
| AttrTree.KidsDisjoint | src/pwr/distCntxt.cc:314-322 | different children never leave the same object to a server, so the set loses nothing |
| AttrTree.CutPreservesSum | src/pwr/distCntxt.cc:271-323 | for every placement of servers, local devices plus everything below the remote objects sum to the flat sum |
| AttrTree.SumNamesPermutation | src/pwr/distComm.cc:36-45 | the sum does not depend on the order in which the set of objects is listed |
| Serving.LocatedCut | src/pwr/distCntxt.cc:276-279 | a context rooted at a located object keeps exactly its own devices and leaves exactly its children |
| Serving.ServedIff | src/pwr/distObject.cc:37-47 | a server answers exactly when it and every server it asks start and read all attributes in the same way, and then with the row it owes in the runs |
| Serving.StartsIff | src/pwr/distObject.cc:37-47 | the asserts of the constructor hold for a server's object if and only if it has devices or children but not both, and the same children for every attribute that has any |
| Serving.AlikeIff | src/pwr/distObject.cc:171-178 | the assert about a request holds at a server if and only if all its attributes have the same children there |
| Serving.OwedFlatIff | src/pwr/object.cc:74-89 | a column of a fit server's row is the flat sum for all device values if and only if no device that counts, at any depth, fails or comes after an attribute that cannot be read |
| AppRead.DistributedReadIff | src/pwr/distCntxt.cc:250-263 | a read of any attributes of any object by any context succeeds if and only if the asserts about the object and the request hold, every attribute is valid, its own devices work and every server asked is fit |
| AppRead.FlatIffWhole | src/pwr/distObject.cc:126-140 | a successful read equals the flat sum for all device values if and only if no device that counts below the servers asked fails or comes after an attribute that cannot be read |
| Serving.LocalRowCompleteIff | src/pwr/object.cc:74-89 | a multi-attribute read at a server equals separate reads, for all device values, if and only if no readable attribute follows an unreadable one |
| Serving.OwedIsFlat | src/pwr/distObject.cc:158-186 | each whole column of the row a fit server owes, by recursion through the servers it asks, is the flat sum of that attribute |
| Serving.DeploymentGood | src/pwr/distObject.cc:171-178 | a server that asks others owes the sum of what they owe, and is fit exactly when it starts, takes the request and they are fit |
| Serving.DeploymentRanked | src/pwr/distCntxt.cc:276-279 | servers only ask servers deeper in the tree, so asking is well-founded |
| Contexts.DistCntxt.TraverseInto | src/pwr/distCntxt.cc:271-323 | the accumulating recursion collects handles for exactly the local devices of the cut, in order, and exactly its remote objects |
| Contexts.DistCntxt.OpenDevices | src/pwr/distCntxt.cc:286-312 | each device is opened once and found again later |
| Contexts.DistCntxt.GetCommunicator | src/pwr/distCntxt.cc:168-175 | the same set of objects always gets the same communicator, and only a new set adds one |
| Contexts.DistCntxt.InitAttr | src/pwr/distCntxt.cc:220-270 | the attribute info holds the cut's devices, and a communicator for its remote objects exactly when there are some |
| Contexts.SumOp | src/pwr/distCntxt.cc:195-203 | the loop adds the values up, as a column of one-entry rows is added up |
| AttrTree.SumDevsIsSum | src/pwr/distCntxt.cc:195-203 | the sum over devices that flat sums are made of is the column sum of the devices' readings |
| Contexts.AttrGetValuesDevice | src/pwr/object.cc:94-114 | the sum over the devices, or an error when one fails; 0 without devices |
| Contexts.AttrGetValues | src/pwr/object.cc:67-92 | values up to the first attribute that is invalid or fails, 0 from there on, and failure reported exactly when there is one |
| Contexts.LocalRowIs | src/pwr/object.cc:67-92 | the buffer a server fills without asking others is the row it owes |
| Contexts.DistComm.ForGroup | src/pwr/distGrpComm.cc:10-29 | a group communicator sends its create event at once |
| Contexts.DistComm.GetChannel | src/pwr/distComm.cc:47-62 | the create event is sent by the first use and by no later one |
| Contexts.DistComm.GetValues | src/pwr/distComm.cc:64-81 | a request follows the create event of its communicator, which is sent if it was not yet |
| ServerDaemon.ServerNode.OnOpen | tools/pwrdaemon/server/commCreateEvent.h:21-37 | a create event, whose asserts about the object and the root the step demands, is the model's step: the member is kept under the communicator |
| ServerDaemon.ServerNode.OnQuery | tools/pwrdaemon/server/commReqEvent.h:29-77 | the server takes the model's step for a request: a reply at once exactly when it reads its own devices, otherwise a finiMap entry and a request of its own |
| ServerDaemon.ServerNode.AnswerNow | tools/pwrdaemon/server/commReqEvent.h:85-103 | a local read is answered with the row owed, its ids and group, without errors, and its finiMap entry is gone |
| ServerDaemon.ServerNode.AskOthers | src/pwr/distObject.cc:180-186 | the job stays in the finiMap and the request goes to the one communicator of the root object, created first if need be |
| ServerDaemon.ServerNode.Fini | tools/pwrdaemon/server/server.cc:90-105 | the reply goes to the router the request came from, with its id and group, and the entry is erased |
| ServerDaemon.ServerNode.OnAnswer | src/pwr/distRequest.cc:86-105 | an answer completes exactly the job it belongs to; its first row, time stamps and errors are sent on unchanged, as in the model's step |
| AppIds.Unpack | tools/pwrdaemon/router/router.h:33-35 | packing two 32-bit ids and taking them apart gives them back |
| AppIds.Repack | tools/pwrdaemon/router/router.h:33-35 | taking a 64-bit id apart and packing the parts gives it back |
| AppIds.DropsIff | tools/pwrdaemon/router/router.cc:119-127 | an event is dropped if and only if the table maps its name to router 0, server -1 |
| AppIds.MissIsRouted | tools/pwrdaemon/router/router.h:152-159 | a name that is not in the table is not dropped but routed to router -1, server -1 |
| Routers.PickedOnce | tools/pwrdaemon/router/treeCore.cc:68-81 | the link for an id is unique |
| Routers.TreeCore.GetChannel | tools/pwrdaemon/router/treeCore.cc:68-81 | the scan returns the send channel of the first link past 0 whose range holds the id, else of link 0, and nothing without links |
| Routers.RouterNode.InitRouteTable | tools/pwrdaemon/router/router.cc:101-101 | the table is the map of the parsed lines, later lines winning |
| Routers.RouterNode.FindServerChan | tools/pwrdaemon/router/router.cc:205-212 | the channel of a registered server, and none for the router itself |
| Routers.RouterNode.Dispatch | tools/pwrdaemon/router/router.cc:137-176 | an event ends on the channel its destination selects, or at the end of the pending queue of an unregistered local server; nothing else changes |
| Routers.RouterNode.SendTo | tools/pwrdaemon/router/router.cc:119-127 | an event for a name is wrapped with the router's own id as source and dispatched, except for the one dropped destination |
| Routers.RouterNode.Forward | tools/pwrdaemon/router/router.cc:146-157 | a router event is handed back exactly when it is for this router itself, otherwise dispatched unchanged |
| Routers.RouterNode.ServerConnect | tools/pwrdaemon/router/serverEvents.h:26-34 | the server is registered under its id and its queue sent on its channel in order |
| Routers.RouterNode.DoPending | tools/pwrdaemon/router/router.cc:178-194 | exactly the queued events, in order, go to the end of the channel and the queue is erased |
| Routers.SendMirrors | tools/pwrdaemon/router/router.cc:129-176 | sending in a router with 64-bit ids, channels and a route table is sending in the network model |
| Routers.RegisterMirrors | tools/pwrdaemon/router/serverEvents.h:26-34 | registration in the router is registration in the network model |
| RouterEvents.Requests.AddComm | tools/pwrdaemon/router/client.cc:37-40 | a communicator is entered under client and id; the assertion that it is new holds in every run |
| RouterEvents.Requests.Start | tools/pwrdaemon/router/commReqEvent.h:33-63 | a fresh record under a fresh id, with the client's own id kept for the answer |
| RouterEvents.Requests.Reply | tools/pwrdaemon/router/commRespEvent.h:39-103 | the record is updated by the reply, or answered with the original id and deleted when the reply was the last |
| RouterEvents.SendGroup | tools/pwrdaemon/router/commReqEvent.h:69-71 | the inner loop sends the event to every member in order |
| RouterEvents.SendOpens | tools/pwrdaemon/router/commCreateEvent.cc:26-44 | every member of every group is sent a create event holding only itself |
| RouterEvents.SendQueries | tools/pwrdaemon/router/commReqEvent.h:65-72 | every member of every group is sent the request with the new id and its group's index |
| RouterEvents.OnCreate | tools/pwrdaemon/router/commCreateEvent.cc:21-47 | router and requests take the network's step for a create event |
| RouterEvents.OnRequest | tools/pwrdaemon/router/commReqEvent.h:29-74 | router and requests take the network's step for a request |
| RouterEvents.OnRouterEvent | tools/pwrdaemon/router/rtrRouterEvent.h:26-32 | router and requests take the network's step for an arriving router event: gathered here or forwarded |
| Serial.ItemRoundTrip | src/pwr/serialize.h:21-125 | popping what was pushed gives back integers of any width, strings and vectors nested to any depth, and leaves every earlier byte |
| Serial.EncodingUnique | src/pwr/serialize.h:21-125 | a buffer determines the last item of a type and what is before it |
| Serial.ByteAt | src/pwr/serialize.h:92-97 | the bytes written are those the shifts and masks select |
| Serial.StringLayout | src/pwr/serialize.h:26-35 | a string is its characters and then their number in eight bytes, low byte first |
| Serial.VectorLayout | src/pwr/serialize.h:54-62 | a vector is its elements, first to last, and then their number |
| Serial.SerialBuf.Out | src/pwr/serialize.h:92-97 | the bytes of the number are appended, low byte first |
| Serial.SerialBuf.In | src/pwr/serialize.h:112-120 | the number read from the end of the buffer, which is shortened by its width |
| Serial.SerialBuf.PutString | src/pwr/serialize.h:26-35 | characters, then their number, are appended |
| Serial.SerialBuf.GetString | src/pwr/serialize.h:42-52 | the string is read back from the end |
| Serial.SerialBuf.Put | src/pwr/serialize.h:54-90 | any item is appended in its encoding |
| Serial.SerialBuf.Get | src/pwr/serialize.h:64-110 | any item is read from the end of the buffer |
| Events.EventRoundTrip | src/pwr/events.h:24-286 | for every event type and any prior buffer content, reading after writing recovers all fields, negative codes included, and leaves the prior bytes |
| Events.NestedRoundTrip | tools/pwrdaemon/router/routerEvent.h:23-62 | an event inside a router event arrives with source, destination and contents intact |
| Events.ReplyReturns | tools/pwrdaemon/server/server.cc:97-99 | a reply wrapped with the request's ends swapped reads back as addressed to the asking router |
| Events.RouterEventLayout | tools/pwrdaemon/router/routerEvent.h:23-62 | a router event on the wire is header, destination, source, type, and the event it carries with its length, byte by byte |
| Events.CodeBack | src/pwr/eventType.h:15-33 | the type code of an event selects its own reader |
| Events.SerializeOut | src/pwr/event.h:51-56 | the method writes the encoding of any event behind the buffer |
| Events.SerializeIn | src/pwr/event.h:58-63 | the method reads any event from the end of the buffer |
| Events.OutAndIn | src/pwr/events.h:24-286 | an event written and read is the same and the buffer is as before |
| TreeRouting.BoardsHostedIff | examples/config/daemon.py:84-114 | every board's router id is run by some node if and only if boards have room for two nodes |
| TreeRouting.RouterIdsDiffer | examples/config/daemon.py:104-113 | no two nodes run routers with the same id |
| TreeRouting.IdsAreHosted | examples/config/daemon.py:104-113 | the ids of the boards and of the root are exactly those some node runs |
| TreeRouting.RootHost | examples/config/exec.py:56-60 | the root router runs under an id of its own, or is the only router |
| TreeRouting.RootIsLast | examples/config/exec.py:56-60 | the root router runs on the last node of the first board |
| TreeRouting.CalcRtrRoot | examples/config/daemon.py:16-36 | the loop lists one link to the first node of every board, each covering that board's id |
| TreeRouting.TwoHops | examples/config/daemon.py:16-58 | from any router an event for any other is there after at most two hops, over nodes that run routers |
| TreeRouting.UnknownIdBounces | tools/pwrdaemon/router/treeCore.cc:68-81 | an event for an id no router has goes back and forth between root and leaf 0 |
| TreeRouting.TreeSound | tools/pwrdaemon/router/treeCore.cc:68-81 | every hop comes closer to the router named, for any number of boards |
| TreeRouting.TreeWired | tools/pwrdaemon/router/treeCore.cc:20-66 | the links a generated router is started with lead where the topology says, on separate channels |
| Numbering.TypePosIsNumber | examples/config/machine.py:73-102 | the accumulated positions plus the own index are the mixed-radix number of the name |
| Numbering.CalcNumber | examples/config/machine.py:73-102 | the loop computes that number |
| Numbering.ChildrenIs | examples/config/machine.py:104-119 | the number of children is min(per, total - index * per), and the error is taken exactly when the first child is out of range |
| Numbering.LeavesHaveNone | examples/config/machine.py:104-119 | a leaf has no children, whatever its number |
| Numbering.ChildrenAddUp | examples/config/machine.py:95-123 | over one level the children add up to the next level's total |
| Numbering.CheckIffEnumerated | examples/config/pyConfig.py:216-253 | a name is accepted if and only if repeated findChildren yields it |
| Numbering.ChildOf | examples/config/pyConfig.py:123-136 | each enumerated child extends its parent by an index below the number of children |
| Numbering.NumberInLevel | examples/config/pyConfig.py:242-253 | accepted names are numbered below the level's total |
| Numbering.NumberOnce | examples/config/pyConfig.py:46-54 | no two accepted names of a level have the same number |
| Numbering.NumberAll | examples/config/pyConfig.py:46-54 | every number of a level belongs to an accepted name |
| RouteFile.ParseDigits | tools/pwrdaemon/router/router.cc:98-99 | atoi of a number written in decimal gives the number |
| RouteFile.ServerNameOnce | examples/config/machine.py:137-147 | no two servers of a site have the same name |
| RouteFile.GenRouteFile | examples/config/machine.py:125-150 | the loops yield one line for each board and each existing node, in order, with board number and position; its text is RouteText.WriteRoutes |
| RouteFile.RouteTable | examples/config/machine.py:125-150 | the table re-read from the lines holds exactly the servers of the site, each under its board and position |
| RouteFile.ServerRouted | tools/pwrdaemon/router/router.cc:92-103 | each server has its own entry and both id parts read back within 32 bits |
| RouteText.SiteFile | tools/pwrdaemon/router/router.cc:92-103 | the file written for a site, as text, gives a router that reads it exactly the table of the site |
| RouteText.ReadRouteTable | tools/pwrdaemon/router/router.cc:92-103 | the loop over the lines gives the map of what each line says, later lines winning, and nothing when a line has no colon past its start |
| RouteText.WriteRoutes | examples/config/machine.py:140-147 | the writes produce the lines one after the other |
| RouteText.RoutesBack | tools/pwrdaemon/router/router.cc:92-103 | any file of lines with clean names is read back line by line |
| RouteText.LineBack | tools/pwrdaemon/router/router.cc:93-101 | a written line is read back by the two colon searches and atoi, although the middle part is cut out too long |
| RouteText.LineExample | examples/config/machine.py:140-147 | a line of the file to the letter |
| RouteText.AtoiIsPositional | tools/pwrdaemon/router/router.cc:98-99 | atoi reads a digit string to base 10 |
| RouteText.SplitDotted | examples/config/machine.py:73-74 | a dotted name of dot-free components is taken apart into them |
| RouteFile.PlacementRouted | examples/config/daemon.py:120-144 | the roots of the servers started on any node are in the table, under the router that runs on the host they connect to |
| RouteFile.TableStarted | examples/config/daemon.py:61-81 | every entry of the table belongs to a server that is started |
| RouteFile.TableInjective | examples/config/machine.py:131-147 | no two names have the same id |
| RouteFile.SetLocations | examples/config/machine.py:152-168 | the nested loops mark exactly the names of the route table |
| Generated.AcceptedIffRouted | examples/config/pyConfig.py:216-253 | the configuration accepts a board or node name if and only if the route table has its server |
| Generated.TableGood | tools/pwrdaemon/router/router.cc:92-103 | the table every router reads meets all the routers' requirements |
| Generated.StartMirrors | examples/config/daemon.py:93-118 | every generated router starts out agreeing with the empty network |
| SiteReads.SiteServes | examples/config/daemon.py:93-144 | a generated site of any size, with the configuration of its machine file, is a network all end-to-end theorems hold of, and every server starts |
| SiteReads.LeftIsRouted | examples/config/machine.py:152-168 | whatever any context leaves to servers in a read of any object is in the route table |
| SiteReads.SiteAsks | examples/config/dummy.py:10-42 | a context that is no server asks exactly the boards below a platform, cabinet or board, or the node itself, and no assert fails |
| SiteReads.SiteTargets | examples/config/dummy.py:10-42 | the servers it asks are fit, and whole in every column when the devices of the nodes work |
| SiteReads.SiteRead | examples/config/machine.py:125-168 | in every run of a site, the answer to a read of any object of it is the flat sum below that object |
| SiteReads.PlatformRead | examples/config/machine.py:125-168 | in every run of a site, the answer to a read of the platform is the sum over all its nodes, each once |
| SiteReads.SiteAnswers | examples/config/daemon.py:93-144 | and such an answer does arrive in some run, for every object |
| SiteConfig.SiteWellFormed | examples/config/pyConfig.py:168-181 | the configuration of a site has distinct children everywhere and ends at the nodes |
| SiteConfig.SiteFit | src/pwr/distObject.cc:37-47 | every located object of a site is fit for the attributes of the tree, and every node for its own |
| SiteTotals.PlatformIsAllNodes | examples/config/machine.py:104-119 | the flat sum of the platform is the sum over the nodes 0 to n-1 |
| Groups.RowsInPlaceIff | src/pwr/distGroup.cc:120-128 | every object of a group gets its own row, whatever the values, if and only if the group is all remote, or all local without duplicates |
| Groups.FilterIs | src/pwr/distGroup.cc:19-38 | the remote objects of a group are kept in the order they were added |
| Groups.OnceIs | src/pwr/distGroup.cc:19-38 | a local object added more than once is kept where it came first |
| Groups.DistGrp.Add | src/pwr/distGroup.cc:19-38 | a remote duplicate is refused, everything else is added to the group |
| Groups.DistGrp.AttrGetValues | src/pwr/distGroup.cc:86-140 | the buffer holds local rows by their place among the locals, overwritten by remote rows by theirs |
| XmlText.CharRefValue | src/tinyxml2/tinyxml2.cpp:330-405 | a decimal or hexadecimal reference below 0x200000, with any number of leading zeros, has its positional value |
| XmlText.GetCharacterRef | src/tinyxml2/tinyxml2.cpp:330-405 | the method computes code and length of a reference, or fails |
| XmlText.ScanBack | src/tinyxml2/tinyxml2.cpp:356-398 | the right-to-left loop with its 32-bit multiplier is the scan function |
| XmlText.Utf8Back | src/tinyxml2/tinyxml2.cpp:282-327 | the bytes emitted for a code below 0x200000 decode back to it in the layout of section 3 of RFC 3629 |
| XmlText.ConvertUTF32ToUTF8 | src/tinyxml2/tinyxml2.cpp:282-327 | the fall-through cases, with the masks of the code, emit those bytes |
| XmlText.NextByteIs | src/tinyxml2/tinyxml2.cpp:307-325 | masking the low byte with 0x80 and 0xBF leaves the low six bits under the mark of a following byte |
| XmlText.NextBounded | src/tinyxml2/tinyxml2.cpp:210-243 | no entity or reference writes more than it reads, so the write pointer never passes the read pointer |
| XmlText.InPlaceExactIff | src/tinyxml2/tinyxml2.cpp:188-250 | decoding in place equals the pure decoding if and only if no unknown entity comes where the shrunk text left another byte |
| XmlText.StaleExample | src/tinyxml2/tinyxml2.cpp:237-241 | the text &lt;&x comes out as <lx |
| XmlStrings.PrintString | src/tinyxml2/tinyxml2.cpp:1885-1920 | the run-flushing printer writes each character escaped by itself |
| XmlStrings.EscapeDecoded | src/tinyxml2/tinyxml2.cpp:178-260 | decoding the escaped form of any CR-free text gives the text, without meeting anything unknown |
| XmlStrings.EscapeInPlace | src/tinyxml2/tinyxml2.cpp:178-260 | escaped text survives the in-place decoder |
| XmlStrings.GetStr | src/tinyxml2/tinyxml2.cpp:178-260 | the method leaves the in-place decoding in the buffer, terminated, and touches nothing outside the value; it follows a null pointer exactly when the value has a reference that is incomplete or not a number |
| XmlStrings.ReadBack | src/tinyxml2/tinyxml2.cpp:178-260 | a value without carriage returns that was escaped when printed is there again, terminated, after decoding in place |
| XmlValues.ValueDecoded | src/tinyxml2/tinyxml2.cpp:178-260 | a value of plain characters, line breaks of all four forms, the five entities and character references is, one after the other, the characters, one line feed each, the five characters and the UTF-8 bytes of the codes |
| XmlValues.ReadValue | src/tinyxml2/tinyxml2.cpp:178-260 | and GetStr leaves exactly that in the buffer, terminated |
| XmlValues.ReferenceNext | src/tinyxml2/tinyxml2.cpp:210-226 | a decimal or hexadecimal reference is taken whole, and the UTF-8 bytes of its positional value are written |
| XmlValues.DigitsAre | src/tinyxml2/tinyxml2.cpp:345-398 | the digits, in both cases, and what they are worth |
| XmlValues.EscapedAs | src/tinyxml2/tinyxml2.cpp:1885-1920 | the entity each special character is printed as, and that all others are printed as they are |
| XmlTree.TagRead | src/tinyxml2/tinyxml2.cpp:1426-1515 | a printed start tag with legal names and distinct attributes is read back, whatever follows |
| XmlTree.EndRead | src/tinyxml2/tinyxml2.cpp:833-841 | an end tag is handed back to the level above |
| XmlTree.DocRead | src/tinyxml2/tinyxml2.cpp:795-871 | parsing the text of any list of legal elements, compact or indented, gives them back |
| XmlLayout.LevelIgnores | src/tinyxml2/tinyxml2.h:489-500 | the six white space characters before an element or the end of the text change nothing |
| XmlLayout.TagIgnores | src/tinyxml2/tinyxml2.cpp:1426-1480 | nor do they before the name in a tag, an attribute, or the end of a tag |
| XmlLayout.AttrRead | src/tinyxml2/tinyxml2.cpp:1076-1101 | an attribute is read with white space around the equals sign and either kind of quotes |
| XmlLayout.OnlyAttributes | src/tinyxml2/tinyxml2.cpp:1076-1101 | and nothing else is read as an attribute |
| XmlLayout.ReadIsWellNamed | src/tinyxml2/tinyxml2.cpp:1426-1480 | whatever text is read, all names are legal and no element has an attribute twice |
| XmlLayout.Mismatched | src/tinyxml2/tinyxml2.cpp:833-860 | an element closed under another name, or not at all, is an error |
| XmlLayout.PrintedPair | src/tinyxml2/tinyxml2.cpp:1935-2020 | an element with an attribute and two empty children is printed to the letter, on four lines or on one |
| XmlDocument.PrintParse | src/tinyxml2/tinyxml2.cpp:795-871 | printing and parsing is the identity on names, attributes, values and nesting, values escaped and decoded |
| XmlDocument.XMLPrinter.OpenElement | src/tinyxml2/tinyxml2.cpp:1935-1953 | the open tag is sealed, indentation and the new start written, and the name stacked |
| XmlDocument.XMLPrinter.PushAttribute | src/tinyxml2/tinyxml2.cpp:1956-1962 | the attribute is written with its value escaped |
| XmlDocument.XMLPrinter.CloseElement | src/tinyxml2/tinyxml2.cpp:1997-2020 | an empty element is closed in its tag, any other by the end tag of the stacked name |
| XmlDocument.XMLPrinter.Visit | src/tinyxml2/tinyxml2.cpp:1557-1567 | visiting an element writes exactly its text, leaving depth and stack as they were |
| XmlDocument.XMLPrinter.Print | src/tinyxml2/tinyxml2.cpp:1785-1792 | printing a document writes exactly its text |
| XmlDocument.SkipWhiteSpace | src/tinyxml2/tinyxml2.h:489-500 | the cursor stops where the white space ends |
| XmlDocument.ParseName | src/tinyxml2/tinyxml2.cpp:131-148 | the cursor moves over the longest legal name |
| XmlDocument.ParseAttribute | src/tinyxml2/tinyxml2.cpp:1076-1101 | the cursor parser is the attribute function of the remaining text |
| XmlDocument.ParseAttributes | src/tinyxml2/tinyxml2.cpp:1426-1480 | the loop reads all attributes and the end of the tag, and fails on duplicates |
| XmlDocument.ParseElement | src/tinyxml2/tinyxml2.cpp:1487-1511 | name, kind and attributes of a tag |
| XmlDocument.IdentifyTag | src/tinyxml2/tinyxml2.cpp:493-560 | whether the next thing at the cursor is an element or an end tag, and what the level makes of it |
| XmlDocument.ParseDeep | src/tinyxml2/tinyxml2.cpp:795-871 | on a level of elements the loop with its recursion builds the parse of the remaining text, end tags handed back between levels |
| XmlDocument.Parse | src/tinyxml2/tinyxml2.cpp:1756-1782 | the text after leading white space is parsed; a blank text is the error of an empty document |
| XmlDocument.SaveAndLoad | src/tinyxml2/tinyxml2.cpp:1785-1792 | a document printed and parsed is the same document, in both modes; without elements it is the error of an empty document |
| Dom.XMLNode.Unlink | src/tinyxml2/tinyxml2.cpp:624-640 | the five pointers agree on the list without the child, whose parent is null |
| Dom.InsertEndChild | src/tinyxml2/tinyxml2.cpp:650-678 | all lists of the document stay consistent; the node is the last child, behind the one that was last, and all other nodes follow each other as before, without it |
| Dom.InsertFirstChild | src/tinyxml2/tinyxml2.cpp:681-710 | all lists stay consistent; the node is the first child, before the one that was first, and all other nodes follow each other as before, without it |
| Dom.InsertAfterChild | src/tinyxml2/tinyxml2.cpp:713-738 | refused exactly for a foreign sibling; a null pointer followed exactly when the node is the last and already follows the sibling; behind itself no lists explain the pointers; otherwise the node is right behind the sibling, and all others follow each other as before |
| Dom.DeleteChildren | src/tinyxml2/tinyxml2.cpp:612-621 | the loop ends with the empty list and all former children detached, other lists as they were |
| DomTree.StaysTreeIff | src/tinyxml2/tinyxml2.cpp:650-738 | a move keeps the document a tree if and only if the new parent is not the moved node or below it |
| DomTree.InsertionsMove | src/tinyxml2/tinyxml2.cpp:650-738 | the three insertions are such moves |
| MemPool.MemPoolT.Alloc | src/tinyxml2/tinyxml2.h:342-364 | a chunk that is not live becomes live, from the free list or a new block; live and free chunks together are exactly the chunks of the blocks, COUNT each |
| MemPool.MemPoolT.Free | src/tinyxml2/tinyxml2.h:365-376 | the chunk leaves the live ones for the front of the free list; nothing happens for null |
| MemPool.NewBlock | src/tinyxml2/tinyxml2.h:344-352 | the chunks of a block are different and each leads to the next |
| Flattening.Flatten | tools/pwrgen.cc:61-82 | the sibling loop with its recursion appends the flat list of the subtree in order, names cut to the buffer |
| Flattening.FlattenPreserves | tools/pwrgen.cc:61-82 | the dotted names are pairwise distinct and looking names up rebuilds the nested tree |
| Flattening.FlatInOrder | tools/pwrgen.cc:61-82 | the flat list has one entry for each object, in document order, whose name ends in the object's name and index |
| Flattening.PwrgenPreserves | tools/pwrgen.cc:163-166 | translated, copied and flattened, every hardware description without clashing copies and overlong names is read back as the tree it was |
| Flattening.ParentInverts | src/pwr/xmlConfig.cc:263-289 | findParent inverts findChildren, and every flat object is a listed child of its parent |
| Flattening.ParentOf | src/pwr/xmlConfig.cc:394-403 | the parent of a dotted name with a dot-free last part is what stands before it |
| Flattening.FoundIffFits | tools/pwrgen.cc:65-73 | every listed child can be looked up if and only if no dotted name is longer than the buffer |
| Flattening.FindObject | src/pwr/xmlConfig.cc:371-392 | the loop returns the first object of the name |
| Flattening.FindChildren | src/pwr/xmlConfig.cc:263-289 | the names of the children, or the failed assertion for an unknown object |
| Flattening.Translate | tools/pwrgen.cc:26-58 | the loop appends the translated objects, numbered consecutively, going into objects that are none of the three kinds |
| Flattening.NothingLost | tools/pwrgen.cc:26-58 | the machines, sockets and cores of a description, at any depth and in any other objects, are the objects of the result, in document order, as node, socket and core |
| Flattening.ParentsKept | tools/pwrgen.cc:26-58 | each of them is as deep, and so below the same one, as it was when other objects are not counted |
| Flattening.TranslatedGood | tools/pwrgen.cc:26-58 | translation gives siblings of distinct name and index, with names free of dots and digits, at every level |
| Flattening.Duplicate | tools/pwrgen.cc:97-105 | the copies carry indices 1 to n-1, the first object's name and everything below it; without a first object there is a null pointer |
| Flattening.CopiesGoodIff | tools/pwrgen.cc:97-105 | copying keeps siblings distinct if and only if no other child has the first one's name and an index a copy gets |

## Left out

- Sockets, select, threads, getopt, environment and the Python bridge: a channel is a sequence of events.
- Hardware plugins: a device is a value per attribute, readable or not, fixed during a run.
- Disconnects and CommDestroy: the servers and clients of a run stay (tools/pwrdaemon/router/router.h:124 always erases server 0, tools/pwrdaemon/router/client.cc:25 destroys only group 0).
- Memory ownership and deletes of events and records; DeleteChildren unlinks the children without freeing them.
- Events.EventRoundTrip: strings and vectors have fewer than 2^32 elements, because the loops count in 32 bits while the lengths have 64.
- EndToEnd.ReadIsFlatSum: the operation is SUM over Float attributes; the router asserts FP_ADD (tools/pwrdaemon/router/commRespEvent.h:59), and AVG and Integer are not modelled.
- EndToEnd.AllRunsGoThroughIff: a request that is not fit makes a server abort or wait, which ends the run here; what the other processes do afterwards is not modelled.
- Runs.AnsweredExactlyOnce: communicator ids are distinct and members are in the route table; set requests are covered by the gathering lemmas only, which treat Get and Set alike.
- Runs.AnswerIsSum: the error list of an answer is empty because a server's local errors are dropped at src/pwr/distObject.cc:130; that errors which do arrive are conserved is Gather.ErrorsConserved.
- The blocking wait (src/pwr/distRequest.cc:34-52): contexts use the non-blocking calls and makeProgress, as servers do.
- Simulation.StepSimulates: server ids are names at this level; the 64-bit ids and channels are those of Routers, connected by Routers.SendMirrors.
- AttrTree.SumNamesPermutation: the sorted order of the set of objects is not modelled, any fixed order serves.
- TorusCore, whose lookup ignores the id; the log and sample protocol, of which only the serialization is modelled.
- The text form of the router links on the command line: link records are taken as parsed, their numbers are modelled.
- RouteText.ReadRouteTable: a line without a colon past its first character, which the code cuts at npos, ends the reading here; the generator writes none.
- RouteFile.ServerRouted: fewer than 2^32 - 1 nodes, so that ids stay within their 32 bits.
- XmlDocument.PrintParse: elements with attributes only; text nodes, comments, declarations, CDATA and file loading are not modelled.
- XmlDocument.IdentifyTag: text, comments, declarations and CDATA are recognised only to make the level fail, where the code builds a node and goes on.
- XmlDocument.ParseDeep: a level that meets anything but elements fails, where the code goes on; the parser takes values as slices and decodes them when they are asked for, and that ending a name with NUL in the shared buffer happens late is not modelled.
- XmlDocument.PrintParse: names are legal, attribute names distinct, and values free of CR and NUL, which the parser does not preserve.
- XmlDocument.Parse: a byte order mark is not skipped; the printer of this model writes none.
- Dom.InsertEndChild: all nodes belong to one document; inserting a node of another document is refused by the code before anything else.
- Flattening.Flatten: the flat list and the child list are values; that it is done by moving nodes in the same document is the subject of Dom.
- Flattening.Translate: indices are unbounded, and translation is on values like flattening.
- DynArray, whose growth only copies; SetTracked of the pool, a counter nothing reads.
- Floating-point rounding: sums are over the reals.
- Command-line tools, loggers, examples and compliance tests.
