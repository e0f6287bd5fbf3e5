# psm2-nccl: the communicator and request engine, verified

psm2-nccl lets NCCL run over PSM2. Its core, `src/psm2_nccl_api.c`, keeps three
pieces of state that depend on each other: communicators that may share one
reference-counted endpoint, 32 reusable request slots per communicator whose
addresses the library hands back as context pointers, and a tag counter that
together with endpoint ids addresses messages between processes. This project
models that core and proves what it promises, for every run, every library
return code and every behaviour of the network.

## How it is put together

| file | contents |
|---|---|
| `Types.dfy` | the records and constants of `psm2_nccl_api.h`, 64-bit increment |
| `Psm2.dfy` | what the plugin relies on PSM2 for: endpoints, MQs, postings, completions |
| `Plugin.dfy` | the state of one process and the effect of each API call on it, in one step |
| `Invariants.dfy` | what holds between calls, and that each effect keeps it |
| `Progress.dfy` | draining completions one at a time against draining them all at once; how long it can take |
| `Engine.dfy` | the C code in its own form: `Comm` objects with a slot array on a heap, globals, the scan, the loop; each method is proved to have the effect `Plugin` gives |
| `Runs.dfy` | calls as steps, callers' obligations, rollback, and theorems over all runs of a process |
| `Ledgers.dfy` | an abstract request engine without slots, queues or reuse, and what is true of it |
| `Refinement.dfy` | the slots, flags and queues refine the ledger, call by call |
| `Histories.dfy` | the ledger's theorems carried over to all runs of the code |
| `Orders.dfy` | what one test does to other requests; the order of tests does not matter |
| `World.dfy` | any number of processes, one network: what is sent, who may get it, and that it can get there |
| `EndToEnd.dfy` | each process of a world run goes through a run of its own; from the report of a receive back to the isend it came from |

The methods of `Engine` follow the C branch by branch. Their postconditions
equate the new state with a function of `Plugin`; the theorems are proved about
those functions. `Engine.Process.Perform` closes the circle: every allowed call
of the class is, after what the network did meanwhile, a step of the transition
system that the run theorems are about, and `Runs.PerformedRun` continues a run
by those network events and the call. `EndToEnd.Projects` does the same for the
world: the history of each process in it is such a run.
In `Engine` the asserts of the progress loop are Dafny assertions, so that they
never fire is part of what is verified.

A `comm_req_t *` is the pair of a comm's address and a slot index. Addresses are
chosen by the allocator and may be reused after `free`. A slot's `req` field,
the library's request object, is a number that is never given twice; this is
what makes "which posting" a question that can be asked.

## What is assumed

Of PSM2, which is not part of this model:
- a request that was posted successfully is completed at most once, with the
  context it was posted with and at most the posted number of bytes; a failed
  post leaves nothing outstanding (it may scribble on `r->req`), and a failed
  `psm2_mq_init` or `psm2_ep_open` yields no handle;
- `psm2_mq_ipeek` and `psm2_mq_test` return OK or, for ipeek, INCOMPLETE, and
  then nothing is complete; every other call may return any code;
- all MQ handles of an endpoint share one completion queue, in any order (with a
  queue per handle, fewer completions would meet in one loop);
- every successful `psm2_mq_init` returns a handle of its own, also on an
  endpoint that has others, and `psm2_mq_finalize` releases only the handle it
  is given; endpoints and MQ handles are numbered by their opens and inits, so
  their numbers are never reused (`Invariants.Apart` and the MQ half of
  `Runs.EndpointLifetime` rest on this: were the MQs of an endpoint one handle,
  closing two comms in shared mode would finalize it twice);
- endpoint ids of different processes differ; one process may get an id again;
- a receive takes a message sent to its endpoint's id whose tag agrees with its
  own in the bits of its mask.

Of the callers: comms passed in are live, isend gets a sender and irecv a
listener, sizes are non-negative ints, a connect handle was issued by a listen,
and no comm is closed while the library has a request of it. A caller can tell:
it is so exactly when every slot in use is marked done (`Runs.CloseNeedsIdle`),
and it is enough to have been told done as often as one was handed a request
(`Histories.CloseWhenAllReported`). The code does not check it, and without it
the progress loop can be handed a pointer into a freed comm: in just which cases
is `Runs.EarlyCloseDangles`, a run that gets there `Runs.DanglingRun`.
`calloc` returns NULL or an address not in use. API calls of one process do not
overlap; the network acts at any time, also inside the progress loop.

## Where the code and its comments disagree

- The comment at `src/psm2_nccl_api.c:898` says `*done` is not modified when the
  slot is unused; line 903 writes 0 first. The model follows the code.
- The header comment at `src/include/psm2_nccl_api.h:91` says that comms are
  paired 1:1. Nothing enforces it and nothing here needs it: any number of
  senders may be connected with one handle.

## Model

| member | source | states |
|---|---|---|
| Engine.Comm.constructor | src/psm2_nccl_api.c:195 | a comm as calloc leaves it: every field and every slot zero |
| Engine.Comm.GetReq | src/psm2_nccl_api.c:270-295 | takes the lowest free slot and stamps it, leaves the others, returns NULL only if all are used |
| Engine.Comm.PutReq | src/psm2_nccl_api.c:297-301 | the slot is all zero again, the others untouched |
| Plugin.FirstFree | src/psm2_nccl_api.c:276-281 | the slot found is free and all before it are used |
| Engine.Process.InitEp | src/psm2_nccl_api.c:118-182 | success exactly when the device policy and the library allow it; then endpoint, record and reference are as granted, else nothing changed |
| Engine.Process.SetUp | src/psm2_nccl_api.c:195-210 | calloc, endpoint and MQ as far as the environment allows, and which of them were reached |
| Engine.Process.Init | src/psm2_nccl_api.c:184-219 | a comm with endpoint and MQ, or NULL and the process as before but for an endpoint opened and closed |
| Engine.BailIsReleasable | src/psm2_nccl_api.c:214-218 | tearing down a half-built comm is sound at every failure point and gives back exactly what was taken |
| Engine.Process.Fini | src/psm2_nccl_api.c:221-253 | MQ finalized before the endpoint closes, endpoint closed with the last reference only, record zeroed with it, comm gone, return code |
| Engine.Process.Complete | src/psm2_nccl_api.c:323-349 | following the context pointer, with the code's own asserts proved, marks exactly the slot that holds the completed posting |
| Engine.Process.MqProgressLoop | src/psm2_nccl_api.c:303-356 | under interference by the network the loop ends, after at most 32 completions per comm of the endpoint, with the queue empty, and equals one atomic drain after all the network did |
| Engine.Process.Listen | src/psm2_nccl_api.c:671-693 | the state and the results of listen, handle included |
| Engine.Process.Connect | src/psm2_nccl_api.c:701-742 | the state and the results of connect, for every way it can fail |
| Engine.UndoneConnection | src/psm2_nccl_api.c:729-741 | tearing down a comm that could not connect restores the record, the comms, the open endpoints and MQs |
| Engine.Process.Isend | src/psm2_nccl_api.c:799-820 | NULL when full; a failed post restores the slot array exactly; a posted request carries its slot as context, the peer's address and the tag |
| Engine.Process.Irecv | src/psm2_nccl_api.c:829-850 | the same for a receive, with the comm's own tag and all mask bits |
| Engine.Process.Test | src/psm2_nccl_api.c:901-935 | error and no change for an unused slot; otherwise the whole call is one atomic step at the moment the queue was empty |
| Engine.Process.Close | src/psm2_nccl_api.c:938-950 | the comm is torn down; success only if finalize and, for the last reference, close succeed |
| Engine.Process.Perform | src/psm2_nccl_api.c:671-955 | every allowed call of the class is a step of the transition system and keeps the invariant |
| Invariants.InitialInv | src/psm2_nccl_api.c:51-60 | the static initial state, with no tag issued, no comm and nothing open, satisfies the invariant |
| Invariants.CreatedEpInv | src/psm2_nccl_api.c:161-179 | creating a comm keeps record, reference count, endpoints and MQs in agreement |
| Invariants.LastUser | src/psm2_nccl_api.c:236-240 | the last reference to an endpoint is held by its only user |
| Invariants.LiveIsReleasable | src/psm2_nccl_api.c:221-253 | tearing down any live comm never underflows the count and closes no endpoint another MQ is on |
| Invariants.ReleasedEpInv | src/psm2_nccl_api.c:227-250 | tearing a comm down keeps that agreement |
| Invariants.PostedReqInv | src/psm2_nccl_api.c:804-819 | posting keeps slots and library in agreement |
| Invariants.DrainReqInv | src/psm2_nccl_api.c:330-348 | so does moving completions into slots |
| Invariants.TestInv | src/psm2_nccl_api.c:901-935 | so does a test |
| Progress.NetThenDrain | src/psm2_nccl_api.c:308-352 | completions already waiting and what the network does meanwhile commute |
| Progress.DispatchIsDrain | src/psm2_nccl_api.c:330-348 | the slot reached through the context pointer is the one, and the only one, holding the posting |
| Progress.OutstandingBound | src/include/psm2_nccl_api.h:94 | an endpoint never has more than 32 requests outstanding per comm |
| Progress.DrainingTurn | src/psm2_nccl_api.c:308-352 | one turn of the loop: what is outstanding strictly falls, and when nothing is ready the whole queue has been drained |
| Runs.ListenRollsBack | src/psm2_nccl_api.c:671-693 | a failed listen leaves record, counter, comms, endpoints, MQs and requests as they were, yields NULL and no handle, and has closed what it opened |
| Runs.ConnectRollsBack | src/psm2_nccl_api.c:706-741 | the same for connect, the MQ finalized too |
| Runs.CreatesIffObtainable | src/psm2_nccl_api.c:184-219 | a comm is created exactly if there is memory, an MQ, an endpoint when none can be shared, and, sharing under ERROR, the device is the shared one; under WARN any device will do |
| Runs.ListenSucceeds | src/psm2_nccl_api.c:671-693 | when listen returns success, in terms of the state before and the library's codes, nothing else |
| Runs.ConnectSucceeds | src/psm2_nccl_api.c:701-742 | the same for connect, both codes of psm2_ep_connect included |
| Runs.CreationInRun | src/psm2_nccl_api.c:123-181 | the same in any run, in terms of what callers did: successful listens so far, comms created and not closed, the device of the first |
| Runs.ListenExtends | src/psm2_nccl_api.c:681-690 | a successful listen adds one comm with the next tag and issues its handle; the increment does not wrap |
| Runs.NextInv | src/psm2_nccl_api.c:671-955 | every call keeps the invariant |
| Runs.NeverStuck | src/psm2_nccl_api.c:671-955 | no allowed call violates a precondition of the library |
| Runs.RunInv | src/psm2_nccl_api.c:671-955 | the invariant holds in every state of every run |
| Runs.NetworkRun | src/psm2_nccl_api.c:308-352 | whatever the network does at the end of a run makes a longer run, event by event |
| Runs.PerformedRun | src/psm2_nccl_api.c:671-955 | a call that takes effect after the network has acted, as each call of the class does, continues a run |
| Runs.TagsIncrease | src/psm2_nccl_api.c:676-688 | over any run tags strictly increase, across closes and reopenings, and stay at most ULLONG_MAX - 2 |
| Runs.TagCount | src/psm2_nccl_api.c:58 | tags are issued one by one from 0: a listen that works issues the number of those before it, and they run out exactly after ULLONG_MAX - 1 |
| Runs.GuardNeverWraps | src/psm2_nccl_api.c:676-679 | the guard's addition never wraps in a reachable state, so the guard means what it says |
| Runs.RefcountConservation | src/psm2_nccl_api.c:161-179 | the count is successful creates less closes; the record is zero exactly with no live comm; all live comms have its endpoint and id |
| Runs.EndpointLifetime | src/psm2_nccl_api.c:227-250 | no endpoint is closed twice, no live comm or MQ is on a closed one, shared mode has at most one open |
| Runs.ReleasedIffAllClosed | src/psm2_nccl_api.c:938-955 | everything is given back, each endpoint and MQ exactly once, if and only if as many comms were closed as created; accept and closeListen make no difference |
| Runs.DeviceAgreement | src/psm2_nccl_api.c:123-142 | under the ERROR policy all live comms were created for the shared endpoint's device, over any closes and reopenings |
| Runs.FirstDeviceShared | src/psm2_nccl_api.c:130-171 | under either policy all live comms are on the endpoint opened for the first one's device |
| Runs.CreatedEndpoint | src/psm2_nccl_api.c:144-181 | the endpoint of a new comm: a new one opened for the device asked for (if device numbers are used), or the one all others are on |
| Runs.PrivateDevices | src/psm2_nccl_api.c:151-153 | without sharing, over any run, every live comm's endpoint was opened for the device the comm was created for |
| Runs.CloseNeedsIdle | src/psm2_nccl_api.c:221-253 | closing keeps the library's context pointers valid if and only if every slot of the comm in use is marked done, which is when the library has no request of it |
| Runs.EarlyCloseDangles | src/psm2_nccl_api.c:250 | after a close some network event can put a context pointer into the freed comm at another comm's progress loop if and only if a slot in use was not done and another comm is on the endpoint |
| Runs.DanglingRun | src/psm2_nccl_api.c:330-341 | a run that gets there: the request was complete but not tested when its comm was closed |
| Runs.SlotLibraryAgreement | src/psm2_nccl_api.c:330-341 | a slot in use and not done is the context of exactly one library request, any other slot of none, and a free slot is all zero |
| Ledgers.ReportsLastPosting | src/psm2_nccl_api.c:901-935 | on the ledger, a report through a pointer is of the last posting given the pointer, with that posting's size |
| Ledgers.Conservation | src/psm2_nccl_api.c:901-935 | on the ledger, between any two moments without a close of the comm: entries before plus postings are reports plus entries after |
| Refinement.FullIffAllUsed | src/psm2_nccl_api.c:276-284 | the scan fails exactly when the ledger has 32 unreported postings of the comm |
| Refinement.PostRefines | src/psm2_nccl_api.c:799-850 | success without a request exactly when 32 are unreported, error exactly when a slot was free and the library fails and then nothing changes, otherwise success and a new entry under an unused pointer |
| Refinement.DrainRefines | src/psm2_nccl_api.c:341-348 | moving completions into slots does not change the ledger |
| Refinement.TestRefines | src/psm2_nccl_api.c:906-934 | done exactly when the slot's own posting is complete, wherever the completion waits; its size; and only that entry leaves |
| Refinement.CloseRefines | src/psm2_nccl_api.c:221-253 | closing forgets the comm's entries, all complete, and no other |
| Refinement.NextRefines | src/psm2_nccl_api.c:671-955 | every call is a step of the ledger with the ledger's results |
| Refinement.ReportedIsIdle | src/psm2_nccl_api.c:938-950 | a comm all of whose requests have been reported done may be closed |
| Refinement.SlotsInUse | src/psm2_nccl_api.c:276-288 | slots in use are requests in flight, queued and marked done |
| Histories.RunRefines | src/psm2_nccl_api.c:671-955 | every run of the code is a run of the ledger |
| Histories.TestReportsItsPosting | src/psm2_nccl_api.c:901-935 | no ABA: a test that says done reports the posting of the last call that returned the pointer, completed in between, on the comm it was made on, with its own byte count |
| Histories.ReportedOnce | src/psm2_nccl_api.c:916-934 | no posting is reported done twice in a run |
| Histories.RequestConservation | src/psm2_nccl_api.c:799-934 | over any stretch of a run in which no comm at the address is closed: slots in use before plus requests handed out are requests reported done plus slots in use after |
| Histories.RequestsOfComm | src/psm2_nccl_api.c:799-934 | from a comm's creation until it is closed, on whatever address, requests handed out are those reported done plus slots in use |
| Histories.CloseWhenAllReported | src/psm2_nccl_api.c:938-950 | a comm may be closed once done has been reported as often as a request was handed out since its creation |
| Orders.TestFrame | src/psm2_nccl_api.c:911-928 | a test changes another slot at most from not done to done, and keeps all else |
| Orders.TestDrains | src/psm2_nccl_api.c:308-352 | which slots a test marks: exactly those whose request is complete in the queue of the tested comm's endpoint, with that request's size |
| Orders.TestAllFinal | src/psm2_nccl_api.c:911-934 | a batch of tests: each answers as it would alone, and the final state depends only on the set tested |
| Orders.OrderIndependence | src/psm2_nccl_api.c:911-934 | any two orders of testing a batch give each request the same answer and the same final state |
| World.FullMask | src/psm2_nccl_api.c:840 | with all bits in the mask only equal tags match |
| World.MatchIsRight | src/psm2_nccl_api.c:810-840 | the library lets a receive take a message if and only if the sender was connected with the handle of the receive's own comm |
| World.WRunInv | src/psm2_nccl_api.c:671-742 | comms, postings and messages carry the handles they descend from, in every run of any processes |
| World.Routing | src/psm2_nccl_api.c:671-840 | every message ever consumed was consumed by a receive posted on the comm whose listen issued the sender's handle, over reused addresses and endpoint ids |
| World.HandlesDistinct | src/psm2_nccl_api.c:686-688 | no two listens in any run issue the same handle |
| World.IsendSends | src/psm2_nccl_api.c:810-819 | an isend that returns a request puts exactly one message on the wire: of its size, from its comm, to the endpoint id and with the tag of the handle its comm was connected with |
| World.WireElse | src/psm2_nccl_api.c:671-955 | no other call touches the wire, and a delivery takes off and logs one message |
| World.CallPossible | src/psm2_nccl_api.c:671-955 | in every state every call its caller may make can happen |
| World.SendCompletes | src/psm2_nccl_api.c:810-934 | a send in flight can be completed, and a test then says done and gives no size |
| World.MessageArrives | src/psm2_nccl_api.c:810-934 | a message can be handed to a receive in flight if and only if its sender was connected with the handle of the receive's comm, and a test then says done with the smaller of the two sizes |
| EndToEnd.Projects | src/psm2_nccl_api.c:671-955 | the history of each process in a run of the world, event by event, is a run of that process, so what holds over runs of one process holds for each process of the world |
| EndToEnd.MessageOrigin | src/psm2_nccl_api.c:799-820 | every message on the wire was put there by an isend of its size on the comm it is recorded for (the converse is NothingLost) |
| EndToEnd.ReportsADelivery | src/psm2_nccl_api.c:671-935 | end to end: a test that says done for a receive reports an earlier delivery to the posting of the irecv that returned the pointer, of a message isend put on the wire on a comm connected with the handle of the comm tested, and the size is the smaller of what was sent and what was asked for |
| EndToEnd.EachSendReportedOnce | src/psm2_nccl_api.c:799-935 | no two such reports, in whatever processes, are of one isend or one irecv |
| EndToEnd.NothingLost | src/psm2_nccl_api.c:799-820 | what an isend sent is on the wire, unchanged, from then on exactly until it is delivered |

## Left out

- Engine.Process.Listen: when tags run out the code's assert ends the process unless asserts are compiled out; the model takes the error return that follows it.
- Engine.Process.MqProgressLoop: the returns for library codes other than OK and INCOMPLETE are left out by assumption, and those for an unused or done slot and for an oversized byte count are proved unreachable.
- Engine.Process.Complete: the body of the loop (with `Turn`) and the first part of psm2comm_init (`SetUp`) are methods of their own, to keep each proof small.
- The 32-bit overflow of `refcount`: it is a natural number.
- `default: assert(0)` for a multi-device policy other than ERROR and WARN, which init never sets.
- The size check of the handle type in `psm2comm_init`, constant at compile time.
- `psm2_nccl_init` and logging: the configuration flags are fixed inputs.
- Device queries and property tables, `hfi_sysclass.c`, GUID parsing: I/O and field copying.
- `regMr`, `deregMr`, `iflush`, `flush`: no-ops.
- `psm2_nccl_net.c`, the v4 and v8 wrappers and grouped receive with n = 1: they forward to the calls modelled.
- Message payloads, GPUDirect, timeouts and whether messages arrive in order: inside PSM2.
- Progress of the network: a posted request may stay in flight for ever.
