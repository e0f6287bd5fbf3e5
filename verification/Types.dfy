/** The records of psm2_nccl_api.h, as values.

    Pointers and library handles are numbers, 0 being NULL; a `comm_req_t *` is
    the pair of its comm's address and its index in `requests[]`. */
module Types {
  datatype Option<+T> = None | Some(value: T)

  /** ncclSuccess / ncclInternalError, the two codes these functions return. */
  datatype NcclResult = NcclSuccess | NcclInternalError

  /** PSM2 return codes, as far as the code looks at them. */
  datatype Rc = Ok | Failed

  type Addr = nat
  type Ep = nat
  type Mq = nat
  const NULL: nat := 0

  const NUM_REQUESTS: nat := 32
  const INT_MAX: nat := 0x7fff_ffff

  /** `uint64_t` arithmetic is modulo ULLONG_MAX + 1. */
  const ULLONG_MAX: nat := 0xFFFF_FFFF_FFFF_FFFF

  /** `n + 1` in 64 bits. */
  function Succ64(n: nat): nat {
    (n + 1) % (ULLONG_MAX + 1)
  }

  /** An endpoint id names its process; which of its ids a process is given,
      and whether one comes back after a reopen, is up to the library. */
  datatype Epid = Epid(owner: nat, inst: nat)
  const NO_EPID := Epid(0, 0)

  datatype ReqType = NoType | ReqSend | ReqRecv

  datatype ReqPtr = ReqPtr(comm: Addr, idx: nat)

  /** comm_req_t. `req` holds the library's request object; the model names
      each posting by a number that is never used twice. */
  datatype Slot = Slot(used: bool, comm: Addr, ep: Ep, mq: Mq, req: nat,
                       kind: ReqType, done: bool, recvSize: nat)
  const FREE := Slot(false, NULL, NULL, NULL, 0, NoType, false, 0)

  datatype SharedEp = SharedEp(ep: Ep, epid: Epid, unit: int, refcount: nat)
  const NO_SHARED := SharedEp(NULL, NO_EPID, 0, 0)

  datatype Handle = Handle(epid: Epid, tag: nat)

  datatype Policy = MultiError | MultiWarn

  /** use_shared_ep, use_nccl_dev_num and shared_ep_multi_policy, fixed by init. */
  datatype Config = Config(useShared: bool, useDev: bool, policy: Policy)

  /** psm2comm_t. `sharedRef` is `shared_ep != NULL`; `remAddr` is `rem_epaddr`,
      the address the library resolved `rem_epid` to. */
  datatype CommRec = CommRec(ep: Ep, epid: Epid, mq: Mq, sharedRef: bool,
                             remEpid: Epid, remAddr: Option<Epid>, tag: nat,
                             requests: seq<Slot>)
}
