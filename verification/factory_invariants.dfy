/** The token factory as a sequential state machine: every update method is a
    step on the canister's heap (the `State` record and the WASM module), and
    properties of whole runs are proved by induction over the sequence of
    calls. Calls are taken to run one at a time, each to completion. */
module FactoryInvariants {
  import opened IcTypes
  import opened FactoryTypes
  import opened FactoryState
  import FactoryUpdate
  import TokenPool

  /** The canister's heap: the state record and the WASM module. */
  datatype Canister = Canister(data: FactoryData, wasm: seq<byte>)

  /** One call of an update method, with the outcomes of the calls it makes. */
  datatype Op =
    | SendFaucetRequestOp(caller: Principal, amount: u32)
    | RegisterAdminOp(caller: Principal)
    | ChangeAdminOp(caller: Principal, newAdmin: Principal)
    | AcceptRequestOp(caller: Principal, user: Principal, ledger: CallResult<TransferReply>)
    | RejectRequestOp(caller: Principal, user: Principal)
    | UpdateWasmOp(caller: Principal, wasmModule: seq<byte>)
    | CreateTokenOp(caller: Principal, args: CreateTokenArgs, charge: CallResult<TransferReply>,
                    created: CallResult<Principal>, installed: CallResult<()>, now: u64)

  /** One update call: the new heap and the calls it issued. `factory` is the canister's own id. */
  function Step(c: Canister, factory: Principal, op: Op): (r: (Canister, seq<ExternalCall>))
    ensures !op.UpdateWasmOp? ==> r.0.wasm == c.wasm
    ensures !op.CreateTokenOp? ==> r.0.data.tokens == c.data.tokens && r.0.data.talentTokenMap == c.data.talentTokenMap
  {
    match op
    case SendFaucetRequestOp(caller, n) =>
      var o := FactoryUpdate.RequestStep(c.data, caller, n); (c.(data := o.state), o.calls)
    case RegisterAdminOp(caller) =>
      var o := FactoryUpdate.RegisterAdminStep(c.data, caller); (c.(data := o.state), o.calls)
    case ChangeAdminOp(caller, newAdmin) =>
      var o := FactoryUpdate.ChangeAdminStep(c.data, caller, newAdmin); (c.(data := o.state), o.calls)
    case AcceptRequestOp(caller, user, ledger) =>
      var o := FactoryUpdate.AcceptStep(c.data, caller, user, ledger); (c.(data := o.state), o.calls)
    case RejectRequestOp(caller, user) =>
      var o := FactoryUpdate.RejectStep(c.data, caller, user); (c.(data := o.state), o.calls)
    case UpdateWasmOp(caller, wasmModule) =>
      var o := TokenPool.UpdateWasmStep(c.data, c.wasm, caller, wasmModule); (c.(wasm := o.0), [])
    case CreateTokenOp(caller, args, charge, created, installed, now) =>
      var o := TokenPool.CreateTokenStep(c.data, c.wasm, factory, caller, args, charge, created, installed, now);
      (c.(data := o.state), o.calls)
  }

  /** The heap after a sequence of update calls. */
  function Run(c: Canister, factory: Principal, ops: seq<Op>): Canister
    decreases |ops|
  {
    if ops == [] then c else Run(Step(c, factory, ops[0]).0, factory, ops[1..])
  }

  // ---------------------------------------------------------------- admin registration

  /** Registration is permanent: no update call clears the flag, so once an admin
      is registered every later `register_admin` fails. */
  lemma {:induction false} RegistrationPermanent(c: Canister, factory: Principal, ops: seq<Op>, late: Principal)
    requires c.data.isAdminRegistered
    ensures Run(c, factory, ops).data.isAdminRegistered
    ensures FactoryUpdate.RegisterAdminStep(Run(c, factory, ops).data, late).reply.Err?
    decreases |ops|
  {
    if ops != [] {
      RegistrationPermanent(Step(c, factory, ops[0]).0, factory, ops[1..], late);
    }
  }

  // ---------------------------------------------------------------- creator bindings

  /** A creator's binding to its token canister, once made, never changes. */
  lemma {:induction false} BindingPermanent(c: Canister, factory: Principal, ops: seq<Op>, creator: Principal)
    requires creator in c.data.talentTokenMap
    ensures creator in Run(c, factory, ops).data.talentTokenMap
    ensures Run(c, factory, ops).data.talentTokenMap[creator] == c.data.talentTokenMap[creator]
    decreases |ops|
  {
    if ops != [] {
      var next := Step(c, factory, ops[0]).0;
      assert creator in next.data.talentTokenMap && next.data.talentTokenMap[creator] == c.data.talentTokenMap[creator];
      BindingPermanent(next, factory, ops[1..], creator);
    }
  }

  /** Every bound creator owns the token its binding points at. */
  ghost predicate Consistent(d: FactoryData)
  {
    forall creator :: creator in d.talentTokenMap ==>
      d.talentTokenMap[creator] in d.tokens && d.tokens[d.talentTokenMap[creator]].owner == creator
  }

  /** The management canister hands out canister ids never seen before: every
      creation in the run that gets an id gets one the factory has not recorded. */
  ghost predicate FreshCreations(c: Canister, factory: Principal, ops: seq<Op>)
    decreases |ops|
  {
    ops == [] ||
    ((ops[0].CreateTokenOp? && ops[0].created.Replied? ==> ops[0].created.value !in c.data.tokens)
     && FreshCreations(Step(c, factory, ops[0]).0, factory, ops[1..]))
  }

  lemma StepKeepsConsistent(c: Canister, factory: Principal, op: Op)
    requires Consistent(c.data)
    requires op.CreateTokenOp? && op.created.Replied? ==> op.created.value !in c.data.tokens
    ensures Consistent(Step(c, factory, op).0.data)
  {
    if op.CreateTokenOp? && op.created.Replied? {
      // the old bindings all point at recorded tokens, so none at the fresh id
      forall creator | creator in c.data.talentTokenMap
        ensures c.data.talentTokenMap[creator] != op.created.value
      {
      }
    }
  }

  /** Under sequential execution and fresh canister ids, consistency holds after any run
      that starts from a consistent state (such as the empty maps left by `init`). */
  lemma {:induction false} ConsistentAfterRun(c: Canister, factory: Principal, ops: seq<Op>)
    requires Consistent(c.data)
    requires FreshCreations(c, factory, ops)
    ensures Consistent(Run(c, factory, ops).data)
    decreases |ops|
  {
    if ops != [] {
      StepKeepsConsistent(c, factory, ops[0]);
      ConsistentAfterRun(Step(c, factory, ops[0]).0, factory, ops[1..]);
    }
  }

  /** In a consistent state each creator is bound to one token canister and no
      two creators share one. */
  lemma BindingsInjective(d: FactoryData, a: Principal, b: Principal)
    requires Consistent(d)
    requires a in d.talentTokenMap && b in d.talentTokenMap && a != b
    ensures d.talentTokenMap[a] != d.talentTokenMap[b]
  {
    assert d.tokens[d.talentTokenMap[a]].owner == a;
  }

  // ---------------------------------------------------------------- ledger transfers

  /** Every `icrc2_transfer_from` an update method issues debits the caller's own
      account: the admin's when it accepts a request, the creator's when it pays
      for a token. */
  lemma TransfersDebitTheCaller(c: Canister, factory: Principal, op: Op)
    ensures var calls := Step(c, factory, op).1;
            forall i :: 0 <= i < |calls| && calls[i].TransferFromCall? ==>
              calls[i].args.from.owner == op.caller
  {
  }

  /** As written, `transfer_tokens` is itself exported as an update method, with
      no check of its caller: a call of it is one more step of the machine. */
  datatype ExportedOp =
    | Method(op: Op)
    | TransferTokensOp(caller: Principal, to: Principal, amount: u32, from: Principal,
                       ledger: CallResult<TransferReply>)

  function AsWrittenStep(c: Canister, factory: Principal, e: ExportedOp): (r: (Canister, seq<ExternalCall>))
    ensures e.Method? ==> r == Step(c, factory, e.op)
    ensures e.TransferTokensOp? ==> r.0 == c && |r.1| == 1
  {
    match e
    case Method(op) => Step(c, factory, op)
    case TransferTokensOp(_, to, amount, from, ledger) =>
      (c, [FactoryUpdate.TransferTokens(c.data.tokenCanisterId, to, amount, from, ledger).0])
  }

  /** With the exported `transfer_tokens`, any caller can have the factory move
      the admin's tokens to itself, up to whatever the admin allowed the factory. */
  lemma AnyoneCanSpendTheAdminsAllowance(c: Canister, factory: Principal, thief: Principal,
                                         amount: u32, ledger: CallResult<TransferReply>)
    requires thief != c.data.admin
    ensures var calls := AsWrittenStep(c, factory, TransferTokensOp(thief, thief, amount, c.data.admin, ledger)).1;
            && calls[0].TransferFromCall?
            && calls[0].args.from.owner == c.data.admin
            && calls[0].args.from.owner != thief
            && calls[0].args.to.owner == thief
  {
  }
}
