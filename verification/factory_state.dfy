/** The token factory's state: the `State` record behind the thread-local
    `STATE`, the separate `WASM_MODULE` cell, and their initialisation. */
module FactoryState {
  import opened IcTypes
  import opened FactoryTypes

  /** Memory ids of the three stable maps; each map lives in its own virtual memory,
      which the model reflects by keeping them in three separate fields. */
  const TokenMapMemoryId: nat := 0
  const FaucetRequestMapMemoryId: nat := 1
  const TalentTokenMapMemoryId: nat := 2

  /** A value snapshot of the `State` record. */
  datatype FactoryData = FactoryData(
    tokens: map<Principal, TokenMetadata>,
    faucetRequests: map<Principal, FaucetTokenRequest>,
    talentTokenMap: map<Principal, Principal>,
    admin: Principal,
    tokenCanisterId: Principal,
    isAdminRegistered: bool)

  /** What an operation leaves behind: the new state, its reply and the calls it
      issued to other canisters, in order. */
  datatype Outcome<T, E> = Outcome(state: FactoryData, reply: Result<T, E>, calls: seq<ExternalCall>)

  /** The state record, updated in place by the canister's update methods. */
  class State {
    var tokens: map<Principal, TokenMetadata>
    var faucetRequests: map<Principal, FaucetTokenRequest>
    var talentTokenMap: map<Principal, Principal>
    var admin: Principal
    var tokenCanisterId: Principal
    var isAdminRegistered: bool

    /** The thread-local default, built before `init` runs: `selfId` is the canister's own id. */
    constructor (selfId: Principal)
      ensures admin == selfId && tokenCanisterId == Anonymous && !isAdminRegistered
      ensures tokens == map[] && faucetRequests == map[] && talentTokenMap == map[]
    {
      tokens, faucetRequests, talentTokenMap := map[], map[], map[];
      admin := selfId;
      tokenCanisterId := Anonymous;
      isAdminRegistered := false;
    }

    ghost function Data(): FactoryData
      reads this
    {
      FactoryData(tokens, faucetRequests, talentTokenMap, admin, tokenCanisterId, isAdminRegistered)
    }

    /** `init`, run once on a fresh install: the admin is the management canister
        ("aaaaa-aa") until someone registers, and the three maps are re-opened on
        their (empty) memories. */
    method Init(ledger: Principal)
      modifies this
      ensures admin == ManagementCanister && tokenCanisterId == ledger && !isAdminRegistered
      ensures tokens == map[] && faucetRequests == map[] && talentTokenMap == map[]
    {
      admin := ManagementCanister;
      tokenCanisterId := ledger;
      isAdminRegistered := false;
      tokens := map[];
      faucetRequests := map[];
      talentTokenMap := map[];
    }
  }

  /** `WASM_MODULE`: the code installed into every token canister; empty until the admin sets it. */
  class WasmCell {
    var bytes: seq<byte>

    constructor ()
      ensures bytes == []
    {
      bytes := [];
    }
  }
}
