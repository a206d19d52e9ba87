/** The token pool: the admin-gated replacement of the WASM module, and the
    creation of one talent-token ledger canister per creator. The creation's
    calls to the ledger and to the management canister are inputs (their
    outcomes); what the factory records, and which calls it issues in which
    order, is modelled. */
module TokenPool {
  import opened IcTypes
  import opened FactoryTypes
  import opened FactoryState
  import opened FactoryUpdate

  const UnauthorizedWasmUpdate := "Unauthorized: Only admin can update WASM module"
  const OnlyOneToken := "You can only create one token"
  const WasmNotSet := "WASM module not set"

  /** What a creator pays to create a token. */
  const TokenCharge: u32 := 100

  /** The cycles attached to `create_canister`. */
  const CreationCycles: nat := 20_000_000_000

  // ---------------------------------------------------------------- WASM module

  /** `update_wasm_module(wasm)`: only the admin may replace the module; the
      replacement is exactly the given bytes. Returns the new module and the reply. */
  function UpdateWasmStep(s: FactoryData, current: seq<byte>, caller: Principal, wasm: seq<byte>)
    : (o: (seq<byte>, Result<string, string>))
    ensures caller != s.admin ==> o == (current, Err(UnauthorizedWasmUpdate))
    ensures caller == s.admin ==> o.0 == wasm && o.1.Ok?
  {
    if s.admin != caller then (current, Err(UnauthorizedWasmUpdate))
    else (wasm, Ok("WASM module updated successfully."))
  }

  method UpdateWasmModule(st: State, cell: WasmCell, caller: Principal, wasm: seq<byte>)
    returns (r: Result<string, string>)
    modifies cell
    ensures (cell.bytes, r) == UpdateWasmStep(st.Data(), old(cell.bytes), caller, wasm)
    ensures caller != st.admin ==> unchanged(cell)
  {
    if st.admin != caller {
      return Err(UnauthorizedWasmUpdate);
    }
    cell.bytes := wasm;
    r := Ok("WASM module updated successfully.");
  }

  // ---------------------------------------------------------------- install argument

  /** The sum of a list of initial balances. */
  function TotalBalance(balances: seq<(Account, nat)>): nat
  {
    if balances == [] then 0 else balances[0].1 + TotalBalance(balances[1..])
  }

  /** The first value recorded under `key` in a ledger metadata list. */
  function MetadataLookup(metadata: seq<(string, MetadataValue)>, key: string): Option<MetadataValue>
  {
    if metadata == [] then None
    else if metadata[0].0 == key then Some(metadata[0].1)
    else MetadataLookup(metadata[1..], key)
  }

  /** The install argument of a new token ledger: the whole supply is credited
      to the factory's own account, which is also the minting account; transfers
      cost nothing; the metadata carries name, symbol and decimals; ICRC-2 is on. */
  function BuildInitArgs(factory: Principal, creator: Principal, args: CreateTokenArgs): (r: InitArgs)
    ensures |r.initialBalances| == 1 && r.initialBalances[0].0 == Account(factory, None)
    ensures TotalBalance(r.initialBalances) == args.totalSupply as nat
    ensures r.mintingAccount == Account(factory, None)
    ensures r.transferFee == 0
    ensures r.tokenName == args.name && r.tokenSymbol == args.symbol && r.decimals == Some(args.decimals)
    ensures MetadataLookup(r.metadata, "icrc1:name") == Some(TextValue(args.name))
    ensures MetadataLookup(r.metadata, "icrc1:symbol") == Some(TextValue(args.symbol))
    ensures MetadataLookup(r.metadata, "icrc1:decimals") == Some(NatValue(args.decimals as nat))
    ensures r.featureFlags == Some(FeatureFlags(true))
    ensures r.archiveOptions.controllerId == factory && r.archiveOptions.moreControllerIds == Some([creator])
  {
    var r := InitArgs(
      mintingAccount := Account(factory, None),
      feeCollectorAccount := Some(Account(creator, None)),
      transferFee := 0,
      tokenSymbol := args.symbol,
      tokenName := args.name,
      metadata := [("icrc1:name", TextValue(args.name)),
                   ("icrc1:symbol", TextValue(args.symbol)),
                   ("icrc1:decimals", NatValue(args.decimals as nat))],
      initialBalances := [(Account(factory, None), args.totalSupply as nat)],
      featureFlags := Some(FeatureFlags(true)),
      maximumNumberOfAccounts := Some(1_000_000),
      accountsOverflowTrimQuantity := Some(100_000),
      archiveOptions := ArchiveOptions(
        numBlocksToArchive := 2000,
        triggerThreshold := 1000,
        maxMessageSizeBytes := Some(1024 * 1024),
        cyclesForArchiveCreation := Some(10_000_000_000_000),
        nodeMaxMemorySizeBytes := Some(3 * 1024 * 1024 * 1024),
        controllerId := factory,
        moreControllerIds := Some([creator]),
        maxTransactionsPerResponse := Some(100)),
      decimals := Some(args.decimals),
      maxMemoLength := Some(256));
    assert "icrc1:name"[6] != "icrc1:decimals"[6] && "icrc1:symbol"[6] != "icrc1:decimals"[6];
    assert MetadataLookup(r.metadata[2..], "icrc1:decimals") == Some(NatValue(args.decimals as nat));
    r
  }

  /** What the factory records about a token it created. */
  function RecordFor(args: CreateTokenArgs, creator: Principal, now: u64): (m: TokenMetadata)
    ensures m.owner == creator && m.created == now
    ensures m.name == args.name && m.symbol == args.symbol && m.decimals == args.decimals
    ensures m.totalSupply == args.totalSupply && m.logo == args.logo
  {
    TokenMetadata(args.name, args.symbol, args.decimals, args.totalSupply, creator, args.logo, now)
  }

  // ---------------------------------------------------------------- token creation

  /** The calls a creation issues, in order, given how far it gets. */
  function ChargeCall(s: FactoryData, creator: Principal, charge: CallResult<TransferReply>): ExternalCall
  {
    TransferTokens(s.tokenCanisterId, s.admin, TokenCharge, creator, charge).0
  }

  function CreateCall(factory: Principal, creator: Principal): ExternalCall
  {
    CreateCanisterCall(CanisterSettings(Some([factory, creator])), CreationCycles)
  }

  /** `create_talent_token_canister(args)`: a creator already bound to a token is
      refused before anything else; then 100 tokens are charged from the creator
      to the admin; then an empty module is refused (the charge already taken);
      then the canister is created and the ledger installed into it; only when
      all of that succeeded are the metadata and the creator's binding recorded.
      `charge`, `created` and `installed` are the outcomes of the three calls,
      `now` the system time. */
  function CreateTokenStep(s: FactoryData, wasm: seq<byte>, factory: Principal, creator: Principal,
                           args: CreateTokenArgs, charge: CallResult<TransferReply>,
                           created: CallResult<Principal>, installed: CallResult<()>, now: u64)
    : (o: Outcome<Principal, string>)
    ensures o.reply.Err? ==> o.state == s
    ensures creator in s.talentTokenMap ==> o == Outcome(s, Err(OnlyOneToken), [])
    ensures creator !in s.talentTokenMap ==>
      && |o.calls| >= 1
      && o.calls[0] == ChargeCall(s, creator, charge)
      && o.calls[0].args.from.owner == creator
      && o.calls[0].args.to.owner == s.admin
      && o.calls[0].args.amount == 100
    ensures !(charge.Replied? && charge.value.Transferred?) ==> o.reply.Err? && |o.calls| <= 1
    ensures wasm == [] ==> o.reply.Err? && |o.calls| <= 1
    ensures o.reply.Ok? <==>
      && creator !in s.talentTokenMap
      && charge.Replied? && charge.value.Transferred?
      && wasm != [] && created.Replied? && installed.Replied?
    ensures o.reply.Ok? ==>
      && o.reply.value == created.value
      && o.state.tokens == s.tokens[created.value := RecordFor(args, creator, now)]
      && o.state.talentTokenMap == s.talentTokenMap[creator := created.value]
      && o.state.(tokens := s.tokens, talentTokenMap := s.talentTokenMap) == s
      && o.calls == [ChargeCall(s, creator, charge), CreateCall(factory, creator),
                     InstallCodeCall(created.value, wasm, BuildInitArgs(factory, creator, args))]
  {
    if creator in s.talentTokenMap then Outcome(s, Err(OnlyOneToken), [])
    else
      var (chargeCall, charged) := TransferTokens(s.tokenCanisterId, s.admin, TokenCharge, creator, charge);
      if charged.Err? then Outcome(s, Err("Failed to charge tokens: " + ErrorText(charged.error)), [chargeCall])
      else if wasm == [] then Outcome(s, Err(WasmNotSet), [chargeCall])
      else
        var createCall := CreateCall(factory, creator);
        match created
        case Rejected(_, debug) => Outcome(s, Err("Creation failed: " + debug), [chargeCall, createCall])
        case Replied(canisterId) =>
          var installCall := InstallCodeCall(canisterId, wasm, BuildInitArgs(factory, creator, args));
          match installed
          case Rejected(_, debug) =>
            Outcome(s, Err("Creation failed: " + debug), [chargeCall, createCall, installCall])
          case Replied(_) =>
            var s' := s.(tokens := s.tokens[canisterId := RecordFor(args, creator, now)]);
            var s' := s'.(talentTokenMap := s'.talentTokenMap[creator := canisterId]);
            Outcome(s', Ok(canisterId), [chargeCall, createCall, installCall])
  }

  method CreateTalentTokenCanister(st: State, cell: WasmCell, factory: Principal, creator: Principal,
                                   args: CreateTokenArgs, charge: CallResult<TransferReply>,
                                   created: CallResult<Principal>, installed: CallResult<()>, now: u64)
    returns (r: Result<Principal, string>, calls: seq<ExternalCall>)
    modifies st
    ensures var o := CreateTokenStep(old(st.Data()), cell.bytes, factory, creator, args, charge, created, installed, now);
            st.Data() == o.state && r == o.reply && calls == o.calls
    ensures r.Err? ==> unchanged(st)
  {
    if creator in st.talentTokenMap {
      return Err(OnlyOneToken), [];
    }
    var (chargeCall, charged) := TransferTokens(st.tokenCanisterId, st.admin, TokenCharge, creator, charge);
    calls := [chargeCall];
    if charged.Err? {
      return Err("Failed to charge tokens: " + ErrorText(charged.error)), calls;
    }
    if cell.bytes == [] {
      return Err(WasmNotSet), calls;
    }
    calls := calls + [CreateCall(factory, creator)];
    if created.Rejected? {
      return Err("Creation failed: " + created.debug), calls;
    }
    var canisterId := created.value;
    calls := calls + [InstallCodeCall(canisterId, cell.bytes, BuildInitArgs(factory, creator, args))];
    if installed.Rejected? {
      return Err("Creation failed: " + installed.debug), calls;
    }
    st.tokens := st.tokens[canisterId := RecordFor(args, creator, now)];
    st.talentTokenMap := st.talentTokenMap[creator := canisterId];
    r := Ok(canisterId);
  }

  /** A creator who already has a token can never create a second one. */
  lemma {:induction false} SecondCreationRefused(s: FactoryData, wasm: seq<byte>, factory: Principal,
                                                 creator: Principal, a1: CreateTokenArgs, a2: CreateTokenArgs,
                                                 c1: CallResult<TransferReply>, c2: CallResult<TransferReply>,
                                                 k1: CallResult<Principal>, k2: CallResult<Principal>,
                                                 i1: CallResult<()>, i2: CallResult<()>, t1: u64, t2: u64)
    requires CreateTokenStep(s, wasm, factory, creator, a1, c1, k1, i1, t1).reply.Ok?
    ensures var s1 := CreateTokenStep(s, wasm, factory, creator, a1, c1, k1, i1, t1).state;
            CreateTokenStep(s1, wasm, factory, creator, a2, c2, k2, i2, t2) == Outcome(s1, Err(OnlyOneToken), [])
  {
  }
}
