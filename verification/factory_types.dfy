/** The records of the token-factory canister, and the ledger and management
    canister records it builds when it calls out. */
module FactoryTypes {
  import opened IcTypes

  /** What the factory remembers about a token canister it created. */
  datatype TokenMetadata = TokenMetadata(
    name: string,
    symbol: string,
    decimals: u8,
    totalSupply: u64,
    owner: Principal,
    logo: Option<string>,
    created: u64)

  /** One requester's faucet record. */
  datatype FaucetTokenRequest = FaucetTokenRequest(
    currentTokenRequest: u32,
    totalNumberOfRequest: u32,
    totalTokenGiven: u64)

  /** The arguments of a token creation. */
  datatype CreateTokenArgs = CreateTokenArgs(
    name: string,
    symbol: string,
    decimals: u8,
    totalSupply: u64,
    logo: Option<string>)

  datatype Error = NotAuthorized | RequestNotFound | TransferFailed(message: string)

  /** The rendering of an `Error` inside a message. */
  function ErrorText(e: Error): (t: string)
    ensures e.TransferFailed? ==> t == "TransferFailed(" + e.message + ")"
    ensures |t| > 0
  {
    match e
    case NotAuthorized => "NotAuthorized"
    case RequestNotFound => "RequestNotFound"
    case TransferFailed(m) => "TransferFailed(" + m + ")"
  }

  // ICRC-1/ICRC-2 ledger records.

  datatype Account = Account(owner: Principal, subaccount: Option<seq<byte>>)

  /** The ledger's generic metadata value. */
  datatype MetadataValue = TextValue(text: string) | NatValue(n: nat)

  datatype FeatureFlags = FeatureFlags(icrc2: bool)

  datatype ArchiveOptions = ArchiveOptions(
    numBlocksToArchive: nat,
    triggerThreshold: nat,
    maxMessageSizeBytes: Option<nat>,
    cyclesForArchiveCreation: Option<nat>,
    nodeMaxMemorySizeBytes: Option<nat>,
    controllerId: Principal,
    moreControllerIds: Option<seq<Principal>>,
    maxTransactionsPerResponse: Option<nat>)

  /** The install argument of a new ICRC-1 ledger canister. */
  datatype InitArgs = InitArgs(
    mintingAccount: Account,
    feeCollectorAccount: Option<Account>,
    transferFee: nat,
    tokenSymbol: string,
    tokenName: string,
    metadata: seq<(string, MetadataValue)>,
    initialBalances: seq<(Account, nat)>,
    featureFlags: Option<FeatureFlags>,
    maximumNumberOfAccounts: Option<nat>,
    accountsOverflowTrimQuantity: Option<nat>,
    archiveOptions: ArchiveOptions,
    decimals: Option<u8>,
    maxMemoLength: Option<nat>)

  /** The argument of an ICRC-2 `icrc2_transfer_from`. */
  datatype TransferFromArgs = TransferFromArgs(
    from: Account,
    to: Account,
    amount: nat,
    fee: Option<nat>,
    memo: Option<seq<byte>>,
    createdAtTime: Option<u64>,
    spenderSubaccount: Option<seq<byte>>)

  /** Canister settings; every field other than the controllers is left unset. */
  datatype CanisterSettings = CanisterSettings(controllers: Option<seq<Principal>>)

  // Calls to other canisters and their outcomes, which the model takes as inputs.

  /** How an inter-canister call ended: a reply, or a rejection carrying its
      reject message and the `Debug` text of the whole error. */
  datatype CallResult<T> = Replied(value: T) | Rejected(message: string, debug: string)

  /** The ledger's own answer to a transfer: a block index, or a `TransferError` (its `Debug` text). */
  datatype TransferReply = Transferred(blockIndex: nat) | TransferRefused(debug: string)

  /** A call the factory issues to another canister. */
  datatype ExternalCall =
    | TransferFromCall(ledger: Principal, args: TransferFromArgs)
    | CreateCanisterCall(settings: CanisterSettings, cycles: nat)
    | InstallCodeCall(canisterId: Principal, wasmModule: seq<byte>, arg: InitArgs)
}
