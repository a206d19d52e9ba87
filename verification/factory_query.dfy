/** The token factory's query methods: read-only lookups and listings over a
    snapshot of the state, so none of them can change it. */
module FactoryQuery {
  import opened IcTypes
  import opened FactoryTypes
  import opened FactoryState
  import StableMap
  import PrincipalText

  /** `get_token_metadata(id)`: the metadata stored for a known token canister, "Token not found" otherwise. */
  function GetTokenMetadata(s: FactoryData, tokenId: Principal): (r: Result<TokenMetadata, string>)
    ensures r.Ok? <==> tokenId in s.tokens
    ensures r.Ok? ==> r.value == s.tokens[tokenId]
    ensures r.Err? ==> r.error == "Token not found"
  {
    if tokenId in s.tokens then Ok(s.tokens[tokenId]) else Err("Token not found")
  }

  /** `get_faucet_requests()`: only the admin may list the requests; the admin
      gets every (requester, record) pair once, in ascending requester order. */
  ghost function GetFaucetRequests(s: FactoryData, caller: Principal)
    : (r: Result<seq<(Principal, FaucetTokenRequest)>, string>)
    ensures r.Ok? <==> caller == s.admin
    ensures r.Err? ==> r.error == "Not authorized, caller: " + PrincipalText.ToText(caller)
    ensures r.Ok? ==>
      && |r.value| == |s.faucetRequests|
      && (forall i :: 0 <= i < |r.value| ==>
            r.value[i].0 in s.faucetRequests && r.value[i].1 == s.faucetRequests[r.value[i].0])
      && (forall p :: p in s.faucetRequests ==> exists i :: 0 <= i < |r.value| && r.value[i].0 == p)
      && (forall i, j :: 0 <= i < j < |r.value| ==> StableMap.Below(r.value[i].0, r.value[j].0))
  {
    if caller != s.admin then Err("Not authorized, caller: " + PrincipalText.ToText(caller))
    else Ok(StableMap.Entries(s.faucetRequests))
  }

  /** `get_list_of_tokens()`: every (token canister, metadata) pair, unfiltered, once each. */
  ghost function GetListOfTokens(s: FactoryData): (r: Result<seq<(Principal, TokenMetadata)>, string>)
    ensures r.Ok?
    ensures |r.value| == |s.tokens|
    ensures forall i :: 0 <= i < |r.value| ==> r.value[i].0 in s.tokens && r.value[i].1 == s.tokens[r.value[i].0]
    ensures forall p :: p in s.tokens ==> exists i :: 0 <= i < |r.value| && r.value[i].0 == p
  {
    Ok(StableMap.Entries(s.tokens))
  }

  /** `get_admin()`: the current admin, for any caller. */
  function GetAdmin(s: FactoryData): (r: Result<Principal, string>)
    ensures r == Ok(s.admin)
  {
    Ok(s.admin)
  }
}
