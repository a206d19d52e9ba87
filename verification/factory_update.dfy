/** The token factory's faucet and admin update methods. Each operation is a
    step function on a `FactoryData` snapshot, and a method that performs the
    same guards and updates in place on the `State` object and is proved to
    agree with it. */
module FactoryUpdate {
  import opened IcTypes
  import opened FactoryTypes
  import opened FactoryState

  const NotAllowedToRequest := "You are not allowed to request tokens"
  const AdminAlreadyRegistered := "Admin already registered"
  const AdminNotRegistered := "Admin not registered"
  const NotAuthorizedText := "Not authorized"
  const RequestNotFoundText := "Request not found"

  function FaucetRequestSent(n: u32): string
  {
    "Faucet request sent for " + DecimalString(n as nat) + " tokens"
  }

  // ---------------------------------------------------------------- faucet request

  /** `send_token_faucet_request(n)`: an anonymous caller is refused; any other
      caller's record is created, or overwritten with the new amount and one
      more request counted, keeping what was already given. */
  function RequestStep(s: FactoryData, caller: Principal, n: u32): (o: Outcome<string, string>)
    ensures o.calls == []
    ensures caller == Anonymous ==> o.state == s && o.reply == Err(NotAllowedToRequest)
    ensures caller != Anonymous ==>
      && o.reply == Ok(FaucetRequestSent(n))
      && o.state.faucetRequests.Keys == s.faucetRequests.Keys + {caller}
      && o.state.faucetRequests[caller].currentTokenRequest == n
      && (caller !in s.faucetRequests ==> o.state.faucetRequests[caller] == FaucetTokenRequest(n, 1, 0))
      && (caller in s.faucetRequests ==>
            && o.state.faucetRequests[caller].totalNumberOfRequest
               == AddU32(s.faucetRequests[caller].totalNumberOfRequest, 1)
            && o.state.faucetRequests[caller].totalTokenGiven == s.faucetRequests[caller].totalTokenGiven)
      && (forall p :: p in s.faucetRequests && p != caller ==> o.state.faucetRequests[p] == s.faucetRequests[p])
      && o.state.(faucetRequests := s.faucetRequests) == s
  {
    if caller == Anonymous then
      Outcome(s, Err(NotAllowedToRequest), [])
    else
      var previous := if caller in s.faucetRequests then s.faucetRequests[caller]
                      else FaucetTokenRequest(n, 0, 0);
      var next := FaucetTokenRequest(n, AddU32(previous.totalNumberOfRequest, 1), previous.totalTokenGiven);
      Outcome(s.(faucetRequests := s.faucetRequests[caller := next]), Ok(FaucetRequestSent(n)), [])
  }

  method SendTokenFaucetRequest(st: State, caller: Principal, n: u32) returns (r: Result<string, string>)
    modifies st
    ensures st.Data() == RequestStep(old(st.Data()), caller, n).state
    ensures r == RequestStep(old(st.Data()), caller, n).reply
    ensures caller == Anonymous ==> r.Err? && unchanged(st)
  {
    if caller == Anonymous {
      return Err(NotAllowedToRequest);
    }
    var previous := FaucetTokenRequest(n, 0, 0);
    if caller in st.faucetRequests {
      previous := st.faucetRequests[caller];
    }
    var next := FaucetTokenRequest(n, AddU32(previous.totalNumberOfRequest, 1), previous.totalTokenGiven);
    st.faucetRequests := st.faucetRequests[caller := next];
    r := Ok(FaucetRequestSent(n));
  }

  // ---------------------------------------------------------------- admin

  /** `register_admin`: first come, first served. */
  function RegisterAdminStep(s: FactoryData, caller: Principal): (o: Outcome<string, string>)
    ensures o.calls == []
    ensures o.reply.Ok? <==> !s.isAdminRegistered
    ensures s.isAdminRegistered ==> o.state == s && o.reply == Err(AdminAlreadyRegistered)
    ensures !s.isAdminRegistered ==>
      o.state.admin == caller && o.state.isAdminRegistered && o.state.(admin := s.admin, isAdminRegistered := false) == s
    ensures o.state.isAdminRegistered
  {
    if s.isAdminRegistered then Outcome(s, Err(AdminAlreadyRegistered), [])
    else Outcome(s.(admin := caller, isAdminRegistered := true), Ok("Admin registered"), [])
  }

  method RegisterAdmin(st: State, caller: Principal) returns (r: Result<string, string>)
    modifies st
    ensures st.Data() == RegisterAdminStep(old(st.Data()), caller).state
    ensures r == RegisterAdminStep(old(st.Data()), caller).reply
    ensures old(st.isAdminRegistered) ==> r == Err(AdminAlreadyRegistered) && unchanged(st)
  {
    if st.isAdminRegistered {
      return Err(AdminAlreadyRegistered);
    }
    st.admin := caller;
    st.isAdminRegistered := true;
    r := Ok("Admin registered");
  }

  /** `change_admin(newAdmin)`: refused before registration, then refused for
      anyone but the admin; otherwise only the admin changes. */
  function ChangeAdminStep(s: FactoryData, caller: Principal, newAdmin: Principal): (o: Outcome<string, string>)
    ensures o.calls == []
    ensures !s.isAdminRegistered ==> o.state == s && o.reply == Err(AdminNotRegistered)
    ensures s.isAdminRegistered && caller != s.admin ==> o.state == s && o.reply == Err(NotAuthorizedText)
    ensures s.isAdminRegistered && caller == s.admin ==>
      o.reply.Ok? && o.state.admin == newAdmin && o.state.(admin := s.admin) == s
  {
    if !s.isAdminRegistered then Outcome(s, Err(AdminNotRegistered), [])
    else if caller != s.admin then Outcome(s, Err(NotAuthorizedText), [])
    else Outcome(s.(admin := newAdmin), Ok("Admin changed successfully"), [])
  }

  method ChangeAdmin(st: State, caller: Principal, newAdmin: Principal) returns (r: Result<string, string>)
    modifies st
    ensures st.Data() == ChangeAdminStep(old(st.Data()), caller, newAdmin).state
    ensures r == ChangeAdminStep(old(st.Data()), caller, newAdmin).reply
    ensures r.Err? ==> unchanged(st)
  {
    if !st.isAdminRegistered {
      return Err(AdminNotRegistered);
    }
    if caller != st.admin {
      return Err(NotAuthorizedText);
    }
    st.admin := newAdmin;
    r := Ok("Admin changed successfully");
  }

  // ---------------------------------------------------------------- ledger transfer

  /** `transfer_tokens(to, amount, from)`: one `icrc2_transfer_from` on the token
      ledger, moving `amount` from `from`'s default account to `to`'s; a rejected
      call or a refusal by the ledger becomes `TransferFailed`. Returns the call
      issued and its result. */
  function TransferTokens(ledger: Principal, to: Principal, amount: u32, from: Principal,
                          outcome: CallResult<TransferReply>): (t: (ExternalCall, Result<(), Error>))
    ensures t.0.TransferFromCall? && t.0.ledger == ledger
    ensures t.0.args.from == Account(from, None) && t.0.args.to == Account(to, None)
    ensures t.0.args.amount == amount as nat
    ensures t.1.Ok? <==> outcome.Replied? && outcome.value.Transferred?
    ensures t.1.Err? ==> t.1.error.TransferFailed?
  {
    var args := TransferFromArgs(Account(from, None), Account(to, None), amount as nat, None, None, None, None);
    var result :=
      match outcome
      case Rejected(message, _) => Err(TransferFailed("Transfer failed: " + message))
      case Replied(Transferred(_)) => Ok(())
      case Replied(TransferRefused(debug)) => Err(TransferFailed("Transfer error: " + debug));
    (TransferFromCall(ledger, args), result)
  }

  // ---------------------------------------------------------------- accept / reject

  /** `accept_token_request(user)`: the admin check comes before the existence
      check; an accepted record keeps its amount, counts one more request and
      adds the amount to what was given (wrapping like the Rust integers), and
      this update stays even when the transfer that follows fails. */
  function AcceptStep(s: FactoryData, caller: Principal, user: Principal,
                      ledger: CallResult<TransferReply>): (o: Outcome<string, Error>)
    ensures caller != s.admin ==> o == Outcome(s, Err(NotAuthorized), [])
    ensures caller == s.admin && user !in s.faucetRequests ==> o == Outcome(s, Err(RequestNotFound), [])
    ensures caller == s.admin && user in s.faucetRequests ==>
      var before := s.faucetRequests[user];
      && o.state.faucetRequests.Keys == s.faucetRequests.Keys
      && o.state.faucetRequests[user] == FaucetTokenRequest(
           before.currentTokenRequest,
           AddU32(before.totalNumberOfRequest, 1),
           AddU64(before.totalTokenGiven, before.currentTokenRequest as int as u64))
      && (forall p :: p in s.faucetRequests && p != user ==> o.state.faucetRequests[p] == s.faucetRequests[p])
      && o.state.(faucetRequests := s.faucetRequests) == s
      && |o.calls| == 1
      && o.calls[0] == TransferTokens(s.tokenCanisterId, user, before.currentTokenRequest, caller, ledger).0
      && (o.reply.Ok? <==> ledger.Replied? && ledger.value.Transferred?)
  {
    if caller != s.admin then Outcome(s, Err(NotAuthorized), [])
    else if user !in s.faucetRequests then Outcome(s, Err(RequestNotFound), [])
    else
      var request := s.faucetRequests[user];
      var request := request.(totalNumberOfRequest := AddU32(request.totalNumberOfRequest, 1));
      var request := request.(totalTokenGiven := AddU64(request.totalTokenGiven, request.currentTokenRequest as int as u64));
      var s' := s.(faucetRequests := s.faucetRequests[user := request]);
      var (call, result) := TransferTokens(s.tokenCanisterId, user, request.currentTokenRequest, caller, ledger);
      var reply := if result.Err? then Err(result.error) else Ok("Request accepted");
      Outcome(s', reply, [call])
  }

  method AcceptTokenRequest(st: State, caller: Principal, user: Principal, ledger: CallResult<TransferReply>)
    returns (r: Result<string, Error>, calls: seq<ExternalCall>)
    modifies st
    ensures st.Data() == AcceptStep(old(st.Data()), caller, user, ledger).state
    ensures r == AcceptStep(old(st.Data()), caller, user, ledger).reply
    ensures calls == AcceptStep(old(st.Data()), caller, user, ledger).calls
    ensures caller != old(st.admin) ==> r == Err(NotAuthorized) && unchanged(st)
  {
    if caller != st.admin {
      return Err(NotAuthorized), [];
    }
    if user !in st.faucetRequests {
      return Err(RequestNotFound), [];
    }
    var request := st.faucetRequests[user];
    request := request.(totalNumberOfRequest := AddU32(request.totalNumberOfRequest, 1));
    request := request.(totalTokenGiven := AddU64(request.totalTokenGiven, request.currentTokenRequest as int as u64));
    st.faucetRequests := st.faucetRequests[user := request];
    var (call, result) := TransferTokens(st.tokenCanisterId, user, request.currentTokenRequest, caller, ledger);
    calls := [call];
    if result.Err? {
      return Err(result.error), calls;
    }
    r := Ok("Request accepted");
  }

  /** `reject_token_request(user)`: the same two guards; on success exactly the user's record is removed. */
  function RejectStep(s: FactoryData, caller: Principal, user: Principal): (o: Outcome<string, string>)
    ensures o.calls == []
    ensures caller != s.admin ==> o.state == s && o.reply == Err(NotAuthorizedText)
    ensures caller == s.admin && user !in s.faucetRequests ==> o.state == s && o.reply == Err(RequestNotFoundText)
    ensures caller == s.admin && user in s.faucetRequests ==>
      && o.reply == Ok("Request rejected")
      && o.state.faucetRequests.Keys == s.faucetRequests.Keys - {user}
      && (forall p :: p in o.state.faucetRequests ==> o.state.faucetRequests[p] == s.faucetRequests[p])
      && o.state.(faucetRequests := s.faucetRequests) == s
  {
    if caller != s.admin then Outcome(s, Err(NotAuthorizedText), [])
    else if user !in s.faucetRequests then Outcome(s, Err(RequestNotFoundText), [])
    else Outcome(s.(faucetRequests := s.faucetRequests - {user}), Ok("Request rejected"), [])
  }

  method RejectTokenRequest(st: State, caller: Principal, user: Principal) returns (r: Result<string, string>)
    modifies st
    ensures st.Data() == RejectStep(old(st.Data()), caller, user).state
    ensures r == RejectStep(old(st.Data()), caller, user).reply
    ensures r.Err? ==> unchanged(st)
  {
    if caller != st.admin {
      return Err(NotAuthorizedText);
    }
    if user !in st.faucetRequests {
      return Err(RequestNotFoundText);
    }
    st.faucetRequests := st.faucetRequests - {user};
    r := Ok("Request rejected");
  }

  // ---------------------------------------------------------------- properties across calls

  /** Once an admin is registered every later registration fails, whoever calls. */
  lemma SecondRegistrationFails(s: FactoryData, first: Principal, second: Principal)
    ensures RegisterAdminStep(RegisterAdminStep(s, first).state, second).reply == Err(AdminAlreadyRegistered)
  {
  }

  /** Accepting the same request twice grants its amount twice: nothing stops a repeated grant. */
  lemma AcceptTwiceGrantsTwice(s: FactoryData, user: Principal, l1: CallResult<TransferReply>, l2: CallResult<TransferReply>)
    requires user in s.faucetRequests
    requires s.faucetRequests[user].totalTokenGiven as int + 2 * s.faucetRequests[user].currentTokenRequest as int
             < 0x1_0000_0000_0000_0000
    ensures var o1 := AcceptStep(s, s.admin, user, l1);
            var o2 := AcceptStep(o1.state, s.admin, user, l2);
            && o2.state.faucetRequests[user].totalTokenGiven as int
               == s.faucetRequests[user].totalTokenGiven as int + 2 * s.faucetRequests[user].currentTokenRequest as int
            && |o1.calls| == 1 && |o2.calls| == 1
            && o1.calls[0].args.amount == o2.calls[0].args.amount == s.faucetRequests[user].currentTokenRequest as nat
  {
  }

  /** A transfer refused by the ledger still leaves the accepted record updated. */
  lemma AcceptUpdatePersistsOnFailedTransfer(s: FactoryData, user: Principal, ledger: CallResult<TransferReply>)
    requires user in s.faucetRequests
    requires !(ledger.Replied? && ledger.value.Transferred?)
    ensures var o := AcceptStep(s, s.admin, user, ledger);
            && o.reply == Err(TransferTokens(s.tokenCanisterId, user, s.faucetRequests[user].currentTokenRequest, s.admin, ledger).1.error)
            && o.state.faucetRequests[user].totalNumberOfRequest == AddU32(s.faucetRequests[user].totalNumberOfRequest, 1)
  {
  }
}
