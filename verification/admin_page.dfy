/** The admin page: a login gate in front of a table of faucet requests whose
    status the admin sets to "approved" or "rejected". The page keeps the list
    locally; nothing is sent to a canister. */
module AdminPage {

  datatype Request = Request(id: string, amount: int, status: string)

  const Pending := "pending"
  const Approved := "approved"
  const Rejected := "rejected"

  /** `requests.map(req => req.id === id ? {...req, status} : req)`: every entry
      with the given id gets the new status, and nothing else changes. */
  function WithStatus(requests: seq<Request>, id: string, status: string): (r: seq<Request>)
    ensures |r| == |requests|
    ensures forall i :: 0 <= i < |r| ==> r[i].id == requests[i].id && r[i].amount == requests[i].amount
    ensures forall i :: 0 <= i < |r| && requests[i].id == id ==> r[i].status == status
    ensures forall i :: 0 <= i < |r| && requests[i].id != id ==> r[i] == requests[i]
    decreases |requests|
  {
    if requests == [] then []
    else
      var head := if requests[0].id == id then requests[0].(status := status) else requests[0];
      var rest := WithStatus(requests[1..], id, status);
      var r := [head] + rest;
      assert forall i :: 1 <= i < |r| ==> r[i] == rest[i - 1] && requests[i] == requests[1..][i - 1];
      r
  }

  /** A second rewrite of the same id overrides the first: an approved request
      that is then rejected reads exactly as if it had only been rejected. */
  lemma {:induction false} LastStatusWins(requests: seq<Request>, id: string, s1: string, s2: string)
    ensures WithStatus(WithStatus(requests, id, s1), id, s2) == WithStatus(requests, id, s2)
    decreases |requests|
  {
    if requests != [] {
      LastStatusWins(requests[1..], id, s1, s2);
      assert WithStatus(requests, id, s1)[1..] == WithStatus(requests[1..], id, s1);
    }
  }

  /** Rewrites of different ids do not interfere: their order does not matter. */
  lemma {:induction false} RewritesCommute(requests: seq<Request>, a: string, sa: string, b: string, sb: string)
    requires a != b
    ensures WithStatus(WithStatus(requests, a, sa), b, sb) == WithStatus(WithStatus(requests, b, sb), a, sa)
    decreases |requests|
  {
    if requests != [] {
      RewritesCommute(requests[1..], a, sa, b, sb);
      assert WithStatus(requests, a, sa)[1..] == WithStatus(requests[1..], a, sa);
      assert WithStatus(requests, b, sb)[1..] == WithStatus(requests[1..], b, sb);
    }
  }

  /** One row of the table: the request and whether Approve/Reject are offered. */
  datatype Row = Row(request: Request, actionsOffered: bool)

  datatype Screen = LoginPrompt | RequestTable(rows: seq<Row>)

  /** What the page shows: the login prompt until authenticated, then one row per
      request, in order, with the two actions only on pending requests. */
  function Render(isAuthenticated: bool, requests: seq<Request>): (v: Screen)
    ensures v.RequestTable? <==> isAuthenticated
    ensures v.RequestTable? ==>
      && |v.rows| == |requests|
      && forall i :: 0 <= i < |requests| ==>
           v.rows[i].request == requests[i] && (v.rows[i].actionsOffered <==> requests[i].status == Pending)
  {
    if !isAuthenticated then LoginPrompt
    else RequestTable(seq(|requests|, i requires 0 <= i < |requests| => Row(requests[i], requests[i].status == Pending)))
  }

  /** Once a request is approved or rejected, no action is offered on it any more. */
  lemma SettledRequestsOfferNothing(requests: seq<Request>, id: string, status: string)
    requires status != Pending
    ensures var v := Render(true, WithStatus(requests, id, status));
            forall i :: 0 <= i < |requests| && requests[i].id == id ==> !v.rows[i].actionsOffered
  {
  }

  /** The component's state. */
  class Page {
    var isAuthenticated: bool
    var requests: seq<Request>

    /** Mounting: not authenticated, with the initial request list. */
    constructor (initial: seq<Request>)
      ensures !isAuthenticated && requests == initial
    {
      isAuthenticated := false;
      requests := initial;
    }

    method HandleLogin()
      modifies this
      ensures isAuthenticated && requests == old(requests)
    {
      isAuthenticated := true;
    }

    method Logout()
      modifies this
      ensures !isAuthenticated && requests == old(requests)
    {
      isAuthenticated := false;
    }

    /** `handleApprove(id)`: the handler itself does not look at the status. */
    method HandleApprove(id: string)
      modifies this
      ensures requests == WithStatus(old(requests), id, Approved)
      ensures isAuthenticated == old(isAuthenticated)
    {
      requests := WithStatus(requests, id, Approved);
    }

    method HandleReject(id: string)
      modifies this
      ensures requests == WithStatus(old(requests), id, Rejected)
      ensures isAuthenticated == old(isAuthenticated)
    {
      requests := WithStatus(requests, id, Rejected);
    }

    ghost function View(): Screen
      reads this
    {
      Render(isAuthenticated, requests)
    }
  }
}
