/** The explore page: a case-insensitive search over the talent list, a
    two-item preview of each talent's achievements, and the faucet request
    dialog. */
module ExplorePage {
  import opened IcTypes
  import opened JsStrings

  /** A talent card's data; `achievements` may be absent. */
  datatype Talent = Talent(id: int, name: string, skill: string, achievements: Option<seq<string>>)

  /** `talent.name.toLowerCase().includes(query.toLowerCase())`. */
  predicate Matches(t: Talent, query: string)
  {
    Includes(ToLower(t.name), ToLower(query))
  }

  /** `xs` is `ys` with some entries left out, the rest in their order. */
  predicate IsSubsequence(xs: seq<Talent>, ys: seq<Talent>)
    decreases |ys|
  {
    if xs == [] then true
    else if ys == [] then false
    else if xs[0] == ys[0] then IsSubsequence(xs[1..], ys[1..])
    else IsSubsequence(xs, ys[1..])
  }

  /** `filteredTalents`: the talents whose name contains the query, ignoring
      case, in list order; each talent is kept or dropped as a whole, and a
      matching talent listed twice is kept twice. */
  function FilterTalents(talents: seq<Talent>, query: string): (r: seq<Talent>)
    ensures |r| <= |talents|
    ensures forall t :: t in r <==> t in talents && Matches(t, query)
    ensures IsSubsequence(r, talents)
    ensures forall t :: multiset(r)[t] == if Matches(t, query) then multiset(talents)[t] else 0
    decreases |talents|
  {
    if talents == [] then []
    else
      var rest := FilterTalents(talents[1..], query);
      assert talents == [talents[0]] + talents[1..];
      if Matches(talents[0], query) then
        assert ([talents[0]] + rest)[1..] == rest;
        [talents[0]] + rest
      else
        SubsequenceOfTail(rest, talents);
        rest
  }

  lemma {:induction false} SubsequenceOfTail(xs: seq<Talent>, ys: seq<Talent>)
    requires ys != [] && IsSubsequence(xs, ys[1..])
    ensures IsSubsequence(xs, ys)
    decreases |xs| + |ys|
  {
    if xs != [] && xs[0] == ys[0] {
      DropFirst(xs, ys[1..]);
    }
  }

  lemma {:induction false} DropFirst(xs: seq<Talent>, ys: seq<Talent>)
    requires xs != [] && IsSubsequence(xs, ys)
    ensures IsSubsequence(xs[1..], ys)
    decreases |xs| + |ys|
  {
    if xs[0] == ys[0] {
      SubsequenceOfTail(xs[1..], ys);
    } else {
      DropFirst(xs, ys[1..]);
      SubsequenceOfTail(xs[1..], ys);
    }
  }

  /** An empty search shows every talent. */
  lemma {:induction false} EmptyQueryKeepsAll(talents: seq<Talent>)
    ensures FilterTalents(talents, "") == talents
    decreases |talents|
  {
    if talents != [] {
      IncludesEmpty(ToLower(talents[0].name));
      assert ToLower("") == "";
      EmptyQueryKeepsAll(talents[1..]);
    }
  }

  /** The search ignores the case of the query. */
  lemma {:induction false} QueryCaseIgnored(talents: seq<Talent>, query: string)
    ensures FilterTalents(talents, ToLower(query)) == FilterTalents(talents, query)
    decreases |talents|
  {
    ToLowerIdempotent(query);
    if talents != [] {
      QueryCaseIgnored(talents[1..], query);
    }
  }

  /** `(achievements || []).slice(0, 2)`: the first two achievements, fewer if
      there are fewer, none when the list is absent. */
  function Preview(achievements: Option<seq<string>>): (r: seq<string>)
    ensures achievements.None? ==> r == []
    ensures achievements.Some? ==>
      && |r| == (if |achievements.value| < 2 then |achievements.value| else 2)
      && r == achievements.value[..|r|]
  {
    match achievements
    case None => []
    case Some(xs) => if |xs| <= 2 then xs else xs[..2]
  }

  /** The dialog's state. */
  class FaucetDialog {
    var isFormOpen: bool
    var tokenAmount: string

    constructor ()
      ensures !isFormOpen && tokenAmount == ""
    {
      isFormOpen := false;
      tokenAmount := "";
    }

    method Open()
      modifies this
      ensures isFormOpen && tokenAmount == old(tokenAmount)
    {
      isFormOpen := true;
    }

    method SetTokenAmount(text: string)
      modifies this
      ensures tokenAmount == text && isFormOpen == old(isFormOpen)
    {
      tokenAmount := text;
    }

    /** `handleFaucetRequest`, which only notifies: the dialog closes and the amount is cleared. */
    method HandleFaucetRequest() returns (notice: string)
      modifies this
      ensures !isFormOpen && tokenAmount == ""
      ensures notice == "Successfully requested " + old(tokenAmount) + " Talent Tokens"
    {
      notice := "Successfully requested " + tokenAmount + " Talent Tokens";
      isFormOpen := false;
      tokenAmount := "";
    }
  }
}
