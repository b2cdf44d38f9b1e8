/**
 * The `/totalTimeSpent` route of index.js, which runs the auth gate before
 * `aggregateFeaturesSum`, and how the gate's reading of the query relates
 * to the filters the handlers read from it.
 */
module Routes {
  import opened Common
  import opened StatSchema
  import opened Pipeline
  import opened Aggregation
  import opened AuthGate
  import Accounts

  /** Apply a conversion to a value that may be undefined. */
  function MapOption(v: Option<string>, toTime: string -> int): Option<int> {
    match v
    case None => None
    case Some(s) => Some(toTime(s))
  }

  /**
   * `req.query.age`, `.gender`, `.fromDate` and `.toDate` as the handlers
   * read them; `toTime` stands for `new Date(...)` on a bound.
   */
  function FiltersOf(q: Query, toTime: string -> int): Filters {
    Filters(Param(q, "age"), Param(q, "gender"),
            MapOption(Param(q, "fromDate"), toTime), MapOption(Param(q, "toDate"), toTime))
  }

  /** What the route ends in: the totals sent, a status sent, or a thrown error. */
  datatype Response = SentTotals(totals: Totals) | SentStatus(code: int, message: string) | Fault

  /**
   * `app.get("/totalTimeSpent", authMiddleware, handler)`: a rejection by
   * the gate is sent as is; past the gate the handler sends the totals over
   * the matching records, or throws reading `result[0]` when none match.
   */
  method TotalTimeSpent(q: Query, token: Option<string>, verify: string -> Verification,
                        toTime: string -> int, store: seq<Stat>) returns (resp: Response)
    ensures Authenticate(q, token, verify).Rejected? ==>
              resp == SentStatus(Authenticate(q, token, verify).status, Authenticate(q, token, verify).message)
    ensures Authenticate(q, token, verify).Next? ==>
              var sel := Selected(FiltersOf(q, toTime), store);
              resp == if sel == [] then Fault else SentTotals(TotalsOf(sel))
  {
    var gate := Authenticate(q, token, verify);
    if gate.Rejected? {
      return SentStatus(gate.status, gate.message);
    }
    var result := AggregateFeaturesSum(FiltersOf(q, toTime), store);
    match result
    case Ok(totals) => resp := SentTotals(totals);
    case Err(_) => resp := Fault;
  }

  /** With no filter at all, every record is selected. */
  lemma {:induction false} NoFiltersSelectAll(rs: seq<Stat>)
    ensures Selected(Filters(None, None, None, None), rs) == rs
  {
    if rs != [] {
      NoFiltersSelectAll(rs[1..]);
    }
  }

  /** An unfiltered request needs no token and sums over every record. */
  lemma UnfilteredIsPublic(token: Option<string>, verify: string -> Verification, toTime: string -> int, store: seq<Stat>)
    ensures Authenticate(map[], token, verify) == Next(None)
    ensures Selected(FiltersOf(map[], toTime), store) == store
  {
  }

  /**
   * The gate tests truthiness and the handlers `!== undefined`: an empty
   * `age` passes the gate without a token yet still adds a match on "".
   */
  lemma EmptyAgeUngatedButMatched(token: Option<string>, verify: string -> Verification, toTime: string -> int)
    ensures Authenticate(map["age" := ""], token, verify) == Next(None)
    ensures TotalSumStages(FiltersOf(map["age" := ""], toTime)) == [MatchAge(""), GroupTotals]
  {
  }

  /**
   * `toDate` alone is never gated, and without `fromDate` it adds no date
   * stage either: the request is answered publicly over every record.
   */
  lemma ToDateAloneIsPublic(date: string, token: Option<string>, verify: string -> Verification,
                            toTime: string -> int, store: seq<Stat>)
    ensures Authenticate(map["toDate" := date], token, verify) == Next(None)
    ensures TotalSumStages(FiltersOf(map["toDate" := date], toTime)) == [GroupTotals]
    ensures Selected(FiltersOf(map["toDate" := date], toTime), store) == store
  {
  }

  /** A lone upper bound filters nothing. */
  lemma {:induction false} SelectedIgnoresHalfRange(rs: seq<Stat>, to: int)
    ensures Selected(Filters(None, None, None, Some(to)), rs) == Selected(Filters(None, None, None, None), rs)
  {
    if rs != [] {
      SelectedIgnoresHalfRange(rs[1..], to);
    }
  }

  /** A truthy `toData` demands a token although no handler filters on it. */
  lemma ToDataGatedButUnfiltered(v: string, verify: string -> Verification, toTime: string -> int)
    requires v != ""
    ensures Authenticate(map["toData" := v], None, verify) == Rejected(401, NoTokenMessage)
    ensures TotalSumStages(FiltersOf(map["toData" := v], toTime)) == [GroupTotals]
  {
  }

  /**
   * A token issued by login passes the gate and sets `req.user` to the
   * account's id, given that verification decodes what signing produced.
   */
  lemma LoginTokenPassesGate(users: map<string, Accounts.Account>, email: string, password: string,
                             crypto: Accounts.Crypto, verify: string -> Verification, q: Query)
    requires forall id: nat :: crypto.sign(id) != "" && verify(crypto.sign(id)) == Decoded(Claims(id))
    requires Accounts.LoginReply(users, email, password, crypto).Sent?
    ensures var token := Accounts.LoginReply(users, email, password, crypto).body;
            Authenticate(q, Some(token), verify) == Next(if NeedsToken(q) then Some(Claims(users[email].id)) else None)
  {
  }
}
