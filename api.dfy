/**
 * The request handlers of api.go and the wrapper that turns their errors into
 * responses. A handler (Go's apiFunc) is modelled by what it does: the replies it
 * writes with WriteJSON, the error it returns, and the store afterwards.
 */
module Api {
  import opened Wrappers
  import opened Storage
  import StrConv

  const StatusOK: int := 200
  const StatusBadRequest: int := 400
  const StatusForbidden: int := 403

  /** The body of a transfer request. */
  datatype TransferRequest = TransferRequest(accountNumber: int, amount: int)

  /** The JSON bodies the server writes. */
  datatype Body =
    | ApiError(error: string)
    | AccountJson(account: Account)
    | AccountsJson(accounts: seq<Account>)
    | DeletedJson(deleted: int)
    | TransferJson(transfer: TransferRequest)

  /** One WriteJSON call: the status written and the JSON body. */
  datatype Reply = Reply(status: int, body: Body)

  /**
   * The parts of an incoming request the core reads: the method, the {id} path
   * variable (empty when the route has none) and the x-jwt-token header (empty when
   * absent).
   */
  datatype Request = Request(httpMethod: string, idVar: string, token: string)

  /** What an apiFunc does: its replies, its returned error, the store afterwards. */
  datatype Outcome = Outcome(replies: seq<Reply>, err: Option<string>, store: Store)

  /** What an http.HandlerFunc does: its replies and the store afterwards. */
  datatype Exchange = Exchange(replies: seq<Reply>, store: Store)

  type ApiFunc = (Request, Store) -> Outcome

  type HandlerFunc = (Request, Store) -> Exchange

  /**
   * The discipline every handler in api.go keeps: it returns an error without having
   * written anything, or it succeeds having written exactly one 200 reply.
   */
  predicate Disciplined(o: Outcome)
  {
    && (o.err.Some? ==> o.replies == [])
    && (o.err.None? ==> |o.replies| == 1 && o.replies[0].status == StatusOK)
  }

  /**
   * makeHTTPHandleFunc: runs the handler; on an error it appends one 400 reply whose
   * body is the APIError envelope around the error's text, and otherwise adds nothing.
   * The store is what the handler left.
   */
  function MakeHTTPHandleFunc(f: ApiFunc, r: Request, s: Store): (x: Exchange)
    ensures x.store == f(r, s).store
    ensures |x.replies| == |f(r, s).replies| + (if f(r, s).err.Some? then 1 else 0)
    ensures x.replies[..|f(r, s).replies|] == f(r, s).replies
    ensures f(r, s).err.Some? ==>
      x.replies[|x.replies| - 1] == Reply(StatusBadRequest, ApiError(f(r, s).err.value))
  {
    var o := f(r, s);
    match o.err
    case None => Exchange(o.replies, o.store)
    case Some(msg) => Exchange(o.replies + [Reply(StatusBadRequest, ApiError(msg))], o.store)
  }

  /**
   * A disciplined handler behind the wrapper answers with exactly one reply: the 400
   * envelope of its error when it fails, its own 200 reply when it succeeds.
   */
  lemma WrappedRepliesOnce(f: ApiFunc, r: Request, s: Store)
    requires Disciplined(f(r, s))
    ensures |MakeHTTPHandleFunc(f, r, s).replies| == 1
    ensures f(r, s).err.Some? ==>
      MakeHTTPHandleFunc(f, r, s).replies == [Reply(StatusBadRequest, ApiError(f(r, s).err.value))]
    ensures f(r, s).err.None? ==> MakeHTTPHandleFunc(f, r, s).replies == f(r, s).replies
  {
  }

  /** The result of getIDFromRequest: the id and the error, as Go's (int, error) pair. */
  datatype IdResult = IdResult(id: int, err: Option<string>)

  /**
   * getIDFromRequest: the {id} variable read by strconv.Atoi. When it is not a 64-bit
   * integer the id is -1 and the error names the text given; otherwise there is no
   * error and the id is the value written.
   */
  function GetIDFromRequest(r: Request): (p: IdResult)
    ensures p.err.None? <==> StrConv.Atoi(r.idVar).Success?
    ensures p.err.None? ==> StrConv.InIntRange(p.id) && p.id == StrConv.Atoi(r.idVar).value
    ensures p.err.Some? ==> p == IdResult(-1, Some("Invalid account ID given " + r.idVar))
  {
    match StrConv.Atoi(r.idVar)
    case Success(id) => IdResult(id, None)
    case Failure(_) => IdResult(-1, Some("Invalid account ID given " + r.idVar))
  }

  /** Any 64-bit id written in decimal in the path comes back out of getIDFromRequest. */
  lemma GetIDFromItoa(r: Request, id: int)
    requires StrConv.InIntRange(id) && r.idVar == StrConv.Itoa(id)
    ensures GetIDFromRequest(r) == IdResult(id, None)
  {
    StrConv.AtoiItoa(id);
  }

  function UnsupportedMethod(httpMethod: string, route: string): string
  {
    "[API] Method " + httpMethod + " is not supported by the API" + route
  }

  /**
   * handleAccount (/account): GET goes to handleGetAccount, POST to
   * handleCreateAccount; any other method fails, writing nothing and touching nothing.
   */
  function HandleAccount(getAccount: ApiFunc, createAccount: ApiFunc, r: Request, s: Store): (o: Outcome)
    ensures r.httpMethod == "GET" ==> o == getAccount(r, s)
    ensures r.httpMethod == "POST" ==> o == createAccount(r, s)
    ensures r.httpMethod != "GET" && r.httpMethod != "POST" ==>
      o == Outcome([], Some(UnsupportedMethod(r.httpMethod, "/account")), s)
  {
    if r.httpMethod == "GET" then getAccount(r, s)
    else if r.httpMethod == "POST" then createAccount(r, s)
    else Outcome([], Some(UnsupportedMethod(r.httpMethod, "/account")), s)
  }

  /**
   * handleGetAccountByID (GET /account/{id}): the stored account under the parsed id,
   * field for field, in one 200 reply; an unparsable id or a failed lookup is the
   * returned error. The store is unchanged.
   */
  function HandleGetAccountByID(r: Request, s: Store): (o: Outcome)
    ensures Disciplined(o) && o.store == s
    ensures o.err.None? <==>
      GetIDFromRequest(r).err.None? && s.fault.None? && GetIDFromRequest(r).id in s.accounts
    ensures o.err.None? ==>
      o.replies == [Reply(StatusOK, AccountJson(s.accounts[GetIDFromRequest(r).id]))]
    ensures GetIDFromRequest(r).err.Some? ==> o.err == GetIDFromRequest(r).err
    ensures GetIDFromRequest(r).err.None? && o.err.Some? ==>
      o.err == Some(GetAccountByID(s, GetIDFromRequest(r).id).error)
  {
    var p := GetIDFromRequest(r);
    if p.err.Some? then Outcome([], p.err, s)
    else
      match GetAccountByID(s, p.id)
      case Failure(e) => Outcome([], Some(e), s)
      case Success(a) =>
        var copy := Account(a.id, a.firstName, a.lastName, a.number, a.balance, a.createdAt);
        Outcome([Reply(StatusOK, AccountJson(copy))], None, s)
  }

  /**
   * handleDeleteAccountByID (DELETE /account/{id}): deletes the row with the parsed
   * id and answers 200 with {"deleted": id}; an unparsable id or a failing store is
   * the returned error and leaves the store as it was.
   */
  function HandleDeleteAccountByID(r: Request, s: Store): (o: Outcome)
    ensures Disciplined(o)
    ensures o.err.None? <==> GetIDFromRequest(r).err.None? && s.fault.None?
    ensures o.err.None? ==>
      && o.replies == [Reply(StatusOK, DeletedJson(GetIDFromRequest(r).id))]
      && o.store == Store(s.accounts - {GetIDFromRequest(r).id}, s.fault)
    ensures o.err.Some? ==> o.store == s
    ensures GetIDFromRequest(r).err.Some? ==> o.err == GetIDFromRequest(r).err
    ensures GetIDFromRequest(r).err.None? && o.err.Some? ==> o.err == s.fault
    ensures Consistent(s) ==> Consistent(o.store)
  {
    var p := GetIDFromRequest(r);
    if p.err.Some? then Outcome([], p.err, s)
    else
      var (s', err) := DeleteAccount(s, p.id);
      if err.Some? then Outcome([], err, s)
      else Outcome([Reply(StatusOK, DeletedJson(p.id))], None, s')
  }

  /**
   * handleAccountByID (/account/{id}): GET reads, DELETE deletes; any other method
   * fails, writing nothing and touching nothing.
   */
  function HandleAccountByID(r: Request, s: Store): (o: Outcome)
    ensures Disciplined(o)
    ensures r.httpMethod == "GET" ==> o == HandleGetAccountByID(r, s)
    ensures r.httpMethod == "DELETE" ==> o == HandleDeleteAccountByID(r, s)
    ensures r.httpMethod != "GET" && r.httpMethod != "DELETE" ==>
      o == Outcome([], Some(UnsupportedMethod(r.httpMethod, "/account/{id}")), s)
    ensures r.httpMethod != "DELETE" ==> o.store == s
  {
    if r.httpMethod == "GET" then HandleGetAccountByID(r, s)
    else if r.httpMethod == "DELETE" then HandleDeleteAccountByID(r, s)
    else Outcome([], Some(UnsupportedMethod(r.httpMethod, "/account/{id}")), s)
  }

  /**
   * handleTransfer (/transfer): anything but POST fails before the body is decoded;
   * then a body that does not decode is the returned error; otherwise the store's
   * Transfer runs on the decoded number and amount, its error is the returned error,
   * and on success the decoded request is echoed with 200. `decoded` is the JSON
   * decoding of the body and `transfer` the store's Transfer: the store it leaves and
   * the error it returns. The store changes only through Transfer.
   */
  function HandleTransfer(
    decoded: Result<TransferRequest, string>,
    transfer: (Store, int, int) -> (Store, Option<string>),
    r: Request,
    s: Store): (o: Outcome)
    ensures Disciplined(o)
    ensures r.httpMethod != "POST" ==>
      o.err == Some(UnsupportedMethod(r.httpMethod, "/transfer")) && o.store == s
    ensures r.httpMethod == "POST" && decoded.Failure? ==>
      o.err == Some(decoded.error) && o.store == s
    ensures r.httpMethod == "POST" && decoded.Success? ==>
      var (s', err) := transfer(s, decoded.value.accountNumber, decoded.value.amount);
      o.store == s' && o.err == err
    ensures o.err.None? <==>
      r.httpMethod == "POST" && decoded.Success?
      && transfer(s, decoded.value.accountNumber, decoded.value.amount).1.None?
    ensures o.err.None? ==> o.replies == [Reply(StatusOK, TransferJson(decoded.value))]
  {
    if r.httpMethod != "POST" then Outcome([], Some(UnsupportedMethod(r.httpMethod, "/transfer")), s)
    else
      match decoded
      case Failure(e) => Outcome([], Some(e), s)
      case Success(t) =>
        var (s', err) := transfer(s, t.accountNumber, t.amount);
        match err
        case Some(e) => Outcome([], Some(e), s')
        case None => Outcome([Reply(StatusOK, TransferJson(t))], None, s')
  }

  /** A non-POST transfer is refused whatever the body and the store would have done. */
  lemma TransferMethodCheckedFirst(
    d1: Result<TransferRequest, string>, d2: Result<TransferRequest, string>,
    t1: (Store, int, int) -> (Store, Option<string>), t2: (Store, int, int) -> (Store, Option<string>),
    r: Request, s: Store)
    requires r.httpMethod != "POST"
    ensures HandleTransfer(d1, t1, r, s) == HandleTransfer(d2, t2, r, s)
  {
  }
}
