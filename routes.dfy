/**
 * The three routes the server registers, each composed as in the route table of
 * api.go, and what a client sees through them end to end.
 */
module Routes {
  import opened Wrappers
  import opened Storage
  import opened Api
  import opened Auth
  import Jwt
  import StrConv

  /**
   * /account: handleAccount behind makeHTTPHandleFunc. A method other than GET or
   * POST gets one 400 reply naming it; with disciplined sub-handlers every request
   * gets exactly one reply.
   */
  function ServeAccount(getAccount: ApiFunc, createAccount: ApiFunc, r: Request, s: Store): (x: Exchange)
    ensures r.httpMethod != "GET" && r.httpMethod != "POST" ==>
      x == Exchange([Reply(StatusBadRequest, ApiError(UnsupportedMethod(r.httpMethod, "/account")))], s)
    ensures Disciplined(getAccount(r, s)) && Disciplined(createAccount(r, s)) ==> |x.replies| == 1
  {
    var handle := (r': Request, s': Store) => HandleAccount(getAccount, createAccount, r', s');
    var x := MakeHTTPHandleFunc(handle, r, s);
    if Disciplined(handle(r, s)) then WrappedRepliesOnce(handle, r, s); x else x
  }

  /** handleAccountByID behind makeHTTPHandleFunc, the handler withJWTAuth wraps. */
  function AccountByID(r: Request, s: Store): (x: Exchange)
    ensures |x.replies| == 1
    ensures r.httpMethod != "DELETE" ==> x.store == s
  {
    WrappedRepliesOnce(HandleAccountByID, r, s);
    MakeHTTPHandleFunc(HandleAccountByID, r, s)
  }

  /**
   * /account/{id}: the ownership check around AccountByID. Every request gets
   * exactly one reply unless the claim panics, and only DELETE can change the store.
   */
  function ServeAccountByID(r: Request, s: Store, secret: string, lib: Jwt.Lib): (x: Served)
    ensures |x.replies| == (if Panics(r, s, secret, lib) then 0 else 1)
    ensures r.httpMethod != "DELETE" ==> x.store == s
  {
    WithJWTAuth(AccountByID, s, r, secret, lib)
  }

  /**
   * /transfer: handleTransfer behind makeHTTPHandleFunc. Exactly one reply, a 400
   * naming the method for anything but POST, which leaves the store alone.
   */
  function ServeTransfer(
    decoded: Result<TransferRequest, string>,
    transfer: (Store, int, int) -> (Store, Option<string>),
    r: Request,
    s: Store): (x: Exchange)
    ensures |x.replies| == 1
    ensures r.httpMethod != "POST" ==>
      && x.replies == [Reply(StatusBadRequest, ApiError(UnsupportedMethod(r.httpMethod, "/transfer")))]
      && x.store == s
  {
    var handle := (r': Request, s': Store) => HandleTransfer(decoded, transfer, r', s');
    WrappedRepliesOnce(handle, r, s);
    MakeHTTPHandleFunc(handle, r, s)
  }

  /** The request a client sends for account a: its id in the path, a's token in the header. */
  function OwnRequest(httpMethod: string, a: Account, secret: string, lib: Jwt.Lib): Request
  {
    Request(httpMethod, StrConv.Itoa(a.id), CreateJWT(a, secret, lib))
  }

  /** The preconditions of the scenarios below: the store holds a under its id. */
  predicate Holds(s: Store, a: Account)
  {
    s.fault.None? && a.id in s.accounts && s.accounts[a.id] == a && StrConv.InIntRange(a.id)
  }

  /**
   * With the token issued for it, an account's owner passes the check for any method;
   * GET reads the account back and DELETE removes it with {"deleted": id}; any other
   * method reaches the handler and is refused there with 400.
   */
  lemma OwnerIsServed(httpMethod: string, a: Account, s: Store, secret: string, lib: Jwt.Lib)
    requires Jwt.Lawful(lib) && Holds(s, a)
    ensures var x := ServeAccountByID(OwnRequest(httpMethod, a, secret, lib), s, secret, lib);
      && x.handlerInvoked
      && (httpMethod == "GET" ==> x.replies == [Reply(StatusOK, AccountJson(a))] && x.store == s)
      && (httpMethod == "DELETE" ==>
            x.replies == [Reply(StatusOK, DeletedJson(a.id))] && x.store == Store(s.accounts - {a.id}, None))
      && (httpMethod != "GET" && httpMethod != "DELETE" ==>
            x.replies == [Reply(StatusBadRequest, ApiError(UnsupportedMethod(httpMethod, "/account/{id}")))]
            && x.store == s)
  {
    var r := OwnRequest(httpMethod, a, secret, lib);
    IssuedTokenOwnsItsAccount(a, a, secret, lib);
    GetIDFromItoa(r, a.id);
    assert Authorized(r, s, secret, lib);
  }

  /**
   * A token issued for account a opens no other account: against an account b with a
   * different number it is refused with 403 for every method, before the handler
   * runs and without touching the store.
   */
  lemma ForeignTokenRefused(httpMethod: string, a: Account, b: Account, s: Store, secret: string, lib: Jwt.Lib)
    requires Jwt.Lawful(lib) && Holds(s, b) && b.number != a.number
    ensures var x := ServeAccountByID(Request(httpMethod, StrConv.Itoa(b.id), CreateJWT(a, secret, lib)), s, secret, lib);
      !x.handlerInvoked && x.replies == [PermissionDenied] && x.store == s
  {
    var r := Request(httpMethod, StrConv.Itoa(b.id), CreateJWT(a, secret, lib));
    IssuedTokenOwnsItsAccount(a, b, secret, lib);
    GetIDFromItoa(r, b.id);
    assert !Authorized(r, s, secret, lib);
    assert !Panics(r, s, secret, lib);
  }

  /**
   * After the owner deletes an account, reading it with the same token is refused
   * with 403: the ownership check finds no account, so no 404 is ever written.
   */
  lemma DeletedAccountIsForbidden(a: Account, s: Store, secret: string, lib: Jwt.Lib)
    requires Jwt.Lawful(lib) && Holds(s, a)
    ensures var deleted := ServeAccountByID(OwnRequest("DELETE", a, secret, lib), s, secret, lib);
      var read := ServeAccountByID(OwnRequest("GET", a, secret, lib), deleted.store, secret, lib);
      && deleted.replies == [Reply(StatusOK, DeletedJson(a.id))]
      && !read.handlerInvoked && read.replies == [PermissionDenied]
  {
    OwnerIsServed("DELETE", a, s, secret, lib);
    var s' := ServeAccountByID(OwnRequest("DELETE", a, secret, lib), s, secret, lib).store;
    var r := OwnRequest("GET", a, secret, lib);
    GetIDFromItoa(r, a.id);
    assert a.id !in s'.accounts;
    assert !Authorized(r, s', secret, lib);
    assert !Panics(r, s', secret, lib);
  }
}
