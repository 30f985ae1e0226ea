/**
 * The `CSB` facade: it remembers the logged-in account and user, falls back
 * to them when an event names neither, turns each event into one record for
 * the transport, and forwards `flush` only while the configuration is enabled.
 * The transport is represented by the log of calls the facade makes on it.
 */
module Client {
  import opened Php
  import Config
  import ApiTransport

  /** The transport strategy the constructor instantiates. */
  datatype TransportKind = CurlTransport | AsyncTransport

  /** `switch ($Configuration->getTransport())`: `'async'` picks the shell transport, every other name cURL. */
  function SelectTransport(name: string): (k: TransportKind)
    ensures k == AsyncTransport <==> name == "async"
    ensures name == "sync" ==> k == CurlTransport
  {
    if name == "async" then AsyncTransport else CurlTransport
  }

  /** The record maps the event methods hand to the transport; `timestamp` stands for `date(DateTime::ISO8601)`. */
  datatype Record =
    | TrackRecord(accountId: string, userId: string, event: string, timestamp: string)
    | AccountRecord(accountId: string, traits: map<string, string>, timestamp: string)
    | UserRecord(accountId: string, userId: string, traits: map<string, string>, timestamp: string)
    | FeatureRecord(accountId: string, userId: string, productId: string, moduleId: string,
              featureId: string, total: int, timestamp: string)

  /** One call the facade makes on its transport. */
  datatype TransportCall = SendRecord(record: Record) | FlushTransport

  /** The record names a non-empty account and, when it has one, a non-empty user. */
  predicate Identified(r: Record) {
    !PhpEmpty(r.accountId) && (r.AccountRecord? || !PhpEmpty(r.userId))
  }

  const LOGIN_EVENT := "User Login"
  const LOGOUT_EVENT := "User Logout"
  const NO_ACCOUNT := CSBException("Please Provide Account ID or Use Login Function")
  const NO_USER := CSBException("Please Provide User ID or Use Login Function")
  const INVALID_ACCOUNT := CSBException("Invalid Account ID")
  const INVALID_USER := CSBException("Invalid User ID")

  /** `new AsyncTransport($Configuration)` passes one argument to a constructor that requires two. */
  const ASYNC_ARGUMENTS :=
    ArgumentCountError("Too few arguments to function CSB\\Transport\\AsyncTransport::__construct(), 1 passed and exactly 2 expected")
  const NO_CURL := CSBException("cURL PHP extension is not available")

  class CSB {
    const config: Config.Configuration
    const transport: TransportKind
    /** The stored IDs; the empty string stands for the initial `null`. */
    var accountID: string
    var userID: string
    /** Every `Transport->send` and `Transport->flush` call, oldest first. */
    var calls: seq<TransportCall>

    /** Every record sent so far is identified. */
    ghost predicate Valid()
      reads this
    {
      forall i :: 0 <= i < |calls| && calls[i].SendRecord? ==> Identified(calls[i].record)
    }

    /** The facade once its transport has been built: nothing stored, nothing sent. */
    constructor (configuration: Config.Configuration)
      ensures config == configuration
      ensures transport == SelectTransport(configuration.transport)
      ensures accountID == "" && userID == ""
      ensures calls == []
      ensures Valid()
    {
      config := configuration;
      transport := SelectTransport(configuration.transport);
      accountID := "";
      userID := "";
      calls := [];
    }

    /**
     * `new CSB($Configuration)`, as its body reads once the transport classes
     * load. The `'async'` branch raises, because the shell transport's
     * constructor takes two arguments. Any other name builds the cURL
     * transport, which needs the cURL extension and then validates the options.
     */
    static method New(configuration: Config.Configuration, curlAvailable: bool) returns (r: Result<CSB>)
      ensures configuration.transport == "async" ==> r == Err(ASYNC_ARGUMENTS)
      ensures configuration.transport != "async" && !curlAvailable ==> r == Err(NO_CURL)
      ensures configuration.transport != "async" && curlAvailable ==>
        var options := configuration.options;
        var proxyOk := "proxy" !in options || ApiTransport.Matches(ApiTransport.AnyCharacter, options["proxy"]);
        var debugOk := "debug" !in options || ApiTransport.Matches(ApiTransport.OptionalBit, options["debug"]);
        && (r.Ok? <==> proxyOk && debugOk)
        && (!proxyOk ==> r == Err(ApiTransport.InvalidOption("proxy")))
        && (proxyOk && !debugOk ==> r == Err(ApiTransport.InvalidOption("debug")))
      ensures r.Ok? ==>
        && fresh(r.value) && r.value.Valid()
        && r.value.config == configuration && r.value.transport == CurlTransport
        && r.value.accountID == "" && r.value.userID == "" && r.value.calls == []
    {
      if SelectTransport(configuration.transport) == AsyncTransport {
        return Err(ASYNC_ARGUMENTS);
      }
      if !curlAvailable {
        return Err(NO_CURL);
      }
      var t := ApiTransport.APITransport.New(configuration);
      if t.Err? {
        return Err(t.error);
      }
      var csb := new CSB(configuration);
      return Ok(csb);
    }

    /**
     * `checkForAccountAndUserID`: a non-empty argument is used as given, an
     * empty one is replaced by the stored ID, and when both are empty the
     * call throws, the account being checked before the user.
     */
    function CheckForAccountAndUserID(account: string, user: string): (r: Result<(string, string)>)
      reads this
      ensures r.Ok? <==>
        (!PhpEmpty(account) || !PhpEmpty(accountID)) && (!PhpEmpty(user) || !PhpEmpty(userID))
      ensures PhpEmpty(account) && PhpEmpty(accountID) ==> r == Err(NO_ACCOUNT)
      ensures (!PhpEmpty(account) || !PhpEmpty(accountID)) && PhpEmpty(user) && PhpEmpty(userID) ==>
        r == Err(NO_USER)
      ensures r.Ok? ==> !PhpEmpty(r.value.0) && !PhpEmpty(r.value.1)
      ensures r.Ok? ==> r.value.0 == (if PhpEmpty(account) then accountID else account)
      ensures r.Ok? ==> r.value.1 == (if PhpEmpty(user) then userID else user)
    {
      var a := if PhpEmpty(account) then accountID else account;
      if PhpEmpty(a) then Err(NO_ACCOUNT)
      else
        var u := if PhpEmpty(user) then userID else user;
        if PhpEmpty(u) then Err(NO_USER)
        else Ok((a, u))
    }

    /** `track`: one `'track'` record with the given IDs and event goes to the transport. */
    method Track(event: string, account: string, user: string, timestamp: string)
      modifies this`calls
      ensures calls == old(calls) + [SendRecord(TrackRecord(account, user, event, timestamp))]
    {
      calls := calls + [SendRecord(TrackRecord(account, user, event, timestamp))];
    }

    /**
     * `login`: an empty account ID throws before anything changes; an empty
     * user ID throws after the account ID has already been stored; otherwise
     * both are stored and one `'User Login'` record is sent.
     */
    method Login(account: string, user: string, timestamp: string) returns (r: Outcome)
      requires Valid()
      modifies this`accountID, this`userID, this`calls
      ensures Valid()
      ensures PhpEmpty(account) ==>
        r == Fail(INVALID_ACCOUNT) && accountID == old(accountID) && userID == old(userID) && calls == old(calls)
      ensures !PhpEmpty(account) && PhpEmpty(user) ==>
        r == Fail(INVALID_USER) && accountID == account && userID == old(userID) && calls == old(calls)
      ensures !PhpEmpty(account) && !PhpEmpty(user) ==>
        r == Pass && accountID == account && userID == user &&
        calls == old(calls) + [SendRecord(TrackRecord(account, user, LOGIN_EVENT, timestamp))]
    {
      if PhpEmpty(account) {
        return Fail(INVALID_ACCOUNT);
      }
      accountID := account;
      if PhpEmpty(user) {
        return Fail(INVALID_USER);
      }
      userID := user;
      Track(LOGIN_EVENT, account, user, timestamp);
      return Pass;
    }

    /** `account`: store a non-empty account ID and send one `'account'` record, or throw and change nothing. */
    method Account(account: string, traits: map<string, string>, timestamp: string) returns (r: Outcome)
      requires Valid()
      modifies this`accountID, this`calls
      ensures Valid()
      ensures PhpEmpty(account) ==>
        r == Fail(INVALID_ACCOUNT) && accountID == old(accountID) && calls == old(calls)
      ensures !PhpEmpty(account) ==>
        r == Pass && accountID == account &&
        calls == old(calls) + [SendRecord(AccountRecord(account, traits, timestamp))]
    {
      if PhpEmpty(account) {
        return Fail(INVALID_ACCOUNT);
      }
      accountID := account;
      calls := calls + [SendRecord(AccountRecord(account, traits, timestamp))];
      return Pass;
    }

    /**
     * `user`: the same partial update as `login` (the account ID is stored
     * before the user ID is checked), then one `'user'` record.
     */
    method User(account: string, user: string, traits: map<string, string>, timestamp: string) returns (r: Outcome)
      requires Valid()
      modifies this`accountID, this`userID, this`calls
      ensures Valid()
      ensures PhpEmpty(account) ==>
        r == Fail(INVALID_ACCOUNT) && accountID == old(accountID) && userID == old(userID) && calls == old(calls)
      ensures !PhpEmpty(account) && PhpEmpty(user) ==>
        r == Fail(INVALID_USER) && accountID == account && userID == old(userID) && calls == old(calls)
      ensures !PhpEmpty(account) && !PhpEmpty(user) ==>
        r == Pass && accountID == account && userID == user &&
        calls == old(calls) + [SendRecord(UserRecord(account, user, traits, timestamp))]
    {
      if PhpEmpty(account) {
        return Fail(INVALID_ACCOUNT);
      }
      accountID := account;
      if PhpEmpty(user) {
        return Fail(INVALID_USER);
      }
      userID := user;
      calls := calls + [SendRecord(UserRecord(account, user, traits, timestamp))];
      return Pass;
    }

    /**
     * `logout`: resolve the IDs against the stored ones and send one
     * `'User Logout'` record; the stored IDs are left as they are.
     */
    method Logout(account: string, user: string, timestamp: string) returns (r: Outcome)
      requires Valid()
      modifies this`calls
      ensures Valid()
      ensures CheckForAccountAndUserID(account, user).Err? ==>
        r == Fail(CheckForAccountAndUserID(account, user).error) && calls == old(calls)
      ensures CheckForAccountAndUserID(account, user).Ok? ==>
        var ids := CheckForAccountAndUserID(account, user).value;
        r == Pass && calls == old(calls) + [SendRecord(TrackRecord(ids.0, ids.1, LOGOUT_EVENT, timestamp))]
    {
      var ids := CheckForAccountAndUserID(account, user);
      if ids.Err? {
        return Fail(ids.error);
      }
      Track(LOGOUT_EVENT, ids.value.0, ids.value.1, timestamp);
      return Pass;
    }

    /**
     * `feature`: resolve the IDs against the stored ones and send one
     * `'feature'` record carrying `total` (1 unless the caller says otherwise).
     */
    method Feature(product: string, moduleName: string, feature: string, total: int,
                   account: string, user: string, timestamp: string) returns (r: Outcome)
      requires Valid()
      modifies this`calls
      ensures Valid()
      ensures CheckForAccountAndUserID(account, user).Err? ==>
        r == Fail(CheckForAccountAndUserID(account, user).error) && calls == old(calls)
      ensures CheckForAccountAndUserID(account, user).Ok? ==>
        var ids := CheckForAccountAndUserID(account, user).value;
        r == Pass &&
        calls == old(calls) + [SendRecord(FeatureRecord(ids.0, ids.1, product, moduleName, feature, total, timestamp))]
    {
      var ids := CheckForAccountAndUserID(account, user);
      if ids.Err? {
        return Fail(ids.error);
      }
      calls := calls + [SendRecord(FeatureRecord(ids.value.0, ids.value.1, product, moduleName, feature, total, timestamp))];
      return Pass;
    }

    /** `flush`: forwarded to the transport exactly once while the configuration is enabled, else nothing. */
    method Flush()
      requires Valid()
      modifies this`calls
      ensures Valid()
      ensures config.IsEnabled() ==> calls == old(calls) + [FlushTransport]
      ensures !config.IsEnabled() ==> calls == old(calls)
    {
      if !config.IsEnabled() {
        return;
      }
      calls := calls + [FlushTransport];
    }
  }

  /** The default `total` of `feature`. */
  const DEFAULT_TOTAL: int := 1

  /**
   * After a successful login, `logout()` and `feature()` without IDs report
   * the logged-in account and user, and neither changes what is stored.
   */
  method LoggedInEventsUseStoredIds(configuration: Config.Configuration, account: string, user: string, ts: string)
    requires !PhpEmpty(account) && !PhpEmpty(user)
  {
    var csb := new CSB(configuration);
    var r := csb.Login(account, user, ts);
    assert r == Pass;
    r := csb.Feature("p", "m", "f", DEFAULT_TOTAL, "", "", ts);
    assert csb.calls[1] == SendRecord(FeatureRecord(account, user, "p", "m", "f", 1, ts));
    r := csb.Logout("", "", ts);
    assert csb.calls[2] == SendRecord(TrackRecord(account, user, LOGOUT_EVENT, ts));
    assert csb.accountID == account && csb.userID == user;
  }
}
