/**
 * The decision rules of the checkout page (src/pages/Checkout.js): the
 * telegram-failure redirect, the country default, the navigate-home and
 * cart-fetch conditions, the Telegram view switch, and `checkoutLoader`.
 * `localStorage` is a map passed in and returned; the users slice of the
 * store is a record passed in and returned.
 */
module Checkout {
  import opened JsValues
  import opened UserState

  /** `localStorage`: key to stored string. */
  type Storage = map<string, string>

  /** `localStorage.getItem(key)`: the stored string, or null. */
  function GetItem(storage: Storage, key: string): (r: Option<string>)
    ensures r.Some? <==> key in storage
    ensures r.Some? ==> r.value == storage[key]
  {
    if key in storage then Some(storage[key]) else None
  }

  /** The query parameters the page reads (`URLSearchParams.get` gives null when absent). */
  datatype Query = Query(telegramPayment: Option<string>, status: Option<string>, message: Option<string>)

  /** A side effect of the page, in the order it happens. */
  datatype Effect = SetItem(key: string, value: string) | AssignLocation(url: string)

  const UserMissingMessage: string := "payment was successful but the user does not exist"
  const TelegramSupportUrl: string := "https://t.me/+w2DV7vqf0TplNDk0"

  /** `localStorage` after the `setItem` effects, in order. */
  function Persist(storage: Storage, effects: seq<Effect>): Storage
    decreases |effects|
  {
    if effects == [] then storage
    else
      var next := match effects[0]
        case SetItem(k, v) => storage[k := v]
        case AssignLocation(_) => storage;
      Persist(next, effects[1..])
  }

  /** Where `window.location.href` was last sent by the effects, if anywhere. */
  function Location(effects: seq<Effect>): Option<string>
    decreases |effects|
  {
    if effects == [] then None
    else
      var rest := Location(effects[1..]);
      if rest.Some? then rest
      else match effects[0]
        case AssignLocation(url) => Some(url)
        case SetItem(_, _) => None
  }

  /** `setItem(k, v)` followed by `getItem`: k now reads v, and every other key reads as before. */
  lemma PersistSetItem(storage: Storage, k: string, v: string, other: string)
    ensures GetItem(Persist(storage, [SetItem(k, v)]), k) == Some(v)
    ensures other != k ==> GetItem(Persist(storage, [SetItem(k, v)]), other) == GetItem(storage, other)
  {
    assert Persist(storage, [SetItem(k, v)]) == Persist(storage[k := v], []);
  }

  /**
   * The telegram-failure effect: when the payment failed because the user does
   * not exist and the stored telegram flag is "true", clear the flag, then send
   * the whole page to the support channel. Otherwise nothing happens.
   */
  function TelegramFailureEffects(query: Query, storage: Storage): (effects: seq<Effect>)
    ensures effects != [] <==>
      query.status == Some("failed") && query.message == Some(UserMissingMessage)
      && GetItem(storage, "telegram") == Some("true")
    ensures effects != [] ==> effects == [SetItem("telegram", "false"), AssignLocation(TelegramSupportUrl)]
  {
    if query.status == Some("failed") && query.message == Some(UserMissingMessage)
       && GetItem(storage, "telegram") == Some("true")
    then [SetItem("telegram", "false"), AssignLocation(TelegramSupportUrl)]
    else []
  }

  /**
   * The redirect fires at most once per stored flag: after its effects are
   * persisted, evaluating the rule again does nothing; and only the telegram
   * key is touched.
   */
  lemma TelegramRedirectOnce(query: Query, storage: Storage)
    ensures var after := Persist(storage, TelegramFailureEffects(query, storage));
      && TelegramFailureEffects(query, after) == []
      && after.Keys <= storage.Keys + {"telegram"}
      && (forall k :: k in storage && k != "telegram" ==> k in after && after[k] == storage[k])
  {
    var effects := TelegramFailureEffects(query, storage);
    if effects != [] {
      var after := Persist(storage, effects);
      assert Persist(storage, effects) == Persist(storage["telegram" := "false"], [AssignLocation(TelegramSupportUrl)]);
      assert after == storage["telegram" := "false"];
    }
  }

  /**
   * What the telegram rule leaves behind: storage and location are untouched
   * unless the status is "failed", the message is the missing-user message and
   * the stored flag is "true"; then the flag reads "false" and the page is at the
   * support channel.
   */
  lemma TelegramFailureOutcome(query: Query, storage: Storage)
    ensures var fires := query.status == Some("failed") && query.message == Some(UserMissingMessage)
                         && "telegram" in storage && storage["telegram"] == "true";
      var effects := TelegramFailureEffects(query, storage);
      && Persist(storage, effects) == (if fires then storage["telegram" := "false"] else storage)
      && Location(effects) == (if fires then Some(TelegramSupportUrl) else None)
  {
    var effects := TelegramFailureEffects(query, storage);
    if effects != [] {
      var last := [AssignLocation(TelegramSupportUrl)];
      assert effects == [SetItem("telegram", "false")] + last;
      assert effects[1..] == last && last[1..] == [];
      assert Persist(storage, effects) == Persist(storage["telegram" := "false"], last);
      assert Persist(storage["telegram" := "false"], last) == storage["telegram" := "false"];
      assert Location(last) == Some(TelegramSupportUrl);
    }
  }

  /**
   * The Telegram view and the telegram redirect read disjoint parameters: the
   * redirect fires the same whichever body is rendered, and the body shown does
   * not depend on the status or message.
   */
  lemma TelegramViewIndependentOfRedirect(query: Query, storage: Storage, telegramPayment: Option<string>,
                                          status: Option<string>, message: Option<string>)
    ensures TelegramFailureEffects(query.(telegramPayment := telegramPayment), storage) == TelegramFailureEffects(query, storage)
    ensures ShowsTelegramView(query.(status := status, message := message)) == ShowsTelegramView(query)
  {
  }

  /** `savedCountry || "Nigeria"`. */
  function CountryOrDefault(saved: Option<string>): (country: string)
    ensures country != ""
    ensures Truthy(saved) ==> country == saved.value
    ensures !Truthy(saved) ==> country == "Nigeria"
  {
    OrElse(saved, "Nigeria")
  }

  /** The country the page shows, read from storage. */
  function Country(storage: Storage): (country: string)
    ensures "country" in storage && storage["country"] != "" ==> country == storage["country"]
    ensures !("country" in storage && storage["country"] != "") ==> country == "Nigeria"
  {
    CountryOrDefault(GetItem(storage, "country"))
  }

  /** The telegram rule never changes the country the page shows. */
  lemma CountryUnaffectedByTelegram(query: Query, storage: Storage)
    ensures Country(Persist(storage, TelegramFailureEffects(query, storage))) == Country(storage)
  {
    TelegramFailureOutcome(query, storage);
  }

  /** `!localStorageUser && userDetails`: navigate to "/" when nothing is stored under "user" but the store holds details. */
  function NavigateHome(localUser: Option<User>, userDetails: Option<UserDet>): (go: bool)
    ensures go ==> localUser.None? && userDetails.Some?
    ensures localUser.None? && userDetails.Some? ==> go
  {
    localUser.None? && userDetails.Some?
  }

  /** `enabled: !!localStorageUser?.name`. */
  function CartFetchEnabled(localUser: Option<User>): (enabled: bool)
    ensures enabled <==> localUser.Some? && localUser.value.name.Some? && localUser.value.name.value != ""
  {
    localUser.Some? && Truthy(localUser.value.name)
  }

  /**
   * The cart query's request, `fetch?email=${localStorageUser?.name}`, issued only
   * when the query is enabled.
   */
  function CartRequest(localUser: Option<User>): Option<string> {
    if CartFetchEnabled(localUser) then Some("fetch?email=" + localUser.value.name.value) else None
  }

  /** The cart is only ever fetched for a stored user's non-empty name, never for "undefined" or "". */
  lemma CartRequestOnlyWithName(localUser: Option<User>)
    ensures CartRequest(localUser).Some? <==> localUser.Some? && Truthy(localUser.value.name)
    ensures CartRequest(localUser).Some? ==>
      var url := CartRequest(localUser).value;
      && url[..12] == "fetch?email=" && url[12..] == localUser.value.name.value && |url| > 12
  {
  }

  /** The Telegram view replaces the checkout body when `telegram-payment` is present and non-empty. */
  function ShowsTelegramView(query: Query): (shown: bool)
    ensures shown <==> query.telegramPayment.Some? && query.telegramPayment.value != ""
  {
    Truthy(query.telegramPayment)
  }

  /** The `userDet` record dispatched to the store. */
  datatype UserDet = UserDet(first_name: Option<string>, last_name: Option<string>, address: Option<string>, middle_name: string)

  /** The users slice of the store: the signed-in user and the dispatched details. */
  datatype UsersState = UsersState(user: Option<User>, userDet: Option<UserDet>)

  /** Names and address copied, `middle_name || ""`. */
  function DetailsOf(data: UserRecord): (det: UserDet)
    ensures det.first_name == data.first_name && det.last_name == data.last_name && det.address == data.address
    ensures Truthy(data.middle_name) ==> det.middle_name == data.middle_name.value
    ensures !Truthy(data.middle_name) ==> det.middle_name == ""
  {
    UserDet(data.first_name, data.last_name, data.address, OrElse(data.middle_name, ""))
  }

  /** One run of `checkoutLoader`: its result, the store afterwards, and the details request if one was sent. */
  datatype LoaderRun = LoaderRun(result: LoaderResult<UserRecord>, store: UsersState, request: Option<DetailsRequest>)

  /**
   * `checkoutLoader`: without a user, redirect to "/login" and fetch nothing;
   * otherwise fetch the details for `user.name`; on a throw redirect to "/";
   * on a truthy body dispatch its details; return the body unchanged.
   */
  function CheckoutLoader(store: UsersState, fetch: Fetch<UserRecord>): (run: LoaderRun)
    ensures store.user.None? ==> run == LoaderRun(Redirect("/login"), store, None)
    ensures store.user.Some? ==> run.request == Some(DetailsRequest(store.user.value.name))
    ensures store.user.Some? && fetch.FetchThrew? ==> run.result == Redirect("/") && run.store == store
    ensures store.user.Some? && fetch.Fetched? ==> run.result == Data(fetch.body)
    ensures store.user.Some? && fetch.Fetched? && fetch.body.Some? ==> run.store == store.(userDet := Some(DetailsOf(fetch.body.value)))
    ensures fetch.Fetched? && fetch.body.None? ==> run.store == store
  {
    match store.user
    case None => LoaderRun(Redirect("/login"), store, None)
    case Some(user) =>
      var request := Some(DetailsRequest(user.name));
      match fetch
      case FetchThrew => LoaderRun(Redirect("/"), store, request)
      case Fetched(body) =>
        var store' := if body.Some? then store.(userDet := Some(DetailsOf(body.value))) else store;
        LoaderRun(Data(body), store', request)
  }

  /**
   * The loader redirects exactly when no user is signed in ("/login") or the
   * fetch throws ("/"); a redirect leaves the store as it was; the store changes
   * only when a truthy body came back; a request goes out exactly when a user is
   * signed in.
   */
  lemma CheckoutLoaderOutcome(store: UsersState, fetch: Fetch<UserRecord>)
    ensures var run := CheckoutLoader(store, fetch);
      && (run.result.Redirect? <==> store.user.None? || fetch.FetchThrew?)
      && (run.result == Redirect("/login") <==> store.user.None?)
      && (run.result.Redirect? ==> run.store == store)
      && (run.store != store ==> run.result.Data? && run.result.body.Some?)
      && (run.request.Some? <==> store.user.Some?)
  {
  }

  /** The loader never changes the signed-in user: only the details are dispatched. */
  lemma CheckoutLoaderKeepsUser(store: UsersState, fetch: Fetch<UserRecord>)
    ensures CheckoutLoader(store, fetch).store.user == store.user
  {
  }

  /** Loading twice with the same answer leaves the store, the result and the request as loading once does. */
  lemma CheckoutLoaderIdempotent(store: UsersState, fetch: Fetch<UserRecord>)
    ensures var once := CheckoutLoader(store, fetch);
      var twice := CheckoutLoader(once.store, fetch);
      twice.store == once.store && twice.result == once.result && twice.request == once.request
  {
  }

  /**
   * After a successful load the page is never sent home by the navigate-home
   * rule while the stored user is present, and the details it dispatched are
   * exactly the copied fields of the body.
   */
  lemma LoaderFeedsPage(store: UsersState, data: UserRecord, localUser: Option<User>)
    requires store.user.Some?
    ensures var run := CheckoutLoader(store, Fetched(Some(data)));
      && run.store.userDet == Some(DetailsOf(data))
      && (NavigateHome(localUser, run.store.userDet) <==> localUser.None?)
  {
  }
}
