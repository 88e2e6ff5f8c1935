/**
 * The add-buyer page: on mount it reads the stored session, keeps its
 * user while the session is unexpired, and otherwise sends the visitor to
 * the login page; it then shows a skeleton, a login prompt or the form.
 */
module AddBuyerPage {
  import opened Wrappers

  datatype User = User(name: string, email: string)

  /** The stored session once parsed: `null`, an object, or some other JSON value. */
  datatype AuthValue =
    | JsonNull
    | JsonObject(expiry: Option<int>, user: Option<User>)
    | JsonScalar

  /** What `JSON.parse` makes of the stored text. */
  datatype ParseResult = ParseError | Parsed(value: AuthValue)

  /** `authData.expiry && authData.expiry > now`, for an object: a non-zero expiry in the future. */
  predicate Unexpired(v: AuthValue, now: int)
    requires !v.JsonNull?
  {
    v.JsonObject? && v.expiry.Some? && v.expiry.value != 0 && v.expiry.value > now
  }

  /** A stored item is read only when it is a non-empty string. */
  predicate Present(stored: Option<string>)
  {
    stored.Some? && stored.value != ""
  }

  /** A stored session that parses to an object with an unexpired expiry. */
  predicate SessionLive(stored: Option<string>, parse: string -> ParseResult, now: int)
  {
    Present(stored) && parse(stored.value).Parsed? && !parse(stored.value).value.JsonNull?
    && Unexpired(parse(stored.value).value, now)
  }

  datatype View = Skeleton | LoginPrompt | BuyerFormView

  /** The three-way render choice. */
  function Render(loading: bool, user: Option<User>): (v: View)
    ensures v == Skeleton <==> loading
    ensures v == BuyerFormView <==> !loading && user.Some?
  {
    if loading then Skeleton else if user.None? then LoginPrompt else BuyerFormView
  }

  /** The user the gate admits, if any. */
  function AdmittedUser(stored: Option<string>, parse: string -> ParseResult, now: int): (u: Option<User>)
    ensures u.Some? ==> SessionLive(stored, parse, now)
    ensures SessionLive(stored, parse, now) ==> u == parse(stored.value).value.user
  {
    if SessionLive(stored, parse, now) then parse(stored.value).value.user else None
  }

  /** An unexpired session whose `user` field is absent still shows the login prompt. */
  lemma LiveSessionWithoutUser(stored: Option<string>, parse: string -> ParseResult, now: int)
    requires SessionLive(stored, parse, now) && parse(stored.value).value.user.None?
    ensures Render(false, AdmittedUser(stored, parse, now)) == LoginPrompt
  {
  }

  /** Strictly greater: a session expiring exactly now is not live. */
  lemma ExpiryIsStrict(u: User, now: int)
    ensures !Unexpired(JsonObject(Some(now), Some(u)), now)
    ensures Unexpired(JsonObject(Some(now + 1), Some(u)), now) <==> now + 1 != 0
  {
  }

  class Page {
    var user: Option<User>
    var loading: bool
    /** The `auth` item in local storage. */
    var stored: Option<string>
    /** Where the router was sent, if anywhere. */
    var route: Option<string>

    constructor (stored: Option<string>)
      ensures user == None && loading && this.stored == stored && route == None
    {
      user, loading, this.stored, route := None, true, stored, None;
    }

    /**
     * The mount effect, with `parse` for `JSON.parse` and `now` for the
     * clock. A live session sets the user; an expired or expiry-less one is
     * removed and the page redirects; a parse failure (or `null`, whose
     * `expiry` throws) and a missing item redirect without removing anything.
     */
    method Mount(parse: string -> ParseResult, now: int)
      modifies this
      ensures !loading
      ensures user == if SessionLive(old(stored), parse, now) then parse(old(stored).value).value.user else old(user)
      ensures route == if SessionLive(old(stored), parse, now) then old(route) else Some("/login")
      ensures stored == if Present(old(stored)) && parse(old(stored).value).Parsed?
                           && !parse(old(stored).value).value.JsonNull?
                           && !SessionLive(old(stored), parse, now)
                        then None else old(stored)
    {
      if stored.Some? && stored.value != "" {
        var result := parse(stored.value);
        if result.ParseError? || result.value.JsonNull? {
          route := Some("/login");
        } else if Unexpired(result.value, now) {
          user := result.value.user;
        } else {
          stored := None;
          route := Some("/login");
        }
      } else {
        route := Some("/login");
      }
      loading := false;
    }

    function CurrentView(): View
      reads this
    {
      Render(loading, user)
    }
  }

  /** After mounting a fresh page, the form shows exactly for a live session with a user. */
  method MountFresh(stored: Option<string>, parse: string -> ParseResult, now: int) returns (v: View)
    ensures v != Skeleton
    ensures v == BuyerFormView <==> AdmittedUser(stored, parse, now).Some?
  {
    var page := new Page(stored);
    page.Mount(parse, now);
    v := page.CurrentView();
  }
}
