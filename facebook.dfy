/**
 * `Archetype_Facebook` (archetype.facebook.php): the Facebook sign-on helpers.
 * A process holds one `Archetype_Facebook` instance at most, created on the
 * first `get_instance` call, and a once-only `$reauth` flag that tells the
 * user, a single time, that their Facebook connection has to be renewed.
 *
 * The class's static members (`$_instance`, `$reauth`, the app id and secret
 * read from the options) are the fields of `SsoState`; the messages queued with
 * `tn_add_static_message` are its `messages`. The Graph API call `api('/me')`
 * is an oracle from the access token to a result, None standing for the
 * exception the SDK throws. `get_users` is the store plus the order in which
 * it lists users, and `User::get_by_email` a map from e-mail values to users.
 */
module Sso {
  import opened Php
  import opened UserMeta

  /** AT_FB_ID_META, AT_FB_TOKEN_META and AT_FB_TOKEN_EXPIRES. */
  const FbIdMeta := "at_fb_id"
  const FbTokenMeta := "at_fb_token"
  const FbExpiresMeta := "at_fb_expires"

  const MissingAppMessage := "archetype.facebook needs a Facebook App Id and Secret to be defined in Settings > Advanced Settings"
  const NagMessage := "Your Facebook account needs to be reconnected. Visit your settings page to fix it."
  const ReconnectText := "Reconnect with Facebook"

  /** A call that either returns or ends the request with `die($message)`. */
  datatype Call<T> = Returned(value: T) | Halted(message: string)

  /**
   * `parse_fb_postdata($data)`: the access token, user id and expiry of the
   * JS SDK's `authResponse`, under `token`, `id` and `expires`.
   */
  function ParseFbPostdata(data: Value): (r: map<string, Value>)
    ensures r.Keys == {"token", "id", "expires"}
  {
    var authResponse := Index(data, "authResponse");
    map["token" := Index(authResponse, "accessToken"),
        "id" := Index(authResponse, "userID"),
        "expires" := Index(authResponse, "expiresIn")]
  }

  /** The posted shape of an auth response, with whatever other keys the SDK adds. */
  function AuthPayload(outer: map<string, Value>, inner: map<string, Value>, token: Value, id: Value, expires: Value): Value
  {
    Dict(outer["authResponse" := Dict(inner["accessToken" := token]["userID" := id]["expiresIn" := expires])])
  }

  /** Parsing recovers exactly the three values the SDK sent, and nothing else. */
  lemma ParseRecoversPayload(outer: map<string, Value>, inner: map<string, Value>, token: Value, id: Value, expires: Value)
    ensures ParseFbPostdata(AuthPayload(outer, inner, token, id, expires)) == map["token" := token, "id" := id, "expires" := expires]
  {
  }

  /** A post whose `authResponse` is neither an array nor a string parses to three nulls. */
  lemma ParseWithoutAuthResponse(data: Value)
    requires !Index(data, "authResponse").Dict? && !Index(data, "authResponse").Str?
    ensures ParseFbPostdata(data) == map["token" := Null, "id" := Null, "expires" := Null]
  {
  }

  /**
   * A string posted as `authResponse` is read by string offset: the token,
   * the id and the expiry all come out as its first character (empty for an
   * empty string), so such a post parses to three equal, non-null values.
   */
  lemma ParseStringAuthResponse(data: Value, s: string)
    requires Index(data, "authResponse") == Str(s)
    ensures var c := if s == [] then Str("") else Str(s[..1]);
      ParseFbPostdata(data) == map["token" := c, "id" := c, "expires" := c]
  {
  }

  /** What `get_userinfo` returns for an API result: the result, or null after the exception. */
  function Userinfo(result: Option<Value>): Value
  {
    if result.Some? then result.value else Null
  }

  /**
   * The new `$reauth` flag and message queue after one `get_userinfo` call:
   * a failure sets the flag and queues the nag unless the flag is already set.
   */
  function AfterUserinfo(reauth: bool, messages: seq<string>, failed: bool): (s: (bool, seq<string>))
    ensures !failed ==> s == (reauth, messages)
    ensures failed && reauth ==> s == (reauth, messages)
    ensures failed && !reauth ==> s == (true, messages + [NagMessage])
  {
    if !failed || reauth then (reauth, messages) else (true, messages + [NagMessage])
  }

  /** The state after a whole run of `get_userinfo` calls, one failure flag per call. */
  function AfterUserinfos(reauth: bool, messages: seq<string>, failures: seq<bool>): (bool, seq<string>)
    decreases |failures|
  {
    if failures == [] then (reauth, messages)
    else
      var s := AfterUserinfos(reauth, messages, failures[..|failures| - 1]);
      AfterUserinfo(s.0, s.1, failures[|failures| - 1])
  }

  /**
   * Over a process that starts with the flag clear, the nag is queued exactly
   * once if any call failed and never otherwise, and the flag records whether
   * one did.
   */
  lemma {:induction false} NagAtMostOnce(failures: seq<bool>)
    ensures AfterUserinfos(false, [], failures).0 <==> true in failures
    ensures AfterUserinfos(false, [], failures).1 == if true in failures then [NagMessage] else []
  {
    if failures != [] {
      var init := failures[..|failures| - 1];
      NagAtMostOnce(init);
      assert failures == init + [failures[|failures| - 1]];
      assert true in failures <==> true in init || failures[|failures| - 1];
    }
  }

  /** The static half of `Archetype_Facebook`. */
  class SsoState {
    /** AT_FB_ID and AT_FB_SECRET, the options read when the file loads. */
    const appId: Value
    const appSecret: Value
    /** `self::$_instance`: null until the first successful `get_instance`. */
    var instance: Facebook?
    /** `self::$reauth`. */
    var reauth: bool
    var messages: seq<string>

    /** The nag is queued exactly when the flag is set, and only once. */
    ghost predicate Valid()
      reads this
    {
      messages == if reauth then [NagMessage] else []
    }

    constructor (appId: Value, appSecret: Value)
      ensures this.appId == appId && this.appSecret == appSecret
      ensures instance == null && !reauth && messages == []
      ensures Valid()
    {
      this.appId := appId;
      this.appSecret := appSecret;
      instance := null;
      reauth := false;
      messages := [];
    }

    /**
     * `get_instance($token)`: the existing instance, untouched and whatever the
     * token; otherwise `die` when the app id or secret is missing, and a new
     * instance built with the token when both are present.
     */
    method GetInstance(token: Value, api: Value -> Option<Value>) returns (c: Call<Facebook>)
      modifies this
      ensures old(instance) != null ==>
        c.Returned? && c.value == old(instance) && instance == old(instance) && instance.token == old(instance.token)
        && reauth == old(reauth) && messages == old(messages)
      ensures old(instance) == null && !(Truthy(appId) && Truthy(appSecret)) ==>
        c == Halted(MissingAppMessage) && instance == null && reauth == old(reauth) && messages == old(messages)
      ensures old(instance) == null && Truthy(appId) && Truthy(appSecret) ==>
        c.Returned? && c.value == instance && fresh(instance)
        && instance.appId == appId && instance.appSecret == appSecret
        && instance.token == (if Truthy(token) then token else Null)
        && (reauth, messages) == AfterUserinfo(old(reauth), old(messages), api(instance.token).None?)
      ensures old(Valid()) ==> Valid()
    {
      if instance != null {
        return Returned(instance);
      }
      if !Truthy(appId) || !Truthy(appSecret) {
        return Halted(MissingAppMessage);
      }
      var fb := new Facebook(appId, appSecret, token, this, api);
      instance := fb;
      c := Returned(fb);
    }

    /**
     * `find_user($fb_id, $fb_token)`: the first user, in `get_users` order,
     * whose `at_fb_id` meta is the Facebook id, without touching anything; if
     * there is none and a token is given, the user with the e-mail address the
     * Graph API reports for that token; otherwise None for `false`.
     */
    method FindUser(fbId: Value, fbToken: Value, order: seq<UserId>, store: MetaStore,
                    byEmail: map<Value, UserId>, api: Value -> Option<Value>) returns (r: Call<Option<UserId>>)
      modifies this, instance
      ensures var m := FirstWithMeta(order, store.meta, FbIdMeta, fbId);
        m.Some? || !Truthy(fbToken) ==>
          r == Returned(m) && instance == old(instance) && reauth == old(reauth) && messages == old(messages)
          && (instance != null ==> instance.token == old(instance.token))
      ensures var m := FirstWithMeta(order, store.meta, FbIdMeta, fbId);
        m.None? && Truthy(fbToken) && old(instance) == null && !(Truthy(appId) && Truthy(appSecret)) ==>
          r == Halted(MissingAppMessage) && instance == null && reauth == old(reauth) && messages == old(messages)
      ensures var m := FirstWithMeta(order, store.meta, FbIdMeta, fbId);
        m.None? && Truthy(fbToken) && old(instance) != null ==>
          instance == old(instance) && instance.token == fbToken
          && r == Returned(EmailLookup(byEmail, Index(Userinfo(api(fbToken)), "email")))
          && (reauth, messages) == AfterUserinfo(old(reauth), old(messages), api(fbToken).None?)
      ensures var m := FirstWithMeta(order, store.meta, FbIdMeta, fbId);
        m.None? && Truthy(fbToken) && old(instance) == null && Truthy(appId) && Truthy(appSecret) ==>
          fresh(instance) && instance.token == fbToken
          && r == Returned(EmailLookup(byEmail, Index(Userinfo(api(fbToken)), "email")))
          && var s := AfterUserinfo(old(reauth), old(messages), api(Null).None?);
             (reauth, messages) == AfterUserinfo(s.0, s.1, api(fbToken).None?)
      ensures old(Valid()) ==> Valid()
    {
      var m := FirstWithMeta(order, store.meta, FbIdMeta, fbId);
      if m.Some? {
        return Returned(m);
      }
      if Truthy(fbToken) {
        var c := GetInstance(Bool(false), api);
        if c.Halted? {
          return Halted(c.message);
        }
        var fb := c.value;
        fb.SetAccessToken(fbToken);
        var details := fb.GetUserinfo(this, api);
        var u := EmailLookup(byEmail, Index(details, "email"));
        if u.Some? {
          return Returned(u);
        }
      }
      r := Returned(None);
    }

    /**
     * `find_user` corrected: a missing or empty Facebook id finds no user by
     * id, so only the token's e-mail address can identify one.
     */
    method FindUserIntended(fbId: Value, fbToken: Value, order: seq<UserId>, store: MetaStore,
                            byEmail: map<Value, UserId>, api: Value -> Option<Value>) returns (r: Call<Option<UserId>>)
      modifies this, instance
      ensures var m := FirstWithFbId(order, store.meta, fbId);
        m.Some? || !Truthy(fbToken) ==>
          r == Returned(m) && instance == old(instance) && reauth == old(reauth) && messages == old(messages)
          && (instance != null ==> instance.token == old(instance.token))
      ensures var m := FirstWithFbId(order, store.meta, fbId);
        m.None? && Truthy(fbToken) && old(instance) == null && !(Truthy(appId) && Truthy(appSecret)) ==>
          r == Halted(MissingAppMessage) && instance == null && reauth == old(reauth) && messages == old(messages)
      ensures var m := FirstWithFbId(order, store.meta, fbId);
        m.None? && Truthy(fbToken) && old(instance) != null ==>
          instance == old(instance) && instance.token == fbToken
          && r == Returned(EmailLookup(byEmail, Index(Userinfo(api(fbToken)), "email")))
          && (reauth, messages) == AfterUserinfo(old(reauth), old(messages), api(fbToken).None?)
      ensures var m := FirstWithFbId(order, store.meta, fbId);
        m.None? && Truthy(fbToken) && old(instance) == null && Truthy(appId) && Truthy(appSecret) ==>
          fresh(instance) && instance.token == fbToken
          && r == Returned(EmailLookup(byEmail, Index(Userinfo(api(fbToken)), "email")))
          && var s := AfterUserinfo(old(reauth), old(messages), api(Null).None?);
             (reauth, messages) == AfterUserinfo(s.0, s.1, api(fbToken).None?)
      ensures old(Valid()) ==> Valid()
    {
      var m := FirstWithFbId(order, store.meta, fbId);
      if m.Some? {
        return Returned(m);
      }
      if Truthy(fbToken) {
        var c := GetInstance(Bool(false), api);
        if c.Halted? {
          return Halted(c.message);
        }
        var fb := c.value;
        fb.SetAccessToken(fbToken);
        var details := fb.GetUserinfo(this, api);
        var u := EmailLookup(byEmail, Index(details, "email"));
        if u.Some? {
          return Returned(u);
        }
      }
      r := Returned(None);
    }

    /**
     * `bind_user($user, $response)`: the three meta writes, the Facebook id
     * from the response, the long-lived token and its absolute expiry time,
     * happen first; then `get_instance` with the long-lived token, which may
     * `die` or, for an existing instance, ignore that token.
     */
    method BindUser(u: UserId, response: map<string, Value>, longToken: Value, longExpires: int, now: int,
                    store: MetaStore, api: Value -> Option<Value>) returns (r: Call<UserId>)
      modifies this, store, instance
      ensures store.meta == old(store.meta)[u := BoundRow(old(store.Row(u)), Lookup(response, "id"), longToken, longExpires + now)]
      ensures r.Returned? ==> r.value == u
      ensures old(instance) != null ==> r == Returned(u) && instance == old(instance) && instance.token == old(instance.token)
      ensures old(instance) == null ==> (r.Halted? <==> !(Truthy(appId) && Truthy(appSecret)))
      ensures old(instance) == null && r.Returned? ==>
        fresh(instance) && instance.appId == appId && instance.appSecret == appSecret
        && instance.token == (if Truthy(longToken) then longToken else Null)
      ensures r.Returned? ==> (reauth, messages) == AfterUserinfo(old(reauth), old(messages), api(instance.token).None?)
      ensures r.Halted? ==> instance == null && reauth == old(reauth) && messages == old(messages)
      ensures old(Valid()) ==> Valid()
    {
      store.Update(u, FbIdMeta, Lookup(response, "id"));
      store.Update(u, FbTokenMeta, longToken);
      store.Update(u, FbExpiresMeta, Int(longExpires + now));
      var c := GetInstance(longToken, api);
      if c.Halted? {
        return Halted(c.message);
      }
      var info := c.value.GetUserinfo(this, api);
      r := Returned(u);
    }
  }

  /** The user's meta row after `bind_user`'s three writes. */
  function BoundRow(row: map<string, Value>, id: Value, token: Value, expiresAt: int): (r: map<string, Value>)
    ensures r.Keys == row.Keys + {FbIdMeta, FbTokenMeta, FbExpiresMeta}
    ensures r[FbIdMeta] == id && r[FbTokenMeta] == token && r[FbExpiresMeta] == Int(expiresAt)
    ensures forall k :: k in row && k !in {FbIdMeta, FbTokenMeta, FbExpiresMeta} ==> r[k] == row[k]
  {
    row[FbIdMeta := id][FbTokenMeta := token][FbExpiresMeta := Int(expiresAt)]
  }

  /** `User::get_by_email`: the user with that e-mail value, or None for `false`. */
  function EmailLookup(byEmail: map<Value, UserId>, email: Value): Option<UserId>
  {
    if email in byEmail then Some(byEmail[email]) else None
  }

  /**
   * WordPress's meta query drops a `meta_value` that is null or the empty
   * string, and then matches on the key alone.
   */
  predicate NoValueClause(value: Value)
  {
    value == Null || value == Str("")
  }

  /** The meta query's test for one user: the key is stored, with the value unless the value clause is dropped. */
  predicate HasMeta(meta: map<UserId, map<string, Value>>, u: UserId, key: string, value: Value)
  {
    key in RowOf(meta, u) && (NoValueClause(value) || RowOf(meta, u)[key] == value)
  }

  /**
   * `get_users(array('meta_key' => $key, 'meta_value' => $value, 'number' => 1))`:
   * the first user in listing order who has meta under the key, and whose
   * meta there is the value when the value is neither null nor empty.
   */
  function FirstWithMeta(order: seq<UserId>, meta: map<UserId, map<string, Value>>, key: string, value: Value): (r: Option<UserId>)
    ensures r.Some? ==> r.value in order && HasMeta(meta, r.value, key, value)
    ensures r.None? ==> forall u :: u in order ==> !HasMeta(meta, u, key, value)
  {
    if order == [] then None
    else if HasMeta(meta, order[0], key, value) then Some(order[0])
    else FirstWithMeta(order[1..], meta, key, value)
  }

  /** The user found is the first match: every user listed before them has some other id. */
  lemma {:induction false} FirstWithMetaIsFirst(order: seq<UserId>, meta: map<UserId, map<string, Value>>, key: string, value: Value, i: nat)
    requires i < |order| && HasMeta(meta, order[i], key, value)
    requires forall j :: 0 <= j < i ==> !HasMeta(meta, order[j], key, value)
    ensures FirstWithMeta(order, meta, key, value) == Some(order[i])
  {
    if i > 0 {
      FirstWithMetaIsFirst(order[1..], meta, key, value, i - 1);
    }
  }

  /**
   * As written, a login post whose `authResponse` has no `userID` looks up the
   * Facebook id null, and the meta query then finds any user who has an
   * `at_fb_id`, here one bound to the Facebook id 999.
   */
  lemma NullIdFindsAnyBoundUser()
    ensures var data := Dict(map["authResponse" := Dict(map["accessToken" := Str("tok")])]);
      ParseFbPostdata(data)["id"] == Null
      && FirstWithMeta([7], map[7 := map[FbIdMeta := Str("999")]], FbIdMeta, ParseFbPostdata(data)["id"]) == Some(7)
  {
  }

  /** Corrected: a user is found by Facebook id only when the id is given and equals their stored `at_fb_id`. */
  function FirstWithFbId(order: seq<UserId>, meta: map<UserId, map<string, Value>>, fbId: Value): (r: Option<UserId>)
    ensures NoValueClause(fbId) ==> r.None?
    ensures r.Some? ==> r.value in order && FbIdMeta in RowOf(meta, r.value) && RowOf(meta, r.value)[FbIdMeta] == fbId
    ensures !NoValueClause(fbId) ==> r == FirstWithMeta(order, meta, FbIdMeta, fbId)
  {
    if NoValueClause(fbId) then None else FirstWithMeta(order, meta, FbIdMeta, fbId)
  }

  /** The instance half of `Archetype_Facebook`. */
  class Facebook {
    const appId: Value
    const appSecret: Value
    /** `$this->token`, also handed to the SDK. */
    var token: Value

    /** The private constructor: keeps a truthy token, then calls `get_userinfo` once. */
    constructor (appId: Value, appSecret: Value, token: Value, sso: SsoState, api: Value -> Option<Value>)
      modifies sso
      ensures this.appId == appId && this.appSecret == appSecret
      ensures this.token == if Truthy(token) then token else Null
      ensures sso.instance == old(sso.instance)
      ensures (sso.reauth, sso.messages) == AfterUserinfo(old(sso.reauth), old(sso.messages), api(this.token).None?)
      ensures old(sso.Valid()) ==> sso.Valid()
    {
      this.appId := appId;
      this.appSecret := appSecret;
      this.token := if Truthy(token) then token else Null;
      new;
      var _ := GetUserinfo(sso, api);
    }

    /** `set_access_token`. */
    method SetAccessToken(t: Value)
      modifies this
      ensures token == t
    {
      token := t;
    }

    /**
     * `get_userinfo`: the Graph API's answer for this token; on the exception,
     * null, with the flag set and the nag queued the first time only.
     */
    method GetUserinfo(sso: SsoState, api: Value -> Option<Value>) returns (info: Value)
      modifies sso
      ensures info == Userinfo(api(token))
      ensures sso.instance == old(sso.instance)
      ensures (sso.reauth, sso.messages) == AfterUserinfo(old(sso.reauth), old(sso.messages), api(token).None?)
      ensures old(sso.Valid()) ==> sso.Valid()
    {
      var result := api(token);
      if result.Some? {
        return result.value;
      }
      if sso.reauth {
        return Null;
      }
      sso.reauth := true;
      sso.messages := sso.messages + [NagMessage];
      info := Null;
    }

    /** `_reauth_button`: the reconnect button's text when the flag is set, and no button otherwise. */
    function ReauthButton(sso: SsoState): (button: Option<string>)
      reads sso
      ensures button.Some? <==> sso.reauth
      ensures button.Some? ==> button.value == ReconnectText
    {
      if sso.reauth then Some(ReconnectText) else None
    }
  }
}
