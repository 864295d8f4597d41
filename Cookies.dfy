/**
 * The cookie store (the `nookies` library seen from the core) and the session it holds:
 * three cookies under fixed names, always written and cleared as a set.
 */
module Cookies {
  import opened Wrappers

  /** One cookie as `setCookie` writes it: its value, its `maxAge` in seconds and its `path`. */
  datatype Cookie = Cookie(value: string, maxAge: int, path: string)

  /** The cookies of one browser or of one server-side request, by name. */
  type Store = map<string, Cookie>

  const TokenTypeKey: string := "cadastro-usuario.tokenType"
  const AccessTokenKey: string := "cadastro-usuario.accessToken"
  const RefreshTokenKey: string := "cadastro-usuario.refreshToken"
  const SessionKeys: set<string> := {TokenTypeKey, AccessTokenKey, RefreshTokenKey}

  /** 30 days, in seconds. */
  const SessionMaxAge: int := 60 * 60 * 24 * 30
  const SessionPath: string := "/"

  datatype Session = Session(tokenType: string, accessToken: string, refreshToken: string)

  /** `parseCookies(ctx)[name]`: the value, or `undefined`. */
  function Lookup(store: Store, name: string): Option<string> {
    if name in store then Some(store[name].value) else None
  }

  /** The value, with an absent cookie read as the empty string. */
  function Value(store: Store, name: string): string {
    Lookup(store, name).GetOr("")
  }

  /** `!!parseCookies(ctx)[name]`: present and not the empty string. */
  predicate Truthy(store: Store, name: string) {
    name in store && store[name].value != ""
  }

  /** One `setCookie(ctx, name, value, { maxAge: 30 days, path: '/' })`. */
  function WithCookie(store: Store, name: string, value: string): Store {
    store[name := Cookie(value, SessionMaxAge, SessionPath)]
  }

  /** The three `setCookie` calls of a sign-in or of a refresh, in the source's order. */
  function WithSession(store: Store, s: Session): Store {
    WithCookie(WithCookie(WithCookie(store, TokenTypeKey, s.tokenType), AccessTokenKey, s.accessToken),
               RefreshTokenKey, s.refreshToken)
  }

  /** The three `destroyCookie` calls of a sign-out. */
  function WithoutSession(store: Store): Store {
    store - SessionKeys
  }

  /** Reading the session back: all three cookies, or nothing. */
  function ReadSession(store: Store): Option<Session> {
    if TokenTypeKey in store && AccessTokenKey in store && RefreshTokenKey in store
    then Some(Session(store[TokenTypeKey].value, store[AccessTokenKey].value, store[RefreshTokenKey].value))
    else None
  }

  /** No partial session: the three session cookies are all present or all absent. */
  predicate Coherent(store: Store) {
    (TokenTypeKey in store <==> AccessTokenKey in store) && (AccessTokenKey in store <==> RefreshTokenKey in store)
  }

  lemma SessionKeysDistinct()
    ensures TokenTypeKey != AccessTokenKey && AccessTokenKey != RefreshTokenKey && TokenTypeKey != RefreshTokenKey
    ensures |SessionKeys| == 3
  {
    assert TokenTypeKey[17] == 't' && AccessTokenKey[17] == 'a' && RefreshTokenKey[17] == 'r';
  }

  /** Writing a session and reading it back gives the same three fields. */
  lemma ReadAfterWrite(store: Store, s: Session)
    ensures ReadSession(WithSession(store, s)) == Some(s)
  {
    SessionKeysDistinct();
  }

  /** A written session: each of its three cookies lives 30 days on path '/', and no other cookie changes. */
  lemma WriteSessionCookies(store: Store, s: Session)
    ensures var w := WithSession(store, s);
      && w.Keys == store.Keys + SessionKeys
      && w[TokenTypeKey] == Cookie(s.tokenType, 2592000, "/")
      && w[AccessTokenKey] == Cookie(s.accessToken, 2592000, "/")
      && w[RefreshTokenKey] == Cookie(s.refreshToken, 2592000, "/")
      && (forall k :: k in store && k !in SessionKeys ==> w[k] == store[k])
  {
    SessionKeysDistinct();
  }

  /** A cleared store holds no session cookie, keeps every other cookie, and clearing again changes nothing. */
  lemma ClearSession(store: Store)
    ensures var c := WithoutSession(store);
      && ReadSession(c) == None
      && (forall k :: k in SessionKeys ==> k !in c)
      && (forall k :: k in store && k !in SessionKeys ==> k in c && c[k] == store[k])
      && WithoutSession(c) == c
  {
  }

  /** Writing or clearing the session leaves no partial session behind, whatever the store held before. */
  lemma SessionWritesAreCoherent(store: Store, s: Session)
    ensures Coherent(WithSession(store, s))
    ensures Coherent(WithoutSession(store))
  {
  }

  /** The cookie store the core writes through. */
  class CookieJar {
    var entries: Store

    constructor (initial: Store)
      ensures entries == initial
    {
      entries := initial;
    }

    /** `setCookie` with the session's options. */
    method SetCookie(name: string, value: string)
      modifies this
      ensures entries == WithCookie(old(entries), name, value)
    {
      entries := entries[name := Cookie(value, SessionMaxAge, SessionPath)];
    }

    /** `destroyCookie`. */
    method DestroyCookie(name: string)
      modifies this
      ensures entries == old(entries) - {name}
    {
      entries := entries - {name};
    }
  }
}
