/** The persistent cookie jar the HTTP client installs (api/CookieStorage.kt).

    Ktor's `Cookie.matches(Url)` is not modelled in full: the jar is given a
    relation `matches` when it is created, and everything proved here holds
    whatever that relation is on cookies whose domain and path are filled in.
    On a cookie whose domain or path is null, Ktor's `matches` raises an error
    instead of answering; `get` and `addCookie` then fail (`MissingDefault`).
    What the jar writes under the "cookies" preference key is kept as the
    list it encodes, not as JSON text. */
module CookieStorage {
  import opened Wrappers

  /** The parts of Ktor's Url a request address is made of. */
  datatype Url = Url(protocol: string, host: string, port: nat, encodedPath: string)

  /** Ktor's Cookie (its `encoding` and `extensions` are not modelled). */
  datatype Cookie = Cookie(
    name: string,
    value: string,
    maxAge: int,
    expires: Option<int>,
    domain: Option<string>,
    path: Option<string>,
    secure: bool,
    httpOnly: bool)

  /** Stands for Ktor's `Cookie.matches(Url)` on a cookie whose domain and path are filled in. */
  type MatchRelation = (Cookie, Url) -> bool

  /** The elements of `s` that satisfy `p`, in the order of `s` (Kotlin's `filter`). */
  function Filter<T(!new)>(s: seq<T>, p: T -> bool): (r: seq<T>)
    ensures |r| <= |s|
    ensures forall x :: x in r <==> x in s && p(x)
  {
    if s == [] then []
    else
      var rest := Filter(s[1..], p);
      if p(s[0]) then [s[0]] + rest else rest
  }

  /** Filtering a concatenation filters each part: kept elements stay in their relative order. */
  lemma {:induction false} FilterAppend<T(!new)>(a: seq<T>, b: seq<T>, p: T -> bool)
    ensures Filter(a + b, p) == Filter(a, p) + Filter(b, p)
  {
    if a == [] {
      assert a + b == b;
    } else {
      assert (a + b)[1..] == a[1..] + b;
      FilterAppend(a[1..], b, p);
    }
  }

  /** What a predicate keeps and what its negation keeps add up to the whole sequence. */
  lemma {:induction false} FilterComplementLength<T(!new)>(s: seq<T>, p: T -> bool, q: T -> bool)
    requires forall x :: q(x) == !p(x)
    ensures |Filter(s, p)| + |Filter(s, q)| == |s|
  {
    if s != [] {
      FilterComplementLength(s[1..], p, q);
    }
  }

  /** The `removeIf` condition of addCookie: same name as the new cookie, and matches the request URL. */
  function Replaced(name: string, url: Url, matches: MatchRelation): Cookie -> bool
  {
    (c: Cookie) => c.name == name && matches(c, url)
  }

  /** The cookies addCookie keeps: the negation of `Replaced`. */
  function Survives(name: string, url: Url, matches: MatchRelation): (keep: Cookie -> bool)
    ensures forall c: Cookie :: keep(c) == !Replaced(name, url, matches)(c)
  {
    (c: Cookie) => !(c.name == name && matches(c, url))
  }

  /** The filter condition of get. */
  function MatchesUrl(url: Url, matches: MatchRelation): Cookie -> bool
  {
    (c: Cookie) => matches(c, url)
  }

  /** The copy addCookie stores: the cookie with its domain replaced by the request host. */
  function WithRequestDomain(cookie: Cookie, url: Url): (r: Cookie)
    ensures r.domain == Some(url.host)
    ensures r.(domain := cookie.domain) == cookie
  {
    cookie.(domain := Some(url.host))
  }

  /** The list addCookie leaves behind. */
  function AfterAdd(s: seq<Cookie>, url: Url, cookie: Cookie, matches: MatchRelation): seq<Cookie>
  {
    Filter(s, Survives(cookie.name, url, matches)) + [WithRequestDomain(cookie, url)]
  }

  /** addCookie appends exactly one cookie at the end: the argument with the request host as domain. */
  lemma AddAppendsRewrittenCookie(s: seq<Cookie>, url: Url, cookie: Cookie, matches: MatchRelation)
    ensures var r := AfterAdd(s, url, cookie, matches);
      |r| >= 1 && r[|r| - 1] == cookie.(domain := Some(url.host))
  {
  }

  /** Apart from the appended one, no cookie of the new name that matches the request URL remains. */
  lemma AddRemovesReplaced(s: seq<Cookie>, url: Url, cookie: Cookie, matches: MatchRelation)
    ensures var r := AfterAdd(s, url, cookie, matches);
      forall i :: 0 <= i < |r| - 1 ==> !(r[i].name == cookie.name && matches(r[i], url))
  {
    var r := AfterAdd(s, url, cookie, matches);
    forall i | 0 <= i < |r| - 1
      ensures !(r[i].name == cookie.name && matches(r[i], url))
    {
      assert r[i] in Filter(s, Survives(cookie.name, url, matches));
    }
  }

  /** Every stored cookie that is not replaced is kept, in its place relative to the other kept ones:
      the cookies before it are filtered into the part before it, those after it into the part after it. */
  lemma {:induction false} AddKeepsOthersInOrder(s: seq<Cookie>, url: Url, cookie: Cookie, matches: MatchRelation, i: nat)
    requires i < |s|
    requires !(s[i].name == cookie.name && matches(s[i], url))
    ensures AfterAdd(s, url, cookie, matches)
      == Filter(s[..i], Survives(cookie.name, url, matches)) + [s[i]]
         + Filter(s[i + 1..], Survives(cookie.name, url, matches)) + [WithRequestDomain(cookie, url)]
  {
    var p := Survives(cookie.name, url, matches);
    assert s == s[..i] + ([s[i]] + s[i + 1..]);
    FilterAppend(s[..i], [s[i]] + s[i + 1..], p);
    FilterAppend([s[i]], s[i + 1..], p);
    assert Filter([s[i]], p) == [s[i]] by {
      assert [s[i]][1..] == [];
    }
  }

  /** The new length is the old length, less the cookies removed, plus one; so it grows by at most one. */
  lemma AddLength(s: seq<Cookie>, url: Url, cookie: Cookie, matches: MatchRelation)
    ensures |AfterAdd(s, url, cookie, matches)|
      == |s| - |Filter(s, Replaced(cookie.name, url, matches))| + 1
    ensures |AfterAdd(s, url, cookie, matches)| <= |s| + 1
  {
    FilterComplementLength(s, Replaced(cookie.name, url, matches), Survives(cookie.name, url, matches));
  }

  /** A cookie's identity as name and domain. */
  function Key(c: Cookie): (string, Option<string>)
  {
    (c.name, c.domain)
  }

  /** No two cookies share a name and a domain. */
  ghost predicate UniqueKeys(s: seq<Cookie>)
  {
    forall i, j :: 0 <= i < j < |s| ==> Key(s[i]) != Key(s[j])
  }

  /** Every stored cookie whose domain is the request host matches the request URL. */
  ghost predicate HostCookiesMatch(s: seq<Cookie>, url: Url, matches: MatchRelation)
  {
    forall c :: c in s && c.domain == Some(url.host) ==> matches(c, url)
  }

  lemma {:induction false} FilterKeepsUniqueKeys(s: seq<Cookie>, p: Cookie -> bool)
    requires UniqueKeys(s)
    ensures UniqueKeys(Filter(s, p))
  {
    if s != [] {
      assert UniqueKeys(s[1..]) by {
        forall i, j | 0 <= i < j < |s[1..]| ensures Key(s[1..][i]) != Key(s[1..][j]) {
          assert s[1..][i] == s[i + 1] && s[1..][j] == s[j + 1];
        }
      }
      FilterKeepsUniqueKeys(s[1..], p);
      var rest := Filter(s[1..], p);
      if p(s[0]) {
        var r := [s[0]] + rest;
        forall i, j | 0 <= i < j < |r| ensures Key(r[i]) != Key(r[j]) {
          if i == 0 {
            assert r[j] == rest[j - 1];
            assert r[j] in s[1..];
            var k :| 0 <= k < |s[1..]| && s[1..][k] == r[j];
            assert s[k + 1] == r[j];
          } else {
            assert r[i] == rest[i - 1] && r[j] == rest[j - 1];
          }
        }
      }
    }
  }

  /** The one-cookie-per-(name, domain) rule survives addCookie provided every
      stored cookie of the request host matches the request URL. Without that proviso it can fail:
      see `AddCanDuplicateKey`. */
  lemma AddKeepsUniqueKeys(s: seq<Cookie>, url: Url, cookie: Cookie, matches: MatchRelation)
    requires UniqueKeys(s)
    requires HostCookiesMatch(s, url, matches)
    ensures UniqueKeys(AfterAdd(s, url, cookie, matches))
  {
    var kept := Filter(s, Survives(cookie.name, url, matches));
    var added := WithRequestDomain(cookie, url);
    FilterKeepsUniqueKeys(s, Survives(cookie.name, url, matches));
    var r := kept + [added];
    forall i, j | 0 <= i < j < |r| ensures Key(r[i]) != Key(r[j]) {
      if j == |r| - 1 {
        assert r[i] == kept[i];
        assert r[i] in kept;
      } else {
        assert r[i] == kept[i] && r[j] == kept[j];
      }
    }
  }

  /** With a relation under which a stored cookie of the request host does not match (a different
      path, say), addCookie stores a second cookie with the same name and domain. */
  lemma AddCanDuplicateKey()
    ensures var url := Url("https", "example.org", 443, "/b");
      var old_ := Cookie("session", "a", 0, None, Some("example.org"), Some("/a"), true, true);
      var matches: MatchRelation := (c, u) => false;
      UniqueKeys([old_]) && !UniqueKeys(AfterAdd([old_], url, old_.(value := "b"), matches))
  {
    var url := Url("https", "example.org", 443, "/b");
    var old_ := Cookie("session", "a", 0, None, Some("example.org"), Some("/a"), true, true);
    var matches: MatchRelation := (c, u) => false;
    var r := AfterAdd([old_], url, old_.(value := "b"), matches);
    assert Filter([old_], Survives("session", url, matches)) == [old_] by {
      assert [old_][1..] == [];
    }
    assert r == [old_, old_.(value := "b")];
    assert Key(r[0]) == Key(r[1]);
  }

  /** What loading reads back from the stored value: nothing stored gives an empty list.
      (Stored text that is not valid JSON makes the source throw; that path is not modelled.) */
  function LoadCookies(stored: Option<seq<Cookie>>): (r: seq<Cookie>)
    ensures stored.None? ==> r == []
    ensures stored.Some? ==> r == stored.value
  {
    match stored
    case None => []
    case Some(list) => list
  }

  /** The error Ktor's `matches` raises for a cookie without a domain or path default. */
  datatype CookieError = MissingDefault

  /** Whether `matches` can be asked about the cookie: its domain and path are not null. */
  predicate HasDefaults(c: Cookie)
  {
    c.domain.Some? && c.path.Some?
  }

  /** `c.matches(url)` as Ktor evaluates it: an error for a cookie without defaults. */
  function Match(matches: MatchRelation, c: Cookie, url: Url): (r: Result<bool, CookieError>)
    ensures r.Failure? <==> !HasDefaults(c)
    ensures r.Success? ==> r.value == matches(c, url)
  {
    if HasDefaults(c) then Success(matches(c, url)) else Failure(MissingDefault)
  }

  /** `get`'s `filter { it.matches(requestUrl) }`, asking `matches` of each cookie in turn and stopping
      at the first error. */
  function FilterMatching(s: seq<Cookie>, url: Url, matches: MatchRelation): (r: Result<seq<Cookie>, CookieError>)
    ensures r.Failure? <==> exists c :: c in s && !HasDefaults(c)
    ensures r.Success? ==> r.value == Filter(s, MatchesUrl(url, matches))
  {
    if s == [] then Success([])
    else
      match Match(matches, s[0], url)
      case Failure(e) => Failure(e)
      case Success(keep) =>
        match FilterMatching(s[1..], url, matches)
        case Failure(e) => Failure(e)
        case Success(rest) => Success(if keep then [s[0]] + rest else rest)
  }

  /** `addCookie`'s `removeIf { it.name == cookie.name && it.matches(requestUrl) }`. The name is
      compared first, so `matches` is asked only of cookies with the new name; an error leaves the
      list as it was. */
  function RemoveReplaced(s: seq<Cookie>, name: string, url: Url, matches: MatchRelation)
    : (r: Result<seq<Cookie>, CookieError>)
    ensures r.Failure? <==> exists c :: c in s && c.name == name && !HasDefaults(c)
    ensures r.Success? ==> r.value == Filter(s, Survives(name, url, matches))
  {
    if s == [] then Success([])
    else
      var head := if s[0].name != name then Success(false) else Match(matches, s[0], url);
      match head
      case Failure(e) => Failure(e)
      case Success(replaced) =>
        match RemoveReplaced(s[1..], name, url, matches)
        case Failure(e) => Failure(e)
        case Success(rest) => Success(if replaced then rest else [s[0]] + rest)
  }

  /** A cookie stored without a path (a Set-Cookie with no Path attribute: addCookie fills in only
      the domain) makes every later lookup fail, for every URL, and makes every later addCookie of a
      cookie with the same name fail too. */
  lemma {:induction false} PathlessCookieBreaksJar(s: seq<Cookie>, url: Url, cookie: Cookie, matches: MatchRelation,
                                                    later: Url, next: Cookie)
    requires cookie.path.None?
    requires next.name == cookie.name
    ensures FilterMatching(AfterAdd(s, url, cookie, matches), later, matches).Failure?
    ensures RemoveReplaced(AfterAdd(s, url, cookie, matches), next.name, later, matches).Failure?
  {
    var added := WithRequestDomain(cookie, url);
    var r := AfterAdd(s, url, cookie, matches);
    assert r[|r| - 1] == added;
    assert added in r && !HasDefaults(added);
  }

  /** The persistent cookie storage. */
  class PersistentCookieStorage {
    /** Ktor's `Cookie.matches`. */
    const matches: MatchRelation
    /** The in-memory list (`cookies`). */
    var cookies: seq<Cookie>
    /** The list last written under the "cookies" preference key; `None` if nothing is stored. */
    var persisted: Option<seq<Cookie>>

    /** Reloading from storage would give back the in-memory list. */
    ghost predicate Valid()
      reads this
    {
      LoadCookies(persisted) == cookies
    }

    /** Creates the storage, loading the list from what is stored. */
    constructor (stored: Option<seq<Cookie>>, matches: MatchRelation)
      ensures this.matches == matches && persisted == stored
      ensures cookies == LoadCookies(stored)
      ensures Valid()
    {
      this.matches := matches;
      persisted := stored;
      cookies := LoadCookies(stored);
    }

    /** `addCookie(requestUrl, cookie)`. It fails, changing nothing, when a stored cookie with the
        new name has no domain or path. */
    method AddCookie(requestUrl: Url, cookie: Cookie) returns (r: Result<(), CookieError>)
      modifies this
      ensures r.Failure? <==> exists c :: c in old(cookies) && c.name == cookie.name && !HasDefaults(c)
      ensures r.Failure? ==> cookies == old(cookies) && persisted == old(persisted)
      ensures r.Success? ==> cookies == AfterAdd(old(cookies), requestUrl, cookie, matches)
      ensures r.Success? ==> persisted == Some(cookies) && Valid()
    {
      var kept := RemoveReplaced(cookies, cookie.name, requestUrl, matches);
      if kept.Failure? {
        return Failure(kept.error);
      }
      cookies := kept.value + [WithRequestDomain(cookie, requestUrl)];
      SaveCookies();
      r := Success(());
    }

    /** `close()`: forget every cookie, in memory and in storage. */
    method Close()
      modifies this
      ensures cookies == [] && persisted == Some([])
      ensures Valid()
    {
      cookies := [];
      SaveCookies();
    }

    /** `get(requestUrl)`: the stored cookies that match the URL, in stored order; it fails when a
        stored cookie has no domain or path. */
    method Get(requestUrl: Url) returns (r: Result<seq<Cookie>, CookieError>)
      ensures r.Failure? <==> exists c :: c in cookies && !HasDefaults(c)
      ensures r.Success? ==> r.value == Filter(cookies, MatchesUrl(requestUrl, matches))
      ensures r.Success? ==> forall c :: c in r.value <==> c in cookies && matches(c, requestUrl)
    {
      r := FilterMatching(cookies, requestUrl, matches);
    }

    /** `saveCookies()`: write the whole list under the "cookies" key. */
    method SaveCookies()
      modifies this`persisted
      ensures persisted == Some(cookies)
    {
      persisted := Some(cookies);
    }
  }

  /** Restarting the app builds a new jar from what the old one stored; it holds the same list, so
      it answers every lookup as the old one did (a jar broken by a pathless cookie stays broken). */
  method Restart(jar: PersistentCookieStorage) returns (reloaded: PersistentCookieStorage)
    requires jar.Valid()
    ensures fresh(reloaded) && reloaded.Valid()
    ensures reloaded.cookies == jar.cookies && reloaded.matches == jar.matches
  {
    reloaded := new PersistentCookieStorage(jar.persisted, jar.matches);
  }
}
