/**
 * `Store`'s key derivations: the closed table from locale to storefront root
 * URL, and the store key of a product URL. `AmazonURLParser`, whose source is
 * not part of this model, enters as a pair of functions.
 */
module Stores {
  import opened Wrappers
  import opened Strings
  import opened Entities

  /** `AmazonURLParser.root_url` and `AmazonURLParser.product_url`, uninterpreted. */
  datatype UrlParser = UrlParser(rootUrl: string -> string, productUrl: string -> string)

  /** `db.Key.from_path('Store', root)`. */
  function StoreKey(root: string): Key {
    Key("Store", root)
  }

  const AmazonPrefix: string := "http://www.amazon."

  /** `Store.key_for_locale`: the prefix completed by a per-locale suffix, or `StoreException`. */
  function KeyForLocale(locale: string): (r: Result<Key, Error>)
    ensures r.Success? ==> r.value.kind == "Store" && AmazonPrefix < r.value.name
    ensures r.Failure? ==> r.error == StoreException("Store not found for locale: " + locale)
  {
    var root := AmazonPrefix;
    if locale == "us" then Success(StoreKey(root + "com"))
    else if locale == "uk" then Success(StoreKey(root + "co.uk"))
    else if locale == "de" then Success(StoreKey(root + "de"))
    else if locale == "ca" then Success(StoreKey(root + "ca"))
    else if locale == "fr" then Success(StoreKey(root + "fr"))
    else if locale == "jp" then Success(StoreKey(root + "co.jp"))
    else Failure(StoreException("Store not found for locale: " + locale))
  }

  /** The storefront table written out in full: each locale's host, served over `http://`. */
  function StoreHost(locale: string): Option<string> {
    if locale == "us" then Some("www.amazon.com")
    else if locale == "uk" then Some("www.amazon.co.uk")
    else if locale == "de" then Some("www.amazon.de")
    else if locale == "ca" then Some("www.amazon.ca")
    else if locale == "fr" then Some("www.amazon.fr")
    else if locale == "jp" then Some("www.amazon.co.jp")
    else None
  }

  /** Each root `key_for_locale` builds is `http://` followed by the table's host. */
  lemma AmazonRoots()
    ensures AmazonPrefix + "com" == "http://" + "www.amazon.com"
    ensures AmazonPrefix + "co.uk" == "http://" + "www.amazon.co.uk"
    ensures AmazonPrefix + "de" == "http://" + "www.amazon.de"
    ensures AmazonPrefix + "ca" == "http://" + "www.amazon.ca"
    ensures AmazonPrefix + "fr" == "http://" + "www.amazon.fr"
    ensures AmazonPrefix + "co.jp" == "http://" + "www.amazon.co.jp"
  {
    assert AmazonPrefix == "http://" + "www.amazon.";
  }

  /** `key_for_locale` agrees with the table: the six locales get their roots, every other locale fails. */
  lemma KeyForLocaleMatchesTable(locale: string)
    ensures KeyForLocale(locale).Success? <==> StoreHost(locale).Some?
    ensures StoreHost(locale).Some? ==> KeyForLocale(locale) == Success(StoreKey("http://" + StoreHost(locale).value))
  {
    AmazonRoots();
  }

  /** Different locales have different hosts. */
  lemma StoreHostInjective(l1: string, l2: string)
    requires StoreHost(l1).Some? && StoreHost(l1) == StoreHost(l2)
    ensures l1 == l2
  {
    var h := StoreHost(l1).value;
    // the six hosts differ in length or in their last character
    assert |h| == |StoreHost(l2).value| && h[|h| - 1] == StoreHost(l2).value[|h| - 1];
  }

  /** Different locales never share a store. */
  lemma KeyForLocaleInjective(l1: string, l2: string)
    requires KeyForLocale(l1).Success? && KeyForLocale(l1) == KeyForLocale(l2)
    ensures l1 == l2
  {
    KeyForLocaleMatchesTable(l1);
    KeyForLocaleMatchesTable(l2);
    var h1, h2 := StoreHost(l1).value, StoreHost(l2).value;
    assert "http://" + h1 == "http://" + h2;
    assert h1 == ("http://" + h1)[7..];
    assert h2 == ("http://" + h2)[7..];
    StoreHostInjective(l1, l2);
  }

  /** `Store.key_from_product_url`: `'http://'` and the third `/`-separated segment, or `IndexError`. */
  function KeyFromProductUrl(productUrl: string): (r: Result<Key, Error>)
    ensures r.Success? ==> r.value.kind == "Store" && "http://" <= r.value.name && '/' !in r.value.name[7..]
    ensures r.Failure? ==> r.error == IndexError
  {
    var segments := Split(productUrl, '/');
    if |segments| < 3 then Failure(IndexError) else Success(StoreKey("http://" + segments[2]))
  }

  /** A URL with fewer than two `/` has no third segment: `key_from_product_url` raises `IndexError`. */
  lemma KeyFromShortUrlFails(a: string, b: string)
    requires '/' !in a && '/' !in b
    ensures KeyFromProductUrl(a) == Failure(IndexError)
    ensures KeyFromProductUrl(a + "/" + b) == Failure(IndexError)
  {
    SplitNoSeparator(a, '/');
    SplitNoSeparator(b, '/');
    SplitAfterSegment(a, '/', b);
  }

  /**
   * A URL `a/b/host` followed by nothing or by `/...` names the store
   * `http://host`: the store is the third segment whatever the first two are.
   */
  lemma {:induction false} KeyFromUrlWithPath(a: string, b: string, host: string, tail: string)
    requires '/' !in a && '/' !in b && '/' !in host
    requires tail == [] || tail[0] == '/'
    ensures KeyFromProductUrl(a + "/" + b + "/" + host + tail) == Success(StoreKey("http://" + host))
  {
    var url := a + "/" + b + "/" + host + tail;
    assert url == a + ['/'] + (b + ['/'] + (host + tail));
    SplitAfterSegment(a, '/', b + ['/'] + (host + tail));
    SplitAfterSegment(b, '/', host + tail);
    if tail == [] {
      assert host + tail == host;
      SplitNoSeparator(host, '/');
    } else {
      assert host + tail == host + ['/'] + tail[1..];
      SplitAfterSegment(host, '/', tail[1..]);
    }
  }

  lemma HttpUrlWithPath(host: string, path: string)
    requires '/' !in host
    ensures KeyFromProductUrl("http://" + host + "/" + path) == Success(StoreKey("http://" + host))
  {
    KeyFromUrlWithPath("http:", "", host, "/" + path);
    assert "http:" + "/" + "" + "/" + host + ("/" + path) == "http://" + host + "/" + path;
  }

  /** No storefront host holds a `/`. */
  lemma StoreHostsAreHosts(locale: string)
    requires StoreHost(locale).Some?
    ensures '/' !in StoreHost(locale).value
  {
  }

  /** A product URL under a storefront's root names that storefront's store. */
  lemma ProductUrlUnderLocaleRoot(locale: string, path: string)
    requires StoreHost(locale).Some?
    ensures KeyFromProductUrl("http://" + StoreHost(locale).value + "/" + path) == KeyForLocale(locale)
  {
    KeyForLocaleMatchesTable(locale);
    StoreHostsAreHosts(locale);
    HttpUrlWithPath(StoreHost(locale).value, path);
  }
}
