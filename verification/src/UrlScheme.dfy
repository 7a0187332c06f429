/** The rewriting of a configured URL to the scheme that the TLS mode calls for. */
module UrlScheme {

  datatype TlsMode = Disabled | Mtls

  predicate IsWord(c: char) {
    'a' <= c <= 'z' || 'A' <= c <= 'Z' || '0' <= c <= '9' || c == '_'
  }

  /** How many word characters the string starts with: what `^\w+` takes. */
  function WordPrefix(s: string): (n: nat)
    ensures n <= |s| && (forall i | 0 <= i < n :: IsWord(s[i])) && (n < |s| ==> !IsWord(s[n]))
  {
    if s == "" || !IsWord(s[0]) then 0 else 1 + WordPrefix(s[1..])
  }

  /** How much of the URL `^\w+:` or nothing, followed by two slashes, matches; none if it does not. */
  function SchemeLength(url: string): (n: nat)
    ensures n <= |url|
  {
    var n := WordPrefix(url);
    if n > 0 && "://" <= url[n..] then n + 3
    else if "//" <= url then 2
    else 0
  }

  function Protocol(mode: TlsMode, isBitgo: bool): string {
    if isBitgo then "https" else if mode == Disabled then "http" else "https"
  }

  /** The URL under another scheme. */
  function WithScheme(protocol: string, url: string): string {
    protocol + "://" + url[SchemeLength(url)..]
  }

  function DetermineProtocol(url: string, mode: TlsMode, isBitgo: bool): string {
    WithScheme(Protocol(mode, isBitgo), url)
  }

  /** A scheme of the shape the pattern looks for. */
  predicate Scheme(p: string) {
    p != "" && forall c | c in p :: IsWord(c)
  }

  lemma {:induction false} WordPrefixOf(p: string, rest: string)
    requires forall c | c in p :: IsWord(c)
    requires rest == "" || !IsWord(rest[0])
    ensures WordPrefix(p + rest) == |p|
  {
    if p == "" {
      assert p + rest == rest;
    } else {
      assert (p + rest)[1..] == p[1..] + rest;
      assert p[0] in p;
      WordPrefixOf(p[1..], rest);
    }
  }

  /** A rewritten URL is its scheme and what followed the old one. */
  lemma SchemeOf(p: string, rest: string)
    requires Scheme(p)
    ensures SchemeLength(p + "://" + rest) == |p| + 3
  {
    var url := p + ("://" + rest);
    assert p + "://" + rest == url;
    assert !IsWord(':');
    WordPrefixOf(p, "://" + rest);
    assert url[|p|..] == "://" + rest;
  }

  /**
    The last rewriting wins: whatever scheme was put in front before, with or without one in
    the original, the result is as if only the last had been applied. With `p` equal to `q`
    the rewriting is idempotent.
   */
  lemma LastSchemeWins(p: string, q: string, url: string)
    requires Scheme(p) && Scheme(q)
    ensures WithScheme(p, WithScheme(q, url)) == WithScheme(p, url)
  {
    var rest := url[SchemeLength(url)..];
    SchemeOf(q, rest);
    assert (q + "://" + rest)[|q| + 3..] == rest;
  }

  /** Rewriting under one configuration undoes any rewriting under another. */
  lemma Rewritten(url: string, mode: TlsMode, isBitgo: bool, mode': TlsMode, isBitgo': bool)
    ensures DetermineProtocol(DetermineProtocol(url, mode', isBitgo'), mode, isBitgo) ==
            DetermineProtocol(url, mode, isBitgo)
  {
    assert Scheme("http") && Scheme("https");
    LastSchemeWins(Protocol(mode, isBitgo), Protocol(mode', isBitgo'), url);
  }

  /** A URL is left as it is exactly when it already has the scheme it should have. */
  lemma Unchanged(p: string, url: string)
    requires Scheme(p)
    ensures WithScheme(p, url) == url <==> p + "://" <= url
  {
    if p + "://" <= url {
      var rest := url[|p| + 3..];
      assert url == p + "://" + rest;
      SchemeOf(p, rest);
    }
  }

  /** What follows the scheme is never touched: two URLs that differ only there stay different. */
  lemma RestKept(p: string, url: string, url': string)
    ensures WithScheme(p, url) == WithScheme(p, url') <==> url[SchemeLength(url)..] == url'[SchemeLength(url')..]
  {
    var a, b := url[SchemeLength(url)..], url'[SchemeLength(url')..];
    assert (p + "://" + a)[|p| + 3..] == a && (p + "://" + b)[|p| + 3..] == b;
  }

  /** Without TLS a URL ends up under http, unless it is BitGo's; every other URL under https. */
  lemma SchemeFor(url: string, mode: TlsMode, isBitgo: bool)
    ensures var r := DetermineProtocol(url, mode, isBitgo);
            && ("http://" <= r <==> mode == Disabled && !isBitgo)
            && ("https://" <= r <==> mode == Mtls || isBitgo)
  {
    var p := Protocol(mode, isBitgo) + "://";
    assert "http://"[4] == ':' && "https://"[4] == 's';
    assert p <= DetermineProtocol(url, mode, isBitgo);
    assert p == if mode == Disabled && !isBitgo then "http://" else "https://";
    if "http://" <= DetermineProtocol(url, mode, isBitgo) {
      assert DetermineProtocol(url, mode, isBitgo)[4] == ':';
    }
    if "https://" <= DetermineProtocol(url, mode, isBitgo) {
      assert DetermineProtocol(url, mode, isBitgo)[4] == 's';
    }
  }

  /**
    What is replaced at the front of a URL: two slashes, after a word and a colon or on their
    own, and nothing of any other URL.
   */
  lemma MatchedExactly(url: string, n: nat)
    ensures SchemeLength(url) == n <==>
              if exists p, rest :: Scheme(p) && url == p + "://" + rest then
                exists p, rest :: Scheme(p) && url == p + "://" + rest && n == |p| + 3
              else n == if "//" <= url then 2 else 0
  {
    forall p, rest | Scheme(p) && url == p + "://" + rest ensures SchemeLength(url) == |p| + 3 {
      SchemeOf(p, rest);
    }
    var k := WordPrefix(url);
    if k > 0 && "://" <= url[k..] {
      assert Scheme(url[..k]) && url == url[..k] + "://" + url[k + 3..];
    }
  }
}
