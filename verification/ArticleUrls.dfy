/**
 Canonical form of the external links of a post: what a link is taken apart into, which links share a normal
 form, and the selection of one link per normal form.
 */
module ArticleUrls {
  import opened Common
  import opened Text
  import opened LinkSelection

  /** A link taken apart; `port` is the digits as written, `query` the components between ampersands. */
  datatype Parts = Parts(scheme: string, host: string, port: Option<string>, path: string,
                         query: Option<seq<string>>, fragment: Option<string>)

  // ---------------------------------------------------------------- putting a link together

  function AuthorityText(host: string, port: Option<string>): string
  {
    if port.Some? then host + [':'] + port.value else host
  }

  function TailText(path: string, query: Option<string>, fragment: Option<string>): string
  {
    var body := if query.Some? then path + ['?'] + query.value else path;
    if fragment.Some? then body + ['#'] + fragment.value else body
  }

  function QueryText(query: Option<seq<string>>): Option<string>
  {
    if query.Some? then Some(Join(query.value, '&')) else None
  }

  function Assemble(p: Parts): string
  {
    p.scheme + "://" + (AuthorityText(p.host, p.port) + TailText(p.path, QueryText(p.query), p.fragment))
  }

  // ---------------------------------------------------------------- taking a link apart

  predicate IsScheme(s: string) { Lower(s) in {"http", "https"} }

  /** `split_once("://")`. */
  function SplitScheme(s: string): (r: Option<(string, string)>)
    ensures r.Some? ==> s == r.value.0 + "://" + r.value.1
  {
    if |s| < 3 then None
    else if s[..3] == "://" then Some(("", s[3..]))
    else
      var rest := SplitScheme(s[1..]);
      if rest.None? then None else Some(([s[0]] + rest.value.0, rest.value.1))
  }

  predicate EndsAuthority(c: char) { c == '/' || c == '?' || c == '#' }

  /** The authority runs to the first slash, question mark or hash. */
  function TakeAuthority(rest: string): (r: (string, string))
    ensures rest == r.0 + r.1
    ensures forall i | 0 <= i < |r.0| :: !EndsAuthority(r.0[i])
    ensures r.1 == "" || EndsAuthority(r.1[0])
  {
    if rest == "" || EndsAuthority(rest[0]) then ("", rest)
    else var more := TakeAuthority(rest[1..]); ([rest[0]] + more.0, more.1)
  }

  predicate HostChar(c: char) { 'a' <= c <= 'z' || 'A' <= c <= 'Z' || IsDigit(c) || c == '.' || c == '-' }

  predicate IsHost(host: string) { host != "" && forall i | 0 <= i < |host| :: HostChar(host[i]) }

  predicate IsPort(port: Option<string>) { port.Some? ==> ParseU16(port.value).Some? }

  /** The last colon separates the port; an empty or unparsable port refuses the link. */
  function SplitHostAndPort(authority: string): Option<(string, Option<string>)>
  {
    var (host, port) := match RSplitOnce(authority, ':')
      case Some(p) => (p.0, Some(p.1))
      case None => (authority, None);
    if IsPort(port) && IsHost(host) then Some((host, port)) else None
  }

  /** The fragment is cut off first, then the query. */
  function SplitTail(tail: string): (string, Option<string>, Option<string>)
  {
    var (body, fragment) := match SplitOnce(tail, '#')
      case Some(p) => (p.0, Some(p.1))
      case None => (tail, None);
    match SplitOnce(body, '?')
    case Some(p) => (p.0, Some(p.1), fragment)
    case None => (body, None, fragment)
  }

  function PartsOf(raw: string): Option<Parts>
  {
    if raw == "" || !Clean(raw) then None
    else match SplitScheme(raw)
      case None => None
      case Some(p) =>
        if !IsScheme(p.0) then None
        else
          var (authority, tail) := TakeAuthority(p.1);
          if authority == "" || '@' in authority || authority[0] == '[' then None
          else match SplitHostAndPort(authority)
            case None => None
            case Some(a) =>
              var (path, query, fragment) := SplitTail(tail);
              Some(Parts(p.0, a.0, a.1, path, if query.Some? then Some(SplitAll(query.value, '&')) else None, fragment))
  }

  // ---------------------------------------------------------------- canonical parts

  predicate EndsWith(s: string, suffix: string) { |s| >= |suffix| && s[|s| - |suffix|..] == suffix }

  /** The provider's own hosts and their subdomains. */
  predicate IsXHost(host: string)
  {
    || host in {"x.com", "twitter.com", "t.co"}
    || EndsWith(host, ".x.com") || EndsWith(host, ".twitter.com") || EndsWith(host, ".t.co")
  }

  function KeyOf(component: string): string
  {
    match SplitOnce(component, '=')
    case Some(p) => p.0
    case None => component
  }

  predicate IsTrackingKey(key: string)
  {
    var k := Lower(key);
    "utm_" <= k || k in {"fbclid", "gclid"}
  }

  predicate Retains(component: string) { component != "" && !IsTrackingKey(KeyOf(component)) }

  function Retained(components: seq<string>): seq<string>
  {
    if components == [] then []
    else (if Retains(components[0]) then [components[0]] else []) + Retained(components[1..])
  }

  function RetainedOf(query: Option<seq<string>>): seq<string> { if query.Some? then Retained(query.value) else [] }

  function CanonicalQuery(query: Option<seq<string>>): Option<seq<string>>
  {
    var retained := Sort(RetainedOf(query));
    if retained == [] then None else Some(retained)
  }

  /** The port number, unless it is absent or the scheme's own. */
  function EffectivePort(scheme: string, port: Option<string>): Option<nat>
    requires IsPort(port)
  {
    if port.None? then None
    else
      var n := ParseU16(port.value).value;
      if (Lower(scheme) == "http" && n == 80) || (Lower(scheme) == "https" && n == 443) then None else Some(n)
  }

  function EffectivePath(path: string): string { if path == "" then "/" else path }

  function Canonical(p: Parts): Parts
    requires IsPort(p.port)
  {
    var port := EffectivePort(p.scheme, p.port);
    Parts(Lower(p.scheme), Lower(p.host), if port.Some? then Some(Decimal(port.value)) else None,
          EffectivePath(p.path), CanonicalQuery(p.query), None)
  }

  lemma PartsHavePort(raw: string)
    ensures PartsOf(raw).Some? ==> IsPort(PartsOf(raw).value.port)
  {
  }

  function NormalizeExternalUrl(raw: string): Option<string>
  {
    PartsHavePort(raw);
    match PartsOf(raw)
    case None => None
    case Some(p) => if IsXHost(Lower(p.host)) then None else Some(Assemble(Canonical(p)))
  }

  // ---------------------------------------------------------------- taking apart inverts putting together

  /** What the pieces of an accepted link look like. */
  predicate ValidParts(p: Parts)
  {
    && IsScheme(p.scheme) && IsHost(p.host) && IsPort(p.port)
    && ValidPath(p.path) && ValidQuery(p.query) && (p.fragment.Some? ==> Clean(p.fragment.value))
  }

  predicate ValidPath(path: string) { (path == "" || path[0] == '/') && '?' !in path && '#' !in path && Clean(path) }

  predicate ValidQuery(query: Option<seq<string>>)
  {
    query.Some? ==> query.value != [] && forall i | 0 <= i < |query.value| :: ValidComponent(query.value[i])
  }

  predicate ValidComponent(component: string) { '&' !in component && '#' !in component && Clean(component) }

  lemma {:induction false} SplitSchemeUnique(a: string, b: string)
    requires ':' !in a
    ensures SplitScheme(a + "://" + b) == Some((a, b))
    decreases |a|
  {
    var s := a + "://" + b;
    if a == "" {
      assert s[..3] == "://" && s[3..] == b;
    } else {
      assert a[0] in a && s[0] == a[0] && s[..3][0] == a[0];
      assert s[1..] == a[1..] + "://" + b;
      SplitSchemeUnique(a[1..], b);
      assert [a[0]] + a[1..] == a;
    }
  }

  lemma {:induction false} TakeAuthorityUnique(a: string, b: string)
    requires (forall i | 0 <= i < |a| :: !EndsAuthority(a[i])) && (b == "" || EndsAuthority(b[0]))
    ensures TakeAuthority(a + b) == (a, b)
    decreases |a|
  {
    if a == "" {
      assert a + b == b;
    } else {
      assert (a + b)[1..] == a[1..] + b;
      TakeAuthorityUnique(a[1..], b);
      assert [a[0]] + a[1..] == a;
    }
  }

  lemma SchemeLetters(s: string, i: nat)
    requires IsScheme(s) && i < |s|
    ensures s[i] != ':' && !Forbidden(s[i])
  {
    assert Lower(s)[i] == LowerChar(s[i]);
    assert Lower(s)[i] in {'h', 't', 'p', 's'};
  }

  lemma PortDigits(port: string, i: nat)
    requires ParseU16(port).Some? && i < |port|
    ensures IsDigit(port[i]) || port[i] == '+'
  {
    if port[0] == '+' && i > 0 {
      assert port[1..][i - 1] == port[i];
    }
  }

  lemma HostAndPortRoundTrip(host: string, port: Option<string>)
    requires IsHost(host) && IsPort(port)
    ensures SplitHostAndPort(AuthorityText(host, port)) == Some((host, port))
  {
    if port.Some? {
      forall i | 0 <= i < |port.value| ensures port.value[i] != ':' {
        PortDigits(port.value, i);
      }
      RSplitOnceUnique(host, ':', port.value);
    }
  }

  lemma AuthorityChars(host: string, port: Option<string>, i: nat)
    requires IsHost(host) && IsPort(port) && i < |AuthorityText(host, port)|
    ensures var c := AuthorityText(host, port)[i]; HostChar(c) || c == ':' || c == '+'
  {
    if port.Some? && i > |host| {
      PortDigits(port.value, i - |host| - 1);
    }
  }

  lemma TailRoundTrip(path: string, query: Option<string>, fragment: Option<string>)
    requires '?' !in path && '#' !in path && (query.Some? ==> '#' !in query.value)
    ensures SplitTail(TailText(path, query, fragment)) == (path, query, fragment)
  {
    var body := if query.Some? then path + ['?'] + query.value else path;
    assert '#' !in body;
    if fragment.Some? {
      SplitOnceUnique(body, '#', fragment.value);
    }
    if query.Some? {
      SplitOnceUnique(path, '?', query.value);
    }
  }

  lemma QueryRoundTrip(query: seq<string>)
    requires ValidQuery(Some(query))
    ensures SplitAll(Join(query, '&'), '&') == query && '#' !in Join(query, '&') && Clean(Join(query, '&'))
  {
    assert forall i | 0 <= i < |query| :: ValidComponent(query[i]);
    SplitJoin(query, '&');
    JoinAvoids(query, '&', '#');
    JoinClean(query, '&');
  }

  lemma CleanAppend(a: string, b: string)
    ensures Clean(a + b) <==> Clean(a) && Clean(b)
  {
    if Clean(a + b) {
      forall i | 0 <= i < |a| ensures !Forbidden(a[i]) {
        assert (a + b)[i] == a[i];
      }
      forall i | 0 <= i < |b| ensures !Forbidden(b[i]) {
        assert (a + b)[|a| + i] == b[i];
      }
    }
  }

  lemma TailClean(path: string, query: Option<string>, fragment: Option<string>)
    ensures Clean(TailText(path, query, fragment)) <==>
            Clean(path) && (query.Some? ==> Clean(query.value)) && (fragment.Some? ==> Clean(fragment.value))
  {
    var body := if query.Some? then path + ['?'] + query.value else path;
    if query.Some? {
      CleanAppend(path, ['?']);
      CleanAppend(path + ['?'], query.value);
    }
    if fragment.Some? {
      CleanAppend(body, ['#']);
      CleanAppend(body + ['#'], fragment.value);
    }
  }

  lemma AssembleClean(p: Parts)
    requires ValidParts(p)
    ensures Clean(Assemble(p)) && Assemble(p) != ""
  {
    var authority, tail := AuthorityText(p.host, p.port), TailText(p.path, QueryText(p.query), p.fragment);
    forall i | 0 <= i < |p.scheme| ensures !Forbidden(p.scheme[i]) {
      SchemeLetters(p.scheme, i);
    }
    forall i | 0 <= i < |authority| ensures !Forbidden(authority[i]) {
      AuthorityChars(p.host, p.port, i);
    }
    if p.query.Some? {
      QueryRoundTrip(p.query.value);
    }
    TailClean(p.path, QueryText(p.query), p.fragment);
    CleanAppend(authority, tail);
    CleanAppend(p.scheme, "://");
    CleanAppend(p.scheme + "://", authority + tail);
  }

  lemma TailStarts(p: Parts)
    requires ValidParts(p)
    ensures var tail := TailText(p.path, QueryText(p.query), p.fragment); tail == "" || EndsAuthority(tail[0])
  {
  }

  /** Taking apart a link that was put together from valid parts gives those parts back. */
  lemma TakeApartInvertsAssemble(p: Parts)
    requires ValidParts(p)
    ensures PartsOf(Assemble(p)) == Some(p)
  {
    var authority, tail := AuthorityText(p.host, p.port), TailText(p.path, QueryText(p.query), p.fragment);
    AssembleClean(p);
    forall i | 0 <= i < |p.scheme| ensures p.scheme[i] != ':' {
      SchemeLetters(p.scheme, i);
    }
    SplitSchemeUnique(p.scheme, authority + tail);
    forall i | 0 <= i < |authority| ensures !EndsAuthority(authority[i]) && authority[i] != '@' && authority[i] != '[' {
      AuthorityChars(p.host, p.port, i);
    }
    TailStarts(p);
    TakeAuthorityUnique(authority, tail);
    HostAndPortRoundTrip(p.host, p.port);
    if p.query.Some? {
      QueryRoundTrip(p.query.value);
    }
    TailRoundTrip(p.path, QueryText(p.query), p.fragment);
  }

  lemma TailDecomposes(tail: string)
    requires Clean(tail) && (tail == "" || EndsAuthority(tail[0]))
    ensures var (path, query, fragment) := SplitTail(tail);
            && TailText(path, query, fragment) == tail && ValidPath(path)
            && (query.Some? ==> '#' !in query.value && Clean(query.value)) && (fragment.Some? ==> Clean(fragment.value))
  {
    var (path, query, fragment) := SplitTail(tail);
    TailClean(path, query, fragment);
  }

  lemma HostAndPortDecompose(authority: string)
    requires SplitHostAndPort(authority).Some?
    ensures var (host, port) := SplitHostAndPort(authority).value; AuthorityText(host, port) == authority && IsHost(host) && IsPort(port)
  {
  }

  lemma QueryDecomposes(query: string)
    requires '#' !in query && Clean(query)
    ensures ValidQuery(Some(SplitAll(query, '&'))) && Join(SplitAll(query, '&'), '&') == query
  {
    JoinSplit(query, '&');
    SplitAvoids(query, '&', '#');
    SplitClean(query, '&');
  }

  /** Every link that can be taken apart is its valid parts put together. */
  lemma AssembleInvertsTakeApart(raw: string)
    requires PartsOf(raw).Some?
    ensures ValidParts(PartsOf(raw).value) && Assemble(PartsOf(raw).value) == raw
  {
    var (scheme, rest) := SplitScheme(raw).value;
    var (authority, tail) := TakeAuthority(rest);
    CleanAppend(scheme + "://", rest);
    CleanAppend(authority, tail);
    HostAndPortDecompose(authority);
    TailDecomposes(tail);
    var (path, query, fragment) := SplitTail(tail);
    if query.Some? {
      QueryDecomposes(query.value);
    }
  }

  // ---------------------------------------------------------------- canonical parts stay put

  lemma {:induction false} RetainedCount(components: seq<string>, x: string)
    ensures multiset(Retained(components))[x] == if Retains(x) then multiset(components)[x] else 0
    decreases |components|
  {
    if components != [] {
      RetainedCount(components[1..], x);
      assert components == [components[0]] + components[1..];
    }
  }

  lemma {:induction false} RetainedFixed(components: seq<string>)
    requires forall i | 0 <= i < |components| :: Retains(components[i])
    ensures Retained(components) == components
    decreases |components|
  {
    if components != [] {
      RetainedFixed(components[1..]);
    }
  }

  /** The retained components are a selection of those written. */
  lemma RetainedFrom(query: Option<seq<string>>, i: nat)
    requires i < |Sort(RetainedOf(query))|
    ensures Retains(Sort(RetainedOf(query))[i]) && query.Some? && Sort(RetainedOf(query))[i] in query.value
  {
    var retained := RetainedOf(query);
    SortCorrect(retained);
    var x := Sort(retained)[i];
    assert x in multiset(Sort(retained));
    assert multiset(retained)[x] > 0;
    if query.Some? {
      RetainedCount(query.value, x);
      assert multiset(query.value)[x] > 0;
    }
  }

  lemma CanonicalQueryIsStable(query: Option<seq<string>>)
    requires ValidQuery(query)
    ensures ValidQuery(CanonicalQuery(query)) && CanonicalQuery(CanonicalQuery(query)) == CanonicalQuery(query)
  {
    var sorted := Sort(RetainedOf(query));
    forall i | 0 <= i < |sorted| ensures Retains(sorted[i]) && ValidComponent(sorted[i]) {
      RetainedFrom(query, i);
    }
    if sorted != [] {
      RetainedFixed(sorted);
      SortCorrect(RetainedOf(query));
      SortCorrect(sorted);
      SortedUnique(Sort(sorted), sorted);
    }
  }

  lemma LowerHost(host: string)
    requires IsHost(host)
    ensures IsHost(Lower(host))
  {
  }

  lemma PortBound(port: Option<string>)
    requires IsPort(port) && port.Some?
    ensures ParseU16(port.value).value <= 65535
  {
  }

  lemma CanonicalPortIsStable(p: Parts)
    requires ValidParts(p)
    ensures IsPort(Canonical(p).port)
    ensures EffectivePort(Canonical(p).scheme, Canonical(p).port) == EffectivePort(p.scheme, p.port)
  {
    LowerTwice(p.scheme);
    var port := EffectivePort(p.scheme, p.port);
    if port.Some? {
      PortBound(p.port);
      ParseDecimal(port.value);
    }
  }

  lemma CanonicalIsValid(p: Parts)
    requires ValidParts(p)
    ensures ValidParts(Canonical(p))
  {
    LowerTwice(p.scheme);
    LowerHost(p.host);
    CanonicalQueryIsStable(p.query);
    CanonicalPortIsStable(p);
  }

  lemma CanonicalIsStable(p: Parts)
    requires ValidParts(p)
    ensures ValidParts(Canonical(p)) && Canonical(Canonical(p)) == Canonical(p)
  {
    CanonicalIsValid(p);
    LowerTwice(p.scheme);
    LowerTwice(p.host);
    CanonicalQueryIsStable(p.query);
    CanonicalPortIsStable(p);
  }

  // ---------------------------------------------------------------- main results

  /** Accepted parts normalize to their canonical parts put together. */
  lemma NormalFormOf(p: Parts)
    requires ValidParts(p)
    ensures NormalizeExternalUrl(Assemble(p)) == if IsXHost(Lower(p.host)) then None else Some(Assemble(Canonical(p)))
  {
    TakeApartInvertsAssemble(p);
  }

  /** Normalizing a normal form changes nothing. */
  lemma NormalizationIsIdempotent(raw: string)
    requires NormalizeExternalUrl(raw).Some?
    ensures NormalizeExternalUrl(NormalizeExternalUrl(raw).value) == NormalizeExternalUrl(raw)
  {
    var p := PartsOf(raw).value;
    AssembleInvertsTakeApart(raw);
    CanonicalIsStable(p);
    NormalFormOf(Canonical(p));
    LowerTwice(p.host);
  }

  /**
   Same link, as far as the canonical form is concerned: case of scheme and host, a default port, an empty path,
   the order of the query components, empty or tracking components and the fragment do not matter.
   */
  predicate Equivalent(p: Parts, q: Parts)
    requires IsPort(p.port) && IsPort(q.port)
  {
    && Lower(p.scheme) == Lower(q.scheme) && Lower(p.host) == Lower(q.host)
    && EffectivePort(p.scheme, p.port) == EffectivePort(q.scheme, q.port)
    && EffectivePath(p.path) == EffectivePath(q.path)
    && multiset(RetainedOf(p.query)) == multiset(RetainedOf(q.query))
  }

  lemma CanonicalQueriesAgree(p: Option<seq<string>>, q: Option<seq<string>>)
    ensures CanonicalQuery(p) == CanonicalQuery(q) <==> multiset(RetainedOf(p)) == multiset(RetainedOf(q))
  {
    SortOrderless(RetainedOf(p), RetainedOf(q));
  }

  lemma DecimalsAgree(m: nat, n: nat)
    ensures Decimal(m) == Decimal(n) <==> m == n
  {
    DecimalValue(m);
    DecimalValue(n);
  }

  lemma CanonicalPartsAgree(p: Parts, q: Parts)
    requires ValidParts(p) && ValidParts(q)
    ensures Canonical(p) == Canonical(q) <==> Equivalent(p, q)
  {
    CanonicalQueriesAgree(p.query, q.query);
    var m, n := EffectivePort(p.scheme, p.port), EffectivePort(q.scheme, q.port);
    if m.Some? && n.Some? {
      DecimalsAgree(m.value, n.value);
    }
  }

  /** Two external links have the same normal form if and only if they are equivalent. */
  lemma NormalFormsAgreeExactly(p: Parts, q: Parts)
    requires ValidParts(p) && ValidParts(q) && !IsXHost(Lower(p.host)) && !IsXHost(Lower(q.host))
    ensures NormalizeExternalUrl(Assemble(p)) == NormalizeExternalUrl(Assemble(q)) <==> Equivalent(p, q)
  {
    NormalFormOf(p);
    NormalFormOf(q);
    CanonicalIsStable(p);
    CanonicalIsStable(q);
    TakeApartInvertsAssemble(Canonical(p));
    TakeApartInvertsAssemble(Canonical(q));
    CanonicalPartsAgree(p, q);
  }

  /** Reordering components, and adding or dropping empty and tracking ones, keeps the retained multiset. */
  lemma DroppedComponentsDoNotMatter(a: seq<string>, b: seq<string>)
    requires forall x | Retains(x) :: multiset(a)[x] == multiset(b)[x]
    ensures multiset(Retained(a)) == multiset(Retained(b))
  {
    forall x: string ensures multiset(Retained(a))[x] == multiset(Retained(b))[x] {
      RetainedCount(a, x);
      RetainedCount(b, x);
    }
  }

  // ---------------------------------------------------------------- selection

  function FormsOf(urls: seq<string>): (forms: seq<Option<string>>)
    ensures |forms| == |urls| && forall i | 0 <= i < |urls| :: forms[i] == NormalizeExternalUrl(urls[i])
  {
    seq(|urls|, i requires 0 <= i < |urls| => NormalizeExternalUrl(urls[i]))
  }

  /** Keeps exactly the first link of each normal form, in input order. */
  method SelectExternalExpandedUrls(urls: seq<string>) returns (selected: seq<SelectedUrl>)
    ensures selected == FirstsOf(urls, FormsOf(urls), |urls|)
    ensures forall u :: Selects(selected, u) <==> u in Seen(FormsOf(urls), |urls|)
    ensures forall i, j | 0 <= i < j < |selected| :: selected[i].normalized != selected[j].normalized
  {
    ghost var forms := FormsOf(urls);
    var seen: set<string> := {};
    selected := [];
    for n := 0 to |urls|
      invariant selected == FirstsOf(urls, forms, n) && seen == Seen(forms, n)
    {
      FirstIsUnseen(forms, n);
      var normalized := NormalizeExternalUrl(urls[n]);
      assert forms[n] == normalized;
      if normalized.Some? && normalized.value !in seen {
        seen := seen + {normalized.value};
        selected := selected + [SelectedUrl(urls[n], normalized.value)];
      }
    }
    FirstsAreTheForms(urls, forms, |urls|);
  }
}
