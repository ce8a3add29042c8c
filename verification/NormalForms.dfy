/**
 What the normal form of a link consists of, part by part, in terms of the parts written: which links have one, which
 query components and ports survive, and which hosts are refused.
 */
module NormalForms {
  import opened Common
  import opened Text
  import opened ArticleUrls

  // ---------------------------------------------------------------- vocabulary

  /** ASCII case folding, letter by letter. */
  predicate FoldsTo(a: string, b: string)
  {
    |a| == |b| && forall i | 0 <= i < |a| :: b[i] == if 65 <= a[i] as int <= 90 then (a[i] as int + 32) as char else a[i]
  }

  lemma LowerFolds(a: string, b: string)
    ensures FoldsTo(a, b) <==> b == Lower(a)
  {
  }

  /** The text before the first equals sign, or all of it. */
  function Head(component: string): string
  {
    if component == "" || component[0] == '=' then "" else [component[0]] + Head(component[1..])
  }

  lemma {:induction false} HeadIsKey(component: string)
    ensures Head(component) == KeyOf(component)
    decreases |component|
  {
    if component != "" && component[0] != '=' {
      HeadIsKey(component[1..]);
      assert component == [component[0]] + component[1..];
    }
  }

  /** The component's key, case folded, starts with `utm_` or is `fbclid` or `gclid`. */
  ghost predicate IsTracking(component: string)
  {
    exists key :: FoldsTo(Head(component), key)
      && ((|key| >= 4 && key[0] == 'u' && key[1] == 't' && key[2] == 'm' && key[3] == '_') || key == "fbclid" || key == "gclid")
  }

  lemma TrackingExactly(component: string)
    ensures Retains(component) <==> component != "" && !IsTracking(component)
  {
    HeadIsKey(component);
    var k := Lower(KeyOf(component));
    LowerFolds(Head(component), k);
    assert "utm_" <= k <==> |k| >= 4 && k[0] == 'u' && k[1] == 't' && k[2] == 'm' && k[3] == '_' by {
      if |k| >= 4 {
        assert k[..4] == [k[0], k[1], k[2], k[3]];
      }
    }
    forall key | FoldsTo(Head(component), key) ensures key == k {
      LowerFolds(Head(component), key);
    }
  }

  /** How often a component stands in a query. */
  function Occurs(query: Option<seq<string>>, x: string): nat { if query.Some? then multiset(query.value)[x] else 0 }

  /** A port as written stands for this number: an optional plus sign, then its decimal digits. */
  predicate ReadsAs(port: string, n: nat)
  {
    var digits := if port != "" && port[0] == '+' then port[1..] else port;
    digits != "" && AllDigits(digits) && Value(digits) == n
  }

  /** Digits count in tens. */
  lemma DigitsCountInTens(s: string, c: char)
    requires AllDigits(s) && IsDigit(c)
    ensures AllDigits(s + [c]) && Value(s + [c]) == 10 * Value(s) + (c as int - 48) && Value("") == 0
    ensures AllDigits("80") && Value("80") == 80 && AllDigits("443") && Value("443") == 443
  {
    assert (s + [c])[..|s|] == s;
    assert "80"[..1] == "8" && "8"[..0] == "";
    assert "443"[..2] == "44" && "44"[..1] == "4" && "4"[..0] == "";
  }

  // ---------------------------------------------------------------- which links are taken apart

  predicate IsLinkScheme(s: string) { FoldsTo(s, "http") || FoldsTo(s, "https") }

  predicate IsHostChar(c: char)
  {
    c in "abcdefghijklmnopqrstuvwxyz" || c in "ABCDEFGHIJKLMNOPQRSTUVWXYZ" || c in "0123456789" || c == '.' || c == '-'
  }

  predicate IsPrintable(s: string) { forall i | 0 <= i < |s| :: s[i] as int > 32 && s[i] as int != 127 }

  /** The parts of a link, as a maintainer would describe them. */
  predicate WellFormed(p: Parts)
  {
    && IsLinkScheme(p.scheme)
    && p.host != "" && (forall i | 0 <= i < |p.host| :: IsHostChar(p.host[i]))
    && (p.port.Some? ==> exists n: nat :: n <= 65535 && ReadsAs(p.port.value, n))
    && (p.path == "" || p.path[0] == '/') && '?' !in p.path && '#' !in p.path && IsPrintable(p.path)
    && (p.query.Some? ==>
          && p.query.value != []
          && forall i | 0 <= i < |p.query.value| :: '&' !in p.query.value[i] && '#' !in p.query.value[i] && IsPrintable(p.query.value[i]))
    && (p.fragment.Some? ==> IsPrintable(p.fragment.value))
  }

  lemma SchemesExactly(s: string)
    ensures IsLinkScheme(s) <==> IsScheme(s)
  {
    LowerFolds(s, "http");
    LowerFolds(s, "https");
  }

  lemma HostCharsExactly(c: char)
    ensures IsHostChar(c) <==> HostChar(c)
  {
    LettersAreRange(c);
    assert c in "0123456789" <==> '0' <= c <= '9' by {
      assert forall i | 0 <= i < 10 :: "0123456789"[i] as int == 48 + i;
      if '0' <= c <= '9' {
        assert "0123456789"[c as int - 48] == c;
      }
    }
  }

  lemma LettersAreRange(c: char)
    ensures c in "abcdefghijklmnopqrstuvwxyz" <==> 'a' <= c <= 'z'
    ensures c in "ABCDEFGHIJKLMNOPQRSTUVWXYZ" <==> 'A' <= c <= 'Z'
  {
    var small, big := "abcdefghijklmnopqrstuvwxyz", "ABCDEFGHIJKLMNOPQRSTUVWXYZ";
    assert forall i | 0 <= i < 26 :: small[i] as int == 97 + i;
    assert forall i | 0 <= i < 26 :: big[i] as int == 65 + i;
    if 'a' <= c <= 'z' {
      assert small[c as int - 97] == c;
    }
    if 'A' <= c <= 'Z' {
      assert big[c as int - 65] == c;
    }
  }

  lemma PortsExactly(port: string)
    ensures (exists n: nat :: n <= 65535 && ReadsAs(port, n)) <==> ParseU16(port).Some?
    ensures forall n: nat :: n <= 65535 && ReadsAs(port, n) <==> ParseU16(port) == Some(n)
  {
    if ParseU16(port).Some? {
      assert ReadsAs(port, ParseU16(port).value);
    }
  }

  lemma WellFormedExactly(p: Parts)
    ensures WellFormed(p) <==> ValidParts(p)
  {
    SchemesExactly(p.scheme);
    forall i | 0 <= i < |p.host| ensures IsHostChar(p.host[i]) <==> HostChar(p.host[i]) {
      HostCharsExactly(p.host[i]);
    }
    if p.port.Some? {
      PortsExactly(p.port.value);
    }
    PrintableIsClean(p.path);
    if p.fragment.Some? {
      PrintableIsClean(p.fragment.value);
    }
    if p.query.Some? {
      forall i | 0 <= i < |p.query.value| ensures IsPrintable(p.query.value[i]) <==> Clean(p.query.value[i]) {
        PrintableIsClean(p.query.value[i]);
      }
      QueriesExactly(p.query.value);
    }
  }

  lemma QueriesExactly(query: seq<string>)
    ensures ValidQuery(Some(query)) <==>
            query != [] && forall i | 0 <= i < |query| :: '&' !in query[i] && '#' !in query[i] && IsPrintable(query[i])
  {
    forall i | 0 <= i < |query| ensures ValidComponent(query[i]) <==> '&' !in query[i] && '#' !in query[i] && IsPrintable(query[i]) {
      PrintableIsClean(query[i]);
    }
  }

  lemma PrintableIsClean(s: string)
    ensures IsPrintable(s) <==> Clean(s)
  {
  }

  /** Every separator of a link in its place. */
  lemma LinksLookLikeThis()
    ensures Assemble(Parts("https", "news.example", Some("8080"), "/a", Some(["id=1", "b"]), Some("f"))) == "https://news.example:8080/a?id=1&b#f"
  {
    var query := ["id=1", "b"];
    assert query[1..] == ["b"];
    assert Join(["b"], '&') == "b";
    assert Join(query, '&') == "id=1&b";
  }

  // ---------------------------------------------------------------- hosts

  /** The host, case folded, is one of the provider's or below it. */
  ghost predicate IsProviderHost(host: string)
  {
    exists h :: FoldsTo(host, h)
      && (|| h == "x.com" || h == "twitter.com" || h == "t.co"
          || (|h| >= 6 && h[|h| - 6..] == ".x.com")
          || (|h| >= 12 && h[|h| - 12..] == ".twitter.com")
          || (|h| >= 5 && h[|h| - 5..] == ".t.co"))
  }

  lemma ProviderHostsExactly(host: string)
    ensures IsProviderHost(host) <==> IsXHost(Lower(host))
  {
    LowerFolds(host, Lower(host));
    forall h | FoldsTo(host, h) ensures h == Lower(host) {
      LowerFolds(host, h);
    }
  }

  /**
   A text is normalized exactly when it is well-formed parts put together and the host is not the provider's.
   */
  lemma NormalizedExactly(raw: string)
    ensures NormalizeExternalUrl(raw).Some? <==> exists p :: WellFormed(p) && Assemble(p) == raw && !IsProviderHost(p.host)
  {
    if NormalizeExternalUrl(raw).Some? {
      var p := PartsOf(raw).value;
      AssembleInvertsTakeApart(raw);
      WellFormedExactly(p);
      ProviderHostsExactly(p.host);
      assert WellFormed(p) && Assemble(p) == raw && !IsProviderHost(p.host);
    }
    if exists p :: WellFormed(p) && Assemble(p) == raw && !IsProviderHost(p.host) {
      var p :| WellFormed(p) && Assemble(p) == raw && !IsProviderHost(p.host);
      WellFormedExactly(p);
      ProviderHostsExactly(p.host);
      TakeApartInvertsAssemble(p);
    }
  }

  // ---------------------------------------------------------------- the parts of a normal form

  /** The parts of the normal form of well-formed parts. */
  ghost function NormalParts(p: Parts): Parts
    requires WellFormed(p) && !IsProviderHost(p.host)
  {
    NormalPartsExist(p);
    PartsOf(NormalizeExternalUrl(Assemble(p)).value).value
  }

  lemma NormalPartsExist(p: Parts)
    requires WellFormed(p) && !IsProviderHost(p.host)
    ensures ValidParts(p)
    ensures NormalizeExternalUrl(Assemble(p)) == Some(Assemble(Canonical(p)))
    ensures PartsOf(Assemble(Canonical(p))) == Some(Canonical(p))
  {
    WellFormedExactly(p);
    ProviderHostsExactly(p.host);
    NormalFormOf(p);
    CanonicalIsStable(p);
    TakeApartInvertsAssemble(Canonical(p));
  }

  /** Scheme and host are case folded, an empty path becomes a slash, and the fragment is gone. */
  lemma NormalFormFolds(p: Parts)
    requires WellFormed(p) && !IsProviderHost(p.host)
    ensures var q := NormalParts(p);
            && FoldsTo(p.scheme, q.scheme) && FoldsTo(p.host, q.host) && q.fragment == None
            && q.path == (if p.path == "" then "/" else p.path)
  {
    NormalPartsExist(p);
    LowerFolds(p.scheme, Lower(p.scheme));
    LowerFolds(p.host, Lower(p.host));
  }

  /**
   Each query component stands in the normal form as often as it was written if it is not empty and not a tracking one,
   and never otherwise; what is left is in byte order, and an empty rest is no query.
   */
  lemma NormalFormKeepsComponents(p: Parts, x: string)
    requires WellFormed(p) && !IsProviderHost(p.host)
    ensures Occurs(NormalParts(p).query, x) == if x != "" && !IsTracking(x) then Occurs(p.query, x) else 0
    ensures NormalParts(p).query.Some? ==> NormalParts(p).query.value != [] && Sorted(NormalParts(p).query.value)
  {
    NormalPartsExist(p);
    TrackingExactly(x);
    var retained := RetainedOf(p.query);
    SortCorrect(retained);
    if p.query.Some? {
      RetainedCount(p.query.value, x);
    }
    assert multiset(Sort(retained))[x] == multiset(retained)[x];
  }

  /**
   The port is dropped exactly when none was written, or it is 80 under http or 443 under https; otherwise the normal form
   writes the same number in plain decimal digits without a leading zero.
   */
  lemma NormalFormKeepsPort(p: Parts)
    requires WellFormed(p) && !IsProviderHost(p.host)
    ensures NormalParts(p).port == None <==>
            || p.port == None
            || (FoldsTo(p.scheme, "http") && ReadsAs(p.port.value, 80))
            || (FoldsTo(p.scheme, "https") && ReadsAs(p.port.value, 443))
    ensures NormalParts(p).port.Some? ==>
              && var port := NormalParts(p).port.value;
              && AllDigits(port) && port != "" && (|port| > 1 ==> port[0] != '0')
              && p.port.Some? && forall n: nat :: ReadsAs(p.port.value, n) <==> ReadsAs(port, n)
  {
    NormalPartsExist(p);
    PortDropped(p.scheme, p.port);
    var port := EffectivePort(p.scheme, p.port);
    if port.Some? {
      PlainDecimal(port.value);
    }
  }

  /** A port as written stands for one number only. */
  lemma PortReadsOnce(port: string, n: nat, m: nat)
    requires ReadsAs(port, n)
    ensures ReadsAs(port, m) <==> m == n
  {
  }

  lemma PortDropped(scheme: string, port: Option<string>)
    requires IsPort(port)
    ensures EffectivePort(scheme, port) == None <==>
            || port == None
            || (FoldsTo(scheme, "http") && ReadsAs(port.value, 80))
            || (FoldsTo(scheme, "https") && ReadsAs(port.value, 443))
    ensures EffectivePort(scheme, port).Some? ==>
              port.Some? && forall n: nat :: ReadsAs(port.value, n) <==> n == EffectivePort(scheme, port).value
  {
    LowerFolds(scheme, "http");
    LowerFolds(scheme, "https");
    if port.Some? {
      var n := ParseU16(port.value).value;
      PortsExactly(port.value);
      assert ReadsAs(port.value, n);
      forall m: nat ensures ReadsAs(port.value, m) <==> m == n {
        PortReadsOnce(port.value, n, m);
      }
    }
  }

  /** A number is written in plain decimal digits without a leading zero, and reads back as itself only. */
  lemma PlainDecimal(n: nat)
    ensures var s := Decimal(n);
            && AllDigits(s) && s != "" && (|s| > 1 ==> s[0] != '0')
            && forall m: nat :: ReadsAs(s, m) <==> m == n
  {
    DecimalValue(n);
    DecimalLeads(n);
    var s := Decimal(n);
    assert s[0] != '+';
  }

  lemma {:induction false} DecimalLeads(n: nat)
    ensures Decimal(n) != "" && IsDigit(Decimal(n)[0]) && (n > 0 ==> Decimal(n)[0] != '0') && (n < 10 <==> |Decimal(n)| == 1)
    decreases n
  {
    if n >= 10 {
      DecimalLeads(n / 10);
    }
  }
}
