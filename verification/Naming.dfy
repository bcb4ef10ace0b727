/** Host names as the DNS server and the proxy take them apart, and mail addresses as SOA records
    write them. */
module Naming {
  import opened Lifecycle

  /** Rust's `split_once` on a character: the parts before and after its first occurrence. */
  function SplitOnce(s: string, c: char): (r: Option<(string, string)>)
    ensures r.None? <==> c !in s
    ensures r.Some? ==> s == r.value.0 + [c] + r.value.1 && c !in r.value.0
  {
    if s == "" then None
    else if s[0] == c then Some(("", s[1..]))
    else
      match SplitOnce(s[1..], c)
      case None => None
      case Some((a, b)) => Some(([s[0]] + a, b))
  }

  function StripSuffix(s: string, suffix: string): (r: Option<string>)
    ensures forall t: string :: r == Some(t) <==> s == t + suffix
  {
    if |suffix| <= |s| && s[|s| - |suffix|..] == suffix then
      assert s == s[..|s| - |suffix|] + suffix;
      Some(s[..|s| - |suffix|])
    else
      None
  }

  lemma SplitOnceIs(a: string, c: char, b: string)
    requires c !in a
    ensures SplitOnce(a + [c] + b, c) == Some((a, b))
  {
    var s := a + [c] + b;
    assert s[|a|] == c;
    var (x, y) := SplitOnce(s, c).value;
    assert s[|x|] == c;
    assert x == s[..|a|] == a && y == s[|a| + 1..] == b;
  }

  // ---- host names -------------------------------------------------------------------------

  function LowerChar(c: char): char {
    if 'A' <= c <= 'Z' then c - 'A' + 'a' else c
  }

  /** The DNS library hands over query names in lower case. */
  function Lower(s: string): (r: string)
    ensures |r| == |s| && forall i :: 0 <= i < |s| ==> r[i] == LowerChar(s[i])
  {
    seq(|s|, i requires 0 <= i < |s| => LowerChar(s[i]))
  }

  /** Only the letters A to Z change, each to its small letter 32 places on. */
  lemma LowerExactly(s: string, t: string)
    ensures Lower(s) == t <==>
            |s| == |t| && forall i :: 0 <= i < |s| ==>
              t[i] as int == if 65 <= s[i] as int <= 90 then s[i] as int + 32 else s[i] as int
  {
  }

  predicate EndsInDot(s: string) {
    s != "" && s[|s| - 1] == '.'
  }

  function StripDot(s: string): (r: string)
    ensures r == s <==> !EndsInDot(s)
    ensures |r| <= |s| && (EndsInDot(s) ==> s == r + ".")
  {
    var stripped := StripSuffix(s, ".");
    assert EndsInDot(s) ==> s == s[..|s| - 1] + ".";
    if stripped.Some? then stripped.value else s
  }

  /** The record a DNS query is answered from: host name and cluster, or no such domain. */
  function DnsLookupKey(query: string): Option<(string, string)> {
    match SplitOnce(Lower(query), '.')
    case None => None
    case Some((host, rest)) => Some((host, StripDot(rest)))
  }

  /** The host header without its port. */
  function WithoutPort(host: string): string {
    var parts := SplitOnce(host, ':');
    if parts.Some? then parts.value.0 else host
  }

  /** The subdomain the proxy routes by: the host header without its port and the cluster's suffix. */
  function ProxySubdomain(host: string, cluster: string): Option<string> {
    StripSuffix(WithoutPort(host), "." + cluster)
  }

  lemma LowerParts(a: string, b: string)
    ensures Lower(a + b) == Lower(a) + Lower(b)
  {
  }

  lemma LowerKeepsDots(s: string)
    ensures '.' in Lower(s) <==> '.' in s
  {
  }

  lemma FirstLabelHasNoDot(query: string)
    ensures DnsLookupKey(query).Some? ==> '.' !in DnsLookupKey(query).value.0
  {
  }

  /** What the DNS server looks up for a name with a dot-free first label, in any case and with or
      without a trailing dot. */
  lemma DnsLookupOf(id: string, rest: string)
    requires '.' !in id
    ensures DnsLookupKey(id + "." + rest) == Some((Lower(id), StripDot(Lower(rest))))
  {
    LowerParts(id + ".", rest);
    LowerParts(id, ".");
    assert Lower(".") == ".";
    LowerKeepsDots(id);
    SplitOnceIs(Lower(id), '.', Lower(rest));
  }

  /** The DNS server finds the record of backend `id` in `cluster` under its host name exactly if
      the id has no dot, both are in lower case, and the cluster does not end in a dot. */
  lemma DnsFindsBackend(id: string, cluster: string)
    ensures DnsLookupKey(id + "." + cluster) == Some((id, cluster)) <==>
            '.' !in id && Lower(id) == id && Lower(cluster) == cluster && !EndsInDot(cluster)
  {
    if '.' !in id {
      DnsLookupOf(id, cluster);
    } else {
      FirstLabelHasNoDot(id + "." + cluster);
    }
  }

  /** With a trailing dot in the query, a cluster that ends in a dot is found too. */
  lemma DnsFindsQualified(id: string, cluster: string)
    ensures DnsLookupKey(id + "." + cluster + ".") == Some((id, cluster)) <==>
            '.' !in id && Lower(id) == id && Lower(cluster) == cluster
  {
    assert id + "." + cluster + "." == id + "." + (cluster + ".");
    if '.' !in id {
      DnsLookupOf(id, cluster + ".");
      LowerParts(cluster, ".");
      assert Lower(".") == ".";
    } else {
      FirstLabelHasNoDot(id + "." + (cluster + "."));
    }
  }

  /** `query` is, in any case and with or without a trailing dot, the host name of a backend whose id
      has no dot, in a cluster; both are in lower case. */
  predicate Names(query: string, id: string, cluster: string) {
    && '.' !in id && Lower(id) == id && Lower(cluster) == cluster
    && (Lower(query) == id + "." + cluster + "." || (Lower(query) == id + "." + cluster && !EndsInDot(cluster)))
  }

  lemma NameIsFound(query: string, id: string, cluster: string)
    requires Names(query, id, cluster)
    ensures DnsLookupKey(query) == Some((id, cluster))
  {
    assert Lower(Lower(query)) == Lower(query);
    DnsFindsBackend(id, cluster);
    DnsFindsQualified(id, cluster);
  }

  /** The parts of a text in lower case are in lower case. */
  lemma LowerOfParts(s: string, a: string, b: string)
    requires Lower(s) == a + b
    ensures Lower(a) == a && Lower(b) == b
  {
    assert forall i :: 0 <= i < |a| ==> a[i] == Lower(s)[i];
    assert forall i :: 0 <= i < |b| ==> b[i] == Lower(s)[|a| + i];
  }

  lemma NamedByParts(query: string, id: string, rest: string)
    requires Lower(query) == id + "." + rest && '.' !in id
    ensures Names(query, id, StripDot(rest))
  {
    LowerOfParts(query, id + ".", rest);
    assert id + "." + rest == id + ("." + rest);
    LowerOfParts(query, id, "." + rest);
    if EndsInDot(rest) {
      var cluster := StripDot(rest);
      LowerOfParts(rest, cluster, ".");
      assert id + "." + rest == id + "." + cluster + ".";
    }
  }

  /** Every name with a dot is such a host name. */
  lemma EveryNameIsOne(query: string)
    requires '.' in query
    ensures exists id, cluster :: Names(query, id, cluster)
  {
    LowerKeepsDots(query);
    var (id, rest) := SplitOnce(Lower(query), '.').value;
    NamedByParts(query, id, rest);
  }

  lemma ColonCutsShort(host: string, port: string, id: string, cluster: string)
    requires ':' in host && host == id + "." + cluster
    ensures ProxySubdomain(host + port, cluster) != Some(id)
  {
  }

  /** The proxy extracts `id` from the host name, with or without a port, exactly if neither the id
      nor the cluster contains a colon. */
  lemma ProxyFindsBackend(id: string, cluster: string, port: string)
    ensures ProxySubdomain(id + "." + cluster, cluster) == Some(id) <==> ':' !in id && ':' !in cluster
    ensures ProxySubdomain(id + "." + cluster + ":" + port, cluster) == Some(id) <==> ':' !in id && ':' !in cluster
  {
    var host := id + "." + cluster;
    assert host == id + ("." + cluster);
    var full := host + ":" + port;
    if ':' in id || ':' in cluster {
      assert ':' in host;
      ColonCutsShort(host, "", id, cluster);
      ColonCutsShort(host, ":" + port, id, cluster);
      assert host + "" == host;
      assert host + (":" + port) == full;
    } else {
      assert ':' !in host;
      SplitOnceIs(host, ':', port);
    }
  }

  /** Agreement: a dot-free subdomain that the proxy extracts from a host header is, in lower case,
      the name the DNS server looks up for that host. */
  lemma ProxyAgreesWithDns(host: string, cluster: string, id: string)
    requires Lower(cluster) == cluster && !EndsInDot(cluster)
    requires ProxySubdomain(host, cluster) == Some(id) && '.' !in id
    ensures DnsLookupKey(WithoutPort(host)) == Some((Lower(id), cluster))
  {
    assert WithoutPort(host) == id + ("." + cluster) == id + "." + cluster;
    DnsLookupOf(id, cluster);
  }

  // ---- SOA mailbox names ------------------------------------------------------------------

  /** The dots of a local part, quoted. */
  function Escape(s: string): string {
    if s == "" then "" else (if s[0] == '.' then "\\." else [s[0]]) + Escape(s[1..])
  }

  function FormatRname(email: string): (r: Option<string>)
    ensures r.None? <==> '@' !in email
  {
    match SplitOnce(email, '@')
    case None => None
    case Some((local, domain)) => Some(Escape(local) + "." + domain)
  }

  /** The same text, character by character. */
  function Rname(local: string, domain: string): string {
    if local == "" then "." + domain
    else (if local[0] == '.' then "\\." else [local[0]]) + Rname(local[1..], domain)
  }

  lemma {:induction false} RnameIs(local: string, domain: string)
    ensures Escape(local) + "." + domain == Rname(local, domain)
  {
    if local != "" {
      RnameIs(local[1..], domain);
      var head := if local[0] == '.' then "\\." else [local[0]];
      assert Escape(local) + "." + domain == head + (Escape(local[1..]) + "." + domain);
    }
  }

  datatype Mailbox = Mailbox(local: string, domain: string)

  function Quote(c: char, m: Mailbox): Mailbox {
    m.(local := [c] + m.local)
  }

  /** Reads a mailbox name back (sections 3.3.13, 5.1 and 8 of RFC 1035): the first label up to an
      unquoted dot, with quoted characters taken literally, and the rest. */
  function ReadRname(s: string): Mailbox {
    if s == "" then Mailbox("", "")
    else if s[0] == '.' then Mailbox("", s[1..])
    else if s[0] == '\\' && |s| > 1 then Quote(s[1], ReadRname(s[2..]))
    else Quote(s[0], ReadRname(s[1..]))
  }

  lemma ReadTwo(a: char, b: char, rest: string)
    ensures ReadRname([a, b] + rest) ==
            if a == '.' then Mailbox("", [b] + rest)
            else if a == '\\' then Quote(b, ReadRname(rest))
            else Quote(a, ReadRname([b] + rest))
  {
    assert ([a, b] + rest)[2..] == rest && ([a, b] + rest)[1..] == [b] + rest;
  }

  lemma ReadOne(a: char, rest: string)
    requires a != '\\'
    ensures ReadRname([a] + rest) == if a == '.' then Mailbox("", rest) else Quote(a, ReadRname(rest))
  {
    assert ([a] + rest)[1..] == rest;
  }

  /** How a mailbox name is read back, by the first characters of the local part. */
  lemma ReadBack(local: string, domain: string)
    ensures
      var read := ReadRname(Rname(local, domain));
      if local == "" then read == Mailbox("", domain)
      else if local[0] != '\\' then read == Quote(local[0], ReadRname(Rname(local[1..], domain)))
      else if |local| == 1 then read == Quote('.', ReadRname(domain))
      else if local[1] == '.' then read.local == "\\"
      else read == Quote(local[1], ReadRname(Rname(local[2..], domain)))
  {
    if local == "" {
      ReadOne('.', domain);
    } else {
      var rest := Rname(local[1..], domain);
      if local[0] == '.' {
        assert Rname(local, domain) == ['\\', '.'] + rest;
        ReadTwo('\\', '.', rest);
      } else if local[0] != '\\' {
        ReadOne(local[0], rest);
      } else if |local| == 1 {
        assert Rname(local, domain) == ['\\', '.'] + domain;
        ReadTwo('\\', '.', domain);
      } else if local[1] == '.' {
        var after := Rname(local[2..], domain);
        assert Rname(local, domain) == ['\\', '\\'] + (['.'] + after);
        ReadTwo('\\', '\\', ['.'] + after);
        ReadOne('.', after);
      } else {
        var after := Rname(local[2..], domain);
        assert Rname(local, domain) == ['\\', local[1]] + after;
        ReadTwo('\\', local[1], after);
      }
    }
  }

  function Backslashes(n: nat): (s: string)
    ensures |s| == n
  {
    if n == 0 then "" else "\\" + Backslashes(n - 1)
  }

  lemma {:induction false} BackslashesShift(n: nat, s: string)
    ensures Backslashes(n) + ("\\" + s) == Backslashes(n + 1) + s
  {
    if n > 0 {
      BackslashesShift(n - 1, s);
      assert Backslashes(n) + ("\\" + s) == "\\" + (Backslashes(n - 1) + ("\\" + s));
      assert Backslashes(n + 1) + s == "\\" + (Backslashes(n) + s);
    } else {
      assert Backslashes(1) == "\\";
    }
  }

  /** Once a backslash has been read as a quote, reading never catches up: what is read of `local`
      is not `local` behind one or more backslashes. */
  lemma {:induction false} NeverCatchesUp(local: string, domain: string, ahead: nat)
    requires ahead > 0
    ensures ReadRname(Rname(local, domain)).local != Backslashes(ahead) + local
    decreases |local|
  {
    ReadBack(local, domain);
    var wanted := Backslashes(ahead) + local;
    assert wanted == "\\" + (Backslashes(ahead - 1) + local) && wanted[0] == '\\';
    if |local| > 1 && local[0] == '\\' && local[1] == '\\' {
      NeverCatchesUp(local[2..], domain, ahead + 1);
      assert local == "\\" + ("\\" + local[2..]);
      BackslashesShift(ahead - 1, "\\" + local[2..]);
      BackslashesShift(ahead, local[2..]);
      assert wanted[1..] == Backslashes(ahead + 1) + local[2..];
      var read := ReadRname(Rname(local, domain)).local;
      assert read[1..] == ReadRname(Rname(local[2..], domain)).local;
    }
  }

  /** Round trip: a formatted mailbox name reads back as local part and domain if, and only if, the
      local part contains no backslash. */
  lemma {:induction false} RnameRoundTrip(local: string, domain: string)
    ensures ReadRname(Rname(local, domain)) == Mailbox(local, domain) <==> '\\' !in local
  {
    ReadBack(local, domain);
    if local != "" && local[0] != '\\' {
      RnameRoundTrip(local[1..], domain);
      assert local == [local[0]] + local[1..];
    } else if |local| > 1 && local[1] == '\\' {
      NeverCatchesUp(local[2..], domain, 1);
      assert Backslashes(1) == "\\";
      assert local[1..] == "\\" + local[2..];
    }
  }

  /** Quoting adds one character for every dot. */
  lemma {:induction false} EscapeLength(s: string)
    ensures |Escape(s)| == |s| + multiset(s)['.']
  {
    if s != "" {
      EscapeLength(s[1..]);
      assert s == [s[0]] + s[1..];
      assert multiset(s) == multiset{s[0]} + multiset(s[1..]);
    }
  }

  /** So no two addresses without backslashes in their local parts share a mailbox name, and each can
      be recovered from it; and nothing is quoted but the dots of the local part. */
  lemma RnameRecovers(local: string, domain: string)
    requires '@' !in local && '\\' !in local
    ensures FormatRname(local + "@" + domain).Some?
    ensures ReadRname(FormatRname(local + "@" + domain).value) == Mailbox(local, domain)
    ensures |FormatRname(local + "@" + domain).value| == |local| + 1 + |domain| + multiset(local)['.']
  {
    SplitOnceIs(local, '@', domain);
    RnameIs(local, domain);
    RnameRoundTrip(local, domain);
    EscapeLength(local);
  }
}
