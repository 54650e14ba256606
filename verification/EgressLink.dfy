/**
 Reading the credentials that proxy vendors hand out without a scheme
 (internal/api/egresslink.go), and how far that inverts the shapes the vendors print:

   host:port and [IPv6]:port             always
   user:pass@host:port, or @[IPv6]:port  if the user has no colon
   host:port:user:pass                   if there is also no at sign in user or password
   user:pass:host:port                   if, besides, the user does not start with a bracket and
                                         no port can stand in the second field, unless the line
                                         only repeats host and port

 A line with an at sign is split at its last one; otherwise an opening bracket decides, and
 then the number of colons.
 */
module EgressLink {
  import opened Wrappers
  import opened Text

  /** http: the type guessed from the port, socks otherwise. */
  datatype Egress = Egress(host: string, port: int, user: string, pass: string, http: bool)

  const HTTP_PORTS := {80, 8080, 3128, 8888, 8118}

  // ---------------------------------------------------------------- splitting strings

  /** The first c in s; the length of s if there is none. */
  function Index(s: string, c: char): (i: nat)
    ensures i <= |s| && (i < |s| ==> s[i] == c) && forall j :: 0 <= j < i ==> s[j] != c
    ensures i == |s| <==> c !in s
  {
    if s == "" then 0 else if s[0] == c then 0 else
      assert s == [s[0]] + s[1..];
      1 + Index(s[1..], c)
  }

  /** The last c in s; -1 if there is none. */
  function LastIndex(s: string, c: char): (i: int)
    ensures -1 <= i < |s| && (i >= 0 ==> s[i] == c) && forall j :: i < j < |s| ==> s[j] != c
  {
    if s == "" then -1 else if s[|s| - 1] == c then |s| - 1 else LastIndex(s[..|s| - 1], c)
  }

  function Split(s: string): (parts: seq<string>)
    ensures parts != []
  {
    if s == "" then [""]
    else
      var rest := Split(s[1..]);
      if s[0] == ':' then [""] + rest else [[s[0]] + rest[0]] + rest[1..]
  }

  function Join(parts: seq<string>): string {
    if parts == [] then "" else if |parts| == 1 then parts[0] else parts[0] + ":" + Join(parts[1..])
  }

  lemma {:induction false} SplitJoined(a: string, b: string)
    ensures Split(a + ":" + b) == Split(a) + Split(b)
    decreases |a|
  {
    var s := a + ":" + b;
    if a == "" {
      assert s[0] == ':' && s[1..] == b;
    } else {
      assert s[0] == a[0] && s[1..] == a[1..] + ":" + b;
      SplitJoined(a[1..], b);
      PartsJoin([a[0]], Split(a[1..]), Split(b));
    }
  }

  lemma PartsJoin(c: string, x: seq<string>, y: seq<string>)
    requires x != []
    ensures (x + y)[0] == x[0] && [c + x[0]] + (x + y)[1..] == ([c + x[0]] + x[1..]) + y
    ensures [""] + (x + y) == ([""] + x) + y
  {}

  lemma {:induction false} SplitPlain(s: string)
    requires ':' !in s
    ensures Split(s) == [s]
  {
    if s != "" {
      SplitPlain(s[1..]);
      assert [s[0]] + s[1..] == s;
    }
  }

  lemma {:induction false} JoinOfSplit(s: string)
    ensures Join(Split(s)) == s
  {
    if s != "" {
      var rest := Split(s[1..]);
      JoinOfSplit(s[1..]);
      if s[0] == ':' {
        assert ([""] + rest)[1..] == rest;
        assert s == "" + ":" + s[1..];
      } else {
        JoinHead([s[0]], rest);
        assert s == [s[0]] + s[1..];
      }
    }
  }

  lemma JoinHead(c: string, rest: seq<string>)
    requires rest != []
    ensures Join([c + rest[0]] + rest[1..]) == c + Join(rest)
  {}

  lemma IndexOfJoined(a: string, c: char, b: string)
    requires c !in a
    ensures Index(a + [c] + b, c) == |a|
  {
    var s := a + [c] + b;
    assert s[|a|] == c;
    assert forall j :: 0 <= j < |a| ==> s[j] == a[j];
  }

  lemma NotInJoined(c: char, a: string, b: string)
    requires c != ':' && c !in a && c !in b
    ensures c !in a + ":" + b
  {}

  // ---------------------------------------------------------------- ports and addresses

  /** strconv.Atoi, then the range test: an optional sign, digits, 1 to 65535. */
  function Port(s: string): (p: Option<int>)
    ensures p.Some? ==> 0 < p.value <= 65535
  {
    var digits := if s != "" && (s[0] == '+' || s[0] == '-') then s[1..] else s;
    if digits == "" || !AllDigits(digits) then None
    else
      var v: int := if s[0] == '-' then -(Value(digits) as int) else Value(digits);
      if 0 < v <= 65535 then Some(v) else None
  }

  lemma DigitsArePlain(s: string)
    requires s != "" && AllDigits(s)
    ensures ':' !in s && '@' !in s && '[' !in s && ']' !in s && Trimmed(s)
  {
    assert IsDigit(s[0]) && IsDigit(s[|s| - 1]);
  }

  lemma PortOfDecimal(p: nat)
    requires 0 < p <= 65535
    ensures Port(Decimal(p)) == Some(p) && ':' !in Decimal(p) && '@' !in Decimal(p) && '[' !in Decimal(p)
        && ']' !in Decimal(p)
    ensures TrimSpace(Decimal(p)) == Decimal(p)
  {
    ValueOfDecimal(p);
    DigitsArePlain(Decimal(p));
    TrimmedStays(Decimal(p));
  }

  /** net.SplitHostPort. */
  function SplitHostPort(hp: string): Option<(string, string)> {
    var i := LastIndex(hp, ':');
    if i < 0 then None
    else if hp[0] == '[' then
      var end := Index(hp, ']');
      if end == |hp| || end + 1 != i then None
      else if '[' in hp[1..] || ']' in hp[end + 1..] then None
      else Some((hp[1..end], hp[i + 1..]))
    else if ':' in hp[..i] || '[' in hp || ']' in hp then None
    else Some((hp[..i], hp[i + 1..]))
  }

  function SplitHostPortStrict(hp: string): Option<(string, int)> {
    var parts := SplitHostPort(hp);
    if parts.None? then None
    else
      var host, port := TrimSpace(parts.value.0), Port(TrimSpace(parts.value.1));
      if host == "" || port.None? then None else Some((host, port.value))
  }

  // ---------------------------------------------------------------- the shapes without a scheme

  function Guess(host: string, port: int, user: string, pass: string): Option<Egress> {
    if host == "" then None else Some(Egress(host, port, user, pass, port in HTTP_PORTS))
  }

  function ParseBare(s: string): Option<Egress> {
    if '@' in s then
      var at := LastIndex(s, '@');
      var cred, addr := s[..at], SplitHostPortStrict(s[at + 1..]);
      var i := Index(cred, ':');
      if addr.None? then None
      else if i < |cred| then Guess(addr.value.0, addr.value.1, cred[..i], cred[i + 1..])
      else Guess(addr.value.0, addr.value.1, cred, "")
    else if s != "" && s[0] == '[' then
      var addr := SplitHostPortStrict(s);
      if addr.None? then None else Guess(addr.value.0, addr.value.1, "", "")
    else
      var parts := Split(s);
      if |parts| == 2 then
        var addr := SplitHostPortStrict(s);
        if addr.None? then None else Guess(addr.value.0, addr.value.1, "", "")
      else if |parts| >= 4 then FromParts(parts)
      else None
  }

  /** Which end holds the port: the leading pair is tried first. */
  function FromParts(parts: seq<string>): Option<Egress>
    requires |parts| >= 4
  {
    var n := |parts|;
    if Port(parts[1]).Some? then Guess(parts[0], Port(parts[1]).value, parts[2], Join(parts[3..]))
    else if Port(parts[n - 1]).Some? then Guess(parts[n - 2], Port(parts[n - 1]).value, parts[0], Join(parts[1..n - 2]))
    else None
  }

  // ---------------------------------------------------------------- round trips

  /** A host name or IPv4 address, as printed. */
  predicate PlainHost(h: string) { Trimmed(h) && ':' !in h && '@' !in h && '[' !in h && ']' !in h }

  predicate InRange(p: nat) { 0 < p <= 65535 }

  lemma AddressSplits(host: string, d: string)
    requires PlainHost(host) && ':' !in d && '[' !in d && ']' !in d
    ensures SplitHostPort(host + ":" + d) == Some((host, d))
  {
    var hp := host + ":" + d;
    assert hp[|host|] == ':' && hp[|host| + 1..] == d && hp[..|host|] == host && hp[0] == host[0];
    assert forall j :: |host| < j < |hp| ==> hp[j] == d[j - |host| - 1];
    assert LastIndex(hp, ':') == |host|;
  }

  lemma StrictReads(hp: string, host: string, port: nat)
    requires Trimmed(host) && InRange(port) && SplitHostPort(hp) == Some((host, Decimal(port)))
    ensures SplitHostPortStrict(hp) == Some((host, port))
  {
    PortOfDecimal(port);
    TrimmedStays(host);
  }

  lemma AddressReads(host: string, port: nat)
    requires PlainHost(host) && InRange(port)
    ensures SplitHostPortStrict(host + ":" + Decimal(port)) == Some((host, port))
  {
    DigitsArePlain(Decimal(port));
    AddressSplits(host, Decimal(port));
    StrictReads(host + ":" + Decimal(port), host, port);
  }

  lemma LastAt(cred: string, addr: string)
    requires '@' !in addr
    ensures var s := cred + "@" + addr;
            LastIndex(s, '@') == |cred| && s[..|cred|] == cred && s[|cred| + 1..] == addr
  {
    var s := cred + "@" + addr;
    assert s[|cred|] == '@';
    assert forall j :: |cred| < j < |s| ==> s[j] == addr[j - |cred| - 1];
  }

  lemma CredentialsSplit(user: string, pass: string)
    requires ':' !in user
    ensures var cred := user + ":" + pass;
            Index(cred, ':') == |user| < |cred| && cred[..|user|] == user && cred[|user| + 1..] == pass
  {
    IndexOfJoined(user, ':', pass);
  }

  lemma AtReads(user: string, pass: string, addr: string, host: string, port: int)
    requires ':' !in user && '@' !in addr && host != "" && SplitHostPortStrict(addr) == Some((host, port))
    ensures ParseBare(user + ":" + pass + "@" + addr) == Some(Egress(host, port, user, pass, port in HTTP_PORTS))
  {
    var cred := user + ":" + pass;
    LastAt(cred, addr);
    assert (cred + "@" + addr)[|cred|] == '@';
    CredentialsSplit(user, pass);
  }

  lemma FirstColon(user: string, pass: string)
    requires ':' in user
    ensures Index(user + ":" + pass, ':') < |user|
  {
    var i :| 0 <= i < |user| && user[i] == ':';
    assert (user + ":" + pass)[i] == ':';
  }

  lemma AtReadsIff(user: string, pass: string, addr: string, host: string, port: int)
    requires '@' !in addr && host != "" && SplitHostPortStrict(addr) == Some((host, port))
    ensures ParseBare(user + ":" + pass + "@" + addr) == Some(Egress(host, port, user, pass, port in HTTP_PORTS))
            <==> ':' !in user
  {
    if ':' !in user {
      AtReads(user, pass, addr, host, port);
    } else {
      var cred := user + ":" + pass;
      LastAt(cred, addr);
      assert (cred + "@" + addr)[|cred|] == '@';
      FirstColon(user, pass);
    }
  }

  /** user:pass@host:port, exactly if the user has no colon; the password may hold colons and at signs. */
  lemma AtFormIff(user: string, pass: string, host: string, port: nat)
    requires PlainHost(host) && InRange(port)
    ensures ParseBare(user + ":" + pass + "@" + (host + ":" + Decimal(port)))
            == Some(Egress(host, port, user, pass, port in HTTP_PORTS))
            <==> ':' !in user
  {
    PortOfDecimal(port);
    AddressReads(host, port);
    NotInJoined('@', host, Decimal(port));
    AtReadsIff(user, pass, host + ":" + Decimal(port), host, port);
  }

  /** A field without an at sign or a colon. */
  predicate Field(s: string) { ':' !in s && '@' !in s }

  /** No at sign, and not the start of an IPv6 literal: the colons decide. */
  predicate Vendor(s: string) { '@' !in s && s != "" && s[0] != '[' }

  /** The printed form host:port:user:pass. */
  function Leading(host: string, port: nat, user: string, pass: string): string {
    host + ":" + (Decimal(port) + ":" + (user + ":" + pass))
  }

  lemma VendorForm(a: string, b: string)
    requires '@' !in a && (a == "" || a[0] != '[') && '@' !in b
    ensures Vendor(a + ":" + b)
  {}

  lemma LeadingIsVendor(host: string, port: nat, user: string, pass: string)
    requires PlainHost(host) && InRange(port) && Field(user) && '@' !in pass
    ensures Vendor(Leading(host, port, user, pass))
  {}

  lemma SplitThree(a: string, b: string, c: string, rest: string)
    requires ':' !in a && ':' !in b && ':' !in c
    ensures Split(a + ":" + (b + ":" + (c + ":" + rest))) == [a] + ([b] + ([c] + Split(rest)))
  {
    SplitPlain(a);
    SplitPlain(b);
    SplitPlain(c);
    SplitJoined(c, rest);
    SplitJoined(b, c + ":" + rest);
    SplitJoined(a, b + ":" + (c + ":" + rest));
  }

  lemma LeadingParts(host: string, port: nat, user: string, pass: string)
    requires PlainHost(host) && InRange(port) && Field(user) && '@' !in pass
    ensures Vendor(Leading(host, port, user, pass))
    ensures Split(Leading(host, port, user, pass)) == [host] + ([Decimal(port)] + ([user] + Split(pass)))
  {
    PortOfDecimal(port);
    SplitThree(host, Decimal(port), user, pass);
    LeadingIsVendor(host, port, user, pass);
  }

  lemma LeadingReads(host: string, port: nat, user: string, pass: string)
    requires PlainHost(host) && InRange(port) && Field(user) && '@' !in pass
    ensures ParseBare(Leading(host, port, user, pass)) == Some(Egress(host, port, user, pass, port in HTTP_PORTS))
  {
    LeadingParts(host, port, user, pass);
    PortOfDecimal(port);
    var parts := [host] + ([Decimal(port)] + ([user] + Split(pass)));
    assert parts[3..] == Split(pass);
    JoinOfSplit(pass);
  }

  /** How many at signs. */
  function Ats(s: string): nat { if s == "" then 0 else (if s[0] == '@' then 1 else 0) + Ats(s[1..]) }

  lemma {:induction false} AtsJoin(a: string, b: string)
    ensures Ats(a + b) == Ats(a) + Ats(b)
  {
    if a == "" {
      assert a + b == b;
    } else {
      assert (a + b)[1..] == a[1..] + b;
      AtsJoin(a[1..], b);
    }
  }

  lemma {:induction false} NoAts(s: string)
    requires '@' !in s
    ensures Ats(s) == 0
  {
    if s != "" {
      NoAts(s[1..]);
    }
  }

  /** A text with an at sign, divided at the last one. */
  lemma DivideAtLast(s: string) returns (before: string, after: string)
    requires '@' in s
    ensures s == before + "@" + after && '@' !in after
  {
    var k := LastIndex(s, '@');
    before, after := s[..k], s[k + 1..];
    assert forall j :: 0 <= j < |after| ==> after[j] == s[k + 1 + j];
  }

  lemma AtsAround(before: string, after: string)
    requires '@' !in after
    ensures Ats(before + "@" + after) == Ats(before) + 1
  {
    AtsJoin(before, "@" + after);
    assert before + ("@" + after) == before + "@" + after && ("@" + after)[1..] == after;
    NoAts(after);
  }

  lemma AtCredentials(user: string, pass: string, addr: string)
    requires ':' !in user && '@' !in addr
    ensures var e := ParseBare(user + ":" + pass + "@" + addr); e.Some? ==> e.value.user == user && e.value.pass == pass
  {
    var cred := user + ":" + pass;
    LastAt(cred, addr);
    assert (cred + "@" + addr)[|cred|] == '@';
    CredentialsSplit(user, pass);
  }

  /** The credentials found begin with the host, and lack one at sign of those printed. */
  lemma LeadingAtIsCredentials(host: string, rest: string)
    requires ':' !in host && '@' in rest
    ensures var e := ParseBare(host + ":" + rest);
            e.Some? ==> e.value.user == host && Ats(e.value.pass) + 1 == Ats(rest)
  {
    var before, after := DivideAtLast(rest);
    assert host + ":" + rest == host + ":" + before + "@" + after;
    AtCredentials(host, before, after);
    AtsAround(before, after);
  }

  lemma AtsOfFields(d: string, user: string, pass: string)
    requires '@' !in d && '@' !in user
    ensures Ats(d + ":" + (user + ":" + pass)) == Ats(pass)
  {
    var front := d + ":" + (user + ":");
    assert d + ":" + (user + ":" + pass) == front + pass;
    NoAts(front);
    AtsJoin(front, pass);
  }

  lemma LeadingAtMisreads(host: string, port: nat, user: string, pass: string)
    requires PlainHost(host) && InRange(port) && ('@' in user || '@' in pass)
    ensures ParseBare(Leading(host, port, user, pass)) != Some(Egress(host, port, user, pass, port in HTTP_PORTS))
  {
    var rest := Decimal(port) + ":" + (user + ":" + pass);
    PortOfDecimal(port);
    assert '@' in rest;
    LeadingAtIsCredentials(host, rest);
    if '@' !in user {
      AtsOfFields(Decimal(port), user, pass);
    }
  }

  /** A line without an at sign never gives a user with a colon, and one that starts with a bracket gives none. */
  lemma VendorUser(s: string)
    requires '@' !in s && ParseBare(s).Some?
    ensures ':' !in ParseBare(s).value.user && (s != "" && s[0] == '[' ==> ParseBare(s).value.user == "")
  {
    FieldsHoldNoColon(s);
  }

  lemma LeadingHasNoAt(host: string, port: nat, user: string, pass: string)
    requires PlainHost(host) && InRange(port) && '@' !in user && '@' !in pass
    ensures '@' !in Leading(host, port, user, pass)
  {
    PortOfDecimal(port);
  }

  /**
   host:port:user:pass reads back exactly if the user has neither colon nor at sign, and the
   password no at sign; it may hold colons.
   */
  lemma LeadingFormIff(host: string, port: nat, user: string, pass: string)
    requires PlainHost(host) && InRange(port)
    ensures ParseBare(Leading(host, port, user, pass)) == Some(Egress(host, port, user, pass, port in HTTP_PORTS))
            <==> Field(user) && '@' !in pass
  {
    if '@' in user || '@' in pass {
      LeadingAtMisreads(host, port, user, pass);
    } else if ':' in user {
      LeadingHasNoAt(host, port, user, pass);
      if ParseBare(Leading(host, port, user, pass)).Some? {
        VendorUser(Leading(host, port, user, pass));
      }
    } else {
      LeadingReads(host, port, user, pass);
    }
  }

  lemma LeadingWithAt(host: string, d: string, user: string, a: string, b: string)
    ensures host + ":" + (d + ":" + (user + ":" + (a + "@" + b))) == host + ":" + (d + ":" + (user + ":" + a)) + "@" + b
  {}

  /** An at sign in the password can redirect the row: what stands behind it is taken for host and port. */
  lemma LeadingRedirected(host: string, port: nat, user: string, a: string, other: string, p: nat)
    requires PlainHost(host) && InRange(port) && PlainHost(other) && InRange(p)
    ensures ParseBare(Leading(host, port, user, a + "@" + (other + ":" + Decimal(p))))
            == Some(Egress(other, p, host, Decimal(port) + ":" + (user + ":" + a), p in HTTP_PORTS))
  {
    AtFormIff(host, Decimal(port) + ":" + (user + ":" + a), other, p);
    LeadingWithAt(host, Decimal(port), user, a, other + ":" + Decimal(p));
  }

  /** The printed form user:pass:host:port. */
  function Trailing(user: string, pass: string, host: string, port: nat): string {
    user + ":" + (pass + ":" + host + ":" + Decimal(port))
  }

  predicate User(s: string) { Field(s) && (s == "" || s[0] != '[') }

  lemma TrailingParts(user: string, pass: string, host: string, port: nat)
    requires User(user) && '@' !in pass && PlainHost(host) && InRange(port)
    ensures Vendor(Trailing(user, pass, host, port))
    ensures Split(Trailing(user, pass, host, port)) == [user] + (Split(pass) + [host] + [Decimal(port)])
  {
    PortOfDecimal(port);
    var d, most := Decimal(port), pass + ":" + host;
    SplitPlain(host);
    SplitPlain(d);
    SplitPlain(user);
    SplitJoined(pass, host);
    SplitJoined(most, d);
    SplitJoined(user, most + ":" + d);
    NotInJoined('@', pass, host);
    NotInJoined('@', most, d);
    VendorForm(user, most + ":" + d);
  }

  lemma MiddleOf(a: string, middle: seq<string>, b: string, c: string)
    ensures var parts, n := [a] + (middle + [b] + [c]), |middle| + 3;
            && |parts| == n && parts[0] == a && parts[n - 2] == b && parts[n - 1] == c && parts[1..n - 2] == middle
            && (middle != [] ==> parts[1] == middle[0])
  {}

  lemma FromTrailingParts(parts: seq<string>, host: string, port: int)
    requires |parts| >= 4 && Port(parts[1]).None? && Port(parts[|parts| - 1]) == Some(port)
        && parts[|parts| - 2] == host
    ensures FromParts(parts) == Guess(host, port, parts[0], Join(parts[1..|parts| - 2]))
  {}

  lemma TrailingReads(user: string, pass: string, host: string, port: nat)
    requires User(user) && '@' !in pass && PlainHost(host) && InRange(port)
    requires Port(Split(pass)[0]).None?
    ensures ParseBare(Trailing(user, pass, host, port)) == Some(Egress(host, port, user, pass, port in HTTP_PORTS))
  {
    TrailingParts(user, pass, host, port);
    PortOfDecimal(port);
    MiddleOf(user, Split(pass), host, Decimal(port));
    FromTrailingParts(Split(Trailing(user, pass, host, port)), host, port);
    JoinOfSplit(pass);
  }

  /** The fields say host, port, host, port and so on: the line reads the same from both ends. */
  predicate Alternates(parts: seq<string>, host: string, port: string) {
    forall j :: 0 <= j < |parts| ==> parts[j] == if j % 2 == 0 then host else port
  }

  /** Read as host:port:user:pass, the fields give what was meant: a first, b before the last, c last. */
  predicate ReadsAlike(parts: seq<string>, b: string, c: string)
    requires |parts| >= 4
  {
    && parts[0] == b && parts[2] == b && parts[3..] == parts[1..|parts| - 2]
    && parts[|parts| - 2] == b && parts[|parts| - 1] == c
  }

  lemma {:induction false} EveryOther(parts: seq<string>, j: nat)
    requires j < |parts| && |parts| >= 2 && forall i :: 0 <= i < |parts| - 2 ==> parts[i] == parts[i + 2]
    ensures parts[j] == parts[j % 2]
  {
    if j >= 2 {
      EveryOther(parts, j - 2);
    }
  }

  lemma AlikeIffAlternates(parts: seq<string>, b: string, c: string)
    requires |parts| >= 4 && parts[|parts| - 2] == b && parts[|parts| - 1] == c
    ensures ReadsAlike(parts, b, c) <==> Alternates(parts, b, c)
  {
    var n := |parts|;
    if ReadsAlike(parts, b, c) {
      forall i | 0 <= i < n - 2
        ensures parts[i] == parts[i + 2]
      {
        if i > 0 {
          assert parts[3..][i - 1] == parts[1..n - 2][i - 1];
        }
      }
      EveryOther(parts, n - 1);
      EveryOther(parts, n - 2);
      forall j | 0 <= j < n
        ensures parts[j] == if j % 2 == 0 then b else c
      {
        EveryOther(parts, j);
      }
    }
  }

  lemma {:induction false} FieldsHoldNoColon(s: string)
    ensures forall f :: f in Split(s) ==> ':' !in f
  {
    if s != "" {
      FieldsHoldNoColon(s[1..]);
    }
  }

  lemma {:induction false} SplitOfJoin(parts: seq<string>)
    requires parts != [] && forall f :: f in parts ==> ':' !in f
    ensures Split(Join(parts)) == parts
  {
    SplitPlain(parts[0]);
    if |parts| > 1 {
      SplitOfJoin(parts[1..]);
      SplitJoined(parts[0], Join(parts[1..]));
      assert parts == [parts[0]] + parts[1..];
    } else {
      assert parts == [parts[0]];
    }
  }

  /** The rest of the line is the password exactly if it has the password's fields. */
  lemma JoinIffFields(fields: seq<string>, s: string)
    requires fields != [] && forall f :: f in fields ==> ':' !in f
    ensures Join(fields) == s <==> fields == Split(s)
  {
    JoinOfSplit(s);
    SplitOfJoin(fields);
  }

  lemma TrailingFields(user: string, pass: string, host: string, port: nat)
    requires User(user) && '@' !in pass && PlainHost(host) && InRange(port)
    ensures var parts := Split(Trailing(user, pass, host, port));
            && Vendor(Trailing(user, pass, host, port))
            && |parts| >= 4 && parts[1] == Split(pass)[0] && parts[1..|parts| - 2] == Split(pass)
            && parts[0] == user && parts[|parts| - 2] == host && parts[|parts| - 1] == Decimal(port)
            && (Join(parts[3..]) == pass <==> parts[3..] == parts[1..|parts| - 2])
  {
    var line := Trailing(user, pass, host, port);
    TrailingParts(user, pass, host, port);
    MiddleOf(user, Split(pass), host, Decimal(port));
    FieldsHoldNoColon(line);
    JoinIffFields(Split(line)[3..], pass);
  }

  /** Read as host:port:user:pass. */
  lemma FromLeadingParts(parts: seq<string>, host: string, port: int, pass: string)
    requires |parts| >= 4 && Port(parts[1]).Some? && host != ""
    ensures FromParts(parts) == Some(Egress(host, port, parts[0], pass, port in HTTP_PORTS))
            <==> parts[0] == host && Port(parts[1]) == Some(port) && parts[2] == host && Join(parts[3..]) == pass
  {}

  lemma MisreadIff(parts: seq<string>, host: string, port: nat, pass: string)
    requires |parts| >= 4 && Port(parts[1]).Some? && host != "" && InRange(port)
    requires parts[|parts| - 2] == host && parts[|parts| - 1] == Decimal(port)
    requires Join(parts[3..]) == pass <==> parts[3..] == parts[1..|parts| - 2]
    ensures FromParts(parts) == Some(Egress(host, port, parts[0], pass, port in HTTP_PORTS))
            <==> Alternates(parts, host, Decimal(port))
  {
    FromLeadingParts(parts, host, port, pass);
    AlikeIffAlternates(parts, host, Decimal(port));
    PortOfDecimal(port);
  }

  lemma VendorReads(s: string)
    requires Vendor(s) && |Split(s)| >= 4
    ensures ParseBare(s) == FromParts(Split(s))
  {}

  lemma TrailingReadsIff(user: string, pass: string, host: string, port: nat)
    requires User(user) && '@' !in pass && PlainHost(host) && InRange(port)
    ensures ParseBare(Trailing(user, pass, host, port)) == Some(Egress(host, port, user, pass, port in HTTP_PORTS))
            <==> Port(Split(pass)[0]).None? || Alternates(Split(Trailing(user, pass, host, port)), host, Decimal(port))
  {
    if Port(Split(pass)[0]).None? {
      TrailingReads(user, pass, host, port);
    } else {
      TrailingFields(user, pass, host, port);
      VendorReads(Trailing(user, pass, host, port));
      MisreadIff(Split(Trailing(user, pass, host, port)), host, port, pass);
    }
  }

  lemma TwoColonsRefused(x: string, host: string, d: string)
    requires PlainHost(host) && ':' !in d
    ensures SplitHostPort(x + ":" + host + ":" + d) == None
  {
    var hp, i := x + ":" + host + ":" + d, |x| + 1 + |host|;
    assert hp[i] == ':' && hp[|x|] == ':' && hp[i - 1] == host[|host| - 1];
    assert forall j :: i < j < |hp| ==> hp[j] == d[j - i - 1];
    assert LastIndex(hp, ':') == i;
    assert hp[..i][|x|] == ':';
  }

  lemma TrailingWithAt(user: string, pass: string, host: string, d: string, before: string, after: string)
    requires user + ":" + pass == before + "@" + after
    ensures user + ":" + (pass + ":" + host + ":" + d) == before + "@" + (after + ":" + host + ":" + d)
  {
    var tail := ":" + host + ":" + d;
    assert user + ":" + (pass + ":" + host + ":" + d) == (user + ":" + pass) + tail;
    assert before + "@" + (after + ":" + host + ":" + d) == (before + "@" + after) + tail;
  }

  /** An at sign in the user or the password: what stands behind it is no address, and the line is refused. */
  lemma AtInTrailingIsRefused(user: string, pass: string, host: string, port: nat)
    requires PlainHost(host) && InRange(port) && ('@' in user || '@' in pass)
    ensures ParseBare(Trailing(user, pass, host, port)) == None
  {
    var d := Decimal(port);
    PortOfDecimal(port);
    var before, after := DivideAtLast(user + ":" + pass);
    var addr := after + ":" + host + ":" + d;
    TrailingWithAt(user, pass, host, d, before, after);
    LastAt(before, addr);
    assert (before + "@" + addr)[|before|] == '@';
    TwoColonsRefused(after, host, d);
  }

  lemma TrailingStart(user: string, pass: string, host: string, port: nat)
    requires PlainHost(host) && InRange(port) && '@' !in user && '@' !in pass
    ensures '@' !in Trailing(user, pass, host, port)
    ensures user != "" ==> Trailing(user, pass, host, port)[0] == user[0]
  {
    PortOfDecimal(port);
  }

  /**
   user:pass:host:port reads back exactly if there is no at sign in user or password, no colon
   in the user nor a bracket at its start, and no port can stand in the second field, unless
   the line only repeats host and port. The password may hold colons; its first field decides.
   */
  lemma TrailingFormIff(user: string, pass: string, host: string, port: nat)
    requires PlainHost(host) && InRange(port)
    ensures ParseBare(Trailing(user, pass, host, port)) == Some(Egress(host, port, user, pass, port in HTTP_PORTS))
            <==> User(user) && '@' !in pass && (
                 || Port(Split(pass)[0]).None?
                 || Alternates(Split(Trailing(user, pass, host, port)), host, Decimal(port)))
  {
    if '@' in user || '@' in pass {
      AtInTrailingIsRefused(user, pass, host, port);
    } else if User(user) {
      TrailingReadsIff(user, pass, host, port);
    } else {
      TrailingStart(user, pass, host, port);
      if ParseBare(Trailing(user, pass, host, port)).Some? {
        VendorUser(Trailing(user, pass, host, port));
      }
    }
  }

  /** host:port alone. */
  lemma AddressFormReads(host: string, port: nat)
    requires PlainHost(host) && InRange(port)
    ensures ParseBare(host + ":" + Decimal(port)) == Some(Egress(host, port, "", "", port in HTTP_PORTS))
  {
    PortOfDecimal(port);
    AddressReads(host, port);
    SplitPlain(host);
    SplitPlain(Decimal(port));
    SplitJoined(host, Decimal(port));
    VendorForm(host, Decimal(port));
  }

  // ---------------------------------------------------------------- IPv6 literals

  /** Between brackets, as printed; colons allowed. */
  predicate Literal(h: string) { Trimmed(h) && '@' !in h && '[' !in h && ']' !in h }

  function Bracketed(host: string, port: nat): string { "[" + host + "]" + ":" + Decimal(port) }

  lemma BracketsAt(host: string, d: string)
    requires ']' !in host && ':' !in d
    ensures var hp := "[" + host + "]" + ":" + d; Index(hp, ']') == |host| + 1 && LastIndex(hp, ':') == |host| + 2
  {
    var hp, end := "[" + host + "]" + ":" + d, |host| + 1;
    assert hp[end] == ']' && hp[end + 1] == ':';
    assert forall j :: 1 <= j < end ==> hp[j] == host[j - 1];
    assert forall j :: end + 1 < j < |hp| ==> hp[j] == d[j - end - 2];
  }

  lemma BracketsSplit(host: string, d: string)
    requires '[' !in host && ']' !in host && ':' !in d && '[' !in d && ']' !in d
    ensures SplitHostPort("[" + host + "]" + ":" + d) == Some((host, d))
  {
    var hp, end := "[" + host + "]" + ":" + d, |host| + 1;
    BracketsAt(host, d);
    assert hp[0] == '[' && hp[1..end] == host && hp[end + 2..] == d;
    assert hp[1..] == host + "]" + ":" + d && hp[end + 1..] == ":" + d;
  }

  lemma NoAtInBrackets(host: string, d: string)
    requires '@' !in host && '@' !in d
    ensures '@' !in "[" + host + "]" + ":" + d
  {}

  lemma BracketsRead(host: string, port: nat)
    requires Literal(host) && InRange(port)
    ensures SplitHostPortStrict(Bracketed(host, port)) == Some((host, port)) && '@' !in Bracketed(host, port)
  {
    DigitsArePlain(Decimal(port));
    BracketsSplit(host, Decimal(port));
    StrictReads(Bracketed(host, port), host, port);
    NoAtInBrackets(host, Decimal(port));
  }

  /** [host]:port alone. */
  lemma BracketedFormReads(host: string, port: nat)
    requires Literal(host) && InRange(port)
    ensures ParseBare(Bracketed(host, port)) == Some(Egress(host, port, "", "", port in HTTP_PORTS))
  {
    BracketsRead(host, port);
  }

  /** user:pass@[host]:port. */
  lemma BracketedAtFormIff(user: string, pass: string, host: string, port: nat)
    requires Literal(host) && InRange(port)
    ensures ParseBare(user + ":" + pass + "@" + Bracketed(host, port))
            == Some(Egress(host, port, user, pass, port in HTTP_PORTS))
            <==> ':' !in user
  {
    BracketsRead(host, port);
    AtReadsIff(user, pass, Bracketed(host, port), host, port);
  }
}
