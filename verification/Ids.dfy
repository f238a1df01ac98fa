/** The conventional optional value, and small helpers for maps and sets. */
module Options {
  datatype Option<+T> = None | Some(value: T) {
    function GetOr(default: T): T {
      match this
      case Some(v) => v
      case None => default
    }
  }

  /** `dict.get`: the value at a key, if there is one. */
  function Get<K, V>(m: map<K, V>, k: K): Option<V> {
    if k in m then Some(m[k]) else None
  }

  lemma Element<T>(s: set<T>) returns (x: T)
    requires s != {}
    ensures x in s
  {
    x :| x in s;
  }

  /** The least element of a finite set. */
  function Least(keys: set<int>): (k: int)
    requires keys != {}
    ensures k in keys && forall x <- keys :: k <= x
  {
    HasLeast(keys);
    var k :| k in keys && forall x <- keys :: k <= x;
    k
  }

  lemma {:induction false} HasLeast(keys: set<int>)
    requires keys != {}
    ensures exists k :: k in keys && forall x <- keys :: k <= x
    decreases |keys|
  {
    var x := Element(keys);
    var rest := keys - {x};
    if rest != {} {
      HasLeast(rest);
      var y: int :| y in rest && forall z <- rest :: y <= z;
      var k := if x <= y then x else y;
      forall z <- keys ensures k <= z {
        assert z == x || z in rest;
      }
    } else {
      forall z <- keys ensures x <= z {
        assert z == x || z in rest;
      }
    }
  }

  function Max(x: int, y: int): int {
    if x >= y then x else y
  }

  function Min(x: int, y: int): int {
    if x <= y then x else y
  }
}

/** Identifiers: the parts of user, room and event IDs that the rules look at. */
module Ids {
  import opened Options

  /** `str.find`: the first index of `c` at or after `from`, or -1. */
  function Find(s: string, c: char, from: nat): (i: int)
    ensures -1 <= i < |s|
    ensures i >= 0 ==> from <= i && s[i] == c && forall j :: from <= j < i ==> s[j] != c
    ensures i < 0 ==> forall j :: from <= j < |s| ==> s[j] != c
    decreases |s| - from
  {
    if from >= |s| then -1
    else if s[from] == c then from
    else Find(s, c, from + 1)
  }

  /** Everything after the first colon; an ID without a colon has no domain. */
  function Domain(id: string): Option<string> {
    var i := Find(id, ':', 0);
    if i < 0 then None else Some(id[i + 1..])
  }

  /** What `UserID.from_string` accepts: a sigil and a colon somewhere after it. */
  predicate ParsesAsUserId(s: string) {
    s != "" && s[0] == '@' && Find(s, ':', 1) >= 0
  }

  /** `UserID.is_valid`: parses, and the domain is a host name with an optional port. */
  predicate IsUserId(s: string) {
    ParsesAsUserId(s) && IsServerName(s[Find(s, ':', 1) + 1..])
  }

  predicate IsServerName(s: string) {
    var colon := Find(s, ':', 0);
    if colon < 0 then IsHost(s)
    else IsHost(s[..colon]) && colon + 1 < |s| && forall i :: colon < i < |s| ==> '0' <= s[i] <= '9'
  }

  predicate IsHost(s: string) {
    && s != "" && s[0] != '.' && s[|s| - 1] != '.'
    && (forall c <- s :: '0' <= c <= '9' || 'a' <= c <= 'z' || 'A' <= c <= 'Z' || c == '-' || c == '.')
    && (forall i :: 0 <= i < |s| - 1 ==> !(s[i] == '.' && s[i + 1] == '.'))
  }

  /** Length of the UTF-8 encoding. */
  function Utf8Length(s: string): nat {
    if s == "" then 0
    else
      var c := s[0] as int;
      (if c < 0x80 then 1 else if c < 0x800 then 2 else if c < 0x10000 then 3 else 4)
      + Utf8Length(s[1..])
  }

  /** `str.strip` and `str.lower` on ASCII text. */
  predicate IsSpace(c: char) {
    c == ' ' || '\t' <= c <= '\r' || '\U{1c}' <= c <= '\U{1f}'
  }

  function StripLeft(s: string): string {
    if s != "" && IsSpace(s[0]) then StripLeft(s[1..]) else s
  }

  function LowerChar(c: char): char {
    if 'A' <= c <= 'Z' then c + ' ' else c
  }

  /** Whether `s.lower()` starts with `prefix`. */
  predicate StartsWithIgnoringCase(s: string, prefix: string) {
    |prefix| <= |s| && forall i :: 0 <= i < |prefix| ==> LowerChar(s[i]) == LowerChar(prefix[i])
  }

  /** The domain is what follows the first colon. */
  lemma {:induction false} DomainFollowsColon(local: string, domain: string, id: string)
    requires ':' !in local && ':' !in id
    ensures Domain(local + ":" + domain) == Some(domain) && Domain(id) == None
  {
    var s := local + ":" + domain;
    assert s[|local|] == ':' && forall i | 0 <= i < |local| :: s[i] == local[i];
    assert s[|local| + 1..] == domain;
  }

  /** Host names are labels joined by dots. */
  lemma {:induction false} HostsJoin(a: string, b: string)
    ensures IsHost(a + "." + b) <==> IsHost(a) && IsHost(b)
  {
    var s := a + "." + b;
    assert s[|a|] == '.' && |s| == |a| + 1 + |b|;
    assert forall i | 0 <= i < |a| :: s[i] == a[i];
    assert forall i | 0 <= i < |b| :: b[i] == s[|a| + 1 + i];
    if IsHost(s) {
      PartsAreHosts(a, b);
    } else if IsHost(a) && IsHost(b) {
      forall i | 0 <= i < |s| - 1 ensures !(s[i] == '.' && s[i + 1] == '.') {
        if i > |a| {
          assert s[i] == b[i - |a| - 1] && s[i + 1] == b[i - |a|];
        }
      }
    }
  }

  lemma {:induction false} PartsAreHosts(a: string, b: string)
    requires IsHost(a + "." + b)
    ensures IsHost(a) && IsHost(b)
  {
    var s := a + "." + b;
    assert s[|a|] == '.' && |s| == |a| + 1 + |b|;
    assert forall i | 0 <= i < |a| :: s[i] == a[i];
    assert forall i | 0 <= i < |b| :: b[i] == s[|a| + 1 + i];
    assert a != "" && b != "";
    assert s[|a| - 1] != '.' && s[|a| + 1] != '.';
    forall i | 0 <= i < |b| - 1 ensures !(b[i] == '.' && b[i + 1] == '.') {
      var j := |a| + 1 + i;
      assert !(s[j] == '.' && s[j + 1] == '.');
    }
    forall c <- a ensures c in s {}
    forall c <- b ensures c in s {}
  }

  /** A label without dots is letters, digits and hyphens. */
  lemma {:induction false} LabelExactly(name: string)
    requires '.' !in name
    ensures IsHost(name)
       <==> name != "" && forall c <- name :: 'a' <= c <= 'z' || 'A' <= c <= 'Z' || '0' <= c <= '9' || c == '-'
  {
  }

  /** A user ID is a sigil, a name, a colon, and a host with or without a port. */
  lemma {:induction false} UserIdsJoin(name: string, host: string, port: string)
    requires ':' !in name && ':' !in host
    ensures IsUserId("@" + name + ":" + host) <==> IsHost(host)
    ensures IsUserId("@" + name + ":" + host + ":" + port)
       <==> IsHost(host) && port != "" && forall c <- port :: '0' <= c <= '9'
  {
    hide IsHost;
    IdParses(name, host);
    IdParses(name, host + ":" + port);
    assert "@" + name + ":" + host + ":" + port == "@" + name + ":" + (host + ":" + port);
    PortsJoin(host, port);
  }

  lemma {:induction false} PortsJoin(host: string, port: string)
    requires ':' !in host
    ensures IsServerName(host) <==> IsHost(host)
    ensures IsServerName(host + ":" + port) <==> IsHost(host) && port != "" && forall c <- port :: '0' <= c <= '9'
  {
    hide IsHost;
    var s := host + ":" + port;
    assert s[|host|] == ':' && |s| == |host| + 1 + |port| && forall i | 0 <= i < |host| :: s[i] == host[i];
    assert Find(s, ':', 0) == |host| && s[..|host|] == host;
    forall i | |host| < i < |s| ensures s[i] == port[i - |host| - 1] && s[i] in port {
      assert s[i] == port[i - |host| - 1];
    }
    if IsServerName(s) {
      forall c <- port ensures '0' <= c <= '9' {
        var j :| 0 <= j < |port| && port[j] == c;
        assert s[|host| + 1 + j] == c;
      }
    }
  }

  lemma {:induction false} IdParses(name: string, server: string)
    requires ':' !in name
    ensures IsUserId("@" + name + ":" + server) <==> IsServerName(server)
  {
    hide IsServerName;
    var s := "@" + name + ":" + server;
    var n := |name| + 1;
    assert s[0] == '@' && s[n] == ':' && forall i | 1 <= i < n :: s[i] == name[i - 1];
    assert Find(s, ':', 1) == n;
    assert s[n + 1..] == server;
  }
}
