/** Finding the service that implements a fully qualified name
    (internal/automation/modules/connect/module.go:116-145). */
module Endpoint {
  import opened Events

  /** What a discovery query yields: an error, or the instances found. */
  datatype Discovery = Failed | Found(addresses: seq<string>)

  predicate HasInstance(disc: string -> Discovery, q: string) {
    disc(q).Found? && disc(q).addresses != []
  }

  /** strings.Split(s, ".") */
  function Split(s: string): (parts: seq<string>)
    ensures parts != []
  {
    if s == "" then [""]
    else if s[0] == '.' then [""] + Split(s[1..])
    else
      var rest := Split(s[1..]);
      [[s[0]] + rest[0]] + rest[1..]
  }

  /** strings.Join(parts, ".") */
  function Join(parts: seq<string>): string {
    if parts == [] then ""
    else if |parts| == 1 then parts[0]
    else parts[0] + "." + Join(parts[1..])
  }

  /** `p` is `s`, or is followed by a dot in `s`. */
  predicate DotPrefix(p: string, s: string) {
    |p| <= |s| && s[..|p|] == p && (|p| == |s| || s[|p|] == '.')
  }

  /** The name built from the first `k` parts. */
  function Query(s: string, k: nat): string
    requires k <= |Split(s)|
  {
    Join(Split(s)[..k])
  }

  lemma {:induction false} QueryAtDot(s: string, k: nat)
    requires s != "" && s[0] == '.' && 1 <= k <= |Split(s)|
    ensures Query(s, k) == if k == 1 then "" else "." + Query(s[1..], k - 1)
  {
    var parts, rest := Split(s)[..k], Split(s[1..]);
    assert parts[0] == "" && parts[1..] == rest[..k - 1];
    if k > 1 { assert "" + "." + Join(parts[1..]) == "." + Join(rest[..k - 1]); }
  }

  lemma {:induction false} QueryInPart(s: string, k: nat)
    requires s != "" && s[0] != '.' && 1 <= k <= |Split(s)|
    ensures Query(s, k) == [s[0]] + Query(s[1..], k)
  {
    var parts, rest := Split(s)[..k], Split(s[1..])[..k];
    assert parts[0] == [s[0]] + rest[0] && parts[1..] == rest[1..];
    if k > 1 {
      assert ([s[0]] + rest[0]) + "." + Join(rest[1..]) == [s[0]] + (rest[0] + "." + Join(rest[1..]));
    }
  }

  lemma {:induction false} QueryStep(s: string, k: nat)
    requires s != "" && 1 <= k <= |Split(s)|
    ensures |Split(s)| == |Split(s[1..])| + (if s[0] == '.' then 1 else 0)
    ensures s[0] == '.' ==> Query(s, k) == if k == 1 then "" else "." + Query(s[1..], k - 1)
    ensures s[0] != '.' ==> Query(s, k) == [s[0]] + Query(s[1..], k)
  {
    if s[0] == '.' { QueryAtDot(s, k); } else { QueryInPart(s, k); }
  }

  /** Every query is a dot-bounded prefix, and the last one is the whole name. */
  lemma {:induction false} QueryIsPrefix(s: string, k: nat)
    requires 1 <= k <= |Split(s)|
    ensures DotPrefix(Query(s, k), s)
    ensures k == |Split(s)| ==> Query(s, k) == s
    decreases |s|
  {
    if s == "" {
      assert Split(s)[..1] == [""];
    } else {
      QueryStep(s, k);
      if s[0] != '.' {
        QueryIsPrefix(s[1..], k);
        assert s == [s[0]] + s[1..];
      } else if k > 1 {
        QueryIsPrefix(s[1..], k - 1);
        assert s == "." + s[1..];
      }
    }
  }

  lemma {:induction false} QueriesGrow(s: string, k: nat)
    requires 1 <= k < |Split(s)|
    ensures |Query(s, k)| < |Query(s, k + 1)|
    decreases |s|
  {
    if s != "" {
      QueryStep(s, k);
      QueryStep(s, k + 1);
      if s[0] != '.' {
        QueriesGrow(s[1..], k);
      } else if k > 1 {
        QueriesGrow(s[1..], k - 1);
      }
    }
  }

  lemma {:induction false} QueriesOrdered(s: string, k: nat, q: nat)
    requires 1 <= k < q <= |Split(s)|
    ensures |Query(s, k)| < |Query(s, q)|
    decreases q - k
  {
    QueriesGrow(s, k);
    if k + 1 < q { QueriesOrdered(s, k + 1, q); }
  }

  /** Every dot-bounded prefix is one of the queries. */
  lemma {:induction false} PrefixIsQuery(p: string, s: string) returns (k: nat)
    requires DotPrefix(p, s)
    ensures 1 <= k <= |Split(s)| && Query(s, k) == p
    decreases |s|
  {
    if s == "" {
      k := 1;
      assert Split(s)[..1] == [""];
    } else if p == "" {
      k := 1;
      QueryStep(s, 1);
    } else {
      assert p[0] == s[0];
      assert DotPrefix(p[1..], s[1..]) by {
        assert s[1..][..|p| - 1] == s[..|p|][1..];
      }
      var q := PrefixIsQuery(p[1..], s[1..]);
      k := if s[0] == '.' then q + 1 else q;
      assert |Split(s)| == |Split(s[1..])| + (if s[0] == '.' then 1 else 0);
      QueryStep(s, k);
      assert p == [p[0]] + p[1..];
    }
  }

  /** slices.Reverse */
  method Reverse(a: array<string>)
    modifies a
    ensures forall i :: 0 <= i < a.Length ==> a[i] == old(a[a.Length - 1 - i])
  {
    var i, j := 0, a.Length - 1;
    while i < j
      invariant 0 <= i <= a.Length && i + j == a.Length - 1
      invariant forall k :: 0 <= k < i || j < k < a.Length ==> a[k] == old(a[a.Length - 1 - k])
      invariant forall k :: i <= k <= j ==> a[k] == old(a[k])
    {
      a[i], a[j] := a[j], a[i];
      i, j := i + 1, j - 1;
    }
  }

  /** The queries in the order they are tried: longest first. */
  method Queries(service: string) returns (queries: array<string>)
    ensures fresh(queries) && queries.Length == |Split(service)|
    ensures forall i :: 0 <= i < queries.Length ==> queries[i] == Query(service, queries.Length - i)
  {
    var parts := Split(service);
    queries := new string[|parts|](_ => "");
    var idx := 1;
    while idx <= |parts|
      invariant 1 <= idx <= |parts| + 1
      invariant forall i :: 0 <= i < idx - 1 ==> queries[i] == Query(service, i + 1)
    {
      queries[idx - 1] := Join(parts[..idx]);
      idx := idx + 1;
    }
    Reverse(queries);
  }

  /** None of the queries with more than `k` parts has an instance. */
  ghost predicate NoneLonger(disc: string -> Discovery, s: string, k: nat) {
    forall q :: k < q <= |Split(s)| ==> !HasInstance(disc, Query(s, q))
  }

  /** `p` is the longest dot-bounded prefix of `s` that has an instance. */
  ghost predicate Longest(disc: string -> Discovery, p: string, s: string) {
    && DotPrefix(p, s) && disc(p).Found? && disc(p).addresses != []
    && forall q :: DotPrefix(q, s) && disc(q).Found? && disc(q).addresses != [] ==> |q| <= |p|
  }

  /** The endpoint that was returned belongs to the longest prefix with an instance. */
  ghost predicate Resolves(disc: string -> Discovery, service: string, rpc: string, endpoint: string) {
    exists p :: Longest(disc, p, service) && endpoint == "http://" + disc(p).addresses[0] + "/" + service + "/" + rpc
  }

  lemma {:induction false} FirstIsLongest(disc: string -> Discovery, s: string, k: nat)
    requires 1 <= k <= |Split(s)| && NoneLonger(disc, s, k) && HasInstance(disc, Query(s, k))
    ensures Longest(disc, Query(s, k), s)
  {
    QueryIsPrefix(s, k);
    forall q | DotPrefix(q, s) && HasInstance(disc, q)
      ensures |q| <= |Query(s, k)|
    {
      var i := PrefixIsQuery(q, s);
      if i < k { QueriesOrdered(s, i, k); }
    }
  }

  lemma {:induction false} NoneFound(disc: string -> Discovery, s: string)
    requires NoneLonger(disc, s, 0)
    ensures forall p :: DotPrefix(p, s) ==> !HasInstance(disc, p)
  {
    forall p | DotPrefix(p, s)
      ensures !HasInstance(disc, p)
    {
      var k := PrefixIsQuery(p, s);
    }
  }

  /** Names the endpoint of the longest dotted prefix that has an instance, and fails
      exactly when no prefix has one. */
  method ResolveEndpoint(service: string, rpc: string, disc: string -> Discovery) returns (r: Result<string, string>)
    ensures r.Ok? ==> Resolves(disc, service, rpc, r.value)
    ensures r.Err? <==> forall p :: DotPrefix(p, service) ==> disc(p) == Failed || disc(p) == Found([])
  {
    var queries := Queries(service);
    var n := queries.Length;
    var i := 0;
    while i < n
      invariant 0 <= i <= n && n == |Split(service)| && n == queries.Length
      invariant forall j :: 0 <= j < n ==> queries[j] == Query(service, n - j)
      invariant NoneLonger(disc, service, n - i)
    {
      var q := queries[i];
      var res := disc(q);
      if res.Found? && res.addresses != [] {
        FirstIsLongest(disc, service, n - i);
        return Ok("http://" + res.addresses[0] + "/" + service + "/" + rpc);
      }
      i := i + 1;
    }
    NoneFound(disc, service);
    r := Err("failed to find a healthy service instance");
  }
}
