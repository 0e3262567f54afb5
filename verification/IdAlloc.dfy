/** internal/render/diagram.go: the allocator of collision-free Mermaid node ids. */
module IdAlloc {
  import opened Text

  predicate IdChar(c: char)
  {
    'A' <= c <= 'Z' || 'a' <= c <= 'z' || '0' <= c <= '9' || c == '_'
  }

  predicate MermaidSafe(s: string)
  {
    forall c <- s :: IdChar(c)
  }

  function SanitizeNodeId(prefix: string, raw: string): (r: string)
    ensures MermaidSafe(prefix) ==> MermaidSafe(r)
  {
    prefix + seq(|raw|, i requires 0 <= i < |raw| => if IdChar(raw[i]) then raw[i] else '_')
  }

  /** Safe characters stay, each of the others becomes one underscore. */
  lemma SanitizedAt(prefix: string, raw: string, i: nat)
    requires i < |raw|
    ensures var r := SanitizeNodeId(prefix, raw);
            && |r| == |prefix| + |raw| && prefix <= r
            && r[|prefix| + i] == (if IdChar(raw[i]) then raw[i] else '_')
    ensures MermaidSafe(raw) ==> SanitizeNodeId(prefix, raw) == prefix + raw
  {
    if MermaidSafe(raw) {
      forall k | 0 <= k < |raw| ensures SanitizeNodeId(prefix, raw)[|prefix| + k] == raw[k] { assert raw[k] in raw; }
    }
  }

  /** %d prints the number, without leading zeros. */
  lemma {:induction false} DecimalReads(n: nat)
    ensures AllDigits(Decimal(n)) && NumberOf(Decimal(n)) == n && (n > 0 ==> Decimal(n)[0] != '0')
  {
    hide Digit;
    DigitIs(n % 10);
    var last := Digit(n % 10);
    if n >= 10 {
      DecimalReads(n / 10);
      var front := Decimal(n / 10);
      assert Decimal(n) == front + [last];
      assert (front + [last])[..|front|] == front;
    } else {
      assert Decimal(n) == [last] && [last][..0] == "";
    }
  }

  lemma DigitIs(n: nat)
    requires n < 10
    ensures '0' <= Digit(n) <= '9' && (Digit(n) - '0') as nat == n
  {
  }

  function Digit(n: nat): (c: char)
    requires n < 10
    ensures IdChar(c)
  {
    "0123456789"[n]
  }

  /** fmt's %d. */
  function Decimal(n: nat): (s: string)
    ensures s != [] && MermaidSafe(s)
  {
    if n < 10 then [Digit(n)] else Decimal(n / 10) + [Digit(n % 10)]
  }

  lemma {:induction false} DecimalInjective(m: nat, n: nat)
    requires Decimal(m) == Decimal(n)
    ensures m == n
  {
    assert Decimal(m)[|Decimal(m)| - 1] == Digit(m % 10);
    assert Decimal(n)[|Decimal(n)| - 1] == Digit(n % 10);
    assert m % 10 == n % 10 by { DigitInjective(m % 10, n % 10); }
    if m >= 10 && n >= 10 {
      assert Decimal(m)[..|Decimal(m)| - 1] == Decimal(m / 10);
      assert Decimal(n)[..|Decimal(n)| - 1] == Decimal(n / 10);
      DecimalInjective(m / 10, n / 10);
    }
  }

  lemma DigitInjective(m: nat, n: nat)
    requires m < 10 && n < 10 && Digit(m) == Digit(n)
    ensures m == n
  {
  }

  /** The ids tried for one base: the base itself, then base_2, base_3, … */
  function Candidate(base: string, n: nat): (c: string)
    ensures MermaidSafe(base) ==> MermaidSafe(c)
  {
    if n < 2 then base else base + "_" + Decimal(n)
  }

  lemma CandidatesDiffer(base: string, m: nat, n: nat)
    requires 1 <= m < n
    ensures Candidate(base, m) != Candidate(base, n)
  {
    var tail := "_" + Decimal(n);
    assert Candidate(base, n) == base + tail && |tail| > 0;
    if m >= 2 && Candidate(base, m) == Candidate(base, n) {
      var other := "_" + Decimal(m);
      assert Candidate(base, m) == base + other;
      assert Candidate(base, m)[|base| + 1..] == Decimal(m) && Candidate(base, n)[|base| + 1..] == Decimal(n);
      DecimalInjective(m, n);
    }
  }

  function Key(prefix: string, raw: string): string { prefix + "\0" + raw }

  /** A NUL ends every prefix in use, so a key stands for one pair. */
  lemma KeyInjective(p: string, r: string, p2: string, r2: string)
    requires '\0' !in p && '\0' !in p2 && Key(p, r) == Key(p2, r2)
    ensures p == p2 && r == r2
  {
    var k := Key(p, r);
    assert k == p + ['\0'] + r && k == p2 + ['\0'] + r2;
    SplitConcat(p, r, '\0');
    SplitConcat(p2, r2, '\0');
    SplitFree(p, '\0');
    SplitFree(p2, '\0');
    assert Split(k, '\0')[0] == p && Split(k, '\0')[0] == p2;
    assert k[|p| + 1..] == r && k[|p| + 1..] == r2;
  }

  /** The id is base_n, and base_2 to base_(n-1) are taken. */
  predicate IsSuffixed(taken: set<string>, base: string, id: string, n: nat)
  {
    && n >= 2 && id == base + "_" + Decimal(n) && id !in taken
    && forall k :: 2 <= k < n ==> base + "_" + Decimal(k) in taken
  }

  /** Tries the candidates of base in order. */
  method FreeId(taken: set<string>, base: string) returns (id: string)
    ensures IsFirstFree(taken, base, id)
    ensures base !in taken ==> id == base
    ensures base in taken ==> exists n :: IsSuffixed(taken, base, id, n)
  {
    id := base;
    ghost var n: nat := 1;
    var suffix := 2;
    ghost var tried: set<string> := {};
    while id in taken
      invariant 1 <= n && suffix == n + 1 && id == Candidate(base, n)
      invariant tried == Tried(base, n) && tried <= taken && |tried| == n - 1
      decreases |taken - tried|
    {
      TriedGrows(base, n);
      Shrinks(taken - (tried + {id}), taken - tried);
      tried := tried + {id};
      id := base + "_" + Decimal(suffix);
      suffix := suffix + 1;
      n := n + 1;
    }
    Shrinks(tried, taken);
    assert forall m :: 1 <= m < n ==> Candidate(base, m) in Tried(base, n);
    assert FirstFree(taken, base, n);
    if n >= 2 {
      forall k | 2 <= k < n ensures base + "_" + Decimal(k) in taken {
        assert Candidate(base, k) in Tried(base, n);
      }
      assert IsSuffixed(taken, base, id, n);
    }
  }

  class Allocator {
    var idOf: map<string, string>
    var taken: set<string>

    /** Ids are handed out once each. */
    ghost predicate Valid()
      reads this
    {
      && (forall k <- idOf :: idOf[k] in taken)
      && (forall k <- idOf, l <- idOf :: idOf[k] == idOf[l] ==> k == l)
    }

    constructor ()
      ensures Valid() && idOf == map[] && taken == {}
    {
      idOf, taken := map[], {};
    }

    method Id(prefix: string, raw: string) returns (id: string)
      requires Valid()
      modifies this
      ensures Valid()
      ensures Key(prefix, raw) in idOf && idOf[Key(prefix, raw)] == id
      ensures old(Key(prefix, raw) in idOf) ==> idOf == old(idOf) && taken == old(taken)
      ensures old(Key(prefix, raw) !in idOf) ==>
                && idOf == old(idOf)[Key(prefix, raw) := id] && taken == old(taken) + {id} && id !in old(taken)
                && IsFirstFree(old(taken), SanitizeNodeId(prefix, raw), id)
    {
      var key := Key(prefix, raw);
      if key in idOf {
        return idOf[key];
      }
      var base := SanitizeNodeId(prefix, raw);
      id := FreeId(taken, base);
      taken := taken + {id};
      idOf := idOf[key := id];
    }
  }

  lemma Shrinks<T>(a: set<T>, b: set<T>)
    requires a <= b
    ensures |a| <= |b| && (a != b ==> |a| < |b|)
  {
    assert b == a + (b - a);
    if a != b { assert |b - a| > 0 by { assert b - a != {}; } }
  }

  /** The n-th candidate is the first one free, and it is found within |taken| + 1 tries. */
  ghost predicate FirstFree(taken: set<string>, base: string, n: nat)
  {
    && 1 <= n <= |taken| + 1
    && Candidate(base, n) !in taken
    && forall m :: 1 <= m < n ==> Candidate(base, m) in taken
  }

  ghost predicate IsFirstFree(taken: set<string>, base: string, id: string)
  {
    exists n: nat :: FirstFree(taken, base, n) && id == Candidate(base, n)
  }

  ghost function Tried(base: string, n: nat): set<string>
  {
    set m | 1 <= m < n :: Candidate(base, m)
  }

  /** The candidates are pairwise different, so each try that fails uses up one taken id. */
  lemma TriedGrows(base: string, n: nat)
    requires n >= 1
    ensures Candidate(base, n) !in Tried(base, n) && Tried(base, n + 1) == Tried(base, n) + {Candidate(base, n)}
  {
    forall m | 1 <= m < n ensures Candidate(base, m) != Candidate(base, n) {
      CandidatesDiffer(base, m, n);
    }
    assert Tried(base, n + 1) == Tried(base, n) + {Candidate(base, n)} by {
      forall c ensures c in Tried(base, n + 1) <==> c in Tried(base, n) + {Candidate(base, n)} {
        if c in Tried(base, n + 1) {
          var m :| 1 <= m < n + 1 && Candidate(base, m) == c;
        }
      }
    }
  }

  datatype Request = Request(prefix: string, raw: string)

  /** Any sequence of requests: equal pairs share an id, different pairs do not, all ids are safe. */
  method AllocateAll(rs: seq<Request>) returns (ids: seq<string>)
    requires forall r <- rs :: '\0' !in r.prefix && MermaidSafe(r.prefix)
    ensures |ids| == |rs|
    ensures forall i, j :: 0 <= i < |rs| && 0 <= j < |rs| ==> (ids[i] == ids[j] <==> rs[i] == rs[j])
    ensures forall id <- ids :: MermaidSafe(id)
  {
    var a := new Allocator();
    ids := [];
    for n := 0 to |rs|
      invariant a.Valid() && |ids| == n
      invariant forall i :: 0 <= i < n ==>
          Key(rs[i].prefix, rs[i].raw) in a.idOf && a.idOf[Key(rs[i].prefix, rs[i].raw)] == ids[i]
      invariant forall k <- a.idOf :: MermaidSafe(a.idOf[k])
    {
      var id := a.Id(rs[n].prefix, rs[n].raw);
      ids := ids + [id];
    }
    forall i, j | 0 <= i < |rs| && 0 <= j < |rs| ensures ids[i] == ids[j] <==> rs[i] == rs[j] {
      if ids[i] == ids[j] {
        KeyInjective(rs[i].prefix, rs[i].raw, rs[j].prefix, rs[j].raw);
      }
    }
    forall id | id in ids ensures MermaidSafe(id) {
      var i :| 0 <= i < |ids| && ids[i] == id;
    }
  }
}
