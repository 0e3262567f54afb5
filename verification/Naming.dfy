/**
  internal/naming: NATS names and the subject algebra.

  A subject or a pattern is a '.'-separated list of tokens. The string test `UnderPrefix`
  stands in for inclusion between the sets of subjects two patterns match; this module
  defines that inclusion and says exactly when the two agree.
 */
module Naming {
  import opened Basics
  import opened Text

  // ---- the string operations of naming.go ----

  predicate UnderPrefix(subject: string, prefix: string)
  {
    if |prefix| >= 2 && prefix[|prefix| - 2..] == ".>" then
      prefix[..|prefix| - 2] + "." <= subject
    else
      subject == prefix
  }

  predicate TokenChar(c: char)
  {
    'a' <= c <= 'z' || 'A' <= c <= 'Z' || '0' <= c <= '9' || c == '_' || c == '-'
  }

  predicate LiteralToken(t: string)
  {
    t != [] && forall c <- t :: TokenChar(c)
  }

  predicate ValidTokenAt(tokens: seq<string>, i: nat)
    requires i < |tokens|
  {
    tokens[i] == "*" || (tokens[i] == ">" && i == |tokens| - 1) || LiteralToken(tokens[i])
  }

  predicate ValidSubjectString(s: string)
  {
    s != [] && var tokens := Split(s, '.'); forall i :: 0 <= i < |tokens| ==> ValidTokenAt(tokens, i)
  }

  function SanitizeChar(c: char): char
  {
    if 'a' <= c <= 'z' then c - 'a' + 'A' else if c == '/' || c == '-' then '_' else c
  }

  /** ASCII only: the ids that reach it have passed `Token` or `PartitionId`. */
  function Sanitize(s: string): (r: string)
    ensures |r| == |s|
  {
    seq(|s|, i requires 0 <= i < |s| => SanitizeChar(s[i]))
  }

  function Anchor(dot: string): string { "vikasa." + dot + "." }

  function ShareSpace(dot: string): string { "vikasa." + dot + ".share." }

  function PeerSpace(dot: string): string { "vikasa.peer." + dot + "." }

  function SubjectSpace(dot: string, district: string, declared: Option<string>): string
  {
    match declared
    case Some(prefix) => prefix
    case None => "vikasa." + dot + "." + district + ".>"
  }

  predicate FilterUnderDistrict(dot: string, district: string, declared: Option<string>, filter: string)
  {
    UnderPrefix(filter, SubjectSpace(dot, district, declared))
  }

  const CENTRAL_ACCOUNT := "CENTRAL"
  const DMZ_ACCOUNT := "DMZ"
  const SYSTEM_ACCOUNT := "SYSTEM"
  const BUFFER_STREAM := "VIKASA_BUFFER"

  function DistrictAccountName(district: string): string { "DISTRICT_" + Sanitize(district) }

  function OperatorName(dot: string): string { "VIKASA_" + Sanitize(dot) }

  /** The part of a stream name that says which partition it serves. */
  function PartitionSuffix(district: string, part: string): string
  {
    Sanitize(district) + "_" + Sanitize(part)
  }

  function PartitionStreamName(dot: string, district: string, part: string): string
  {
    "VIKASA_" + Sanitize(dot) + "_" + PartitionSuffix(district, part)
  }

  function CentralShardStreamName(dot: string, district: string, part: string): string
  {
    "VIKASA_" + Sanitize(dot) + "_CENTRAL_" + PartitionSuffix(district, part)
  }

  function DMZStreamName(dot: string): string { "VIKASA_" + Sanitize(dot) + "_DMZ" }

  function Lower(s: string): string
  {
    seq(|s|, i requires 0 <= i < |s| => if 'A' <= s[i] <= 'Z' then s[i] - 'A' + 'a' else s[i])
  }

  function SlashToDash(s: string): string
  {
    seq(|s|, i requires 0 <= i < |s| => if s[i] == '/' then '-' else s[i])
  }

  function LeafDNSName(dot: string, part: string): string
  {
    "leaf-" + Lower(dot) + "-" + SlashToDash(Lower(part)) + ".nats.vikasa." + Lower(dot)
  }

  // ---- id patterns of topology.go (tokenRE, partitionIDRE) ----

  predicate IdStart(c: char) { 'a' <= c <= 'z' || '0' <= c <= '9' }

  predicate Token(s: string)
  {
    s != [] && IdStart(s[0]) && forall c <- s :: IdStart(c) || c == '-'
  }

  predicate PartitionId(s: string)
  {
    forall t <- Split(s, '/') :: Token(t)
  }

  // ---- what a pattern means ----

  predicate TokenMatches(pattern: string, token: string)
  {
    pattern == "*" || pattern == token
  }

  /** `*` matches one token, a final `>` one or more, anything else itself. */
  predicate Matches(pattern: seq<string>, subject: seq<string>)
  {
    if pattern != [] && pattern[|pattern| - 1] == ">" then
      |subject| >= |pattern| && forall i :: 0 <= i < |pattern| - 1 ==> TokenMatches(pattern[i], subject[i])
    else
      |subject| == |pattern| && forall i :: 0 <= i < |pattern| ==> TokenMatches(pattern[i], subject[i])
  }

  /** A subject a message can be published on: no wildcard tokens. */
  predicate Concrete(subject: seq<string>)
  {
    forall t <- subject :: t != "" && t != "*" && t != ">" && '.' !in t
  }

  ghost predicate Included(filter: seq<string>, space: seq<string>)
  {
    forall s: seq<string> :: Concrete(s) && Matches(filter, s) ==> Matches(space, s)
  }

  ghost predicate Disjoint(p: seq<string>, q: seq<string>)
  {
    forall s: seq<string> :: Concrete(s) && Matches(p, s) ==> !Matches(q, s)
  }

  predicate WellFormed(pattern: seq<string>)
  {
    pattern != [] && forall i :: 0 <= i < |pattern| ==> ValidTokenAt(pattern, i)
  }

  /** `base.>` admits every subject of `filter` exactly when it does so token by token. */
  predicate Covers(base: seq<string>, filter: seq<string>)
  {
    |filter| > |base| && forall i :: 0 <= i < |base| ==> base[i] == "*" || base[i] == filter[i]
  }

  // ---- the check accepts exactly the well-formed patterns, and nothing that needs quoting ----

  lemma ValidSubjectRoundTrip(tokens: seq<string>)
    requires tokens != [] && forall t <- tokens :: '.' !in t
    ensures ValidSubjectString(Join(tokens, '.')) <==> WellFormed(tokens)
  {
    SplitJoin(tokens, '.');
    if Join(tokens, '.') == "" {
      assert tokens == [""];
      assert !ValidTokenAt(tokens, 0);
    }
  }

  lemma {:induction false} JoinChars(tokens: seq<string>)
    ensures forall c <- Join(tokens, '.') :: c == '.' || exists i :: 0 <= i < |tokens| && c in tokens[i]
  {
    if |tokens| > 1 {
      JoinChars(tokens[1..]);
      forall c | c in Join(tokens, '.')
        ensures c == '.' || exists i :: 0 <= i < |tokens| && c in tokens[i]
      {
        if c != '.' && c !in tokens[0] {
          assert c in Join(tokens[1..], '.');
          var i :| 0 <= i < |tokens[1..]| && c in tokens[1..][i];
          assert c in tokens[i + 1];
        }
      }
    }
  }

  /** No quote, brace, blank or control character gets past the check. */
  lemma ValidSubjectIsInert(s: string, c: char)
    requires ValidSubjectString(s) && c in s
    ensures TokenChar(c) || c == '.' || c == '*' || c == '>'
  {
    JoinSplit(s, '.');
    var tokens := Split(s, '.');
    JoinChars(tokens);
    if c != '.' {
      var i :| 0 <= i < |tokens| && c in tokens[i];
      assert ValidTokenAt(tokens, i);
    }
  }

  // ---- UnderPrefix against inclusion ----

  /** The string prefix test is a token prefix test. */
  lemma UnderPrefixTokens(subject: string, base: string)
    ensures var s, b := Split(subject, '.'), Split(base, '.');
            UnderPrefix(subject, base + ".>") <==> |s| > |b| && s[..|b|] == b
  {
    UnderPrefixString(subject, base);
    hide Split, Join, UnderPrefix;
    var s, b := Split(subject, '.'), Split(base, '.');
    JoinSplit(subject, '.');
    JoinSplit(base, '.');
    if base + "." <= subject {
      var rest := subject[|base| + 1..];
      assert subject == base + ['.'] + rest;
      SplitConcat(base, rest, '.');
    }
    if |s| > |b| && s[..|b|] == b {
      assert s == b + s[|b|..];
      JoinConcat(b, s[|b|..], '.');
    }
  }

  lemma UnderPrefixString(subject: string, base: string)
    ensures UnderPrefix(subject, base + ".>") <==> base + "." <= subject
  {
    var prefix := base + ".>";
    assert prefix[..|prefix| - 2] == base && prefix[|prefix| - 2..] == ".>";
  }

  lemma SpaceTokens(base: string)
    ensures Split(base + ".>", '.') == Split(base, '.') + [">"]
  {
    assert base + ".>" == base + ['.'] + ">";
    SplitConcat(base, ">", '.');
    SplitFree(">", '.');
  }

  lemma NotLiteral()
    ensures !LiteralToken("*") && !LiteralToken(">")
    ensures forall t: string :: LiteralToken(t) ==> '.' !in t
  {
    assert '*' in "*" && '>' in ">";
    assert !TokenChar('.') && !TokenChar('*') && !TokenChar('>');
  }

  /** A subject of `filter` that stays outside `base.>` wherever it can. */
  function Escapee(filter: seq<string>, base: seq<string>): (w: seq<string>)
    ensures |w| == |filter|
  {
    seq(|filter|, i requires 0 <= i < |filter| => if i < |base| then Dodge(filter[i], base[i])
        else Dodge(filter[i], ""))
  }

  /** A token that `f` matches and that differs from `b` if it can. */
  function Dodge(f: string, b: string): string
  {
    if f == "*" || f == ">" then b + "x" else f
  }

  lemma DodgeMatches(tokens: seq<string>, i: nat, b: string)
    requires i < |tokens| && ValidTokenAt(tokens, i) && '.' !in b
    ensures var w := Dodge(tokens[i], b); w != "" && w != "*" && w != ">" && '.' !in w
    ensures tokens[i] != ">" ==> TokenMatches(tokens[i], Dodge(tokens[i], b))
    ensures tokens[i] == ">" ==> i == |tokens| - 1
  {
    NotLiteral();
    assert (b + "x")[|b|] == 'x';
  }

  lemma EscapeeMatches(filter: seq<string>, base: seq<string>)
    requires WellFormed(filter) && forall i :: 0 <= i < |base| ==> '.' !in base[i]
    ensures Concrete(Escapee(filter, base)) && Matches(filter, Escapee(filter, base))
  {
    hide Dodge, TokenMatches, ValidTokenAt;
    var w := Escapee(filter, base);
    forall i | 0 <= i < |w|
      ensures w[i] != "" && w[i] != "*" && w[i] != ">" && '.' !in w[i]
      ensures filter[i] == ">" ==> i == |filter| - 1
      ensures filter[i] != ">" ==> TokenMatches(filter[i], w[i])
    {
      DodgeMatches(filter, i, if i < |base| then base[i] else "");
    }
  }

  /** Language inclusion in `base.>`, for any base, is token cover. */
  lemma InclusionIsCover(filter: seq<string>, base: seq<string>)
    requires WellFormed(filter) && WellFormed(base + [">"])
    ensures Included(filter, base + [">"]) <==> Covers(base, filter)
  {
    var space := base + [">"];
    forall i | 0 <= i < |base| ensures '.' !in base[i] && base[i] != ">" {
      assert space[i] == base[i];
      assert ValidTokenAt(space, i);
      NotLiteral();
    }
    var w := Escapee(filter, base);
    EscapeeMatches(filter, base);
    if Included(filter, space) {
      assert Matches(space, w);
      forall i | 0 <= i < |base| ensures base[i] == "*" || base[i] == filter[i] {
        assert |base[i] + "x"| == |base[i]| + 1;
        assert TokenMatches(space[i], w[i]);
      }
    }
    if Covers(base, filter) {
      forall s: seq<string> | Concrete(s) && Matches(filter, s) ensures Matches(space, s) {
        forall i | 0 <= i < |space| - 1 ensures TokenMatches(space[i], s[i]) {
          assert space[i] == base[i] && TokenMatches(filter[i], s[i]);
          assert ValidTokenAt(filter, i);
          if base[i] != "*" { assert base[i] == filter[i]; }
        }
      }
    }
  }

  /**
    The string test is inclusion minus the cases where a `*` of the space is needed to
    cover something other than a `*` of the filter.
   */
  lemma UnderPrefixExact(filter: string, base: string)
    requires ValidSubjectString(filter) && ValidSubjectString(base + ".>")
    ensures var f, b := Split(filter, '.'), Split(base, '.');
            UnderPrefix(filter, base + ".>") <==>
              Included(f, Split(base + ".>", '.')) && forall i :: 0 <= i < |b| && i < |f| && b[i] == "*" ==> f[i] == "*"
  {
    var f, b := Split(filter, '.'), Split(base, '.');
    UnderPrefixTokens(filter, base);
    SpaceTokens(base);
    InclusionIsCover(f, b);
    if UnderPrefix(filter, base + ".>") {
      forall i | 0 <= i < |b| ensures b[i] == f[i] { assert f[..|b|][i] == f[i]; }
    }
    if Covers(b, f) && (forall i :: 0 <= i < |b| && i < |f| && b[i] == "*" ==> f[i] == "*") {
      assert f[..|b|] == b;
    }
  }

  /** For a space without wildcards below its `>`, the test decides inclusion. */
  lemma UnderPrefixIsInclusion(filter: string, base: string)
    requires ValidSubjectString(filter) && ValidSubjectString(base + ".>")
    requires "*" !in Split(base, '.')
    ensures UnderPrefix(filter, base + ".>") <==> Included(Split(filter, '.'), Split(base + ".>", '.'))
  {
    UnderPrefixExact(filter, base);
  }

  /** With a wildcard in the space the test refuses some filter the space does contain. */
  lemma WildcardSpaceRefusesIncluded(base: string)
    requires ValidSubjectString(base + ".>") && "*" in Split(base, '.')
    ensures exists filter: string :: ValidSubjectString(filter)
              && Included(Split(filter, '.'), Split(base + ".>", '.')) && !UnderPrefix(filter, base + ".>")
  {
    var b := Split(base, '.');
    SpaceTokens(base);
    var f := seq(|b|, i requires 0 <= i < |b| => if b[i] == "*" then "x" else b[i]) + ["x"];
    forall i | 0 <= i < |f| ensures ValidTokenAt(f, i) && '.' !in f[i] {
      NotLiteral();
      assert TokenChar('x');
      assert ValidTokenAt(b + [">"], i);
    }
    var filter := Join(f, '.');
    ValidSubjectRoundTrip(f);
    SplitJoin(f, '.');
    InclusionIsCover(f, b);
    UnderPrefixTokens(filter, base);
    var i :| 0 <= i < |b| && b[i] == "*";
    assert f[..|b|][i] == "x" != b[i];
    assert ValidSubjectString(filter)
        && Included(Split(filter, '.'), Split(base + ".>", '.')) && !UnderPrefix(filter, base + ".>");
  }

  /** Two spaces that share a subject string are nested one in the other. */
  lemma SharedSubjectNests(subject: string, base1: string, base2: string)
    requires UnderPrefix(subject, base1 + ".>") && UnderPrefix(subject, base2 + ".>")
    ensures base1 == base2 || UnderPrefix(base2 + ".>", base1 + ".>") || UnderPrefix(base1 + ".>", base2 + ".>")
  {
    UnderPrefixTokens(subject, base1);
    UnderPrefixTokens(subject, base2);
    JoinSplit(base1, '.');
    JoinSplit(base2, '.');
    SpaceTokens(base1);
    SpaceTokens(base2);
    UnderPrefixTokens(base2 + ".>", base1);
    UnderPrefixTokens(base1 + ".>", base2);
    var s, b1, b2 := Split(subject, '.'), Split(base1, '.'), Split(base2, '.');
    if |b1| <= |b2| {
      assert s[..|b2|][..|b1|] == s[..|b1|];
      assert (b2 + [">"])[..|b1|] == b2[..|b1|] == b1;
    } else {
      assert s[..|b1|][..|b2|] == s[..|b2|];
      assert (b1 + [">"])[..|b2|] == b1[..|b2|] == b2;
    }
  }

  // ---- Sanitize ----

  lemma SanitizeInjective(a: string, b: string)
    requires Token(a) && Token(b) && Sanitize(a) == Sanitize(b)
    ensures a == b
  {
    forall i | 0 <= i < |a| ensures a[i] == b[i] {
      assert Sanitize(a)[i] == SanitizeChar(a[i]) && Sanitize(b)[i] == SanitizeChar(b[i]);
      assert a[i] in a && b[i] in b;
    }
  }

  /** Two dots never share an operator. */
  lemma OperatorsDiffer(a: string, b: string)
    requires Token(a) && Token(b)
    ensures OperatorName(a) == OperatorName(b) <==> a == b
  {
    if OperatorName(a) == OperatorName(b) {
      assert OperatorName(a)[7..] == Sanitize(a) && OperatorName(b)[7..] == Sanitize(b);
      SanitizeInjective(a, b);
    }
  }

  /** On partition ids, which may hold '/', it is not injective: '/' and '-' both become '_'. */
  lemma SanitizeCollides(a: string, b: string)
    requires Token(a) && Token(b)
    ensures PartitionId(a + "/" + b) && PartitionId(a + "-" + b) && a + "/" + b != a + "-" + b
    ensures Sanitize(a + "/" + b) == Sanitize(a + "-" + b)
  {
    SplitConcat(a, b, '/');
    SplitFree(a, '/');
    SplitFree(b, '/');
    SplitFree(a + "-" + b, '/');
    assert (a + "/" + b)[|a|] == '/' && (a + "-" + b)[|a|] == '-';
    assert forall i :: 0 <= i < |a + "/" + b| && i != |a| ==> (a + "/" + b)[i] == (a + "-" + b)[i];
  }

  lemma SanitizeConcat(a: string, b: string)
    ensures Sanitize(a + b) == Sanitize(a) + Sanitize(b)
  {
  }
}
