/**
  internal/render/helm.go: a manifest rendered with sentinel knob values becomes a Helm
  template. Helm must give back the manifest with the real values in place of the knobs.

  The rewrite is eight global string replacements in a row. They are studied on the NUL-separated
  fields of the text: each sentinel and each brace placeholder is a name between two NULs, so
  replacing it glues three fields into one, and a literal field that happens to spell such a name
  can be glued in its stead.
 */
module Helm {
  import opened Basics
  import opened Text
  import opened Engine

  const NUL: char := '\0'

  /** The two brace placeholders and the four knob sentinels, in the order they are replaced. */
  datatype Mark = OpenBraces | CloseBraces | Namespace | Issuer | Store | Release

  datatype Values = Values(namespace: string, tlsIssuer: string, secretStore: string, prometheusRelease: string)

  function Phase(m: Mark): nat
  {
    match m
    case OpenBraces => 0
    case CloseBraces => 1
    case Namespace => 2
    case Issuer => 3
    case Store => 4
    case Release => 5
  }

  function Name(m: Mark): string
  {
    match m
    case OpenBraces => "O"
    case CloseBraces => "C"
    case Namespace => "VIKASA_HELM_NAMESPACE"
    case Issuer => "VIKASA_HELM_ISSUER"
    case Store => "VIKASA_HELM_STORE"
    case Release => "VIKASA_HELM_RELEASE"
  }

  function Sentinel(m: Mark): string { [NUL] + Name(m) + [NUL] }

  /** The Helm action each mark turns into. */
  function Action(m: Mark): (a: string)
    ensures |a| > 2
  {
    match m
    case OpenBraces => "{{ \"{{\" }}"
    case CloseBraces => "{{ \"}}\" }}"
    case Namespace => "{{ .Values.namespace }}"
    case Issuer => "{{ .Values.tlsIssuer }}"
    case Store => "{{ .Values.secretStore }}"
    case Release => "{{ .Values.prometheusRelease }}"
  }

  function Value(m: Mark, v: Values): string
  {
    match m
    case OpenBraces => "{{"
    case CloseBraces => "}}"
    case Namespace => v.namespace
    case Issuer => v.tlsIssuer
    case Store => v.secretStore
    case Release => v.prometheusRelease
  }

  // ---- the transform ----

  /** strings.ReplaceAll: leftmost, non-overlapping. */
  function ReplaceAll(s: string, pat: string, with: string): string
    requires pat != []
  {
    if |s| < |pat| then s
    else if s[..|pat|] == pat then with + ReplaceAll(s[|pat|..], pat, with)
    else [s[0]] + ReplaceAll(s[1..], pat, with)
  }

  function HelmEscapeBraces(b: string): string
  {
    var s := ReplaceAll(b, "{{", Sentinel(OpenBraces));
    var s := ReplaceAll(s, "}}", Sentinel(CloseBraces));
    var s := ReplaceAll(s, Sentinel(OpenBraces), Action(OpenBraces));
    ReplaceAll(s, Sentinel(CloseBraces), Action(CloseBraces))
  }

  function ChartTemplate(content: string): string
  {
    var s := HelmEscapeBraces(content);
    var s := ReplaceAll(s, Sentinel(Namespace), Action(Namespace));
    var s := ReplaceAll(s, Sentinel(Issuer), Action(Issuer));
    var s := ReplaceAll(s, Sentinel(Store), Action(Store));
    ReplaceAll(s, Sentinel(Release), Action(Release))
  }

  /** Every rendered manifest but kustomization.yaml, under templates/. */
  method ChartTemplates(rendered: map<string, string>) returns (out: map<string, string>)
    ensures out.Keys == set name | name in rendered && name != "kustomization.yaml" :: "templates/" + name
    ensures forall name | name in rendered && name != "kustomization.yaml" ::
              "templates/" + name in out && out["templates/" + name] == ChartTemplate(rendered[name])
  {
    out := map[];
    var todo := rendered.Keys;
    ghost var done: set<string> := {};
    while todo != {}
      invariant done + todo == rendered.Keys && done !! todo
      invariant out.Keys == set name | name in done && name != "kustomization.yaml" :: "templates/" + name
      invariant forall name | name in done && name != "kustomization.yaml" ::
                  "templates/" + name in out && out["templates/" + name] == ChartTemplate(rendered[name])
    {
      var name :| name in todo;
      todo := todo - {name};
      done := done + {name};
      if name != "kustomization.yaml" {
        forall other | "templates/" + other == "templates/" + name ensures other == name {
          assert ("templates/" + other)[10..] == other && ("templates/" + name)[10..] == name;
        }
        out := out["templates/" + name := ChartTemplate(rendered[name])];
      }
    }
  }

  // ---- Helm's side ----

  /** The chart's values.yaml. */
  function ValuesYaml(v: Values): map<string, string>
  {
    map[
      "namespace" := v.namespace,
      "tlsIssuer" := v.tlsIssuer,
      "secretStore" := v.secretStore,
      "prometheusRelease" := v.prometheusRelease]
  }

  function Render(template: string, v: Values): Option<Rendering> { Eval(template, ValuesYaml(v)) }

  /** The keys a mark has Helm look up. */
  function KeysOf(m: Mark): seq<string>
  {
    match m
    case OpenBraces => []
    case CloseBraces => []
    case Namespace => ["namespace"]
    case Issuer => ["tlsIssuer"]
    case Store => ["secretStore"]
    case Release => ["prometheusRelease"]
  }

  // ---- manifests as text cut by marks ----

  /** Literal text, cut by the marks that stand in it. */
  datatype Doc = End(text: string) | Cut(text: string, mark: Mark, rest: Doc)

  function Flatten(d: Doc): string
  {
    match d
    case End(t) => t
    case Cut(t, m, r) => t + Sentinel(m) + Flatten(r)
  }

  /** The document with each mark's value in its place. */
  function Fill(d: Doc, v: Values): string
  {
    match d
    case End(t) => t
    case Cut(t, m, r) => t + Value(m, v) + Fill(r, v)
  }

  /** The document with each mark's Helm action in its place. */
  function Live(d: Doc): string
  {
    match d
    case End(t) => t
    case Cut(t, m, r) => t + Action(m) + Live(r)
  }

  function Marks(d: Doc): seq<Mark>
  {
    match d
    case End(_) => []
    case Cut(_, m, r) => [m] + Marks(r)
  }

  predicate NulFree(d: Doc)
  {
    NUL !in d.text && (d.Cut? ==> NulFree(d.rest))
  }

  predicate KnobsOnly(d: Doc)
  {
    d.Cut? ==> Phase(d.mark) >= 2 && KnobsOnly(d.rest)
  }

  function Append(d: Doc, m: Mark, e: Doc): Doc
  {
    match d
    case End(t) => Cut(t, m, e)
    case Cut(t, k, r) => Cut(t, k, Append(r, m, e))
  }

  function Prepend(t: string, d: Doc): Doc
  {
    match d
    case End(u) => End(t + u)
    case Cut(u, m, r) => Cut(t + u, m, r)
  }

  function CutText(t: string, c: char, m: Mark): Doc
  {
    if |t| < 2 then End(t)
    else if t[..2] == [c, c] then Cut("", m, CutText(t[2..], c, m))
    else Prepend([t[0]], CutText(t[1..], c, m))
  }

  function CutAll(d: Doc, c: char, m: Mark): Doc
  {
    match d
    case End(t) => CutText(t, c, m)
    case Cut(t, k, r) => Append(CutText(t, c, m), k, CutAll(r, c, m))
  }

  /** The document with a mark for every `{{`, and then every `}}`, read from the left. */
  function Marked(d: Doc): Doc
  {
    CutAll(CutAll(d, '{', OpenBraces), '}', CloseBraces)
  }

  // ---- when the rewrite goes wrong ----

  /**
    The text between two marks spells the name of `m`, and both marks are still waiting when
    `m` is replaced: the NULs around the text are taken for its sentinel.
   */
  predicate Steal(d: Doc, m: Mark)
  {
    d.Cut? && (
      || (d.rest.Cut? && d.rest.text == Name(m) && Phase(d.mark) > Phase(m) && Phase(d.rest.mark) >= Phase(m))
      || Steal(d.rest, m))
  }

  predicate Stolen(d: Doc)
  {
    Steal(d, OpenBraces) || Steal(d, CloseBraces) || Steal(d, Namespace)
        || Steal(d, Issuer) || Steal(d, Store) || Steal(d, Release)
  }

  /** A left-over `{` stands right before a mark and merges with its action. */
  predicate LoneBrace(d: Doc)
  {
    d.Cut? && ((d.text != [] && d.text[|d.text| - 1] == '{') || LoneBrace(d.rest))
  }

  // ---- ReplaceAll ----

  lemma ReplaceShort(s: string, pat: string, with: string)
    requires pat != [] && |s| < |pat|
    ensures ReplaceAll(s, pat, with) == s
  {
  }

  lemma {:induction false} ReplaceSkip(a: string, s: string, pat: string, with: string)
    requires pat != [] && pat[0] !in a
    ensures ReplaceAll(a + s, pat, with) == a + ReplaceAll(s, pat, with)
  {
    if a == [] {
      assert a + s == s;
    } else if |a + s| < |pat| {
      ReplaceShort(a + s, pat, with);
      ReplaceShort(s, pat, with);
    } else {
      assert (a + s)[1..] == a[1..] + s;
      ReplaceSkip(a[1..], s, pat, with);
      assert (a + s)[..|pat|][0] == a[0];
    }
  }

  lemma {:induction false} ReplaceBefore(t: string, z: string, c: char, with: string)
    requires z == [] || z[0] != c
    ensures ReplaceAll(t + z, [c, c], with) == ReplaceAll(t, [c, c], with) + ReplaceAll(z, [c, c], with)
  {
    hide ReplaceAll;
    if t == [] {
      assert t + z == z;
      ReplaceShort(t, [c, c], with);
    } else if |t| >= 2 && t[0] == t[1] == c {
      ReplaceBefore(t[2..], z, c, with);
      ReplacePair(t, c, with);
      ReplacePair(t + z, c, with);
      assert (t + z)[2..] == t[2..] + z;
    } else {
      ReplaceBefore(t[1..], z, c, with);
      ReplaceOne(t, c, with);
      ReplaceOne(t + z, c, with);
      assert (t + z)[1..] == t[1..] + z;
    }
  }

  lemma ReplacePair(s: string, c: char, with: string)
    requires |s| >= 2 && s[0] == s[1] == c
    ensures ReplaceAll(s, [c, c], with) == with + ReplaceAll(s[2..], [c, c], with)
  {
    assert s[..2] == [c, c];
  }

  lemma ReplaceOne(s: string, c: char, with: string)
    requires s != [] && (|s| == 1 || s[0] != c || s[1] != c)
    ensures ReplaceAll(s, [c, c], with) == [s[0]] + ReplaceAll(s[1..], [c, c], with)
  {
    if |s| >= 2 { assert s[..2] == [s[0], s[1]]; }
  }

  lemma {:induction false} FlattenAppend(d: Doc, m: Mark, e: Doc)
    ensures Flatten(Append(d, m, e)) == Flatten(d) + Sentinel(m) + Flatten(e)
  {
    if d.Cut? { FlattenAppend(d.rest, m, e); }
  }

  lemma FlattenPrepend(t: string, d: Doc)
    ensures Flatten(Prepend(t, d)) == t + Flatten(d)
  {
  }

  lemma {:induction false} ReplaceText(t: string, c: char, m: Mark)
    ensures ReplaceAll(t, [c, c], Sentinel(m)) == Flatten(CutText(t, c, m))
  {
    if |t| < 2 {
    } else if t[..2] == [c, c] {
      ReplaceText(t[2..], c, m);
    } else {
      ReplaceText(t[1..], c, m);
      FlattenPrepend([t[0]], CutText(t[1..], c, m));
    }
  }

  predicate NameChar(c: char) { 'A' <= c <= 'Z' || c == '_' }

  lemma NameChars(m: Mark)
    ensures forall c <- Name(m) :: NameChar(c)
  {
  }

  lemma NamesPlain(m: Mark)
    ensures NUL !in Name(m) && '{' !in Name(m) && '}' !in Name(m)
  {
    NameChars(m);
    assert !NameChar(NUL) && !NameChar('{') && !NameChar('}');
  }

  lemma ActionChars(m: Mark)
    ensures NUL !in Action(m)
  {
  }

  lemma ActionHead(m: Mark)
    ensures |Action(m)| > 2 && Action(m)[..2] == "{{" && Action(m)[2] == ' '
  {
    var a := Action(m);
    assert |a| > 2 && a[0] == '{' && a[1] == '{' && a[2] == ' ';
    assert a[..2] == [a[0], a[1]];
  }

  lemma ActionsPlain(m: Mark)
    ensures NUL !in Action(m) && |Action(m)| > 2 && Action(m)[0] == '{' && Action(m)[..2] == "{{" && Action(m)[2] == ' '
  {
    ActionChars(m);
    ActionHead(m);
    hide Action;
    assert Action(m)[..2][0] == '{';
  }

  /** A brace replacement marks the text and leaves the sentinels alone. */
  lemma ReplaceAcross(t: string, mark: string, rest: string, c: char, with: string)
    requires mark != [] && c !in mark
    ensures ReplaceAll(t + mark + rest, [c, c], with) ==
              ReplaceAll(t, [c, c], with) + mark + ReplaceAll(rest, [c, c], with)
  {
    var tail := mark + rest;
    assert t + mark + rest == t + tail && tail[0] == mark[0];
    ReplaceBefore(t, tail, c, with);
    ReplaceSkip(mark, rest, [c, c], with);
  }

  lemma {:induction false} ReplaceBraces(d: Doc, c: char, m: Mark)
    requires c == '{' || c == '}'
    ensures ReplaceAll(Flatten(d), [c, c], Sentinel(m)) == Flatten(CutAll(d, c, m))
  {
    ReplaceText(d.text, c, m);
    if d.Cut? {
      SentinelPlain(d.mark);
      ReplaceAcross(d.text, Sentinel(d.mark), Flatten(d.rest), c, Sentinel(m));
      ReplaceBraces(d.rest, c, m);
      FlattenAppend(CutText(d.text, c, m), d.mark, CutAll(d.rest, c, m));
    }
  }

  lemma SentinelPlain(m: Mark)
    ensures Sentinel(m) != [] && '{' !in Sentinel(m) && '}' !in Sentinel(m)
  {
    NamesPlain(m);
  }

  // ---- fields ----

  function Fields(d: Doc): (fs: seq<string>)
    ensures fs != []
  {
    match d
    case End(t) => [t]
    case Cut(t, m, r) => [t, Name(m)] + Fields(r)
  }

  lemma {:induction false} FlattenIsJoin(d: Doc)
    ensures Flatten(d) == Join(Fields(d), NUL)
  {
    if d.Cut? {
      FlattenIsJoin(d.rest);
      assert Fields(d)[1..] == [Name(d.mark)] + Fields(d.rest);
      assert ([Name(d.mark)] + Fields(d.rest))[1..] == Fields(d.rest);
    }
  }

  lemma {:induction false} FieldsFree(d: Doc)
    requires NulFree(d)
    ensures forall f <- Fields(d) :: NUL !in f
  {
    if d.Cut? {
      FieldsFree(d.rest);
      NamesPlain(d.mark);
    }
  }

  /** ReplaceAll of a sentinel, seen on the fields: a field that spells the name is glued away. */
  function Glue(fs: seq<string>, name: string, with: string): (gs: seq<string>)
    requires fs != []
    ensures gs != []
  {
    if |fs| < 3 then fs
    else if fs[1] == name then
      var gs := Glue(fs[2..], name, with);
      [fs[0] + with + gs[0]] + gs[1..]
    else
      [fs[0]] + Glue(fs[1..], name, with)
  }

  lemma {:induction false} GlueFree(fs: seq<string>, name: string, with: string)
    requires fs != [] && (forall f <- fs :: NUL !in f) && NUL !in with
    ensures forall g <- Glue(fs, name, with) :: NUL !in g
  {
    if |fs| >= 3 {
      if fs[1] == name { GlueFree(fs[2..], name, with); } else { GlueFree(fs[1..], name, with); }
    }
  }

  /** The first NUL of a text ends just one NUL-free prefix. */
  lemma FirstNul(a: string, b: string, s: string)
    requires NUL !in a && NUL !in b && a + [NUL] <= s && b + [NUL] <= s
    ensures a == b
  {
    assert s[|a|] == (a + [NUL])[|a|] && s[|b|] == (b + [NUL])[|b|];
    forall i | 0 <= i < |a| ensures s[i] != NUL { assert a[i] in a && s[i] == (a + [NUL])[i]; }
    forall i | 0 <= i < |b| ensures s[i] != NUL { assert b[i] in b && s[i] == (b + [NUL])[i]; }
    assert |a| == |b|;
    assert forall i :: 0 <= i < |a| ==> a[i] == (a + [NUL])[i] == s[i] == (b + [NUL])[i] == b[i];
  }

  lemma NamePrefix(gs: seq<string>, name: string)
    requires gs != [] && (forall g <- gs :: NUL !in g) && NUL !in name
    ensures name + [NUL] <= Join(gs, NUL) <==> |gs| >= 2 && gs[0] == name
  {
    var s := Join(gs, NUL);
    if |gs| == 1 {
      forall i | 0 <= i < |s| ensures s[i] != NUL { assert s[i] in s; }
      assert (name + [NUL])[|name|] == NUL;
    } else {
      assert gs[0] + [NUL] <= s;
      if name + [NUL] <= s { FirstNul(name, gs[0], s); }
    }
  }

  lemma {:induction false} JoinFront(a: string, fs: seq<string>)
    requires fs != []
    ensures Join([a + fs[0]] + fs[1..], NUL) == a + Join(fs, NUL)
  {
    if |fs| > 1 {
      assert ([a + fs[0]] + fs[1..])[1..] == fs[1..];
    }
  }

  lemma {:induction false} ReplaceIsGlue(fs: seq<string>, name: string, with: string)
    requires fs != [] && (forall f <- fs :: NUL !in f) && NUL !in name && NUL !in with
    ensures ReplaceAll(Join(fs, NUL), [NUL] + name + [NUL], with) == Join(Glue(fs, name, with), NUL)
  {
    hide ReplaceAll, Join;
    var pat := [NUL] + name + [NUL];
    if |fs| == 1 {
      ReplaceShort("", pat, with);
      ReplaceSkip(fs[0], "", pat, with);
      JoinOne(fs[0]);
      assert fs == [fs[0]];
      assert fs[0] + "" == fs[0];
    } else {
      var more := Join(fs[1..], NUL);
      JoinCons(fs[0], fs[1..]);
      assert fs == [fs[0]] + fs[1..];
      ReplaceSkip(fs[0], [NUL] + more, pat, with);
      NamePrefix(fs[1..], name);
      ReplaceAtNul(more, name, with);
      if |fs| >= 3 && fs[1] == name {
        ReplaceIsGlue(fs[2..], name, with);
        JoinFront(fs[0] + with, Glue(fs[2..], name, with));
        assert fs[1..] == [name] + fs[2..];
        JoinCons(name, fs[2..]);
        assert (name + ([NUL] + Join(fs[2..], NUL)))[|name| + 1..] == Join(fs[2..], NUL);
      } else {
        ReplaceIsGlue(fs[1..], name, with);
        GlueMiss(fs, name, with);
        JoinCons(fs[0], Glue(fs[1..], name, with));
      }
    }
  }

  lemma GlueMiss(fs: seq<string>, name: string, with: string)
    requires |fs| >= 2 && (|fs| < 3 || fs[1] != name)
    ensures Glue(fs, name, with) == [fs[0]] + Glue(fs[1..], name, with)
  {
  }

  lemma JoinOne(a: string)
    ensures Join([a], NUL) == a
  {
  }

  lemma JoinCons(a: string, fs: seq<string>)
    requires fs != []
    ensures Join([a] + fs, NUL) == a + ([NUL] + Join(fs, NUL))
  {
    assert ([a] + fs)[1..] == fs;
  }

  /** ReplaceAll standing at a NUL. */
  lemma ReplaceAtNul(s: string, name: string, with: string)
    ensures var pat := [NUL] + name + [NUL];
            ReplaceAll([NUL] + s, pat, with) ==
              if name + [NUL] <= s then with + ReplaceAll(s[|name| + 1..], pat, with)
              else [NUL] + ReplaceAll(s, pat, with)
  {
    var pat := [NUL] + name + [NUL];
    var all := [NUL] + s;
    assert all[1..] == s && pat[1..] == name + [NUL];
    if name + [NUL] <= s {
      assert all[..|pat|] == pat && all[|pat|..] == s[|name| + 1..];
    } else if |all| < |pat| {
      ReplaceShort(all, pat, with);
      ReplaceShort(s, pat, with);
    } else {
      assert all[..|pat|][1..] == s[..|name| + 1];
    }
  }

  // ---- the six sentinel replacements, in order ----

  function MarkAt(p: nat): (m: Mark)
    requires p < 6
    ensures Phase(m) == p
  {
    [OpenBraces, CloseBraces, Namespace, Issuer, Store, Release][p]
  }

  function GlueFrom(fs: seq<string>, p: nat): (gs: seq<string>)
    requires fs != [] && p <= 6
    ensures gs != []
    decreases 6 - p
  {
    if p == 6 then fs else GlueFrom(Glue(fs, Name(MarkAt(p)), Action(MarkAt(p))), p + 1)
  }

  function Subst(d: Doc, m: Mark): Doc
  {
    match d
    case End(t) => d
    case Cut(t, k, r) =>
      if k == m then Prepend(t + Action(m), Subst(r, m)) else Cut(t, k, Subst(r, m))
  }

  /** Only marks of phase p and later are left. */
  predicate Late(d: Doc, p: nat)
  {
    d.Cut? ==> Phase(d.mark) >= p && Late(d.rest, p)
  }

  predicate StealFrom(d: Doc, p: nat)
  {
    exists m: Mark :: Phase(m) >= p && Steal(d, m)
  }

  predicate OddBrace(fs: seq<string>) { fs != [] && EvenBrace(fs[1..]) }

  predicate EvenBrace(fs: seq<string>) { fs != [] && ('{' in fs[0] || OddBrace(fs[1..])) }

  lemma {:induction false} SubstLate(d: Doc, m: Mark)
    requires Late(d, Phase(m))
    ensures Late(Subst(d, m), Phase(m) + 1)
  {
    if d.Cut? { SubstLate(d.rest, m); }
  }

  lemma {:induction false} SubstLive(d: Doc, m: Mark)
    ensures Live(Subst(d, m)) == Live(d)
  {
    if d.Cut? { SubstLive(d.rest, m); }
  }

  lemma {:induction false} SubstSteal(d: Doc, m: Mark, n: Mark)
    requires Phase(m) < Phase(n)
    ensures Steal(Subst(d, m), n) == Steal(d, n)
  {
    hide Name, Action;
    if d.Cut? {
      SubstSteal(d.rest, m, n);
      if d.mark != m && d.rest.Cut? && d.rest.mark == m {
        NamesPlain(n);
        ActionsPlain(m);
        assert Subst(d.rest, m).text[|d.rest.text|] == '{';
      }
    }
  }

  /** What gluing does at the first separator, for any name between the first two texts. */
  lemma GlueStepCases(t: string, k: string, fs: seq<string>, name: string, with: string)
    requires fs != [] && '{' in with
    ensures var all := [t, k] + fs;
            var gs, rest := Glue(all, name, with), Glue(fs, name, with);
            && (k == name ==> gs == [t + with + rest[0]] + rest[1..])
            && (k != name && (|fs| == 1 || fs[0] != name) ==> gs == [t, k] + rest)
            && (k != name && |fs| > 1 && fs[0] == name ==> OddBrace(gs))
  {
    var all := [t, k] + fs;
    var inner := [k] + fs;
    assert all[1..] == inner && all[2..] == fs;
    if k != name {
      assert Glue(all, name, with) == [t] + Glue(inner, name, with);
      if |fs| > 1 && fs[0] == name {
        GlueInner(t, k, fs, name, with);
      } else {
        assert inner[1..] == fs;
      }
    }
  }

  lemma GlueInner(t: string, k: string, fs: seq<string>, name: string, with: string)
    requires |fs| > 1 && fs[0] == name && '{' in with
    ensures OddBrace([t] + Glue([k] + fs, name, with))
  {
    var inner := [k] + fs;
    assert inner[2..] == fs[1..];
    var more := Glue(fs[1..], name, with);
    var glued := [k + with + more[0]] + more[1..];
    assert Glue(inner, name, with) == glued && ([t] + glued)[1..] == glued;
    var i :| 0 <= i < |with| && with[i] == '{';
    assert glued[0][|k| + i] == '{';
  }

  lemma OddBraceSkip(t: string, k: string, fs: seq<string>)
    requires fs != [] && '{' !in k
    ensures OddBrace([t, k] + fs) == OddBrace(fs)
  {
    var all := [t, k] + fs;
    assert all[1..] == [k] + fs && all[1..][1..] == fs;
  }

  lemma OddBraceHead(a: string, b: string, fs: seq<string>)
    ensures OddBrace([a] + fs) == OddBrace([b] + fs)
  {
    assert ([a] + fs)[1..] == fs == ([b] + fs)[1..];
  }

  lemma NamesDiffer(k: Mark, m: Mark)
    requires k != m
    ensures Name(k) != Name(m)
  {
    if |Name(k)| == |Name(m)| { assert Name(k)[0] != Name(m)[0]; }
  }

  /** One phase substitutes its own marks, unless a literal steals the name. */
  lemma {:induction false} GlueDoc(d: Doc, m: Mark)
    requires Late(d, Phase(m))
    ensures var gs := Glue(Fields(d), Name(m), Action(m));
            if Steal(d, m) then OddBrace(gs) else gs == Fields(Subst(d, m))
  {
    hide Name, Action;
    if d.Cut? {
      ActionsPlain(m);
      GlueDoc(d.rest, m);
      GlueStepCases(d.text, Name(d.mark), Fields(d.rest), Name(m), Action(m));
      GlueDocStep(d, m, Glue(Fields(d.rest), Name(m), Action(m)), Glue(Fields(d), Name(m), Action(m)), Name(d.mark),
                  Name(m));
    }
  }

  lemma GlueDocStep(d: Doc, m: Mark, rest: seq<string>, gs: seq<string>, k: string, name: string)
    requires d.Cut? && Late(d, Phase(m)) && rest != [] && k == Name(d.mark) && name == Name(m)
    requires if Steal(d.rest, m) then OddBrace(rest) else rest == Fields(Subst(d.rest, m))
    requires k == name ==> gs == [d.text + Action(m) + rest[0]] + rest[1..]
    requires k != name && (d.rest.End? || d.rest.text != name) ==> gs == [d.text, k] + rest
    requires k != name && d.rest.Cut? && d.rest.text == name ==> OddBrace(gs)
    ensures if Steal(d, m) then OddBrace(gs) else gs == Fields(Subst(d, m))
  {
    hide Name, Action;
    if d.mark == m {
      assert rest == [rest[0]] + rest[1..];
      OddBraceHead(d.text + Action(m) + rest[0], rest[0], rest[1..]);
      PrependFields(d.text + Action(m), Subst(d.rest, m));
    } else {
      NamesDiffer(d.mark, m);
      NamesPlain(d.mark);
      OddBraceSkip(d.text, k, rest);
    }
  }

  lemma PrependFields(t: string, d: Doc)
    ensures Fields(Prepend(t, d)) == [t + Fields(d)[0]] + Fields(d)[1..]
  {
  }

  lemma {:induction false} GlueKeepsBraces(fs: seq<string>, name: string, with: string)
    requires fs != [] && '{' !in name && '{' in with
    ensures OddBrace(fs) ==> OddBrace(Glue(fs, name, with))
    ensures EvenBrace(fs) ==> EvenBrace(Glue(fs, name, with))
  {
    if |fs| >= 3 {
      if fs[1] == name {
        var gs := Glue(fs[2..], name, with);
        GlueKeepsBraces(fs[2..], name, with);
        var r := [fs[0] + with + gs[0]] + gs[1..];
        var i :| 0 <= i < |with| && with[i] == '{';
        assert r[0][|fs[0]| + i] == '{';
        assert gs == [gs[0]] + gs[1..] && fs == [fs[0], fs[1]] + fs[2..];
        OddBraceHead(fs[0] + with + gs[0], gs[0], gs[1..]);
        OddBraceSkip(fs[0], fs[1], fs[2..]);
      } else {
        GlueKeepsBraces(fs[1..], name, with);
        var gs := Glue(fs[1..], name, with);
        assert ([fs[0]] + gs)[1..] == gs;
      }
    }
  }

  lemma {:induction false} GlueFromKeepsOdd(fs: seq<string>, p: nat)
    requires fs != [] && p <= 6 && OddBrace(fs)
    ensures OddBrace(GlueFrom(fs, p))
    decreases 6 - p
  {
    if p < 6 {
      NamesPlain(MarkAt(p));
      ActionsPlain(MarkAt(p));
      GlueKeepsBraces(fs, Name(MarkAt(p)), Action(MarkAt(p)));
      GlueFromKeepsOdd(Glue(fs, Name(MarkAt(p)), Action(MarkAt(p))), p + 1);
    }
  }

  /** All phases together: every mark becomes its action, or some NUL is left over. */
  lemma {:induction false} GlueFromDoc(d: Doc, p: nat)
    requires p <= 6 && Late(d, p)
    ensures if StealFrom(d, p) then OddBrace(GlueFrom(Fields(d), p)) else GlueFrom(Fields(d), p) == [Live(d)]
    decreases 6 - p
  {
    hide Name, Action;
    if p < 6 {
      var m := MarkAt(p);
      GlueDoc(d, m);
      if Steal(d, m) {
        GlueFromKeepsOdd(Glue(Fields(d), Name(m), Action(m)), p + 1);
      } else {
        var e := Subst(d, m);
        SubstLate(d, m);
        SubstLive(d, m);
        forall n: Mark | Phase(n) > p ensures Steal(e, n) == Steal(d, n) { SubstSteal(d, m, n); }
        GlueFromDoc(e, p + 1);
        forall n: Mark | Phase(n) >= p && Steal(d, n) ensures Phase(n) > p {
          assert Phase(n) == p ==> n == m;
        }
        assert StealFrom(d, p) == StealFrom(e, p + 1);
      }
    }
  }

  // ---- the marked document ----

  predicate NoPair(t: string, c: char)
  {
    forall i :: 0 <= i < |t| - 1 ==> !(t[i] == c && t[i + 1] == c)
  }

  predicate NoPairs(d: Doc, c: char)
  {
    NoPair(d.text, c) && (d.Cut? ==> NoPairs(d.rest, c))
  }

  lemma {:induction false} CutTextNoPairs(t: string, c: char, m: Mark)
    ensures NoPairs(CutText(t, c, m), c) && CutText(t, c, m).text <= t
  {
    if |t| >= 2 {
      if t[..2] == [c, c] {
        CutTextNoPairs(t[2..], c, m);
      } else {
        CutTextNoPairs(t[1..], c, m);
        var u := CutText(t[1..], c, m).text;
        assert [t[0]] + u <= t;
        NoPairCons(t[0], u, c);
      }
    }
  }

  lemma NoPairCons(a: char, u: string, c: char)
    requires NoPair(u, c) && (u == [] || a != c || u[0] != c)
    ensures NoPair([a] + u, c)
  {
    var w := [a] + u;
    assert forall i :: 1 <= i < |w| ==> w[i] == u[i - 1];
  }

  /** Cutting a text keeps what it holds. */
  lemma {:induction false} CutTextFill(t: string, c: char, m: Mark, v: Values)
    requires Value(m, v) == [c, c]
    ensures NUL !in t ==> NulFree(CutText(t, c, m))
    ensures Fill(CutText(t, c, m), v) == t
  {
    if |t| >= 2 {
      if t[..2] == [c, c] {
        CutTextFill(t[2..], c, m, v);
        assert t == [] + [c, c] + t[2..];
      } else {
        CutTextFill(t[1..], c, m, v);
        PrependFill([t[0]], CutText(t[1..], c, m), v);
        assert t == [t[0]] + t[1..];
      }
    }
  }

  lemma PrependFill(t: string, d: Doc, v: Values)
    ensures Fill(Prepend(t, d), v) == t + Fill(d, v)
  {
    if d.Cut? {
      assert t + d.text + Value(d.mark, v) + Fill(d.rest, v) == t + (d.text + Value(d.mark, v) + Fill(d.rest, v));
    }
  }

  lemma {:induction false} CutTextKeepsNoPair(t: string, c: char, m: Mark, b: char)
    requires NoPair(t, b)
    ensures NoPairs(CutText(t, c, m), b) && CutText(t, c, m).text <= t
  {
    if |t| < 2 {
    } else if t[..2] == [c, c] {
      CutTextKeepsNoPair(t[2..], c, m, b);
    } else {
      CutTextKeepsNoPair(t[1..], c, m, b);
      assert t == [t[0]] + t[1..];
      var d := CutText(t[1..], c, m);
      var e := Prepend([t[0]], d);
      assert e.text <= t by { assert e.text == [t[0]] + d.text; }
      assert forall i :: 0 <= i < |e.text| ==> e.text[i] == t[i];
    }
  }

  lemma {:induction false} AppendFacts(d: Doc, k: Mark, e: Doc, c: char)
    ensures NoPairs(Append(d, k, e), c) == (NoPairs(d, c) && NoPairs(e, c))
    ensures NulFree(Append(d, k, e)) == (NulFree(d) && NulFree(e))
  {
    if d.Cut? { AppendFacts(d.rest, k, e, c); }
  }

  lemma {:induction false} AppendFill(d: Doc, k: Mark, e: Doc, v: Values)
    ensures Fill(Append(d, k, e), v) == Fill(d, v) + Value(k, v) + Fill(e, v)
  {
    if d.Cut? {
      AppendFill(d.rest, k, e, v);
      Assoc(d.text + Value(d.mark, v), Fill(d.rest, v), Value(k, v), Fill(e, v));
    }
  }

  lemma Assoc<T>(a: seq<T>, b: seq<T>, c: seq<T>, d: seq<T>)
    ensures a + (b + c + d) == a + b + c + d
  {
  }

  lemma {:induction false} AppendMarks(d: Doc, k: Mark, e: Doc)
    ensures Marks(Append(d, k, e)) == Marks(d) + [k] + Marks(e)
  {
    if d.Cut? { AppendMarks(d.rest, k, e); }
  }

  lemma {:induction false} CutAllFacts(d: Doc, c: char, m: Mark, v: Values)
    requires Value(m, v) == [c, c]
    ensures NoPairs(CutAll(d, c, m), c)
    ensures NulFree(d) ==> NulFree(CutAll(d, c, m))
    ensures Fill(CutAll(d, c, m), v) == Fill(d, v)
  {
    CutTextNoPairs(d.text, c, m);
    CutTextFill(d.text, c, m, v);
    if d.Cut? {
      CutAllFacts(d.rest, c, m, v);
      AppendFacts(CutText(d.text, c, m), d.mark, CutAll(d.rest, c, m), c);
      AppendFill(CutText(d.text, c, m), d.mark, CutAll(d.rest, c, m), v);
    }
  }

  lemma {:induction false} CutAllKeepsNoPairs(d: Doc, c: char, m: Mark, b: char)
    requires NoPairs(d, b)
    ensures NoPairs(CutAll(d, c, m), b)
  {
    CutTextKeepsNoPair(d.text, c, m, b);
    if d.Cut? {
      CutAllKeepsNoPairs(d.rest, c, m, b);
      AppendFacts(CutText(d.text, c, m), d.mark, CutAll(d.rest, c, m), b);
    }
  }

  /** The keys a list of marks has Helm look up, in order. */
  function Knobs(ms: seq<Mark>): seq<string>
  {
    if ms == [] then [] else KeysOf(ms[0]) + Knobs(ms[1..])
  }

  lemma {:induction false} KnobsConcat(a: seq<Mark>, b: seq<Mark>)
    ensures Knobs(a + b) == Knobs(a) + Knobs(b)
  {
    if a == [] {
      assert a + b == b;
    } else {
      var c := a[1..] + b;
      assert (a + b)[1..] == c && (a + b)[0] == a[0];
      KnobsConcat(a[1..], b);
      KnobsStep(a + b);
    }
  }

  lemma KnobsStep(ms: seq<Mark>)
    requires ms != []
    ensures Knobs(ms) == KeysOf(ms[0]) + Knobs(ms[1..])
  {
  }

  lemma {:induction false} CutTextKnobs(t: string, c: char, m: Mark)
    requires Phase(m) < 2
    ensures Knobs(Marks(CutText(t, c, m))) == []
  {
    if |t| >= 2 {
      if t[..2] == [c, c] {
        CutTextKnobs(t[2..], c, m);
        assert Marks(CutText(t, c, m))[1..] == Marks(CutText(t[2..], c, m));
      } else {
        CutTextKnobs(t[1..], c, m);
        assert Marks(Prepend([t[0]], CutText(t[1..], c, m))) == Marks(CutText(t[1..], c, m));
      }
    }
  }

  lemma {:induction false} CutAllKnobs(d: Doc, c: char, m: Mark)
    requires Phase(m) < 2
    ensures Knobs(Marks(CutAll(d, c, m))) == Knobs(Marks(d))
  {
    CutTextKnobs(d.text, c, m);
    if d.Cut? {
      CutAllKnobs(d.rest, c, m);
      var head := Marks(CutText(d.text, c, m));
      AppendMarks(CutText(d.text, c, m), d.mark, CutAll(d.rest, c, m));
      KnobsConcat(head + [d.mark], Marks(CutAll(d.rest, c, m)));
      KnobsConcat(head, [d.mark]);
      KnobsConcat([d.mark], Marks(d.rest));
    }
  }

  // ---- evaluation ----

  lemma EmitEmit(a: string, b: string, m: seq<string>, n: seq<string>, r: Option<Rendering>)
    ensures Emit(a, m, Emit(b, n, r)) == Emit(a + b, m + n, r) && Emit("", [], r) == r
  {
    if r.Some? {
      assert a + (b + r.value.text) == a + b + r.value.text && m + (n + r.value.keys) == m + n + r.value.keys;
      assert "" + r.value.text == r.value.text && [] + r.value.keys == r.value.keys;
    }
  }

  lemma RenderEmpty(v: Values)
    ensures Render("", v) == Some(Rendering("", []))
  {
  }

  lemma {:induction false} RenderText(t: string, z: string, v: Values)
    requires NoPair(t, '{') && (t == [] || z == [] || t[|t| - 1] != '{' || z[0] != '{')
    ensures Render(t + z, v) == Emit(t, [], Render(z, v))
  {
    hide Render, Emit;
    if t == [] {
      assert t + z == z;
      EmitEmit("", "", [], [], Render(z, v));
    } else {
      var u := t[1..];
      assert t + z == [t[0]] + (u + z) && [t[0]] + u == t;
      assert forall i :: 0 <= i < |u| ==> u[i] == t[i + 1];
      RenderText(u, z, v);
      RenderChar(t[0], u + z, v);
      EmitEmit([t[0]], u, [], [], Render(z, v));
      var none: seq<string> := [];
      assert none + none == none;
    }
  }

  lemma RenderChar(c: char, s: string, v: Values)
    requires s == [] || c != '{' || s[0] != '{'
    ensures Render([c] + s, v) == Emit([c], [], Render(s, v))
  {
    hide Engine.Action, ValuesYaml;
    var all := [c] + s;
    assert all[1..] == s;
    if |all| < 2 {
      assert s == [] && all == [c];
      RenderEmpty(v);
      var none: seq<string> := [];
      assert [c] + "" == [c] && none + none == none;
    } else {
      assert all[..2][0] == c && all[..2][1] == s[0];
    }
  }

  /** Helm reads the action of a mark as what the mark stands for. */
  lemma ActionReads(m: Mark, z: string, v: Values)
    ensures Engine.Action(Action(m)[2..] + z, ValuesYaml(v)) == Some(Done(Value(m, v), KeysOf(m), z))
  {
    hide Engine.Action, Lookup, ValuesYaml, Action;
    if m.OpenBraces? || m.CloseBraces? {
      BraceActions();
      BracesRead(m, Value(m, v), z, v);
    } else {
      KnobActions(m);
      KnobKeys(m);
      YamlHolds(v);
      KeyReads(m, KeysOf(m)[0], z, v);
    }
  }

  lemma BraceActions()
    ensures Action(OpenBraces) == "{{ \"" + "{{" + "\" }}" && Action(CloseBraces) == "{{ \"" + "}}" + "\" }}"
  {
  }

  lemma KnobActions(m: Mark)
    requires Phase(m) >= 2
    ensures Action(m) == "{{ .Values." + KeysOf(m)[0] + " }}"
  {
    match m {
      case Namespace => NamespaceAction();
      case Issuer => IssuerAction();
      case Store => StoreAction();
      case Release => ReleaseAction();
    }
  }

  lemma NamespaceAction()
    ensures Action(Namespace) == "{{ .Values." + "namespace" + " }}"
  {
  }

  lemma IssuerAction()
    ensures Action(Issuer) == "{{ .Values." + "tlsIssuer" + " }}"
  {
  }

  lemma StoreAction()
    ensures Action(Store) == "{{ .Values." + "secretStore" + " }}"
  {
  }

  lemma ReleaseAction()
    ensures Action(Release) == "{{ .Values." + "prometheusRelease" + " }}"
  {
  }

  lemma KnobKeys(m: Mark)
    requires Phase(m) >= 2
    ensures KeysOf(m)[0] != "" && forall c <- KeysOf(m)[0] :: KeyChar(c)
  {
  }

  lemma BracesRead(m: Mark, braces: string, z: string, v: Values)
    requires Action(m) == "{{ \"" + braces + "\" }}" && forall c <- braces :: c == '{' || c == '}'
    ensures Engine.Action(Action(m)[2..] + z, ValuesYaml(v)) == Some(Done(braces, [], z))
  {
    hide Engine.Action, ValuesYaml;
    StringAction(braces, z, ValuesYaml(v));
    assert Action(m)[2..] + z == " \"" + braces + "\" }}" + z;
  }

  lemma YamlHolds(v: Values)
    ensures var y := ValuesYaml(v);
            && Lookup(y, "namespace") == v.namespace && Lookup(y, "tlsIssuer") == v.tlsIssuer
            && Lookup(y, "secretStore") == v.secretStore && Lookup(y, "prometheusRelease") == v.prometheusRelease
  {
    assert "namespace"[0] == 'n' && "tlsIssuer"[0] == 't' && "secretStore"[0] == 's' && "prometheusRelease"[0] == 'p';
  }

  lemma KeyReads(m: Mark, key: string, z: string, v: Values)
    requires key != "" && (forall c <- key :: KeyChar(c)) && Action(m) == "{{ .Values." + key + " }}"
    ensures Engine.Action(Action(m)[2..] + z, ValuesYaml(v)) == Some(Done(Lookup(ValuesYaml(v), key), [key], z))
  {
    hide Engine.Action, ValuesYaml, Lookup;
    ValueAction(key, z, ValuesYaml(v));
    assert Action(m)[2..] + z == " .Values." + key + " }}" + z;
  }

  lemma RenderAction(m: Mark, z: string, v: Values)
    ensures Render(Action(m) + z, v) == Emit(Value(m, v), KeysOf(m), Render(z, v))
  {
    ActionReads(m, z, v);
    ActionsPlain(m);
    hide Engine.Action, Action, Value, KeysOf, ValuesYaml;
    var s := Action(m) + z;
    assert s[..2] == Action(m)[..2];
    assert s[2..] == Action(m)[2..] + z;
  }

  lemma RenderLoneBrace(m: Mark, z: string, v: Values)
    ensures Render("{" + Action(m) + z, v) == None
  {
    var s := "{" + Action(m) + z;
    ActionsPlain(m);
    hide Engine.Action, Action, ValuesYaml;
    assert s[0] == '{' && s[1] == Action(m)[0] && s[2] == Action(m)[1] == Action(m)[..2][1] == '{';
    assert s[..2] == "{{" && s[2..] == "{" + s[3..];
    BraceIsError(s[3..], ValuesYaml(v));
  }

  lemma {:induction false} RenderLive(d: Doc, v: Values)
    requires NoPairs(d, '{')
    ensures Render(Live(d), v) == if LoneBrace(d) then None else Some(Rendering(Fill(d, v), Knobs(Marks(d))))
  {
    hide Action, Value, Render, KeysOf;
    if d.End? {
      RenderText(d.text, "", v);
      RenderEmpty(v);
      var none: seq<string> := [];
      assert d.text + "" == d.text && none + none == none;
    } else {
      RenderLive(d.rest, v);
      RenderCut(d.text, d.mark, Live(d.rest), v);
      EmitEmit(d.text, Value(d.mark, v), [], KeysOf(d.mark), Render(Live(d.rest), v));
      assert [] + KeysOf(d.mark) == KeysOf(d.mark);
      KnobsStep(Marks(d));
      assert Marks(d)[1..] == Marks(d.rest);
    }
  }

  /** A text without pairs and an action, with anything after them. */
  lemma RenderCut(t: string, m: Mark, z: string, v: Values)
    requires NoPair(t, '{')
    ensures Render(t + Action(m) + z, v) ==
              if t != [] && t[|t| - 1] == '{' then None else Emit(t, [], Emit(Value(m, v), KeysOf(m), Render(z, v)))
  {
    hide Action, Value, Render, KeysOf;
    RenderAction(m, z, v);
    RenderLoneBrace(m, z, v);
    ActionsPlain(m);
    var tail := Action(m) + z;
    assert t + Action(m) + z == t + tail && "{" + Action(m) + z == "{" + tail;
    if t != [] && t[|t| - 1] == '{' {
      RenderAfterLone(t, tail, v);
    } else {
      RenderText(t, tail, v);
    }
  }

  lemma RenderAfterLone(t: string, tail: string, v: Values)
    requires NoPair(t, '{') && t != [] && t[|t| - 1] == '{'
    requires Render("{" + tail, v) == None
    ensures Render(t + tail, v) == None
  {
    var head := t[..|t| - 1];
    assert t + tail == head + ("{" + tail);
    RenderText(head, "{" + tail, v);
  }

  lemma RenderKeepsNul(s: string, v: Values)
    requires NUL in s
    ensures Render(s, v).Some? ==> NUL in Render(s, v).value.text
  {
    EvalKeeps(s, NUL, ValuesYaml(v));
  }

  // ---- the round trip ----

  lemma ChartTemplateIsGlue(d: Doc)
    requires NulFree(d)
    ensures NulFree(Marked(d))
    ensures ChartTemplate(Flatten(d)) == Join(GlueFrom(Fields(Marked(d)), 0), NUL)
  {
    hide Name, Action, ReplaceAll, Sentinel, Value;
    var v := Values("", "", "", "");
    BraceValues(v);
    var d1 := CutAll(d, '{', OpenBraces);
    ReplaceBraces(d, '{', OpenBraces);
    ReplaceBraces(d1, '}', CloseBraces);
    CutAllFacts(d, '{', OpenBraces, v);
    CutAllFacts(d1, '}', CloseBraces, v);
    FlattenIsJoin(Marked(d));
    FieldsFree(Marked(d));
    var f0 := Fields(Marked(d));
    GlueStep(f0, 0);
    var f1 := Glue(f0, Name(OpenBraces), Action(OpenBraces));
    GlueStep(f1, 1);
    var f2 := Glue(f1, Name(CloseBraces), Action(CloseBraces));
    GlueStep(f2, 2);
    var f3 := Glue(f2, Name(Namespace), Action(Namespace));
    GlueStep(f3, 3);
    var f4 := Glue(f3, Name(Issuer), Action(Issuer));
    GlueStep(f4, 4);
    var f5 := Glue(f4, Name(Store), Action(Store));
    GlueStep(f5, 5);
  }

  lemma BraceValues(v: Values)
    ensures Value(OpenBraces, v) == ['{', '{'] == "{{" && Value(CloseBraces, v) == ['}', '}'] == "}}"
  {
  }

  lemma GlueStep(fs: seq<string>, p: nat)
    requires fs != [] && (forall f <- fs :: NUL !in f) && p < 6
    ensures var m := MarkAt(p);
            && ReplaceAll(Join(fs, NUL), Sentinel(m), Action(m)) == Join(Glue(fs, Name(m), Action(m)), NUL)
            && (forall g <- Glue(fs, Name(m), Action(m)) :: NUL !in g)
            && GlueFrom(fs, p) == GlueFrom(Glue(fs, Name(m), Action(m)), p + 1)
  {
    hide Name, Action, ReplaceAll;
    var m := MarkAt(p);
    NamesPlain(m);
    ActionsPlain(m);
    ReplaceIsGlue(fs, Name(m), Action(m));
    GlueFree(fs, Name(m), Action(m));
  }

  predicate NulFreeValues(v: Values)
  {
    NUL !in v.namespace && NUL !in v.tlsIssuer && NUL !in v.secretStore && NUL !in v.prometheusRelease
  }

  lemma {:induction false} FillNulFree(d: Doc, v: Values)
    requires NulFree(d) && NulFreeValues(v)
    ensures NUL !in Fill(d, v)
  {
    if d.Cut? { FillNulFree(d.rest, v); }
  }

  /**
    The round trip, exactly: Helm with the default values gives back the manifest with those
    values, and looks up just the keys of the manifest's knobs, if and only if no text between two
    marks is stolen and no single `{` is left before a mark.
   */
  lemma HelmRoundTrip(d: Doc, v: Values)
    requires NulFree(d) && KnobsOnly(d) && NulFreeValues(v)
    ensures var r := Render(ChartTemplate(Flatten(d)), v);
            && (r.Some? && r.value.text == Fill(d, v) <==> !Stolen(Marked(d)) && !LoneBrace(Marked(d)))
            && (!Stolen(Marked(d)) && !LoneBrace(Marked(d)) ==> r.value.keys == Knobs(Marks(d)))
  {
    hide Name, Action, Value, Render, KeysOf;
    var k := Marked(d);
    ChartTemplateIsGlue(d);
    MarkedFacts(d, v);
    AllLate(k);
    GlueFromDoc(k, 0);
    assert Stolen(k) == StealFrom(k, 0) by {
      assert forall m: Mark :: m.OpenBraces? || m.CloseBraces? || m.Namespace? || m.Issuer? || m.Store? || m.Release?;
      assert Stolen(k) ==> exists m: Mark :: Phase(m) >= 0 && Steal(k, m);
    }
    var out := ChartTemplate(Flatten(d));
    if Stolen(k) {
      var fs := GlueFrom(Fields(k), 0);
      assert |fs| > 1;
      assert out[|fs[0]|] == NUL;
      RenderKeepsNul(out, v);
      FillNulFree(d, v);
    } else {
      assert out == Live(k);
      RenderLive(k, v);
    }
  }

  lemma AllLate(d: Doc)
    ensures Late(d, 0)
  {
  }

  lemma MarkedFacts(d: Doc, v: Values)
    requires KnobsOnly(d)
    ensures NoPairs(Marked(d), '{') && Fill(Marked(d), v) == Fill(d, v) && Knobs(Marks(Marked(d))) == Knobs(Marks(d))
  {
    hide Value, Name, Action;
    BraceValues(v);
    var d1 := CutAll(d, '{', OpenBraces);
    CutAllFacts(d, '{', OpenBraces, v);
    CutAllFacts(d1, '}', CloseBraces, v);
    CutAllKeepsNoPairs(d1, '}', CloseBraces, '{');
    CutAllKnobs(d, '{', OpenBraces);
    CutAllKnobs(d1, '}', CloseBraces);
  }

  // ---- a manifest that does not survive ----

  /** One document after the other. */
  function Concat(d: Doc, e: Doc): Doc
  {
    match d
    case End(t) => Prepend(t, e)
    case Cut(t, m, r) => Cut(t, m, Concat(r, e))
  }

  function Tail(d: Doc): string { if d.Cut? then Tail(d.rest) else d.text }

  predicate EndsWith(t: string, c: char) { t != [] && t[|t| - 1] == c }

  /** No pair lies across the seam. */
  predicate Apart(t: string, u: string, c: char) { !EndsWith(t, c) || u == [] || u[0] != c }

  lemma PrependTwice(t: string, u: string, d: Doc)
    ensures Prepend(t, Prepend(u, d)) == Prepend(t + u, d)
  {
    assert t + (u + d.text) == t + u + d.text;
  }

  lemma CutFirst(t: string, c: char, m: Mark)
    requires |t| >= 2 && t[..2] != [c, c]
    ensures CutText(t, c, m) == Prepend([t[0]], CutText(t[1..], c, m))
  {
  }

  lemma {:induction false} CutSeam(t: string, u: string, c: char, m: Mark)
    requires Apart(t, u, c)
    ensures CutText(t + u, c, m) == Concat(CutText(t, c, m), CutText(u, c, m))
  {
    if |t| < 2 {
      CutSeamShort(t, u, c, m);
    } else {
      assert (t + u)[..2] == t[..2];
      if t[..2] == [c, c] {
        assert (t + u)[2..] == t[2..] + u;
        CutSeam(t[2..], u, c, m);
      } else {
        assert (t + u)[1..] == t[1..] + u;
        CutSeam(t[1..], u, c, m);
        CutFirst(t, c, m);
        CutFirst(t + u, c, m);
        hide CutText, Prepend, Concat;
        PrependConcat([t[0]], CutText(t[1..], c, m), CutText(u, c, m));
      }
    }
  }

  lemma CutSeamShort(t: string, u: string, c: char, m: Mark)
    requires Apart(t, u, c) && |t| < 2
    ensures CutText(t + u, c, m) == Prepend(t, CutText(u, c, m))
  {
    if t == [] {
      assert t + u == u;
      var d := CutText(u, c, m);
      assert t + d.text == d.text;
    } else if u == [] {
      assert t + u == t;
    } else {
      assert (t + u)[1..] == u && (t + u)[..2] == [t[0], u[0]];
      CutFirst(t + u, c, m);
    }
  }

  lemma PrependConcat(t: string, d: Doc, e: Doc)
    ensures Prepend(t, Concat(d, e)) == Concat(Prepend(t, d), e)
  {
    if d.End? { PrependTwice(t, d.text, e); }
  }

  lemma {:induction false} AppendConcat(d: Doc, e: Doc, k: Mark, r: Doc)
    ensures Append(Concat(d, e), k, r) == Concat(d, Append(e, k, r))
  {
    if d.Cut? { AppendConcat(d.rest, e, k, r); }
  }

  lemma {:induction false} ConcatAppend(d: Doc, k: Mark, r: Doc, e: Doc)
    ensures Concat(Append(d, k, r), e) == Append(d, k, Concat(r, e))
  {
    if d.Cut? { ConcatAppend(d.rest, k, r, e); }
  }

  /** Cutting pairs on both sides of a seam that no pair lies across. */
  lemma {:induction false} CutAllSeam(d: Doc, e: Doc, c: char, m: Mark)
    requires Apart(Tail(d), e.text, c)
    ensures CutAll(Concat(d, e), c, m) == Concat(CutAll(d, c, m), CutAll(e, c, m))
  {
    hide CutText;
    if d.Cut? {
      CutAllSeam(d.rest, e, c, m);
      ConcatAppend(CutText(d.text, c, m), d.mark, CutAll(d.rest, c, m), CutAll(e, c, m));
    } else {
      CutSeam(d.text, e.text, c, m);
      if e.Cut? {
        AppendConcat(CutText(d.text, c, m), CutText(e.text, c, m), e.mark, CutAll(e.rest, c, m));
      }
    }
  }

  lemma {:induction false} CutTextTail(t: string, c: char, m: Mark, b: char)
    requires !EndsWith(t, b)
    ensures !EndsWith(Tail(CutText(t, c, m)), b)
  {
    if |t| >= 2 {
      if t[..2] == [c, c] {
        CutTextTail(t[2..], c, m, b);
      } else {
        CutTextTail(t[1..], c, m, b);
        TailOfPrepend([t[0]], CutText(t[1..], c, m));
        if CutText(t[1..], c, m).End? { CutTextWhole(t[1..], c, m); }
      }
    }
  }

  lemma TailOfPrepend(t: string, d: Doc)
    ensures Tail(Prepend(t, d)) == if d.Cut? then Tail(d) else t + d.text
  {
  }

  lemma {:induction false} CutTextWhole(t: string, c: char, m: Mark)
    requires CutText(t, c, m).End?
    ensures CutText(t, c, m).text == t
  {
    if |t| >= 2 { CutTextWhole(t[1..], c, m); }
  }

  lemma {:induction false} AppendTail(d: Doc, k: Mark, r: Doc)
    ensures Tail(Append(d, k, r)) == Tail(r)
  {
    if d.Cut? { AppendTail(d.rest, k, r); }
  }

  lemma {:induction false} CutAllTail(d: Doc, c: char, m: Mark, b: char)
    requires !EndsWith(Tail(d), b)
    ensures !EndsWith(Tail(CutAll(d, c, m)), b)
  {
    if d.Cut? {
      CutAllTail(d.rest, c, m, b);
      AppendTail(CutText(d.text, c, m), d.mark, CutAll(d.rest, c, m));
    } else {
      CutTextTail(d.text, c, m, b);
    }
  }

  lemma {:induction false} ConcatFacts(d: Doc, e: Doc)
    ensures NulFree(Concat(d, e)) <==> NulFree(d) && NulFree(e)
    ensures KnobsOnly(Concat(d, e)) <==> KnobsOnly(d) && KnobsOnly(e)
  {
    if d.Cut? { ConcatFacts(d.rest, e); }
  }

  lemma {:induction false} StealLater(d: Doc, e: Doc, m: Mark)
    requires Steal(e, m) && Phase(m) < Phase(e.mark)
    ensures Steal(Concat(d, e), m)
  {
    if d.Cut? { StealLater(d.rest, e, m); }
  }

  const LITERAL := "}}O}}"

  lemma LiteralIsKept(e: Doc)
    ensures CutAll(Prepend(LITERAL, e), '{', OpenBraces) == Prepend(LITERAL, CutAll(e, '{', OpenBraces))
  {
    CutAllSeam(End(LITERAL), e, '{', OpenBraces);
    CutNothing(LITERAL, '{', OpenBraces);
  }

  lemma LiteralIsCut(e: Doc)
    ensures var d := CutAll(Prepend(LITERAL, e), '}', CloseBraces); Steal(d, OpenBraces) && d.mark == CloseBraces
  {
    hide CutText;
    var d := LiteralText(e.text);
    var cut := Cut("", CloseBraces, Cut("O", CloseBraces, d));
    assert CutAll(Prepend(LITERAL, e), '}', CloseBraces)
        == if e.Cut? then Append(cut, e.mark, CutAll(e.rest, '}', CloseBraces)) else cut;
    hide CutAll;
    assert "O" == Name(OpenBraces);
  }

  lemma LiteralText(t: string) returns (d: Doc)
    ensures CutText(LITERAL + t, '}', CloseBraces) == Cut("", CloseBraces, Cut("O", CloseBraces, d))
  {
    d := CutText(t, '}', CloseBraces);
    CutPair("O}}" + t, '}', CloseBraces);
    CutPair(t, '}', CloseBraces);
    var o := "O}}" + t;
    assert LITERAL + t == ['}', '}'] + o && o[1..] == ['}', '}'] + t && o[..2] == ['O', '}'];
    assert CutText(o, '}', CloseBraces) == Prepend("O", Cut("", CloseBraces, d));
    assert "O" + "" == "O";
  }

  /**
    The O between two closing pairs is taken for a placeholder: a manifest that holds this text
    anywhere, not right after a brace, is not what Helm gives back.
   */
  lemma HelmBreaksOnLiteral(before: Doc, after: Doc, v: Values)
    requires NulFree(before) && NulFree(after) && KnobsOnly(before) && KnobsOnly(after) && NulFreeValues(v)
    requires !EndsWith(Tail(before), '}')
    ensures var d := Concat(before, Prepend(LITERAL, after));
            var r := Render(ChartTemplate(Flatten(d)), v);
            !(r.Some? && r.value.text == Fill(d, v))
  {
    hide Render, ChartTemplate, Action, Value, CutText, CutAll, Steal;
    var e := Prepend(LITERAL, after);
    var d := Concat(before, e);
    ConcatFacts(before, e);
    CutAllSeam(before, e, '{', OpenBraces);
    LiteralIsKept(after);
    var b1, a1 := CutAll(before, '{', OpenBraces), CutAll(after, '{', OpenBraces);
    CutAllTail(before, '{', OpenBraces, '}');
    CutAllSeam(b1, Prepend(LITERAL, a1), '}', CloseBraces);
    LiteralIsCut(a1);
    StealLater(CutAll(b1, '}', CloseBraces), CutAll(Prepend(LITERAL, a1), '}', CloseBraces), OpenBraces);
    assert Steal(Marked(d), OpenBraces);
    HelmRoundTrip(d, v);
  }

  lemma CutPair(t: string, c: char, m: Mark)
    ensures CutText([c, c] + t, c, m) == Cut("", m, CutText(t, c, m))
  {
    assert ([c, c] + t)[..2] == [c, c] && ([c, c] + t)[2..] == t;
  }

  lemma {:induction false} CutNothing(t: string, c: char, m: Mark)
    requires c !in t
    ensures CutText(t, c, m) == End(t)
  {
    if |t| >= 2 {
      assert t[..2][0] == t[0];
      CutNothing(t[1..], c, m);
      assert [t[0]] + t[1..] == t;
    }
  }
}
