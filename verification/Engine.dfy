/**
  Helm's template engine, as far as charts made by the generator use it: text is copied, an action is
  either a quoted string or a reference to a value, with blanks around it.

  Nothing here knows what the generator writes. Other actions, string escapes and trim markers are
  errors; a key without a value prints nothing.
 */
module Engine {
  import opened Basics

  /** The output, and the keys looked up on the way. */
  datatype Rendering = Rendering(text: string, keys: seq<string>)

  function Emit(head: string, keys: seq<string>, r: Option<Rendering>): Option<Rendering>
  {
    match r
    case None => None
    case Some(x) => Some(Rendering(head + x.text, keys + x.keys))
  }

  // ---- one action ----

  /** What an action prints and looks up, and the template after it. */
  datatype Done = Done(text: string, keys: seq<string>, rest: string)

  function SkipBlanks(s: string): (r: string)
    ensures |r| <= |s|
  {
    if s != "" && s[0] == ' ' then SkipBlanks(s[1..]) else s
  }

  predicate KeyChar(c: char)
  {
    'a' <= c <= 'z' || 'A' <= c <= 'Z' || '0' <= c <= '9' || c == '_'
  }

  /** How many characters of a key the text starts with. */
  function KeyLength(s: string): (n: nat)
    ensures n <= |s|
  {
    if s != "" && KeyChar(s[0]) then 1 + KeyLength(s[1..]) else 0
  }

  /** The length of a string literal up to its closing quote. */
  function QuotedLength(s: string): (n: Option<nat>)
    ensures n.Some? ==> n.value < |s|
  {
    if s == "" || s[0] == '\\' || s[0] == '\n' then None
    else if s[0] == '"' then Some(0)
    else
      var n := QuotedLength(s[1..]);
      if n.None? then None else Some(1 + n.value)
  }

  /** The end of an action: blanks and two braces. */
  function Close(s: string): (rest: Option<string>)
    ensures rest.Some? ==> |rest.value| < |s|
  {
    var s := SkipBlanks(s);
    if "}}" <= s then Some(s[2..]) else None
  }

  function Lookup(values: map<string, string>, key: string): string { if key in values then values[key] else "" }

  const VALUES := ".Values."

  /** The action that starts after two braces. */
  function Action(s: string, values: map<string, string>): (r: Option<Done>)
    ensures r.Some? ==> |r.value.rest| < |s|
  {
    var a := SkipBlanks(s);
    if a != "" && a[0] == '"' then
      var n := QuotedLength(a[1..]);
      if n.None? then None
      else
        var rest := Close(a[n.value + 2..]);
        if rest.None? then None else Some(Done(a[1..n.value + 1], [], rest.value))
    else if VALUES <= a then
      var b := a[|VALUES|..];
      var n := KeyLength(b);
      var rest := Close(b[n..]);
      if n == 0 || rest.None? then None else Some(Done(Lookup(values, b[..n]), [b[..n]], rest.value))
    else None
  }

  function Eval(s: string, values: map<string, string>): Option<Rendering>
    decreases |s|
  {
    if |s| < 2 then Some(Rendering(s, []))
    else if s[..2] == "{{" then
      var a := Action(s[2..], values);
      if a.None? then None else Emit(a.value.text, a.value.keys, Eval(a.value.rest, values))
    else
      Emit([s[0]], [], Eval(s[1..], values))
  }

  // ---- reading what has been written ----

  lemma {:induction false} ReadKey(key: string, z: string)
    requires (forall c <- key :: KeyChar(c)) && (z == "" || !KeyChar(z[0]))
    ensures KeyLength(key + z) == |key|
  {
    if key == "" {
      assert key + z == z;
    } else {
      assert key[0] in key && (key + z)[1..] == key[1..] + z;
      ReadKey(key[1..], z);
    }
  }

  lemma {:induction false} ReadQuoted(t: string, z: string)
    requires forall c <- t :: c != '"' && c != '\\' && c != '\n'
    ensures QuotedLength(t + "\"" + z) == Some(|t|)
  {
    var s := t + "\"" + z;
    if t == "" {
      assert s[0] == '"';
    } else {
      assert s[0] == t[0] && t[0] in t && s[1..] == t[1..] + "\"" + z;
      assert forall c :: c in t[1..] ==> c in t;
      ReadQuoted(t[1..], z);
    }
  }

  lemma ReadClose(z: string)
    ensures Close(" }}" + z) == Some(z)
  {
    var s := " }}" + z;
    assert s[1..] == "}}" + z && SkipBlanks("}}" + z) == "}}" + z;
    assert ("}}" + z)[2..] == z;
  }

  /** A quoted string prints itself. */
  lemma StringAction(t: string, z: string, values: map<string, string>)
    requires forall c <- t :: c != '"' && c != '\\' && c != '\n'
    ensures Action(" \"" + t + "\" }}" + z, values) == Some(Done(t, [], z))
  {
    var s := " \"" + t + "\" }}" + z;
    var a := "\"" + t + "\" }}" + z;
    assert s[1..] == a && SkipBlanks(a) == a && SkipBlanks(s) == a;
    assert a[1..] == t + "\"" + (" }}" + z);
    ReadQuoted(t, " }}" + z);
    assert a[|t| + 2..] == " }}" + z && a[1..|t| + 1] == t;
    ReadClose(z);
  }

  /** A reference prints the value of its key. */
  lemma ValueAction(key: string, z: string, values: map<string, string>)
    requires key != "" && forall c <- key :: KeyChar(c)
    ensures Action(" .Values." + key + " }}" + z, values) == Some(Done(Lookup(values, key), [key], z))
  {
    var s := " .Values." + key + " }}" + z;
    var a := ".Values." + key + " }}" + z;
    assert s[1..] == a && SkipBlanks(a) == a && SkipBlanks(s) == a;
    var b := key + (" }}" + z);
    assert VALUES <= a && a[8..] == b;
    ReadKey(key, " }}" + z);
    assert b[..|key|] == key && b[|key|..] == " }}" + z;
    ReadClose(z);
  }

  /** A brace where an action should start is an error. */
  lemma BraceIsError(z: string, values: map<string, string>)
    ensures Action("{" + z, values) == None
  {
    assert SkipBlanks("{" + z) == "{" + z;
  }

  // ---- no control character is lost ----

  lemma {:induction false} BlanksKeep(s: string, c: char)
    requires c != ' ' && c in s
    ensures c in SkipBlanks(s)
  {
    if s != "" && s[0] == ' ' { BlanksKeep(s[1..], c); }
  }

  lemma CloseKeeps(s: string, c: char)
    requires c != ' ' && c != '}' && c in s && Close(s).Some?
    ensures c in Close(s).value
  {
    BlanksKeep(s, c);
    var t := SkipBlanks(s);
    assert t == "}}" + t[2..];
  }

  lemma {:induction false} KeyIsPlain(s: string, c: char)
    requires !KeyChar(c)
    ensures c !in s[..KeyLength(s)]
  {
    if s != "" && KeyChar(s[0]) {
      KeyIsPlain(s[1..], c);
      assert s[..KeyLength(s)] == [s[0]] + s[1..][..KeyLength(s[1..])];
    }
  }

  /** What an action does not print it leaves in the text, unless it is part of the action's own syntax. */
  lemma ActionKeeps(s: string, c: char, values: map<string, string>)
    requires !KeyChar(c) && c != ' ' && c != '}' && c != '"' && c !in VALUES && c in s
    ensures var r := Action(s, values); r.Some? ==> c in r.value.text || c in r.value.rest
  {
    BlanksKeep(s, c);
    var a := SkipBlanks(s);
    if Action(s, values).Some? {
      hide SkipBlanks;
      if a[0] == '"' {
        QuotedKeeps(a, c, QuotedLength(a[1..]).value);
      } else {
        ReferenceKeeps(a, c);
      }
    }
  }

  lemma QuotedKeeps(a: string, c: char, n: nat)
    requires c != ' ' && c != '}' && c != '"' && c in a
    requires a != "" && a[0] == '"' && QuotedLength(a[1..]) == Some(n) && Close(a[n + 2..]).Some?
    ensures c in a[1..n + 1] || c in Close(a[n + 2..]).value
  {
    hide Close;
    QuoteAt(a[1..]);
    assert a[n + 1] == '"';
    assert a == [a[0]] + a[1..n + 1] + [a[n + 1]] + a[n + 2..];
    if c in a[n + 2..] { CloseKeeps(a[n + 2..], c); }
  }

  lemma ReferenceKeeps(a: string, c: char)
    requires !KeyChar(c) && c != ' ' && c != '}' && c !in VALUES && c in a && VALUES <= a
    requires var b := a[|VALUES|..]; Close(b[KeyLength(b)..]).Some?
    ensures var b := a[|VALUES|..]; c in Close(b[KeyLength(b)..]).value
  {
    hide Close;
    var b := a[|VALUES|..];
    assert a == VALUES + b;
    KeyIsPlain(b, c);
    assert b == b[..KeyLength(b)] + b[KeyLength(b)..];
    CloseKeeps(b[KeyLength(b)..], c);
  }

  lemma {:induction false} QuoteAt(s: string)
    ensures QuotedLength(s).Some? ==> s[QuotedLength(s).value] == '"'
  {
    if s != "" && s[0] != '"' { QuoteAt(s[1..]); }
  }

  lemma {:induction false} EvalKeeps(s: string, c: char, values: map<string, string>)
    requires !KeyChar(c) && c != ' ' && c != '}' && c != '{' && c != '"' && c !in VALUES && c in s
    ensures Eval(s, values).Some? ==> c in Eval(s, values).value.text
    decreases |s|
  {
    hide Action;
    if |s| < 2 {
    } else if s[..2] == "{{" {
      var a := Action(s[2..], values);
      if a.Some? {
        assert s == "{{" + s[2..];
        ActionKeeps(s[2..], c, values);
        if c in a.value.rest { EvalKeeps(a.value.rest, c, values); }
      }
    } else {
      assert s == [s[0]] + s[1..];
      if s[0] != c { EvalKeeps(s[1..], c, values); }
    }
  }
}
