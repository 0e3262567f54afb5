/**
  The retired-credentials log as text (internal/issuance: appendJSONLine, loadRevocations), and
  why the bundle may be modelled with a log of records.

  The JSON codec is a parameter; what is used of it is that it prints a record on one line without
  blanks at its ends and reads back what it printed.
 */
module RetiredLog {
  import opened Basics
  import opened Text
  import opened Bundle

  datatype Codec = Codec(encode: RetiredRecord -> string, decode: string -> Option<RetiredRecord>)

  ghost predicate Sound(c: Codec)
  {
    forall r: RetiredRecord ::
      && '\n' !in c.encode(r) && c.encode(r) != "" && TrimSpace(c.encode(r)) == c.encode(r)
      && c.decode(c.encode(r)) == Some(r)
  }

  /** One retired key and the time on record, if that parses. */
  datatype Entry = Entry(pub: Key, at: Option<int>)

  /** One more record at the end of the file. */
  function AppendRecord(c: Codec, text: string, r: RetiredRecord): string
  {
    text + c.encode(r) + "\n"
  }

  /** A line counts if it is not blank, parses, and names a user key. */
  function ParseLine(c: Codec, line: string): Option<RetiredRecord>
  {
    var t := TrimSpace(line);
    if t == "" then None
    else
      match c.decode(t)
      case None => None
      case Some(r) => if r.oldUserPub.None? then None else Some(r)
  }

  function Records(c: Codec, lines: seq<string>): (rs: seq<RetiredRecord>)
    ensures forall r <- rs :: r.oldUserPub.Some?
  {
    if lines == [] then []
    else
      var last := ParseLine(c, lines[|lines| - 1]);
      Records(c, lines[..|lines| - 1]) + (if last.Some? then [last.value] else [])
  }

  /** The entries of one account, in file order. */
  function Entries(rs: seq<RetiredRecord>, account: string): seq<Entry>
    requires forall r <- rs :: r.oldUserPub.Some?
  {
    if rs == [] then []
    else
      var r := rs[|rs| - 1];
      Entries(rs[..|rs| - 1], account) + (if r.account == account then [Entry(r.oldUserPub.value, r.rotatedAt)] else [])
  }

  ghost predicate GroupedAs(rs: seq<RetiredRecord>, out: map<string, seq<Entry>>)
    requires forall r <- rs :: r.oldUserPub.Some?
  {
    forall a :: (if a in out then out[a] else []) == Entries(rs, a)
  }

  method LoadRevocations(c: Codec, text: string) returns (out: map<string, seq<Entry>>)
    ensures GroupedAs(Records(c, Split(text, '\n')), out)
  {
    var lines := Split(text, '\n');
    out := map[];
    assert GroupedAs(Records(c, lines[..0]), out);
    hide GroupedAs, Records, ParseLine, Split;
    for i := 0 to |lines|
      invariant GroupedAs(Records(c, lines[..i]), out)
    {
      RecordsNext(c, lines, i);
      var parsed := ParseLine(c, lines[i]);
      if parsed.Some? {
        var r := parsed.value;
        GroupedNext(Records(c, lines[..i]), out, r);
        out := WithEntry(out, r);
      }
    }
    assert lines[..|lines|] == lines;
  }

  function WithEntry(out: map<string, seq<Entry>>, r: RetiredRecord): map<string, seq<Entry>>
    requires r.oldUserPub.Some?
  {
    var earlier := if r.account in out then out[r.account] else [];
    out[r.account := earlier + [Entry(r.oldUserPub.value, r.rotatedAt)]]
  }

  lemma RecordsNext(c: Codec, lines: seq<string>, i: nat)
    requires i < |lines|
    ensures var last := ParseLine(c, lines[i]);
            Records(c, lines[..i + 1]) == if last.Some? then Records(c, lines[..i]) + [last.value]
                else Records(c, lines[..i])
    ensures ParseLine(c, lines[i]).Some? ==> ParseLine(c, lines[i]).value.oldUserPub.Some?
  {
    assert lines[..i + 1][..i] == lines[..i];
  }

  lemma GroupedNext(rs: seq<RetiredRecord>, out: map<string, seq<Entry>>, r: RetiredRecord)
    requires (forall x <- rs :: x.oldUserPub.Some?) && r.oldUserPub.Some? && GroupedAs(rs, out)
    ensures GroupedAs(rs + [r], WithEntry(out, r))
  {
    assert (rs + [r])[..|rs|] == rs;
  }

  lemma {:induction false} RecordsConcat(c: Codec, a: seq<string>, b: seq<string>)
    ensures Records(c, a + b) == Records(c, a) + Records(c, b)
  {
    hide ParseLine;
    if b == [] {
      assert a + b == a;
    } else {
      var front := b[..|b| - 1];
      RecordsConcat(c, a, front);
      assert (a + b)[..|a + b| - 1] == a + front;
    }
  }

  lemma BlankLine(c: Codec)
    ensures Records(c, [""]) == []
  {
    assert [""][..0] == [];
  }

  lemma SplitLine(line: string, rest: string)
    requires '\n' !in line
    ensures Split(line + "\n" + rest, '\n') == [line] + Split(rest, '\n')
  {
    SplitFree(line, '\n');
    SplitConcat(line, rest, '\n');
  }

  lemma SplitTerminated(text: string)
    ensures Split(text + "\n", '\n') == Split(text, '\n') + [""]
  {
    SplitConcat(text, "", '\n');
    SplitFree("", '\n');
    assert text + "\n" + "" == text + "\n";
  }

  /** On an empty or newline-terminated log, appending adds the new record and nothing else. */
  lemma AppendThenLoad(c: Codec, text: string, r: RetiredRecord)
    requires Sound(c) && (text == "" || text[|text| - 1] == '\n')
    ensures Records(c, Split(AppendRecord(c, text, r), '\n')) ==
              Records(c, Split(text, '\n')) + (if r.oldUserPub.Some? then [r] else [])
  {
    hide *;
    var line := c.encode(r);
    LineLoads(c, r);
    LastLine(c, line);
    if text == "" {
      BlankLine(c);
      SplitEmpty('\n');
      AppendIs(c, text, r);
      assert "" + line + "\n" == line + "\n";
    } else {
      var t := text[..|text| - 1];
      assert text == t + "\n";
      BlankLine(c);
      SplitTerminated(t);
      RecordsConcat(c, Split(t, '\n'), [""]);
      AppendIs(c, text, r);
      assert text + line + "\n" == t + ['\n'] + (line + "\n");
      SplitConcat(t, line + "\n", '\n');
      RecordsConcat(c, Split(t, '\n'), Split(line + "\n", '\n'));
    }
  }

  function EntriesFor(out: map<string, seq<Entry>>, account: string): seq<Entry>
  {
    if account in out then out[account] else []
  }

  /** What loading gives before and after: the account's list gets the new entry at its end, no other list changes. */
  lemma AppendedEntry(c: Codec, text: string, r: RetiredRecord, before: map<string, seq<Entry>>,
                      after: map<string, seq<Entry>>, account: string)
    requires Sound(c) && (text == "" || text[|text| - 1] == '\n')
    requires GroupedAs(Records(c, Split(text, '\n')), before)
    requires GroupedAs(Records(c, Split(AppendRecord(c, text, r), '\n')), after)
    ensures EntriesFor(after, account) == EntriesFor(before, account)
              + (if r.account == account && r.oldUserPub.Some? then [Entry(r.oldUserPub.value, r.rotatedAt)] else [])
  {
    hide *;
    AppendThenLoad(c, text, r);
    var rs, ss := Records(c, Split(text, '\n')), Records(c, Split(AppendRecord(c, text, r), '\n'));
    assert ss == if r.oldUserPub.Some? then rs + [r] else rs by { assert rs + [] == rs; }
    GroupedEntries(rs, before, account);
    GroupedEntries(ss, after, account);
    if r.oldUserPub.Some? { EntriesNext(rs, r, account); }
  }

  lemma GroupedEntries(rs: seq<RetiredRecord>, out: map<string, seq<Entry>>, account: string)
    requires (forall r <- rs :: r.oldUserPub.Some?) && GroupedAs(rs, out)
    ensures EntriesFor(out, account) == Entries(rs, account)
  {
  }

  lemma EntriesNext(rs: seq<RetiredRecord>, r: RetiredRecord, account: string)
    requires (forall x <- rs :: x.oldUserPub.Some?) && r.oldUserPub.Some?
    ensures Entries(rs + [r], account) ==
              Entries(rs, account) + (if r.account == account then [Entry(r.oldUserPub.value, r.rotatedAt)] else [])
  {
    assert (rs + [r])[..|rs|] == rs;
  }

  lemma AppendIs(c: Codec, text: string, r: RetiredRecord)
    ensures AppendRecord(c, text, r) == text + c.encode(r) + "\n"
  {
  }

  /** One line with its newline loads as that line. */
  lemma LastLine(c: Codec, line: string)
    requires '\n' !in line
    ensures Records(c, Split(line + "\n", '\n')) == Records(c, [line])
  {
    hide Split, Records, ParseLine;
    SplitTerminated(line);
    SplitFree(line, '\n');
    BlankLine(c);
    RecordsConcat(c, [line], [""]);
  }

  lemma LineLoads(c: Codec, r: RetiredRecord)
    requires Sound(c)
    ensures Records(c, [c.encode(r)]) == if r.oldUserPub.Some? then [r] else []
    ensures '\n' !in c.encode(r)
  {
    assert [c.encode(r)][..0] == [];
    assert Records(c, []) == [];
  }

  /** A line that does not parse removes itself and no other. */
  lemma BadLineIsSkipped(c: Codec, above: string, bad: string, below: string)
    requires '\n' !in bad && ParseLine(c, bad).None?
    ensures Records(c, Split(above + "\n" + (bad + "\n" + below), '\n')) ==
              Records(c, Split(above + "\n" + below, '\n'))
  {
    assert Records(c, [bad]) == [] by { assert [bad][..0] == []; }
    hide Split, Records, ParseLine;
    SplitConcat(above, bad + "\n" + below, '\n');
    SplitConcat(above, below, '\n');
    RecordsConcat(c, Split(above, '\n'), Split(below, '\n'));
    SplitLine(bad, below);
    RecordsConcat(c, Split(above, '\n'), [bad] + Split(below, '\n'));
    RecordsConcat(c, [bad], Split(below, '\n'));
  }

  lemma {:induction false} TrimLeading(blanks: string, s: string)
    requires (forall i :: 0 <= i < |blanks| ==> Space(blanks[i])) && s != "" && !Space(s[0])
    ensures TrimLeft(blanks + s) == s
  {
    if blanks == "" {
      assert blanks + s == s;
    } else {
      assert (blanks + s)[1..] == blanks[1..] + s;
      TrimLeading(blanks[1..], s);
    }
  }

  lemma {:induction false} TrimTrailing(s: string, blanks: string)
    requires (forall i :: 0 <= i < |blanks| ==> Space(blanks[i])) && s != "" && !Space(s[|s| - 1])
    ensures TrimRight(s + blanks) == s
  {
    if blanks == "" {
      assert s + blanks == s;
    } else {
      var front := blanks[..|blanks| - 1];
      assert (s + blanks)[..|s + blanks| - 1] == s + front;
      TrimTrailing(s, front);
    }
  }

  lemma {:induction false} OnlyBlanks(blanks: string)
    requires forall i :: 0 <= i < |blanks| ==> Space(blanks[i])
    ensures TrimSpace(blanks) == ""
  {
    if blanks != "" { OnlyBlanks(blanks[1..]); }
  }

  /** Blanks around a record, such as a carriage return, are nothing to it, and a blank line is no record. */
  lemma BlanksAreTolerated(c: Codec, before: string, r: RetiredRecord, after: string)
    requires Sound(c) && r.oldUserPub.Some?
    requires forall i :: 0 <= i < |before| ==> Space(before[i])
    requires forall i :: 0 <= i < |after| ==> Space(after[i])
    ensures ParseLine(c, before + c.encode(r) + after) == Some(r) && ParseLine(c, before) == None
  {
    var line := c.encode(r);
    TrimmedEnds(line);
    assert before + line + after == before + (line + after);
    TrimLeading(before, line + after);
    TrimTrailing(line, after);
    OnlyBlanks(before);
  }

  lemma TrimmedEnds(s: string)
    requires s != "" && TrimSpace(s) == s
    ensures !Space(s[0]) && !Space(s[|s| - 1])
  {
    TrimShrinks(s);
    TrimRightShrinks(TrimLeft(s));
  }

  lemma {:induction false} TrimShrinks(s: string)
    ensures |TrimLeft(s)| <= |s| && (s != "" && Space(s[0]) ==> |TrimLeft(s)| < |s|)
  {
    if s != "" && Space(s[0]) { TrimShrinks(s[1..]); }
  }

  lemma {:induction false} TrimRightShrinks(s: string)
    ensures |TrimRight(s)| <= |s| && (s != "" && Space(s[|s| - 1]) ==> |TrimRight(s)| < |s|)
  {
    if s != "" && Space(s[|s| - 1]) { TrimRightShrinks(s[..|s| - 1]); }
  }

  // ---- the log of records is enough ----

  /** The file after a sequence of appends. */
  function LogText(c: Codec, rs: seq<RetiredRecord>): string
  {
    if rs == [] then "" else AppendRecord(c, LogText(c, rs[..|rs| - 1]), rs[|rs| - 1])
  }

  /** Reading the file back gives, account by account, the keys and times that were appended. */
  lemma {:induction false} LogTextLoads(c: Codec, rs: seq<RetiredRecord>)
    requires Sound(c)
    ensures LogText(c, rs) == "" || LogText(c, rs)[|LogText(c, rs)| - 1] == '\n'
    ensures forall a, e :: Named(Records(c, Split(LogText(c, rs), '\n')), a, e) <==> Named(rs, a, e)
  {
    hide Sound, Split, Records;
    if rs == [] {
      SplitFree("", '\n');
      BlankLine(c);
    } else {
      var front, r := rs[..|rs| - 1], rs[|rs| - 1];
      LogTextLoads(c, front);
      AppendThenLoad(c, LogText(c, front), r);
      assert rs == front + [r];
      var loaded := Records(c, Split(LogText(c, front), '\n'));
      forall a, e ensures Named(Records(c, Split(LogText(c, rs), '\n')), a, e) <==> Named(rs, a, e) {
        NamedAppend(front, r, a, e);
        NamedAppend(loaded, r, a, e);
      }
    }
  }

  predicate RecordsEntry(r: RetiredRecord, account: string, e: Entry)
  {
    r.account == account && r.oldUserPub == Some(e.pub) && r.rotatedAt == e.at
  }

  predicate Named(rs: seq<RetiredRecord>, account: string, e: Entry)
  {
    exists r <- rs :: RecordsEntry(r, account, e)
  }

  lemma NamedAppend(rs: seq<RetiredRecord>, r: RetiredRecord, account: string, e: Entry)
    ensures Named(rs + [r], account, e) <==> Named(rs, account, e) || RecordsEntry(r, account, e)
  {
    assert forall x :: x in rs + [r] <==> x in rs || x == r;
  }

  lemma {:induction false} EntriesAreNamed(rs: seq<RetiredRecord>, account: string, e: Entry)
    requires forall r <- rs :: r.oldUserPub.Some?
    ensures e in Entries(rs, account) <==> Named(rs, account, e)
  {
    if rs != [] {
      var front, r := rs[..|rs| - 1], rs[|rs| - 1];
      EntriesAreNamed(front, account, e);
      assert rs == front + [r];
      NamedAppend(front, r, account, e);
    }
  }

  /**
    What a run folds into an account's revocations is what the log of records says: the entries
    loaded for an account are its retired keys with the times on record.
   */
  lemma LoadedIsRecorded(c: Codec, rs: seq<RetiredRecord>, out: map<string, seq<Entry>>, account: string, e: Entry)
    requires Sound(c) && GroupedAs(Records(c, Split(LogText(c, rs), '\n')), out)
    ensures account in out && e in out[account] <==>
              exists r :: r in RecordsOf(rs, account, e.pub) && r.rotatedAt == e.at
  {
    hide Sound, Split, Records;
    var loaded := Records(c, Split(LogText(c, rs), '\n'));
    LogTextLoads(c, rs);
    EntriesAreNamed(loaded, account, e);
    assert (if account in out then out[account] else []) == Entries(loaded, account);
    if Named(rs, account, e) {
      var r :| r in rs && RecordsEntry(r, account, e);
      assert r in RecordsOf(rs, account, e.pub);
    }
    if r :| r in RecordsOf(rs, account, e.pub) && r.rotatedAt == e.at {
      assert RecordsEntry(r, account, e);
    }
  }

  // ---- such a codec exists ----

  /** A number as a run of ones. */
  function Unary(n: nat): (s: string)
    ensures |s| == n + 1 && forall c <- s :: c == '1'
  {
    seq(n + 1, _ => '1')
  }

  function Field(ns: seq<nat>): string { Join(Unaries(ns), '.') }

  function Unaries(ns: seq<nat>): (us: seq<string>)
    ensures |us| == |ns| && forall i :: 0 <= i < |us| ==> us[i] == Unary(ns[i])
  {
    seq(|ns|, i requires 0 <= i < |ns| => Unary(ns[i]))
  }

  lemma FieldInjective(a: seq<nat>, b: seq<nat>)
    requires a != [] && b != [] && Field(a) == Field(b)
    ensures a == b
  {
    forall u | u in Unaries(a) || u in Unaries(b) ensures '.' !in u { }
    SplitJoin(Unaries(a), '.');
    SplitJoin(Unaries(b), '.');
    forall i | 0 <= i < |a| ensures a[i] == b[i] {
      assert |Unaries(a)[i]| == |Unaries(b)[i]|;
    }
  }

  lemma {:induction false} FieldChars(ns: seq<nat>, c: char)
    requires c in Join(Unaries(ns), '.')
    ensures c == '1' || c == '.'
    decreases |ns|
  {
    if |ns| > 1 {
      assert Unaries(ns)[1..] == Unaries(ns[1..]);
      if c !in Unaries(ns)[0] && c != '.' { FieldChars(ns[1..], c); }
    }
  }

  function Codes(s: string): (ns: seq<nat>)
    ensures |ns| == |s| && forall i :: 0 <= i < |s| ==> ns[i] == s[i] as nat
  {
    seq(|s|, i requires 0 <= i < |s| => s[i] as nat)
  }

  lemma CodesInjective(a: string, b: string)
    requires Codes(a) == Codes(b)
    ensures a == b
  {
    forall i | 0 <= i < |a| ensures a[i] == b[i] {
      assert Codes(a)[i] == Codes(b)[i];
    }
  }

  function Optional(k: Option<Key>): seq<nat> { if k.Some? then [1, k.value] else [0] }

  function Time(t: Option<int>): seq<nat>
  {
    if t.None? then [0] else if t.value >= 0 then [1, t.value] else [2, -t.value]
  }

  /** The fields of a record, each as a non-empty list of numbers. */
  function Numbers(r: RetiredRecord): (fs: seq<seq<nat>>)
    ensures |fs| == 6 && forall i :: 0 <= i < 6 ==> fs[i] != []
  {
    [[0] + Codes(r.cabinet), [0] + Codes(r.district), [0] + Codes(r.account),
     Optional(r.oldUserPub), Optional(r.oldCertSerial), Time(r.rotatedAt)]
  }

  lemma NumbersInjective(r: RetiredRecord, s: RetiredRecord)
    requires Numbers(r) == Numbers(s)
    ensures r == s
  {
    hide Codes;
    assert forall i :: 0 <= i < 6 ==> Numbers(r)[i] == Numbers(s)[i];
    assert Numbers(r)[0][1..] == Codes(r.cabinet) && Numbers(s)[0][1..] == Codes(s.cabinet);
    assert Numbers(r)[1][1..] == Codes(r.district) && Numbers(s)[1][1..] == Codes(s.district);
    assert Numbers(r)[2][1..] == Codes(r.account) && Numbers(s)[2][1..] == Codes(s.account);
    CodesInjective(r.cabinet, s.cabinet);
    CodesInjective(r.district, s.district);
    CodesInjective(r.account, s.account);
    OptionalInjective(r.oldUserPub, s.oldUserPub);
    OptionalInjective(r.oldCertSerial, s.oldCertSerial);
    TimeInjective(r.rotatedAt, s.rotatedAt);
  }

  lemma OptionalInjective(a: Option<Key>, b: Option<Key>)
    requires Optional(a) == Optional(b)
    ensures a == b
  {
    assert Optional(a)[0] == Optional(b)[0];
    if a.Some? { assert Optional(a)[1] == Optional(b)[1]; }
  }

  lemma TimeInjective(a: Option<int>, b: Option<int>)
    requires Time(a) == Time(b)
    ensures a == b
  {
    assert Time(a)[0] == Time(b)[0];
    if a.Some? { assert Time(a)[1] == Time(b)[1]; }
  }

  function FieldsOf(r: RetiredRecord): (fs: seq<string>)
    ensures |fs| == 6 && forall i :: 0 <= i < 6 ==> fs[i] == Field(Numbers(r)[i])
  {
    seq(6, i requires 0 <= i < 6 => Field(Numbers(r)[i]))
  }

  function Line(r: RetiredRecord): string { Join(FieldsOf(r), ',') }

  lemma FieldsHaveNoComma(r: RetiredRecord)
    ensures forall f <- FieldsOf(r) :: ',' !in f
  {
    forall f | f in FieldsOf(r) ensures ',' !in f {
      var i :| 0 <= i < 6 && FieldsOf(r)[i] == f;
      if ',' in f { FieldChars(Numbers(r)[i], ','); }
    }
  }

  lemma LineInjective(r: RetiredRecord, s: RetiredRecord)
    requires Line(r) == Line(s)
    ensures r == s
  {
    hide Numbers, Field;
    FieldsHaveNoComma(r);
    FieldsHaveNoComma(s);
    SplitJoin(FieldsOf(r), ',');
    SplitJoin(FieldsOf(s), ',');
    forall i | 0 <= i < 6 ensures Numbers(r)[i] == Numbers(s)[i] {
      assert FieldsOf(r)[i] == FieldsOf(s)[i];
      FieldInjective(Numbers(r)[i], Numbers(s)[i]);
    }
    NumbersInjective(r, s);
  }

  ghost function Parse(s: string): Option<RetiredRecord>
  {
    if exists r :: Line(r) == s then var r :| Line(r) == s; Some(r) else None
  }

  lemma {:induction false} JoinedChars(parts: seq<string>, c: char)
    requires c in Join(parts, ',')
    ensures c == ',' || exists p <- parts :: c in p
  {
    if |parts| == 1 {
      assert parts[0] in parts;
    } else if c != ',' && c !in parts[0] {
      JoinedChars(parts[1..], c);
      var p :| p in parts[1..] && c in p;
      assert p in parts;
    } else {
      assert parts[0] in parts;
    }
  }

  lemma LineChars(r: RetiredRecord, c: char)
    requires c in Line(r)
    ensures c == '1' || c == '.' || c == ','
  {
    JoinedChars(FieldsOf(r), c);
    if c != ',' {
      var p :| p in FieldsOf(r) && c in p;
      var i :| 0 <= i < 6 && FieldsOf(r)[i] == p;
      FieldChars(Numbers(r)[i], c);
    }
  }

  lemma PlainLine(s: string)
    requires s != "" && forall c <- s :: !Space(c)
    ensures TrimSpace(s) == s
  {
    assert TrimLeft(s) == s && TrimRight(s) == s;
  }

  lemma LineIsPlain(r: RetiredRecord)
    ensures Line(r) != "" && '\n' !in Line(r) && TrimSpace(Line(r)) == Line(r)
  {
    hide Numbers, Field;
    var fs := FieldsOf(r);
    assert Join(fs, ',') == fs[0] + [','] + Join(fs[1..], ',');
    forall c | c in Line(r) ensures !Space(c) && c != '\n' { LineChars(r, c); }
    PlainLine(Line(r));
  }

  /** The demand on the codec can be met. */
  lemma SoundCodecExists() returns (c: Codec)
    ensures Sound(c)
  {
    hide Line;
    c := Codec(r => Line(r), s => Parse(s));
    forall r: RetiredRecord
      ensures '\n' !in c.encode(r) && c.encode(r) != "" && TrimSpace(c.encode(r)) == c.encode(r)
      ensures c.decode(c.encode(r)) == Some(r)
    {
      LineIsPlain(r);
      var s :| Line(s) == Line(r) && Parse(Line(r)) == Some(s);
      LineInjective(r, s);
    }
  }
}
