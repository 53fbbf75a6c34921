/** src/service.ts: text put into a property list by five replacements, and taken out by five more. */
module Markup {
  /** Left to right, without overlaps. */
  function ReplaceAll(s: string, p: string, w: string): string
    requires p != []
  {
    if |s| < |p| then s
    else if p <= s then w + ReplaceAll(s[|p|..], p, w)
    else [s[0]] + ReplaceAll(s[1..], p, w)
  }

  const SPECIAL: set<char> := {'&', '<', '>', '"', '\''}

  function Entity(c: char): string
    requires c in SPECIAL
  {
    if c == '&' then "&amp;"
    else if c == '<' then "&lt;"
    else if c == '>' then "&gt;"
    else if c == '"' then "&quot;"
    else "&apos;"
  }

  function Escape(s: string): string {
    var a := ReplaceAll(s, "&", Entity('&'));
    var b := ReplaceAll(a, "<", Entity('<'));
    var c := ReplaceAll(b, ">", Entity('>'));
    var d := ReplaceAll(c, "\"", Entity('"'));
    ReplaceAll(d, "'", Entity('\''))
  }

  function Unescape(s: string): string {
    var a := ReplaceAll(s, Entity('"'), "\"");
    var b := ReplaceAll(a, Entity('\''), "'");
    var c := ReplaceAll(b, Entity('<'), "<");
    var d := ReplaceAll(c, Entity('>'), ">");
    ReplaceAll(d, Entity('&'), "&")
  }

  /** `s` with exactly the characters of `done` written as entities. */
  function Written(done: set<char>, s: string): string
    requires done <= SPECIAL
  {
    if s == [] then [] else (if s[0] in done then Entity(s[0]) else [s[0]]) + Written(done, s[1..])
  }

  lemma Shape(c: char)
    requires c in SPECIAL
    ensures |Entity(c)| >= 4 && Entity(c)[0] == '&'
    ensures forall i :: 0 < i < |Entity(c)| ==> Entity(c)[i] !in SPECIAL
  {
  }

  lemma Distinct(c: char, d: char, rest: string)
    requires c in SPECIAL && d in SPECIAL && c != d
    ensures !(Entity(c) <= Entity(d) + rest)
  {
    var f := Entity(d) + rest;
    assert f[1] == Entity(d)[1] && f[2] == Entity(d)[2];
  }

  /** Characters that cannot begin the pattern are copied. */
  lemma {:induction false} Copied(a: string, rest: string, p: string, w: string)
    requires p != [] && p[0] !in a
    ensures ReplaceAll(a + rest, p, w) == a + ReplaceAll(rest, p, w)
  {
    if a == [] {
      assert a + rest == rest;
    } else {
      assert (a + rest)[0] == a[0] && (a + rest)[1..] == a[1..] + rest;
      assert a[0] in a && a[0] != p[0] && p[0] !in a[1..];
      Copied(a[1..], rest, p, w);
      if |a + rest| < |p| {
        assert |rest| < |p|;
      } else {
        assert p[0] != (a + rest)[0];
        assert [a[0]] + (a[1..] + ReplaceAll(rest, p, w)) == a + ReplaceAll(rest, p, w);
      }
    }
  }

  lemma Replaced(p: string, rest: string, w: string)
    requires p != []
    ensures ReplaceAll(p + rest, p, w) == w + ReplaceAll(rest, p, w)
  {
    assert (p + rest)[|p|..] == rest;
  }

  /** One pass of the printer. */
  lemma {:induction false} Escapes(done: set<char>, c: char, s: string)
    requires done <= SPECIAL && c in SPECIAL && c !in done && (c == '&' ==> done == {})
    ensures ReplaceAll(Written(done, s), [c], Entity(c)) == Written(done + {c}, s)
  {
    if s != [] {
      Escapes(done, c, s[1..]);
      var rest := Written(done, s[1..]);
      if s[0] == c {
        Replaced([c], rest, Entity(c));
      } else if s[0] in done {
        Shape(s[0]);
        assert c !in Entity(s[0]);
        Copied(Entity(s[0]), rest, [c], Entity(c));
      } else {
        Copied([s[0]], rest, [c], Entity(c));
      }
    }
  }

  /** Looking for one entity passes over another whole. */
  lemma Passed(c: char, d: char, rest: string)
    requires c in SPECIAL && d in SPECIAL && c != d
    ensures ReplaceAll(Entity(d) + rest, Entity(c), [c]) == Entity(d) + ReplaceAll(rest, Entity(c), [c])
  {
    Distinct(c, d, rest);
    Shape(c);
    Shape(d);
    hide Entity;
    PassedOver(Entity(d), rest, Entity(c), [c]);
  }

  /** A text in which the pattern neither stands at the beginning nor could begin later is copied. */
  lemma PassedOver(e: string, rest: string, p: string, w: string)
    requires e != [] && p != [] && p[0] !in e[1..] && !(p <= e + rest)
    ensures ReplaceAll(e + rest, p, w) == e + ReplaceAll(rest, p, w)
  {
    hide ReplaceAll;
    Copied(e[1..], rest, p, w);
    StepOver(e + rest, p, w);
    assert (e + rest)[1..] == e[1..] + rest && (e + rest)[0] == e[0];
    assert [e[0]] + (e[1..] + ReplaceAll(rest, p, w)) == e + ReplaceAll(rest, p, w);
  }

  /** Where the pattern does not stand, one character is copied. */
  lemma StepOver(s: string, p: string, w: string)
    requires s != [] && p != [] && !(p <= s)
    ensures ReplaceAll(s, p, w) == [s[0]] + ReplaceAll(s[1..], p, w)
  {
    if |s| < |p| {
      Short(s, p, w);
      Short(s[1..], p, w);
    }
  }

  /** One pass of the reader, while every ampersand is still written as an entity. */
  lemma {:induction false} Unescapes(done: set<char>, c: char, s: string)
    requires done <= SPECIAL && c in done && '&' in done
    ensures ReplaceAll(Written(done, s), Entity(c), [c]) == Written(done - {c}, s)
  {
    Shape(c);
    hide Entity;
    if s != [] {
      Unescapes(done, c, s[1..]);
      var rest := Written(done, s[1..]);
      if s[0] == c {
        Replaced(Entity(c), rest, [c]);
      } else if s[0] in done {
        Passed(c, s[0], rest);
      } else {
        Copied([s[0]], rest, Entity(c), [c]);
      }
    }
  }

  lemma Short(s: string, p: string, w: string)
    requires |s| < |p|
    ensures ReplaceAll(s, p, w) == s
  {
  }

  lemma {:induction false} WrittenNone(s: string)
    ensures Written({}, s) == s
  {
    if s != [] {
      WrittenNone(s[1..]);
    }
  }

  lemma Named()
    ensures Entity('&') == "&amp;" && Entity('<') == "&lt;" && Entity('>') == "&gt;"
    ensures Entity('"') == "&quot;" && Entity('\'') == "&apos;"
  {
  }

  /** The five passes together write every special character as its entity, and nothing else. */
  lemma EscapeIsWritten(s: string)
    ensures Escape(s) == Written(SPECIAL, s)
    ensures Entity('&') == "&amp;" && Entity('<') == "&lt;" && Entity('>') == "&gt;"
    ensures Entity('"') == "&quot;" && Entity('\'') == "&apos;"
  {
    Named();
    hide ReplaceAll, Written, Entity;
    WrittenNone(s);
    Escapes({}, '&', s);
    Escapes({'&'}, '<', s);
    assert {} + {'&'} == {'&'} && {'&'} + {'<'} == {'&', '<'};
    Escapes({'&', '<'}, '>', s);
    assert {'&', '<'} + {'>'} == {'&', '<', '>'};
    Escapes({'&', '<', '>'}, '"', s);
    assert {'&', '<', '>'} + {'"'} == {'&', '<', '>', '"'};
    Escapes({'&', '<', '>', '"'}, '\'', s);
    assert {'&', '<', '>', '"'} + {'\''} == SPECIAL;
  }

  /** Reading back gives every string unchanged. */
  lemma UnescapeEscape(s: string)
    ensures Unescape(Escape(s)) == s
  {
    hide ReplaceAll, Written, Entity;
    EscapeIsWritten(s);
    Unescapes(SPECIAL, '"', s);
    assert SPECIAL - {'"'} == {'&', '<', '>', '\''};
    Unescapes({'&', '<', '>', '\''}, '\'', s);
    assert {'&', '<', '>', '\''} - {'\''} == {'&', '<', '>'};
    Unescapes({'&', '<', '>'}, '<', s);
    assert {'&', '<', '>'} - {'<'} == {'&', '>'};
    Unescapes({'&', '>'}, '>', s);
    assert {'&', '>'} - {'>'} == {'&'};
    Unescapes({'&'}, '&', s);
    assert {'&'} - {'&'} == {};
    WrittenNone(s);
  }

  /** Escaped text opens no tag and closes none. */
  lemma {:induction false} NoMarkup(s: string)
    ensures '<' !in Written(SPECIAL, s) && '>' !in Written(SPECIAL, s)
  {
    if s != [] {
      NoMarkup(s[1..]);
      if s[0] in SPECIAL {
        Shape(s[0]);
        assert '<' !in Entity(s[0]) && '>' !in Entity(s[0]);
      }
    }
  }
}

/** The launch agent's property list and the two places where values are read back from it. */
module Plist {
  import opened Options
  import opened Markup

  /** The longest beginning that opens no tag. */
  function Plain(s: string): (n: nat)
    ensures n <= |s| && '<' !in s[..n] && (n < |s| ==> s[n] == '<')
  {
    if s == [] || s[0] == '<' then 0 else
    var n := 1 + Plain(s[1..]);
    assert s[..n] == [s[0]] + s[1..][..n - 1];
    n
  }

  const CLOSE := "</string>"

  /** The first match of `p([^<]*)</string>`, and the text it captures. */
  function Extract(s: string, p: string): Option<string>
    requires p != []
  {
    if |s| < |p| then None
    else
      var after := s[|p|..];
      if p <= s && CLOSE <= after[Plain(after)..] then Some(after[..Plain(after)])
      else Extract(s[1..], p)
  }

  /** `p`, then text without a tag, then the closing tag. */
  ghost predicate Matches(s: string, p: string, i: nat, value: string) {
    i <= |s| && p + value + CLOSE <= s[i..] && '<' !in value
  }

  ghost predicate FirstMatch(s: string, p: string, i: nat, value: string) {
    Matches(s, p, i, value) && forall j: nat, other :: j < i ==> !Matches(s, p, j, other)
  }

  /** What is extracted is the text of the first match. */
  lemma {:induction false} ExtractIsFirst(s: string, p: string) returns (i: nat)
    requires p != [] && Extract(s, p).Some?
    ensures FirstMatch(s, p, i, Extract(s, p).value)
  {
    if Misses(s, p) {
      hide FirstMatch;
      i := ExtractIsFirst(s[1..], p);
      FirstLater(s, p, i, Extract(s, p).value);
      i := i + 1;
    } else {
      i := 0;
      HereMatches(s, p);
    }
  }

  /** Nothing is extracted only if there is no match. */
  lemma {:induction false} NothingExtracted(s: string, p: string, i: nat, value: string)
    requires p != [] && Extract(s, p).None?
    ensures !Matches(s, p, i, value)
  {
    if |s| >= |p| {
      if 0 < i <= |s| {
        NothingExtracted(s[1..], p, i - 1, value);
      }
      hide Extract;
      MatchesLater(s, p, i, value);
    }
  }

  lemma HereMatches(s: string, p: string)
    requires p <= s && CLOSE <= s[|p|..][Plain(s[|p|..])..]
    ensures Matches(s, p, 0, s[|p|..][..Plain(s[|p|..])])
  {
    var after := s[|p|..];
    var n := Plain(after);
    Pieces(s, p, n);
    Begins(p + after[..n], after[n..]);
  }

  lemma Pieces(s: string, p: string, n: nat)
    requires p <= s && n <= |s[|p|..]|
    ensures s[0..] == p + s[|p|..][..n] + s[|p|..][n..]
  {
  }

  lemma Begins(a: string, b: string)
    requires CLOSE <= b
    ensures a + CLOSE <= a + b
  {
  }

  lemma FirstLater(s: string, p: string, i: nat, value: string)
    requires Misses(s, p) && FirstMatch(s[1..], p, i, value)
    ensures FirstMatch(s, p, i + 1, value)
  {
    MatchesLater(s, p, i + 1, value);
    forall j: nat, other | j < i + 1
      ensures !Matches(s, p, j, other)
    {
      MatchesLater(s, p, j, other);
      assert j > 0 ==> !Matches(s[1..], p, j - 1, other);
    }
  }

  /** There is no match right here. */
  predicate Misses(s: string, p: string) {
    p != [] && |p| <= |s| && !(p <= s && CLOSE <= s[|p|..][Plain(s[|p|..])..])
  }

  lemma MatchesLater(s: string, p: string, i: nat, value: string)
    requires Misses(s, p)
    ensures Matches(s, p, i, value) <==> i > 0 && Matches(s[1..], p, i - 1, value)
  {
    if i == 0 {
      if Matches(s, p, 0, value) {
        MatchHere(s, p, value);
      }
    } else if i <= |s| {
      assert s[i..] == s[1..][i - 1..];
    }
  }

  lemma MatchHere(s: string, p: string, value: string)
    requires p + value + CLOSE <= s[0..] && '<' !in value
    ensures p <= s && CLOSE <= s[|p|..][Plain(s[|p|..])..]
  {
    var rest := s[|p + value + CLOSE|..];
    assert s == s[0..] == p + (value + CLOSE + rest);
    After(s, p, value + CLOSE + rest);
    PlainUpTo(value, rest);
    assert value + CLOSE + rest == value + (CLOSE + rest);
    After(value + CLOSE + rest, value, CLOSE + rest);
  }

  lemma After(s: string, a: string, b: string)
    requires s == a + b
    ensures s[|a|..] == b
  {
  }

  lemma {:induction false} PlainUpTo(value: string, rest: string)
    requires '<' !in value
    ensures Plain(value + CLOSE + rest) == |value|
  {
    if value != [] {
      assert (value + CLOSE + rest)[1..] == value[1..] + CLOSE + rest;
      PlainUpTo(value[1..], rest);
    }
  }

  datatype Entry = Entry(key: string, body: string)

  function Keyed(e: Entry): string {
    "<key>" + e.key + "</key>" + e.body
  }

  function Flatten(es: seq<Entry>): string {
    if es == [] then [] else Keyed(es[0]) + Flatten(es[1..])
  }

  function Pattern(key: string, opening: string): string {
    "<key>" + key + "</key>" + opening
  }

  /** No tag in `s` could be the beginning of a key. */
  ghost predicate Inert(s: string) {
    forall i :: 0 <= i < |s| && s[i] == '<' ==> i + 1 < |s| && s[i + 1] != 'k'
  }

  lemma InertBoth(a: string, b: string)
    requires Inert(a) && Inert(b)
    ensures Inert(a + b)
  {
  }

  lemma InertText(a: string)
    requires '<' !in a
    ensures Inert(a)
  {
  }

  lemma NotHere(s: string, p: string)
    requires p != [] && !(p <= s)
    ensures s != [] ==> Extract(s, p) == Extract(s[1..], p)
  {
    if s != [] && |s| < |p| {
      assert |s[1..]| < |p|;
    }
  }

  /** Nothing is found inside inert text. */
  lemma {:induction false} Skipped(a: string, rest: string, p: string)
    requires Inert(a) && |p| >= 2 && p[0] == '<' && p[1] == 'k'
    ensures Extract(a + rest, p) == Extract(rest, p)
  {
    if a == [] {
      assert a + rest == rest;
    } else {
      var s := a + rest;
      assert s[1..] == a[1..] + rest && s[0] == a[0];
      if a[0] == '<' {
        assert s[1] == a[1];
      }
      assert !(p <= s);
      NotHere(s, p);
      assert forall i :: 0 <= i < |a[1..]| ==> a[1..][i] == a[i + 1];
      Skipped(a[1..], rest, p);
    }
  }

  /** A key without tags in it is told from any other by the tag that ends it. */
  lemma {:induction false} KeysDiffer(k: string, l: string, a: string, b: string)
    requires '<' !in k && '<' !in l && k != l
    ensures !("" + k + "<" + a <= l + "<" + b)
  {
    var x, y := k + "<" + a, l + "<" + b;
    assert "" + k + "<" + a == x;
    if |k| < |l| {
      assert x[|k|] == '<' && y[|k|] == l[|k|];
    } else if |l| < |k| {
      assert x[|l|] == k[|l|] && y[|l|] == '<';
    } else {
      var i :| 0 <= i < |k| && k[i] != l[i];
      assert x[i] == k[i] && y[i] == l[i];
    }
  }

  lemma DropBoth(p: string, s: string, n: nat)
    requires n <= |p| && n <= |s|
    ensures p <= s ==> p[n..] <= s[n..]
  {
  }

  lemma OtherKey(e: Entry, rest: string, key: string, opening: string)
    requires '<' !in e.key && '<' !in key && e.key != key && Inert(e.body)
    ensures Extract(Keyed(e) + rest, Pattern(key, opening)) == Extract(rest, Pattern(key, opening))
  {
    var s, p := Keyed(e) + rest, Pattern(key, opening);
    KeysDiffer(key, e.key, "/key>" + opening, "/key>" + e.body + rest);
    assert s[5..] == e.key + "<" + ("/key>" + e.body + rest);
    assert p[5..] == "" + key + "<" + ("/key>" + opening);
    DropBoth(p, s, 5);
    NotHere(s, p);
    var tail := "key>" + e.key + "</key>";
    assert Inert(tail);
    InertBoth(tail, e.body);
    assert s[1..] == tail + e.body + rest;
    Skipped(tail + e.body, rest, p);
  }

  lemma ThisKey(e: Entry, rest: string, key: string, opening: string, value: string, tail: string)
    requires e.key == key && e.body == opening + value + CLOSE + tail && '<' !in value
    ensures Extract(Keyed(e) + rest, Pattern(key, opening)) == Some(value)
  {
    var p, more := Pattern(key, opening), tail + rest;
    assert Keyed(e) + rest == p + (value + (CLOSE + more)) by {
      hide Extract;
      assert "<key>" + key + "</key>" + (opening + value + CLOSE + tail) + rest
          == "<key>" + key + "</key>" + opening + (value + (CLOSE + (tail + rest)));
    }
    hide Pattern, Keyed;
    PlainIs(value, CLOSE + more);
    FoundHere(p, value, more);
  }

  lemma FoundHere(p: string, value: string, more: string)
    requires p != [] && Plain(value + (CLOSE + more)) == |value|
    ensures Extract(p + (value + (CLOSE + more)), p) == Some(value)
  {
    var after := value + (CLOSE + more);
    assert (p + after)[|p|..] == after;
    assert after[|value|..] == CLOSE + more && after[..|value|] == value;
  }

  lemma {:induction false} PlainIs(value: string, rest: string)
    requires '<' !in value && rest != [] && rest[0] == '<'
    ensures Plain(value + rest) == |value|
  {
    if value == [] {
      assert value + rest == rest;
    } else {
      assert (value + rest)[1..] == value[1..] + rest && (value + rest)[0] == value[0];
      PlainIs(value[1..], rest);
    }
  }

  ghost predicate WellFormed(es: seq<Entry>) {
    forall e :: e in es ==> '<' !in e.key && Inert(e.body)
  }

  /** The value read back is the one under the key, wherever it stands and whatever the other values are. */
  lemma {:induction false} ExtractFinds(head: string, before: seq<Entry>, e: Entry, rest: seq<Entry>, opening: string,
                                        value: string, tail: string)
    requires Inert(head) && WellFormed(before + [e]) && forall x :: x in before ==> x.key != e.key
    requires e.body == opening + value + CLOSE + tail && '<' !in value
    ensures Extract(head + Flatten(before + [e] + rest), Pattern(e.key, opening)) == Some(value)
    decreases |before|
  {
    var es, p := before + [e] + rest, Pattern(e.key, opening);
    Skipped(head, Flatten(es), p);
    assert e in before + [e];
    if before == [] {
      assert es[0] == e && es[1..] == rest;
      ThisKey(e, Flatten(rest), e.key, opening, value, tail);
    } else {
      assert es[0] == before[0] && es[1..] == before[1..] + [e] + rest && (before + [e])[1..] == before[1..] + [e];
      assert before[0] in before && before[0] in before + [e];
      OtherKey(before[0], Flatten(es[1..]), e.key, opening);
      assert [] + Flatten(es[1..]) == Flatten(es[1..]);
      ExtractFinds([], before[1..], e, rest, opening, value, tail);
    }
  }
}

module VoiceService {
  import opened Options
  import opened Markup
  import opened Plist

  /** `env` holds the carried variables in order; paths are as joined. */
  datatype Launch = Launch(name: string, program: string, entrypoint: string, home: string, stateDir: string,
                           bun: string, env: seq<(string, string)>, bundle: Option<string>, out: string, err: string)

  predicate Carried(key: string) {
    key in {"HOME", "PATH", "XDG_STATE_HOME", "XDG_CONFIG_HOME", "XDG_CACHE_HOME", "CODEX_HOME", "CODEX_PATH",
            "AGENTROLES_HOME"}
  }

  predicate Printable(text: string) {
    forall c :: c in text ==> c as int >= 32 || c == '\t' || c == '\n' || c == '\r'
  }

  predicate Absolute(path: string) {
    path != [] && path[0] == '/'
  }

  function Values(l: Launch): seq<string> {
    [l.program, l.entrypoint, l.home, l.out, l.err] + seq(|l.env|, i requires 0 <= i < |l.env| => l.env[i].1)
  }

  predicate Acceptable(l: Launch) {
    && Absolute(l.home) && Absolute(l.stateDir) && Absolute(l.bun) && Absolute(l.entrypoint)
    && forall v :: v in Values(l) ==> Printable(v)
  }

  function Str(text: string): string {
    "<string>" + Escape(text) + CLOSE
  }

  function EnvEntries(env: seq<(string, string)>): seq<Entry> {
    if env == [] then []
    else [Entry(env[0].0, Str(env[0].1) + (if |env| == 1 then "</dict>\n" else ""))] + EnvEntries(env[1..])
  }

  function Work(l: Launch): Entry {
    Entry("WorkingDirectory", Str(l.home) + "\n")
  }

  function Bundle(b: Option<string>): seq<Entry> {
    if b.None? then [] else [Entry("AssociatedBundleIdentifiers", "<array><string>" + b.value + "</string></array>\n")]
  }

  function LabelEntry(l: Launch): Entry {
    Entry("Label", "<string>" + l.name + "</string>\n")
  }

  function ProgramEntry(l: Launch): Entry {
    Entry("ProgramArguments", "<array>" + Str(l.program) + Str(l.entrypoint) + "<string>server</string></array>\n")
  }

  function OutEntry(l: Launch): Entry {
    Entry("StandardOutPath", Str(l.out) + "\n")
  }

  function ErrEntry(l: Launch): Entry {
    Entry("StandardErrorPath", Str(l.err) + "\n</dict></plist>\n")
  }

  function Flags(): seq<Entry> {
    [Entry("RunAtLoad", "<true/>\n"), Entry("KeepAlive", "<true/>\n")]
  }

  function Times(): seq<Entry> {
    [Entry("ThrottleInterval", "<integer>10</integer>\n"), Entry("ExitTimeOut", "<integer>60</integer>\n")]
  }

  function Kinds(): seq<Entry> {
    [Entry("ProcessType", "<string>Interactive</string>\n"), Entry("LimitLoadToSessionType", "<string>Aqua</string>\n")]
  }

  function Fixed(): seq<Entry> {
    Flags() + Times() + Kinds()
  }

  function Middle(l: Launch): seq<Entry> {
    [Work(l)] + [Entry("EnvironmentVariables", "<dict>")] + EnvEntries(l.env) + Fixed()
    + Bundle(l.bundle) + [Entry("Umask", "<integer>63</integer>\n")]
  }

  function Entries(l: Launch): seq<Entry> {
    [LabelEntry(l)] + [ProgramEntry(l)] + Middle(l) + [OutEntry(l)] + [ErrEntry(l)]
  }

  function Head(digest: string): string {
    "<?xml version=\"1.0\" encoding=\"UTF-8\"?>\n" + "<!-- agentvoice-launchagent-v1 " + digest
    + " -->\n" + "<plist version=\"1.0\"><dict>\n"
  }

  function ServicePlist(l: Launch, digest: string): Option<string> {
    if Acceptable(l) then Some(Head(digest) + Flatten(Entries(l))) else None
  }

  /** An empty value counts as missing. */
  function ReadBack(plist: string, key: string, opening: string): Option<string> {
    var value := Extract(plist, Pattern(key, opening));
    if value.None? || value.value == "" then None else Some(Unescape(value.value))
  }

  function InstalledLogs(plist: string): (Option<string>, Option<string>) {
    (ReadBack(plist, "StandardOutPath", "<string>"), ReadBack(plist, "StandardErrorPath", "<string>"))
  }

  function InstalledExecutable(plist: string): Option<string> {
    ReadBack(plist, "ProgramArguments", "<array><string>")
  }

  ghost predicate Sensible(l: Launch, digest: string) {
    && '<' !in l.name && '<' !in digest && (l.bundle.Some? ==> '<' !in l.bundle.value)
    && l.env != [] && forall e :: e in l.env ==> Carried(e.0)
  }

  lemma EscapedInert(text: string)
    ensures '<' !in Escape(text) && Inert(Str(text)) && (Escape(text) == "" <==> text == "")
  {
    EscapeIsWritten(text);
    NoMarkup(text);
    assert text != [] && text[0] in SPECIAL ==> |Entity(text[0])| >= 4;
    hide Escape;
    InertText(Escape(text));
    InertBoth("<string>", Escape(text));
    InertBoth("<string>" + Escape(text), CLOSE);
  }

  /** What every entry before the log paths has in common. */
  ghost predicate Early(e: Entry) {
    '<' !in e.key && e.key != [] && e.key[0] != 'S' && Inert(e.body)
  }

  lemma CarriedKey(key: string)
    requires Carried(key)
    ensures '<' !in key && key != [] && key[0] != 'S'
  {
  }

  lemma StrThen(text: string, tail: string)
    requires Inert(tail)
    ensures Inert(Str(text) + tail)
  {
    EscapedInert(text);
    InertBoth(Str(text), tail);
  }

  lemma {:induction false} EnvEarly(env: seq<(string, string)>)
    requires forall e :: e in env ==> Carried(e.0)
    ensures forall e :: e in EnvEntries(env) ==> Early(e)
  {
    hide Carried, Str, Inert;
    if env != [] {
      assert env[0] in env;
      EnvEarly(env[1..]);
      CarriedKey(env[0].0);
      ShortTags();
      ShortEnds();
      StrThen(env[0].1, "</dict>\n");
      StrThen(env[0].1, "");
    }
  }

  lemma FixedEarly(e: Entry)
    requires e in Fixed()
    ensures Early(e)
  {
    hide Early, Flags, Times, Kinds;
    if e in Flags() {
      FlagsEarly(e);
    } else if e in Times() {
      TimesEarly(e);
    } else {
      KindsEarly(e);
    }
  }

  lemma FlagsEarly(e: Entry)
    requires e in Flags()
    ensures Early(e)
  {
    ShortTags();
    hide Inert;
  }

  lemma TimesEarly(e: Entry)
    requires e in Times()
    ensures Early(e)
  {
    ShortNumbers();
    hide Inert;
  }

  lemma KindsEarly(e: Entry)
    requires e in Kinds()
    ensures Early(e)
  {
    ShortStrings();
    hide Inert;
  }

  lemma ArgumentsInert(l: Launch)
    ensures Inert(ProgramEntry(l).body)
  {
    hide Inert, Str;
    ShortTags();
    ShortEnds();
    var tail := Str(l.entrypoint) + "<string>server</string></array>\n";
    StrThen(l.entrypoint, "<string>server</string></array>\n");
    StrThen(l.program, tail);
    InertBoth("<array>", Str(l.program) + tail);
    ArgumentsBody(l);
  }

  lemma ArgumentsBody(l: Launch)
    ensures ProgramEntry(l).body
         == "<array>" + (Str(l.program) + (Str(l.entrypoint) + "<string>server</string></array>\n"))
  {
    hide Str;
  }

  lemma LabelInert(name: string)
    requires '<' !in name
    ensures Inert("<string>" + name + "</string>\n")
  {
    ShortTags();
    InertText(name);
    hide Inert;
    InertBoth("<string>", name);
    InertBoth("<string>" + name, "</string>\n");
  }

  lemma ArrayInert(name: string)
    requires '<' !in name
    ensures Inert("<array><string>" + name + "</string></array>\n")
  {
    ShortEnds();
    InertText(name);
    hide Inert;
    InertBoth("<array><string>", name);
    InertBoth("<array><string>" + name, "</string></array>\n");
  }

  lemma SingleEarly(l: Launch)
    ensures Early(Work(l)) && Early(Entry("EnvironmentVariables", "<dict>"))
    ensures Early(Entry("Umask", "<integer>63</integer>\n"))
  {
    WorkEarly(l);
    hide Work;
    ShortTags();
    ShortNumbers();
    hide Inert;
  }

  lemma WorkEarly(l: Launch)
    ensures Early(Work(l))
  {
    ShortTags();
    StrThen(l.home, "\n");
    hide Inert, Str;
  }

  lemma BundleEarly(b: Option<string>, e: Entry)
    requires e in Bundle(b) && (b.Some? ==> '<' !in b.value)
    ensures Early(e)
  {
    assert e == Bundle(b)[0];
    ArrayInert(b.value);
    BundleKey();
    hide Inert;
  }

  lemma BundleKey()
    ensures '<' !in "AssociatedBundleIdentifiers" && "AssociatedBundleIdentifiers"[0] != 'S'
  {
  }

  lemma MiddleEarly(l: Launch, e: Entry)
    requires (l.bundle.Some? ==> '<' !in l.bundle.value) && forall v :: v in l.env ==> Carried(v.0)
    requires e in Middle(l)
    ensures Early(e)
  {
    EnvEarly(l.env);
    SingleEarly(l);
    hide Inert, Str, EnvEntries, Carried, Fixed, Bundle, Early, Work;
    if e in Fixed() {
      FixedEarly(e);
    } else if e in Bundle(l.bundle) {
      BundleEarly(l.bundle, e);
    }
  }

  lemma HeadInert(digest: string)
    requires '<' !in digest
    ensures Inert(Head(digest))
  {
    InertText(digest);
    var a, b := "<?xml version=\"1.0\" encoding=\"UTF-8\"?>\n", "<!-- agentvoice-launchagent-v1 ";
    var c, d := " -->\n", "<plist version=\"1.0\"><dict>\n";
    Declarations();
    hide Inert;
    InertBoth(a, b);
    InertBoth(a + b, digest);
    InertBoth(a + b + digest, c);
    InertBoth(a + b + digest + c, d);
  }

  lemma Declarations()
    ensures Inert("<?xml version=\"1.0\" encoding=\"UTF-8\"?>\n") && Inert("<!-- agentvoice-launchagent-v1 ")
    ensures Inert(" -->\n") && Inert("<plist version=\"1.0\"><dict>\n")
  {
  }

  lemma LabelEarly(l: Launch)
    requires '<' !in l.name
    ensures Early(LabelEntry(l)) && Early(ProgramEntry(l))
  {
    LabelInert(l.name);
    ArgumentsInert(l);
    hide Inert, Str;
  }

  lemma BeforeLogs(l: Launch, digest: string)
    requires Sensible(l, digest)
    ensures forall e :: e in [LabelEntry(l)] + [ProgramEntry(l)] + Middle(l) ==> Early(e)
  {
    hide Early, Middle, Carried, LabelEntry, ProgramEntry;
    LabelEarly(l);
    forall e | e in Middle(l)
      ensures Early(e)
    {
      MiddleEarly(l, e);
    }
  }

  lemma ReadsBack(plist: string, key: string, opening: string, value: string)
    requires Extract(plist, Pattern(key, opening)) == Some(Escape(value)) && value != ""
    ensures ReadBack(plist, key, opening) == Some(value)
  {
    hide Extract, Escape, Unescape;
    EscapedInert(value);
    UnescapeEscape(value);
  }

  lemma EarlyFormed(before: seq<Entry>, e: Entry)
    requires (forall x :: x in before ==> Early(x)) && '<' !in e.key && Inert(e.body) && e.key != [] && e.key[0] == 'S'
    ensures WellFormed(before + [e]) && forall x :: x in before ==> x.key != e.key
  {
    hide Inert;
  }

  lemma OutComesBack(l: Launch, head: string, before: seq<Entry>, rest: seq<Entry>)
    requires Inert(head) && (forall x :: x in before ==> Early(x)) && l.out != ""
    ensures ReadBack(head + Flatten(before + [OutEntry(l)] + rest), "StandardOutPath", "<string>") == Some(l.out)
  {
    EscapedInert(l.out);
    ShortTags();
    ShortEnds();
    StrThen(l.out, "\n");
    hide Inert, Escape, ReadBack, Flatten;
    EarlyFormed(before, OutEntry(l));
    ExtractFinds(head, before, OutEntry(l), rest, "<string>", Escape(l.out), "\n");
    ReadsBack(head + Flatten(before + [OutEntry(l)] + rest), "StandardOutPath", "<string>", l.out);
  }

  lemma ErrComesBack(l: Launch, head: string, before: seq<Entry>, rest: seq<Entry>)
    requires Inert(head) && (forall x :: x in before ==> Early(x)) && l.err != ""
    ensures ReadBack(head + Flatten(before + [OutEntry(l)] + [ErrEntry(l)] + rest), "StandardErrorPath", "<string>")
         == Some(l.err)
  {
    EscapedInert(l.err);
    ShortTags();
    ShortEnds();
    StrThen(l.out, "\n");
    StrThen(l.err, "\n</dict></plist>\n");
    hide Inert, Escape, ReadBack, Flatten, Early, WellFormed;
    ErrFormed(l, before);
    ExtractFinds(head, before + [OutEntry(l)], ErrEntry(l), rest, "<string>", Escape(l.err), "\n</dict></plist>\n");
    ReadsBack(head + Flatten(before + [OutEntry(l)] + [ErrEntry(l)] + rest), "StandardErrorPath", "<string>", l.err);
  }

  lemma ErrFormed(l: Launch, before: seq<Entry>)
    requires (forall x :: x in before ==> Early(x)) && Inert(OutEntry(l).body) && Inert(ErrEntry(l).body)
    ensures WellFormed(before + [OutEntry(l)] + [ErrEntry(l)])
    ensures forall x :: x in before + [OutEntry(l)] ==> x.key != ErrEntry(l).key
  {
    hide Inert, Str;
    EarlyFormed(before, OutEntry(l));
    EarlyFormed(before, ErrEntry(l));
  }

  /** The paths put into the property list are the paths read back from it. */
  lemma LogsComeBack(l: Launch, digest: string)
    requires Sensible(l, digest) && Acceptable(l) && l.out != "" && l.err != ""
    ensures InstalledLogs(ServicePlist(l, digest).value) == (Some(l.out), Some(l.err))
  {
    hide Inert, Middle, Flatten, ReadBack, Head, LabelEntry, ProgramEntry, OutEntry, ErrEntry, Early, Carried;
    hide Printable, Absolute, Values;
    BeforeLogs(l, digest);
    HeadInert(digest);
    var before := [LabelEntry(l)] + [ProgramEntry(l)] + Middle(l);
    OutComesBack(l, Head(digest), before, [ErrEntry(l)]);
    ErrComesBack(l, Head(digest), before, []);
    assert before + [OutEntry(l)] + [ErrEntry(l)] + [] == Entries(l);
  }

  /** So is the executable. */
  lemma ExecutableComesBack(l: Launch, digest: string)
    requires Sensible(l, digest) && Acceptable(l) && l.program != ""
    ensures InstalledExecutable(ServicePlist(l, digest).value) == Some(l.program)
  {
    hide Inert, Middle, Flatten, ReadBack, Head, LabelEntry, ProgramEntry, OutEntry, ErrEntry, Carried;
    hide Printable, Absolute, Values;
    HeadInert(digest);
    ProgramComesBack(l, Head(digest), Middle(l) + [OutEntry(l)] + [ErrEntry(l)]);
    assert [LabelEntry(l)] + [ProgramEntry(l)] + (Middle(l) + [OutEntry(l)] + [ErrEntry(l)]) == Entries(l);
  }

  lemma {:induction false} EnvAt(env: seq<(string, string)>, i: nat)
    requires i < |env|
    ensures |EnvEntries(env)| == |env|
    ensures EnvEntries(env)[i] == Entry(env[i].0, Str(env[i].1) + if i == |env| - 1 then "</dict>\n" else "")
    ensures forall x :: x in EnvEntries(env)[..i] ==> exists j :: 0 <= j < i && x.key == env[j].0
  {
    hide Str;
    if |env| > 1 {
      var rest := EnvEntries(env[1..]);
      if i > 0 {
        EnvAt(env[1..], i - 1);
        assert EnvEntries(env)[..i] == [EnvEntries(env)[0]] + rest[..i - 1];
        forall x | x in EnvEntries(env)[..i]
          ensures exists j :: 0 <= j < i && x.key == env[j].0
        {
          if x == EnvEntries(env)[0] {
            assert x.key == env[0].0;
          } else {
            var j :| 0 <= j < i - 1 && x.key == env[1..][j].0;
            assert x.key == env[j + 1].0;
          }
        }
      } else {
        EnvAt(env[1..], 0);
      }
    } else {
      assert env[1..] == [];
    }
  }

  /** What comes before the `i`th variable, and what after. */
  lemma EntriesAround(l: Launch, i: nat)
    requires i < |l.env| && |EnvEntries(l.env)| == |l.env|
    ensures var before := [LabelEntry(l)] + [ProgramEntry(l)] + [Work(l)] + [Entry("EnvironmentVariables", "<dict>")]
                          + EnvEntries(l.env)[..i];
      var rest := EnvEntries(l.env)[i + 1..] + Fixed() + Bundle(l.bundle) + [Entry("Umask", "<integer>63</integer>\n")]
                  + [OutEntry(l)] + [ErrEntry(l)];
      && Entries(l) == before + [EnvEntries(l.env)[i]] + rest
      && forall x :: x in before ==> x in [LabelEntry(l)] + [ProgramEntry(l)] + Middle(l)
  {
    hide LabelEntry, ProgramEntry, Work, EnvEntries, Fixed, Bundle, OutEntry, ErrEntry;
    var es := EnvEntries(l.env);
    assert es == es[..i] + [es[i]] + es[i + 1..];
  }

  lemma OtherKeys(l: Launch, key: string)
    requires Carried(key)
    ensures LabelEntry(l).key != key && ProgramEntry(l).key != key && Work(l).key != key
    ensures key != "EnvironmentVariables"
  {
  }

  /** So is every variable of the environment, each under its own name. */
  lemma EnvironmentComesBack(l: Launch, digest: string, i: nat)
    requires Sensible(l, digest) && Acceptable(l) && i < |l.env| && l.env[i].1 != ""
    requires forall j, k :: 0 <= j < k < |l.env| ==> l.env[j].0 != l.env[k].0
    ensures ReadBack(ServicePlist(l, digest).value, l.env[i].0, "<string>") == Some(l.env[i].1)
  {
    hide Inert, Middle, Flatten, ReadBack, Head, LabelEntry, ProgramEntry, OutEntry, ErrEntry, Early, Carried, Escape;
    hide Printable, Absolute, Values, Entries, EnvEntries, Work, Fixed, Bundle;
    var key, value := l.env[i].0, l.env[i].1;
    assert l.env[i] in l.env;
    EnvAt(l.env, i);
    EntriesAround(l, i);
    BeforeLogs(l, digest);
    HeadInert(digest);
    OtherKeys(l, key);
    EscapedInert(value);
    var e := EnvEntries(l.env)[i];
    var before := [LabelEntry(l)] + [ProgramEntry(l)] + [Work(l)] + [Entry("EnvironmentVariables", "<dict>")]
                  + EnvEntries(l.env)[..i];
    var rest := EnvEntries(l.env)[i + 1..] + Fixed() + Bundle(l.bundle) + [Entry("Umask", "<integer>63</integer>\n")]
                + [OutEntry(l)] + [ErrEntry(l)];
    var tail := if i == |l.env| - 1 then "</dict>\n" else "";
    assert e.body == "<string>" + Escape(value) + CLOSE + tail;
    ShortEnds();
    StrThen(value, "</dict>\n");
    StrThen(value, "");
    AllFormed(l, before, e);
    ExtractFinds(Head(digest), before, e, rest, "<string>", Escape(value), tail);
    ReadsBack(ServicePlist(l, digest).value, key, "<string>", value);
  }

  lemma AllFormed(l: Launch, before: seq<Entry>, e: Entry)
    requires (forall x :: x in before ==> Early(x)) && Carried(e.key) && Inert(e.body)
    ensures WellFormed(before + [e])
  {
    hide Inert;
    CarriedKey(e.key);
  }

  /** So is the home directory. */
  lemma HomeComesBack(l: Launch, digest: string)
    requires Sensible(l, digest) && Acceptable(l) && l.home != ""
    ensures ReadBack(ServicePlist(l, digest).value, "WorkingDirectory", "<string>") == Some(l.home)
  {
    hide Inert, Middle, Flatten, ReadBack, Head, LabelEntry, ProgramEntry, OutEntry, ErrEntry, Early, Carried, Escape;
    hide Printable, Absolute, Values, Entries;
    BeforeLogs(l, digest);
    HeadInert(digest);
    EscapedInert(l.home);
    HomeAround(l);
    WorkEarly(l);
    var before := [LabelEntry(l)] + [ProgramEntry(l)];
    var rest := [Entry("EnvironmentVariables", "<dict>")] + EnvEntries(l.env) + Fixed() + Bundle(l.bundle)
                + [Entry("Umask", "<integer>63</integer>\n")] + [OutEntry(l)] + [ErrEntry(l)];
    assert Work(l).body == "<string>" + Escape(l.home) + CLOSE + "\n";
    EarlyAreFormed(before, Work(l));
    ExtractFinds(Head(digest), before, Work(l), rest, "<string>", Escape(l.home), "\n");
    ReadsBack(ServicePlist(l, digest).value, "WorkingDirectory", "<string>", l.home);
  }

  lemma HomeAround(l: Launch)
    ensures var rest := [Entry("EnvironmentVariables", "<dict>")] + EnvEntries(l.env) + Fixed() + Bundle(l.bundle)
                        + [Entry("Umask", "<integer>63</integer>\n")] + [OutEntry(l)] + [ErrEntry(l)];
      Entries(l) == [LabelEntry(l)] + [ProgramEntry(l)] + [Work(l)] + rest
    ensures LabelEntry(l).key != Work(l).key && ProgramEntry(l).key != Work(l).key
  {
    assert |"Label"| == 5 && |"ProgramArguments"| == 16 && "ProgramArguments"[0] == 'P' && "WorkingDirectory"[0] == 'W';
    hide EnvEntries, Fixed, Bundle, OutEntry, ErrEntry;
  }

  /** What comes before the bundle. */
  function BeforeBundle(l: Launch): seq<Entry> {
    [LabelEntry(l)] + [ProgramEntry(l)] + [Work(l)] + [Entry("EnvironmentVariables", "<dict>")] + EnvEntries(l.env)
    + Fixed()
  }

  lemma BundleAround(l: Launch)
    requires l.bundle.Some?
    ensures Entries(l) == BeforeBundle(l) + [Bundle(l.bundle)[0]]
                          + ([Entry("Umask", "<integer>63</integer>\n")] + [OutEntry(l)] + [ErrEntry(l)])
    ensures forall x :: x in BeforeBundle(l) ==> x in [LabelEntry(l)] + [ProgramEntry(l)] + Middle(l)
  {
    hide EnvEntries, Fixed, LabelEntry, ProgramEntry, Work, OutEntry, ErrEntry;
    assert |Bundle(l.bundle)| == 1;
    hide Bundle;
    assert Bundle(l.bundle) == [Bundle(l.bundle)[0]];
  }

  lemma BeforeKeys(l: Launch)
    requires forall v :: v in l.env ==> Carried(v.0)
    ensures forall x :: x in BeforeBundle(l) ==> |x.key| < 27
  {
    FixedKeys();
    EnvKeys(l.env);
    hide EnvEntries, Fixed, Carried;
    assert |"Label"| == 5 && |"ProgramArguments"| == 16;
    assert |"WorkingDirectory"| == 16 && |"EnvironmentVariables"| == 20;
  }

  lemma FixedKeys()
    ensures forall x :: x in Fixed() ==> |x.key| < 27
  {
  }

  lemma {:induction false} EnvKeys(env: seq<(string, string)>)
    requires forall e :: e in env ==> Carried(e.0)
    ensures forall x :: x in EnvEntries(env) ==> |x.key| < 27
  {
    hide Str;
    if env != [] {
      assert env[0] in env;
      EnvKeys(env[1..]);
      ShortKey(env[0].0);
      hide Carried;
    }
  }

  lemma ShortKey(key: string)
    requires Carried(key)
    ensures |key| < 27
  {
  }

  /** So is the bundle the agent is associated with. */
  lemma BundleComesBack(l: Launch, digest: string)
    requires Sensible(l, digest) && Acceptable(l) && l.bundle.Some?
    ensures Extract(ServicePlist(l, digest).value, Pattern("AssociatedBundleIdentifiers", "<array><string>"))
         == l.bundle
  {
    hide Inert, Middle, Flatten, Head, LabelEntry, ProgramEntry, OutEntry, ErrEntry, Early, Carried, Escape;
    hide Printable, Absolute, Values, Entries, Extract, BeforeBundle;
    var e := Bundle(l.bundle)[0];
    BeforeLogs(l, digest);
    HeadInert(digest);
    BundleAround(l);
    BeforeKeys(l);
    BundleEarly(l.bundle, e);
    EarlyAreFormed(BeforeBundle(l), e);
    BundleBody(l);
    hide Bundle;
    var rest := [Entry("Umask", "<integer>63</integer>\n")] + [OutEntry(l)] + [ErrEntry(l)];
    ExtractFinds(Head(digest), BeforeBundle(l), e, rest, "<array><string>", l.bundle.value, "</array>\n");
  }

  lemma BundleBody(l: Launch)
    requires l.bundle.Some?
    ensures var e := Bundle(l.bundle)[0];
      && e.key == "AssociatedBundleIdentifiers" && |e.key| == 27
      && e.body == "<array><string>" + l.bundle.value + CLOSE + "</array>\n"
  {
    assert "</string></array>\n" == CLOSE + "</array>\n";
  }

  /** Control characters other than tab, newline and carriage return. */
  predicate Controls(text: string) {
    exists c :: c in text && c as int < 32 && c as int !in {9, 10, 13}
  }

  /** No property list is made exactly if a path is not absolute or a value holds such a character. */
  lemma RefusesExactly(l: Launch, digest: string)
    ensures ServicePlist(l, digest).None? <==>
      || !("/" <= l.home && "/" <= l.stateDir && "/" <= l.bun && "/" <= l.entrypoint)
      || (exists v :: v in {l.program, l.entrypoint, l.home, l.out, l.err} && Controls(v))
      || (exists e :: e in l.env && Controls(e.1))
  {
    hide Head, Flatten, Entries, Escape;
    forall v
      ensures Printable(v) <==> !Controls(v)
    {
      PrintableExactly(v);
    }
    forall p: string
      ensures Absolute(p) <==> "/" <= p
    {
    }
    hide Printable, Absolute, Controls;
    ValuesOf(l);
  }

  lemma PrintableExactly(text: string)
    ensures Printable(text) <==> !Controls(text)
  {
  }

  lemma ValuesOf(l: Launch)
    ensures forall v :: v in Values(l) <==>
      v in {l.program, l.entrypoint, l.home, l.out, l.err} || exists e :: e in l.env && e.1 == v
  {
    forall e | e in l.env
      ensures e.1 in Values(l)
    {
      var i :| 0 <= i < |l.env| && l.env[i] == e;
      assert Values(l)[5 + i] == e.1;
    }
    forall v | v in Values(l)
      ensures v in {l.program, l.entrypoint, l.home, l.out, l.err} || exists e :: e in l.env && e.1 == v
    {
      var i :| 0 <= i < |Values(l)| && Values(l)[i] == v;
      if i >= 5 {
        assert l.env[i - 5] in l.env && l.env[i - 5].1 == v;
      }
    }
  }

  lemma EarlyAreFormed(before: seq<Entry>, e: Entry)
    requires (forall x :: x in before ==> Early(x)) && Early(e)
    ensures WellFormed(before + [e])
  {
    hide Inert;
  }

  lemma ProgramBody(l: Launch)
    ensures ProgramEntry(l).key == "ProgramArguments"
    ensures ProgramEntry(l).body ==
              "<array><string>" + Escape(l.program) + CLOSE + (Str(l.entrypoint) + "<string>server</string></array>\n")
  {
    hide Escape;
    assert "<array>" + "<string>" == "<array><string>";
    assert "<array>" + Str(l.program) == "<array><string>" + Escape(l.program) + CLOSE;
  }

  lemma ProgramFormed(l: Launch)
    requires Inert(LabelEntry(l).body) && Inert(ProgramEntry(l).body)
    ensures WellFormed([LabelEntry(l)] + [ProgramEntry(l)])
    ensures forall x :: x in [LabelEntry(l)] ==> x.key != ProgramEntry(l).key
  {
    hide Inert, Str;
    assert '<' !in "Label" && '<' !in "ProgramArguments" && |"Label"| != |"ProgramArguments"|;
  }

  lemma ProgramComesBack(l: Launch, head: string, rest: seq<Entry>)
    requires Inert(head) && '<' !in l.name && l.program != ""
    ensures ReadBack(head + Flatten([LabelEntry(l)] + [ProgramEntry(l)] + rest), "ProgramArguments", "<array><string>")
         == Some(l.program)
  {
    LabelInert(l.name);
    assert LabelEntry(l).body == "<string>" + l.name + "</string>\n";
    ArgumentsInert(l);
    EscapedInert(l.program);
    ProgramBody(l);
    ProgramFormed(l);
    hide Inert, Escape, ReadBack, Flatten, Extract, WellFormed, LabelEntry, ProgramEntry, Str;
    var tail := Str(l.entrypoint) + "<string>server</string></array>\n";
    ExtractFinds(head, [LabelEntry(l)], ProgramEntry(l), rest, "<array><string>", Escape(l.program), tail);
    ReadsBack(head + Flatten([LabelEntry(l)] + [ProgramEntry(l)] + rest), "ProgramArguments", "<array><string>",
              l.program);
  }

  lemma ShortTags()
    ensures Inert("<dict>") && Inert("<true/>\n") && Inert("\n") && Inert("<array>") && Inert("</array>\n")
    ensures Inert("<string>") && Inert("</string>\n")
  {
  }

  lemma ShortNumbers()
    ensures Inert("<integer>10</integer>\n") && Inert("<integer>60</integer>\n") && Inert("<integer>63</integer>\n")
  {
  }

  lemma ShortStrings()
    ensures Inert("<string>Interactive</string>\n") && Inert("<string>Aqua</string>\n")
  {
  }

  lemma ShortEnds()
    ensures Inert("<string>server</string></array>\n") && Inert("</string></array>\n") && Inert("<array><string>")
    ensures Inert("\n</dict></plist>\n") && Inert("</dict>\n")
  {
  }
}
