/**
 The Lua script that evaluates the health of the resources of a profile (controllers/health_monitoring.go).

 Strings are sequences of bytes. The reader of string literals follows section 2.1 of the Lua 5.1 Reference Manual.
 */
module LuaQuote {
  import opened Common
  import opened Sorting

  type Byte = b: int | 0 <= b < 256
  type Text = seq<Byte>

  const QUOTE: Byte := 34
  const BACKSLASH: Byte := 92
  const LF: Byte := 10
  const CR: Byte := 13

  /** The bytes of a piece of Lua source, which is plain ASCII. */
  function Ascii(s: string): (t: Text)
    ensures |t| == |s|
  {
    seq(|s|, i requires 0 <= i < |s| => (s[i] as int) % 256)
  }

  // ----- Quoting -----

  function Digit(n: int): Byte
    requires 0 <= n < 10
  {
    48 + n
  }

  function Escaped(c: Byte): Text {
    if c == BACKSLASH then [BACKSLASH, BACKSLASH]
    else if c == QUOTE then [BACKSLASH, QUOTE]
    else if c == LF then [BACKSLASH, 110]
    else if c == CR then [BACKSLASH, 114]
    else if c < 32 || c == 127 then [BACKSLASH, Digit(c / 100), Digit(c / 10 % 10), Digit(c % 10)]
    else [c]
  }

  function EscapedAll(s: Text): Text {
    if s == [] then [] else Escaped(s[0]) + EscapedAll(s[1..])
  }

  function Quoted(s: Text): Text {
    [QUOTE] + EscapedAll(s) + [QUOTE]
  }

  /** No control character is left in the literal. */
  lemma {:induction false} QuotedIsPrintable(s: Text)
    ensures forall i :: 0 <= i < |EscapedAll(s)| ==> 32 <= EscapedAll(s)[i] && EscapedAll(s)[i] != 127
  {
    if s != [] {
      QuotedIsPrintable(s[1..]);
      var first := Escaped(s[0]);
      assert forall i :: 0 <= i < |first| ==> 32 <= first[i] && first[i] != 127;
    }
  }

  /** A printable character that means nothing special stays as it is. */
  lemma {:induction false} PlainTextIsKept(s: Text)
    requires forall i :: 0 <= i < |s| ==> 32 <= s[i] && s[i] != 127 && s[i] != QUOTE && s[i] != BACKSLASH
    ensures Quoted(s) == [QUOTE] + s + [QUOTE]
  {
    if s != [] {
      PlainTextIsKept(s[1..]);
      assert Escaped(s[0]) == [s[0]] && s == [s[0]] + s[1..];
      assert EscapedAll(s[1..]) == Quoted(s[1..])[1..|Quoted(s[1..])| - 1];
      assert s[1..] == Quoted(s[1..])[1..|Quoted(s[1..])| - 1];
    }
  }

  lemma Assoc3(a: Text, b: Text, c: Text)
    ensures (a + b) + c == a + (b + c)
  {
  }

  lemma {:induction false} EscapedAppended(s: Text, c: Byte)
    ensures EscapedAll(s + [c]) == EscapedAll(s) + Escaped(c)
  {
    if s == [] {
      assert [c][1..] == [];
    } else {
      EscapedAppended(s[1..], c);
      assert (s + [c])[1..] == s[1..] + [c];
      Assoc3(Escaped(s[0]), EscapedAll(s[1..]), Escaped(c));
    }
  }

  method EscapeByte(c: Byte) returns (escaped: Text)
    ensures escaped == Escaped(c)
  {
    if c == BACKSLASH {
      escaped := [BACKSLASH, BACKSLASH];
    } else if c == QUOTE {
      escaped := [BACKSLASH, QUOTE];
    } else if c == LF {
      escaped := [BACKSLASH, 110];
    } else if c == CR {
      escaped := [BACKSLASH, 114];
    } else if c < 32 || c == 127 {
      escaped := [BACKSLASH, Digit(c / 100), Digit(c / 10 % 10), Digit(c % 10)];
    } else {
      escaped := [c];
    }
  }

  method QuoteLuaString(s: Text) returns (quoted: Text)
    ensures quoted == Quoted(s)
  {
    var b: Text := [QUOTE];
    for i := 0 to |s|
      invariant b == [QUOTE] + EscapedAll(s[..i])
    {
      EscapedAppended(s[..i], s[i]);
      assert s[..i + 1] == s[..i] + [s[i]];
      var escaped := EscapeByte(s[i]);
      Assoc3([QUOTE], EscapedAll(s[..i]), escaped);
      b := b + escaped;
    }
    assert s[..|s|] == s;
    quoted := b + [QUOTE];
  }

  // ----- Reading a literal -----

  predicate IsDigit(c: Byte) {
    48 <= c <= 57
  }

  /** How many digits follow a backslash, three at most. */
  function DigitCount(s: Text): (n: nat)
    ensures n <= 3 && n <= |s|
  {
    if |s| == 0 || !IsDigit(s[0]) then 0
    else if |s| == 1 || !IsDigit(s[1]) then 1
    else if |s| == 2 || !IsDigit(s[2]) then 2
    else 3
  }

  function Decimal(s: Text): int {
    if s == [] then 0 else 10 * Decimal(s[..|s| - 1]) + (s[|s| - 1] as int - 48)
  }

  /** The byte for a backslash and one more character. Others are left open by the manual. */
  function SimpleEscape(c: Byte): Option<Byte> {
    if c == 97 then Some(7)
    else if c == 98 then Some(8)
    else if c == 102 then Some(12)
    else if c == 110 then Some(10)
    else if c == 114 then Some(13)
    else if c == 116 then Some(9)
    else if c == 118 then Some(11)
    else if c == BACKSLASH || c == QUOTE || c == 39 || c == LF then Some(c)
    else None
  }

  /** Reads up to the closing quote: the bytes meant, and what follows the literal. */
  function ReadBody(s: Text): Option<(Text, Text)> {
    if s == [] || s[0] == LF || s[0] == CR then None
    else if s[0] == QUOTE then Some(([], s[1..]))
    else if s[0] != BACKSLASH then Prefixed(s[0], ReadBody(s[1..]))
    else
      var n := DigitCount(s[1..]);
      if n > 0 then
        var value := Decimal(s[1..1 + n]);
        if 0 <= value < 256 then Prefixed(value, ReadBody(s[1 + n..])) else None
      else if |s| == 1 || SimpleEscape(s[1]).None? then None
      else Prefixed(SimpleEscape(s[1]).value, ReadBody(s[2..]))
  }

  function Prefixed(c: Byte, rest: Option<(Text, Text)>): Option<(Text, Text)> {
    if rest.None? then None else Some(([c] + rest.value.0, rest.value.1))
  }

  function ReadString(s: Text): Option<(Text, Text)> {
    if s == [] || s[0] != QUOTE then None else ReadBody(s[1..])
  }

  lemma ReadEscaped(c: Byte, rest: Text)
    ensures ReadBody(Escaped(c) + rest) == Prefixed(c, ReadBody(rest))
  {
    var s := Escaped(c) + rest;
    if |Escaped(c)| == 1 {
      assert s[1..] == rest;
    } else if |Escaped(c)| == 2 {
      assert s[2..] == rest && s[1..][0] == s[1] && !IsDigit(s[1]);
    } else {
      var d := s[1..4];
      assert s[1..][0] == d[0] && s[1..][1] == d[1] && s[1..][2] == d[2] && s[4..] == rest;
      assert DigitCount(s[1..]) == 3;
      assert d[..2] == [d[0], d[1]] && d[..2][..1] == [d[0]] && d[..2][..1][..0] == [];
      assert Decimal([d[0]]) == d[0] - 48;
      assert Decimal(d) == 100 * (c / 100) + 10 * (c / 10 % 10) + c % 10 == c;
    }
  }

  lemma {:induction false} ReadEscapedAll(s: Text, t: Text)
    ensures ReadBody(EscapedAll(s) + [QUOTE] + t) == Some((s, t))
    decreases |s|
  {
    if s == [] {
      assert EscapedAll(s) + [QUOTE] + t == [QUOTE] + t;
      assert ([QUOTE] + t)[1..] == t;
    } else {
      ReadEscapedAll(s[1..], t);
      ReadEscaped(s[0], EscapedAll(s[1..]) + [QUOTE] + t);
      var head, tail := Escaped(s[0]), EscapedAll(s[1..]);
      Assoc3(head, tail, [QUOTE]);
      Assoc3(head, tail + [QUOTE], t);
      assert [s[0]] + s[1..] == s;
    }
  }

  /** Whatever the bytes and whatever follows the literal, a Lua reader gets the string back and stops at its end. */
  lemma QuotingRoundTrips(s: Text, t: Text)
    ensures ReadString(Quoted(s) + t) == Some((s, t))
  {
    ReadEscapedAll(s, t);
    var body := EscapedAll(s);
    assert Quoted(s) == [QUOTE] + body + [QUOTE];
    assert ([QUOTE] + body + [QUOTE] + t)[1..] == body + [QUOTE] + t;
  }

  // ----- The managed releases -----

  datatype HelmRelease = HelmRelease(namespace: Text, name: Text)

  datatype ReleaseSummary = ReleaseSummary(release: HelmRelease, managing: bool)

  predicate TextLeq(a: Text, b: Text) {
    if a == [] then true else if b == [] then false else if a[0] != b[0] then a[0] < b[0] else TextLeq(a[1..], b[1..])
  }

  predicate ReleaseLeq(a: HelmRelease, b: HelmRelease) {
    if a.namespace != b.namespace then TextLeq(a.namespace, b.namespace) else TextLeq(a.name, b.name)
  }

  lemma {:induction false} TextOrder(a: Text, b: Text, c: Text)
    ensures TextLeq(a, b) || TextLeq(b, a)
    ensures TextLeq(a, b) && TextLeq(b, a) ==> a == b
    ensures TextLeq(a, b) && TextLeq(b, c) ==> TextLeq(a, c)
    decreases |a|
  {
    if a != [] && b != [] && a[0] == b[0] {
      TextOrder(a[1..], b[1..], if c == [] then [] else c[1..]);
      assert a == [a[0]] + a[1..] && b == [b[0]] + b[1..];
    }
  }

  lemma ReleaseLeqIsTotalOrder()
    ensures TotalOrder(ReleaseLeq)
  {
    forall a: HelmRelease, b: HelmRelease, c: HelmRelease
      ensures ReleaseLeq(a, b) || ReleaseLeq(b, a)
      ensures ReleaseLeq(a, b) && ReleaseLeq(b, a) ==> a == b
      ensures ReleaseLeq(a, b) && ReleaseLeq(b, c) ==> ReleaseLeq(a, c)
    {
      TextOrder(a.namespace, b.namespace, c.namespace);
      TextOrder(b.namespace, c.namespace, a.namespace);
      TextOrder(a.name, b.name, c.name);
    }
  }

  function Managed(summaries: seq<ReleaseSummary>): seq<HelmRelease> {
    if summaries == [] then []
    else Managed(summaries[..|summaries| - 1])
         + if summaries[|summaries| - 1].managing then [summaries[|summaries| - 1].release] else []
  }

  lemma {:induction false} ManagedIff(summaries: seq<ReleaseSummary>, r: HelmRelease)
    ensures r in Managed(summaries) <==>
              exists i :: 0 <= i < |summaries| && summaries[i].managing && summaries[i].release == r
  {
    if summaries != [] {
      ManagedIff(summaries[..|summaries| - 1], r);
    }
  }

  /** The managed releases, sorted by namespace and name. */
  method GetManagedHelmReleases(summaries: seq<ReleaseSummary>) returns (releases: seq<HelmRelease>)
    ensures SortedBy(releases, ReleaseLeq) && multiset(releases) == multiset(Managed(summaries))
  {
    var managed: seq<HelmRelease> := [];
    for i := 0 to |summaries|
      invariant managed == Managed(summaries[..i])
    {
      assert summaries[..i + 1][..i] == summaries[..i];
      if !summaries[i].managing {
        continue;
      }
      managed := managed + [summaries[i].release];
    }
    assert summaries[..|summaries|] == summaries;
    ReleaseLeqIsTotalOrder();
    releases := SortBy(managed, ReleaseLeq);
  }

  /**
   Comparing two of these lists, as healthMonitoringInputsChanged does, compares what is managed, whatever the order
   of the summaries.
   */
  lemma ListChangesIffManagedChange(before: seq<ReleaseSummary>, after: seq<ReleaseSummary>, a: seq<HelmRelease>,
                                    b: seq<HelmRelease>)
    requires SortedBy(a, ReleaseLeq) && multiset(a) == multiset(Managed(before))
    requires SortedBy(b, ReleaseLeq) && multiset(b) == multiset(Managed(after))
    ensures a == b <==> multiset(Managed(before)) == multiset(Managed(after))
  {
    ReleaseLeqIsTotalOrder();
    SortedIsCanonical(a, b, ReleaseLeq);
  }

  // ----- The script -----

  datatype Config = Config(ownerKind: Text, ownerName: Text, helmReleases: seq<HelmRelease>)

  const SLASH: Byte := 47

  function ReleaseKey(r: HelmRelease): Text {
    r.namespace + [SLASH] + r.name
  }

  const HEADER := "local config = {\n"
  const KIND := "  ownerKind = "
  const NAME := "  ownerName = "
  const RELEASES := "  helmReleases = {\n"
  const OPEN_ENTRY := "    ["
  const CLOSE_ENTRY := "] = true,\n"
  const COMMA := ",\n"
  const FOOTER := "  },\n}\n\n"

  function Field(fieldName: string, value: Text): Text {
    Ascii(fieldName) + Quoted(value) + Ascii(COMMA)
  }

  function Entry(r: HelmRelease): Text {
    Ascii(OPEN_ENTRY) + Quoted(ReleaseKey(r)) + Ascii(CLOSE_ENTRY)
  }

  function Entries(releases: seq<HelmRelease>): Text {
    if releases == [] then [] else Entry(releases[0]) + Entries(releases[1..])
  }

  /** The table followed by the Lua library. */
  function Rendered(config: Config, library: Text): Text {
    Ascii(HEADER) + Field(KIND, config.ownerKind) + Field(NAME, config.ownerName) + Ascii(RELEASES)
    + Entries(config.helmReleases) + (Ascii(FOOTER) + library)
  }

  lemma {:induction false} EntriesAppended(releases: seq<HelmRelease>, r: HelmRelease)
    ensures Entries(releases + [r]) == Entries(releases) + Entry(r)
  {
    if releases == [] {
      assert releases + [r] == [r] && [r][1..] == [] && Entries([]) == [];
      assert Entries([r]) == Entry(r) + [];
    } else {
      EntriesAppended(releases[1..], r);
      assert (releases + [r])[1..] == releases[1..] + [r];
      Assoc3(Entry(releases[0]), Entries(releases[1..]), Entry(r));
    }
  }

  method RenderHealthMonitoringLua(config: Config, library: Text) returns (script: Text)
    ensures script == Rendered(config, library)
  {
    var b := Ascii(HEADER);
    var field := RenderField(KIND, config.ownerKind);
    b := b + field;
    field := RenderField(NAME, config.ownerName);
    b := b + field;
    b := b + Ascii(RELEASES);
    var entries := RenderEntries(config.helmReleases);
    script := b + entries + (Ascii(FOOTER) + library);
  }

  method RenderField(fieldName: string, value: Text) returns (field: Text)
    ensures field == Field(fieldName, value)
  {
    var quoted := QuoteLuaString(value);
    field := Ascii(fieldName) + quoted + Ascii(COMMA);
  }

  method RenderEntries(releases: seq<HelmRelease>) returns (entries: Text)
    ensures entries == Entries(releases)
  {
    entries := [];
    for i := 0 to |releases|
      invariant entries == Entries(releases[..i])
    {
      EntriesAppended(releases[..i], releases[i]);
      assert releases[..i + 1] == releases[..i] + [releases[i]];
      var quoted := QuoteLuaString(releases[i].namespace + [SLASH] + releases[i].name);
      entries := entries + (Ascii(OPEN_ENTRY) + quoted + Ascii(CLOSE_ENTRY));
    }
    assert releases[..|releases|] == releases;
  }

  // ----- Reading the script -----

  /** What is left behind the expected piece of text. */
  function Expect(piece: Text, s: Text): Option<Text> {
    if piece <= s then Some(s[|piece|..]) else None
  }

  lemma ExpectFinds(piece: Text, rest: Text)
    ensures Expect(piece, piece + rest) == Some(rest)
  {
    assert (piece + rest)[|piece|..] == rest;
  }

  /** A string field with its comma. */
  function ReadField(fieldName: Text, s: Text): Option<(Text, Text)> {
    var value := Expect(fieldName, s);
    if value.None? then None
    else
      var read := ReadString(value.value);
      if read.None? then None
      else
        var rest := Expect(Ascii(COMMA), read.value.1);
        if rest.None? then None else Some((read.value.0, rest.value))
  }

  /** The keys of the releases, up to the end of the table. */
  function ReadKeys(s: Text): Option<(seq<Text>, Text)>
    decreases |s|
  {
    var entry := Expect(Ascii(OPEN_ENTRY), s);
    if entry.None? then
      var rest := Expect(Ascii(FOOTER), s);
      if rest.None? then None else Some(([], rest.value))
    else
      var key := ReadString(entry.value);
      if key.None? then None
      else
        var rest := Expect(Ascii(CLOSE_ENTRY), key.value.1);
        if rest.None? || |rest.value| >= |s| then None
        else
          var keys := ReadKeys(rest.value);
          if keys.None? then None else Some(([key.value.0] + keys.value.0, keys.value.1))
  }

  datatype Script = Script(ownerKind: Text, ownerName: Text, keys: seq<Text>, library: Text)

  function ReadScript(s: Text): Option<Script> {
    var header := Expect(Ascii(HEADER), s);
    if header.None? then None
    else
      var kind := ReadField(Ascii(KIND), header.value);
      if kind.None? then None
      else
        var name := ReadField(Ascii(NAME), kind.value.1);
        if name.None? then None
        else
          var table := Expect(Ascii(RELEASES), name.value.1);
          if table.None? then None
          else
            var keys := ReadKeys(table.value);
            if keys.None? then None
            else Some(Script(kind.value.0, name.value.0, keys.value.0, keys.value.1))
  }

  lemma Assoc(a: Text, b: Text, c: Text, d: Text)
    ensures (a + b + c) + d == a + (b + (c + d))
  {
  }

  lemma Assoc5(a: Text, b: Text, c: Text, d: Text, e: Text, f: Text)
    ensures a + b + c + d + e + f == a + (b + (c + (d + (e + f))))
  {
    Assoc3(a + b + c + d, e, f);
    Assoc3(a + b + c, d, e + f);
    Assoc3(a + b, c, d + (e + f));
    Assoc3(a, b, c + (d + (e + f)));
  }

  lemma ReadFieldFinds(fieldName: string, value: Text, rest: Text)
    ensures ReadField(Ascii(fieldName), Field(fieldName, value) + rest) == Some((value, rest))
  {
    Assoc(Ascii(fieldName), Quoted(value), Ascii(COMMA), rest);
    ExpectFinds(Ascii(fieldName), Quoted(value) + (Ascii(COMMA) + rest));
    QuotingRoundTrips(value, Ascii(COMMA) + rest);
    ExpectFinds(Ascii(COMMA), rest);
  }

  function Keys(releases: seq<HelmRelease>): seq<Text> {
    seq(|releases|, i requires 0 <= i < |releases| => ReleaseKey(releases[i]))
  }

  /** The end of the table is not taken for another entry. */
  lemma FooterEndsTheTable(library: Text)
    ensures ReadKeys(Ascii(FOOTER) + library) == Some(([], library))
  {
    var s := Ascii(FOOTER) + library;
    assert s[2] == 125 && Ascii(OPEN_ENTRY)[2] == 32;
    ExpectFinds(Ascii(FOOTER), library);
  }

  lemma ReadEntry(r: HelmRelease, rest: Text)
    requires ReadKeys(rest).Some?
    ensures ReadKeys(Entry(r) + rest) == Some(([ReleaseKey(r)] + ReadKeys(rest).value.0, ReadKeys(rest).value.1))
  {
    var open, quoted, close := Ascii(OPEN_ENTRY), Quoted(ReleaseKey(r)), Ascii(CLOSE_ENTRY);
    Assoc(open, quoted, close, rest);
    ExpectFinds(open, quoted + (close + rest));
    QuotingRoundTrips(ReleaseKey(r), close + rest);
    ExpectFinds(close, rest);
    assert |rest| < |Entry(r) + rest|;
  }

  lemma {:induction false} ReadKeysFinds(releases: seq<HelmRelease>, library: Text)
    ensures ReadKeys(Entries(releases) + (Ascii(FOOTER) + library)) == Some((Keys(releases), library))
    decreases |releases|
  {
    var footer := Ascii(FOOTER) + library;
    if releases == [] {
      assert Entries(releases) + footer == footer;
      FooterEndsTheTable(library);
    } else {
      var rest := Entries(releases[1..]) + footer;
      ReadKeysFinds(releases[1..], library);
      ReadEntry(releases[0], rest);
      Assoc3(Entry(releases[0]), Entries(releases[1..]), footer);
      assert Keys(releases) == [ReleaseKey(releases[0])] + Keys(releases[1..]);
    }
  }

  /** The script reads back to what it was rendered from, for every owner, every list of releases and every library. */
  lemma ScriptRoundTrips(config: Config, library: Text)
    ensures ReadScript(Rendered(config, library))
            == Some(Script(config.ownerKind, config.ownerName, Keys(config.helmReleases), library))
  {
    var header, kind, name, table := Ascii(HEADER), Field(KIND, config.ownerKind), Field(NAME, config.ownerName),
      Ascii(RELEASES);
    var entries := Entries(config.helmReleases) + (Ascii(FOOTER) + library);
    Assoc5(header, kind, name, table, Entries(config.helmReleases), Ascii(FOOTER) + library);
    ExpectFinds(header, kind + (name + (table + entries)));
    ReadFieldFinds(KIND, config.ownerKind, name + (table + entries));
    ReadFieldFinds(NAME, config.ownerName, table + entries);
    ExpectFinds(table, entries);
    ReadKeysFinds(config.helmReleases, library);
  }

  /** The key stands for one release as long as no namespace holds a slash. */
  lemma KeyNamesTheRelease(a: HelmRelease, b: HelmRelease)
    requires SLASH !in a.namespace && SLASH !in b.namespace
    ensures ReleaseKey(a) == ReleaseKey(b) ==> a == b
  {
    if |a.namespace| <= |b.namespace| {
      FirstSlash(a, b);
    } else {
      FirstSlash(b, a);
    }
  }

  lemma FirstSlash(a: HelmRelease, b: HelmRelease)
    requires SLASH !in b.namespace && |a.namespace| <= |b.namespace|
    ensures ReleaseKey(a) == ReleaseKey(b) ==> a == b
  {
    var n := |a.namespace|;
    var k, l := ReleaseKey(a), ReleaseKey(b);
    assert k[n] == SLASH && a.namespace == k[..n] && a.name == k[n + 1..];
    if n == |b.namespace| {
      assert b.namespace == l[..n] && b.name == l[n + 1..];
    } else {
      assert l[n] == b.namespace[n];
    }
  }

  /** With one that does, there is another release with the same key. */
  lemma SlashMakesKeysClash(a: HelmRelease, k: nat)
    requires k < |a.namespace| && a.namespace[k] == SLASH
    ensures var b := HelmRelease(a.namespace[..k], a.namespace[k + 1..] + [SLASH] + a.name);
            b != a && ReleaseKey(b) == ReleaseKey(a)
  {
    assert a.namespace == a.namespace[..k] + [SLASH] + a.namespace[k + 1..];
  }
}
