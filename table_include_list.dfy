/** The table include-list handed to the change-capture engine: every
    INCREMENTAL stream of the catalog, as "namespace.name", with each comma
    escaped as backslash-comma, joined with "," in catalog order. */
module TableIncludeList {
  import opened Wrappers
  import opened Protocol

  const Backslash: char := '\\'

  /** Java string concatenation renders a null namespace as the text "null". */
  function NamespaceText(namespace: Option<string>): string
  {
    match namespace
    case Some(ns) => ns
    case None => "null"
  }

  function QualifiedName(stream: AirbyteStream): string
  {
    NamespaceText(stream.namespace) + "." + stream.name
  }

  function QualifiedNames(streams: seq<AirbyteStream>): (names: seq<string>)
    ensures |names| == |streams|
  {
    seq(|streams|, i requires 0 <= i < |streams| => QualifiedName(streams[i]))
  }

  /** The streams whose sync mode is INCREMENTAL, in catalog order: a stream
      is kept exactly when some catalog entry carries it as INCREMENTAL. */
  function IncrementalStreams(streams: seq<ConfiguredStream>): (kept: seq<AirbyteStream>)
    ensures |kept| <= |streams|
    ensures forall st :: st in kept <==>
      exists i :: 0 <= i < |streams| && streams[i].syncMode == Incremental && streams[i].stream == st
  {
    if streams == [] then []
    else
      var rest := IncrementalStreams(streams[1..]);
      assert forall i :: 1 <= i < |streams| ==> streams[i] == streams[1..][i - 1];
      assert forall st :: st in rest ==>
        exists i :: 1 <= i < |streams| && streams[i].syncMode == Incremental && streams[i].stream == st
      by {
        forall st | st in rest
          ensures exists i :: 1 <= i < |streams| && streams[i].syncMode == Incremental && streams[i].stream == st
        {
          var i :| 0 <= i < |streams[1..]| && streams[1..][i].syncMode == Incremental && streams[1..][i].stream == st;
          assert streams[i + 1] == streams[1..][i];
        }
      }
      if streams[0].syncMode == Incremental then [streams[0].stream] + rest else rest
  }

  /** A comma the engine reads as a list separator: one not preceded by a backslash. */
  predicate IsUnescapedComma(s: string, i: nat)
    requires i < |s|
  {
    s[i] == ',' && (i == 0 || s[i - 1] != Backslash)
  }

  predicate NoUnescapedComma(s: string)
  {
    forall i :: 0 <= i < |s| ==> !IsUnescapedComma(s, i)
  }

  predicate EndsWithBackslash(s: string)
  {
    |s| > 0 && s[|s| - 1] == Backslash
  }

  /** Replaces every comma by backslash-comma. The result has no separator
      comma and keeps the last character of its input. */
  function EscapeCommas(x: string): (r: string)
    ensures NoUnescapedComma(r)
    ensures |r| >= |x|
    ensures |x| > 0 ==> r[|r| - 1] == x[|x| - 1]
  {
    if x == [] then []
    else
      var rest := EscapeCommas(x[1..]);
      var head := if x[0] == ',' then [Backslash, ','] else [x[0]];
      var r := head + rest;
      assert forall i | 0 <= i < |r| :: !IsUnescapedComma(r, i) by {
        forall i | 0 <= i < |r| ensures !IsUnescapedComma(r, i) {
          if i >= |head| {
            assert r[i] == rest[i - |head|];
            assert !IsUnescapedComma(rest, i - |head|);
            if i > |head| {
              assert r[i - 1] == rest[i - 1 - |head|];
            }
          }
        }
      }
      r
  }

  /** Turns every backslash-comma back into a comma. */
  function Unescape(s: string): string
    decreases |s|
  {
    if |s| >= 2 && s[0] == Backslash && s[1] == ',' then [','] + Unescape(s[2..])
    else if s == [] then []
    else [s[0]] + Unescape(s[1..])
  }

  /** Joins the parts with ",": the text starts with the first part, followed
      by a separator comma when more parts come. */
  function JoinWithCommas(parts: seq<string>): (joined: string)
    ensures |parts| > 0 ==> parts[0] <= joined
    ensures |parts| > 1 ==> |joined| > |parts[0]| && joined[|parts[0]|] == ','
  {
    if |parts| == 0 then ""
    else if |parts| == 1 then parts[0]
    else parts[0] + "," + JoinWithCommas(parts[1..])
  }

  /** The first separator comma at or after `from`, or |s| when there is none. */
  function SeparatorFrom(s: string, from: nat): (j: nat)
    requires from <= |s|
    ensures from <= j <= |s|
    ensures j < |s| ==> IsUnescapedComma(s, j)
    ensures forall k :: from <= k < j ==> !IsUnescapedComma(s, k)
    decreases |s| - from
  {
    if from == |s| || IsUnescapedComma(s, from) then from else SeparatorFrom(s, from + 1)
  }

  /** Splits on the commas not preceded by a backslash. */
  function SplitOnUnescapedCommas(s: string): (parts: seq<string>)
    ensures |parts| >= 1
    decreases |s|
  {
    var j := SeparatorFrom(s, 0);
    if j == |s| then [s] else [s[..j]] + SplitOnUnescapedCommas(s[j + 1..])
  }

  /** How the engine reads an include-list back: the empty text is the empty
      list, otherwise split on separator commas and un-escape each entry. */
  function ParseIncludeList(list: string): seq<string>
  {
    if list == "" then []
    else
      var parts := SplitOnUnescapedCommas(list);
      seq(|parts|, i requires 0 <= i < |parts| => Unescape(parts[i]))
  }

  function IncludeEntries(catalog: ConfiguredCatalog): (entries: seq<string>)
  {
    var streams := IncrementalStreams(catalog.streams);
    seq(|streams|, i requires 0 <= i < |streams| => EscapeCommas(QualifiedName(streams[i])))
  }

  /** `getTableWhitelist`: the include-list for the catalog. It is the empty
      string exactly when no stream is INCREMENTAL. */
  function TableWhitelist(catalog: ConfiguredCatalog): (list: string)
    ensures list == "" <==> IncrementalStreams(catalog.streams) == []
  {
    var streams := IncrementalStreams(catalog.streams);
    var entries := IncludeEntries(catalog);
    assert streams != [] ==> |entries[0]| >= |QualifiedName(streams[0])| > 0;
    JoinWithCommas(entries)
  }

  // ---------------------------------------------------------------------------
  // Properties

  /** Each entry is the namespace, a dot, then the stream name; a stream
      without a namespace is listed as "null.<name>", as Java's string
      concatenation renders a null reference. */
  lemma QualifiedNameRendering(st: AirbyteStream)
    ensures st.namespace.Some? ==> QualifiedName(st) == st.namespace.value + "." + st.name
    ensures st.namespace.None? ==> QualifiedName(st) == "null." + st.name
  {
    assert "null" + "." == "null.";
  }

  /** Filtering keeps catalog order: the INCREMENTAL streams of a concatenation
      are those of the first part followed by those of the second. */
  lemma {:induction false} IncrementalStreamsAppend(a: seq<ConfiguredStream>, b: seq<ConfiguredStream>)
    ensures IncrementalStreams(a + b) == IncrementalStreams(a) + IncrementalStreams(b)
  {
    if a == [] {
      assert a + b == b;
    } else {
      assert (a + b)[0] == a[0];
      assert (a + b)[1..] == a[1..] + b;
      IncrementalStreamsAppend(a[1..], b);
    }
  }

  /** Un-escaping undoes escaping, for every text. */
  lemma {:induction false} EscapeRoundTrip(x: string)
    ensures Unescape(EscapeCommas(x)) == x
  {
    if x != [] {
      EscapeRoundTrip(x[1..]);
      var rest := EscapeCommas(x[1..]);
      if x[0] == ',' {
        var s := [Backslash, ','] + rest;
        assert s[2..] == rest;
      } else {
        var s := [x[0]] + rest;
        assert s[1..] == rest;
        assert |rest| > 0 ==> !IsUnescapedComma(rest, 0);
      }
    }
  }

  /** Splitting a comma-joined list whose parts hold no separator comma and do
      not end in a backslash gives back the parts. */
  lemma {:induction false} SplitJoin(parts: seq<string>)
    requires |parts| >= 1
    requires forall p :: p in parts ==> NoUnescapedComma(p) && !EndsWithBackslash(p)
    ensures SplitOnUnescapedCommas(JoinWithCommas(parts)) == parts
  {
    var p := parts[0];
    assert p in parts;
    if |parts| == 1 {
      assert JoinWithCommas(parts) == p;
      assert SeparatorFrom(p, 0) == |p|;
    } else {
      var rest := JoinWithCommas(parts[1..]);
      var s := p + "," + rest;
      assert JoinWithCommas(parts) == s;
      forall k | 0 <= k < |p|
        ensures !IsUnescapedComma(s, k)
      {
        assert s[k] == p[k];
        assert k > 0 ==> s[k - 1] == p[k - 1];
        assert !IsUnescapedComma(p, k);
      }
      assert IsUnescapedComma(s, |p|);
      var j := SeparatorFrom(s, 0);
      assert j == |p|;
      assert s[..j] == p;
      assert s[j + 1..] == rest;
      SplitJoin(parts[1..]);
    }
  }

  /** A qualified name never ends in a backslash unless the stream name does. */
  lemma QualifiedNameEnding(st: AirbyteStream)
    requires !EndsWithBackslash(st.name)
    ensures |QualifiedName(st)| > 0 && !EndsWithBackslash(EscapeCommas(QualifiedName(st)))
  {
    var q := QualifiedName(st);
    if st.name == [] {
      assert q[|q| - 1] == '.';
    } else {
      assert q[|q| - 1] == st.name[|st.name| - 1];
    }
  }

  /** The engine reads back exactly the qualified names of the INCREMENTAL
      streams, in catalog order, provided no stream name ends in a backslash
      (in particular when no name contains a backslash). */
  lemma IncludeListRoundTrip(catalog: ConfiguredCatalog)
    requires forall st :: st in IncrementalStreams(catalog.streams) ==> !EndsWithBackslash(st.name)
    ensures ParseIncludeList(TableWhitelist(catalog)) == QualifiedNames(IncrementalStreams(catalog.streams))
  {
    var streams := IncrementalStreams(catalog.streams);
    var entries := IncludeEntries(catalog);
    var names := QualifiedNames(streams);
    forall i | 0 <= i < |streams|
      ensures |entries[i]| > 0 && !EndsWithBackslash(entries[i])
      ensures Unescape(entries[i]) == names[i]
    {
      assert streams[i] in streams;
      QualifiedNameEnding(streams[i]);
      EscapeRoundTrip(QualifiedName(streams[i]));
    }
    if streams != [] {
      SplitJoin(entries);
    }
  }

  /** With distinct qualified names, the list read back by the engine names a
      stream of the catalog if and only if that stream is INCREMENTAL. */
  lemma EntryPresentIffIncremental(catalog: ConfiguredCatalog, i: nat)
    requires i < |catalog.streams|
    requires forall st :: st in IncrementalStreams(catalog.streams) ==> !EndsWithBackslash(st.name)
    requires forall j, k :: 0 <= j < k < |catalog.streams| ==>
      QualifiedName(catalog.streams[j].stream) != QualifiedName(catalog.streams[k].stream)
    ensures QualifiedName(catalog.streams[i].stream) in ParseIncludeList(TableWhitelist(catalog))
      <==> catalog.streams[i].syncMode == Incremental
  {
    var streams := catalog.streams;
    var inc := IncrementalStreams(streams);
    var x := QualifiedName(streams[i].stream);
    IncludeListRoundTrip(catalog);
    if streams[i].syncMode == Incremental {
      assert streams[i].stream in inc;
      var k :| 0 <= k < |inc| && inc[k] == streams[i].stream;
      assert QualifiedNames(inc)[k] == x;
    }
    if x in QualifiedNames(inc) {
      var k :| 0 <= k < |inc| && QualifiedNames(inc)[k] == x;
      assert inc[k] in inc;
      var j :| 0 <= j < |streams| && streams[j].syncMode == Incremental && streams[j].stream == inc[k];
      assert QualifiedName(streams[j].stream) == x;
      assert j == i;
    }
  }

  /** Only the INCREMENTAL stream "a,b"."t" is listed; its comma is escaped. */
  lemma EscapedExample()
    ensures TableWhitelist(ConfiguredCatalog([
        ConfiguredStream(AirbyteStream(Some("a,b"), "t"), Incremental),
        ConfiguredStream(AirbyteStream(Some("c"), "u"), FullRefresh)]))
      == "a\\,b.t"
  {
    var first := AirbyteStream(Some("a,b"), "t");
    var rest := [ConfiguredStream(AirbyteStream(Some("c"), "u"), FullRefresh)];
    var streams := [ConfiguredStream(first, Incremental)] + rest;
    assert streams[1..] == rest;
    assert IncrementalStreams(rest[1..]) == [];
    assert IncrementalStreams(streams) == [first];
    assert QualifiedName(first) == "a" + "," + "b.t";
    EscapeExampleEntry();
    assert IncludeEntries(ConfiguredCatalog(streams)) == ["a\\,b.t"];
  }

  /** The escaped form of the example's qualified name. */
  lemma EscapeExampleEntry()
    ensures EscapeCommas("a" + "," + "b.t") == "a\\,b.t"
  {
    var x, comma, y := "a", ",", "b.t";
    EscapeCommasAppend(x + comma, y);
    EscapeCommasAppend(x, comma);
    assert EscapeCommas(comma) == [Backslash, ','];
    EscapeCommasNoComma(x);
    EscapeCommasNoComma(y);
    ExampleConcat();
  }

  /** The literal concatenation the example ends with, kept apart from the
      escaping facts so that the solver meets it without them. */
  lemma ExampleConcat()
    ensures "a" + [Backslash, ','] + "b.t" == "a\\,b.t"
  {
  }

  /** Escaping works character by character. */
  lemma {:induction false} EscapeCommasAppend(a: string, b: string)
    ensures EscapeCommas(a + b) == EscapeCommas(a) + EscapeCommas(b)
  {
    if a == [] {
      assert a + b == b;
    } else {
      assert (a + b)[0] == a[0];
      assert (a + b)[1..] == a[1..] + b;
      EscapeCommasAppend(a[1..], b);
    }
  }

  /** A text without commas is left as it is. */
  lemma {:induction false} EscapeCommasNoComma(x: string)
    requires ',' !in x
    ensures EscapeCommas(x) == x
  {
    if x != [] {
      assert x == [x[0]] + x[1..];
      EscapeCommasNoComma(x[1..]);
    }
  }
}
