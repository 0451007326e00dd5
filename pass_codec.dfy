/** The pass text carried by the QR symbol: the template that writes it and parseQRContent, which reads it. */
module PassCodec {
  import opened Js
  import opened Text

  /** The object parseQRContent fills: trimmed key to trimmed value. */
  type Fields = map<string, string>

  /** Assigning a string to this member of a plain object runs the inherited prototype setter,
      which ignores anything that is not an object: no entry is created. */
  const ProtoKey := "__proto__"

  /** The tag the pass page writes into the APP field. */
  const AppTag := "FRESHER2025"

  // ---------------------------------------------------------------------------
  // Decoder

  /** The pair one `|`-segment offers: the first two pieces of `segment.split(':')`, kept only when
      both raw pieces are non-empty, and then trimmed. */
  function SegmentEntry(segment: string): Option<(string, string)> {
    var pieces := Split(segment, ':');
    if pieces[0] != "" && |pieces| >= 2 && pieces[1] != "" then
      Some((Trim(pieces[0]), Trim(pieces[1])))
    else
      None
  }

  /** The pair each segment offers, in segment order. */
  function Entries(segments: seq<string>): (r: seq<Option<(string, string)>>)
    ensures |r| == |segments|
    ensures forall i :: 0 <= i < |segments| ==> r[i] == SegmentEntry(segments[i])
  {
    seq(|segments|, i requires 0 <= i < |segments| => SegmentEntry(segments[i]))
  }

  /** One step of the forEach: `result[key.trim()] = value.trim()` when the pair is kept. */
  function Install(result: Fields, entry: Option<(string, string)>): Fields {
    match entry
    case None => result
    case Some(pair) => if pair.0 == ProtoKey then result else result[pair.0 := pair.1]
  }

  /** The object after the forEach has installed `entries` from left to right. */
  function Fold(entries: seq<Option<(string, string)>>): Fields
    decreases |entries|
  {
    if entries == [] then map[]
    else Install(Fold(entries[..|entries| - 1]), entries[|entries| - 1])
  }

  /** The segments of a pass text. */
  function Segments(text: string): seq<string> {
    Split(text, '|')
  }

  /** What parseQRContent returns for `text`. */
  function Decode(text: string): Fields {
    Fold(Entries(Segments(text)))
  }

  /** parseQRContent: split on `|`, then fill the result one segment at a time. It has no
      precondition and no error outcome: every string yields a mapping. */
  method ParseQRContent(text: string) returns (result: Fields)
    ensures result == Decode(text)
  {
    var pairs := Split(text, '|');
    result := map[];
    var i := 0;
    while i < |pairs|
      invariant 0 <= i <= |pairs|
      invariant result == Fold(Entries(pairs[..i]))
    {
      FoldPrefixStep(pairs, i);
      var pieces := Split(pairs[i], ':');
      var key := pieces[0];
      if key != "" && |pieces| >= 2 && pieces[1] != "" {
        assert SegmentEntry(pairs[i]) == Some((Trim(key), Trim(pieces[1])));
        var k := Trim(key);
        if k != ProtoKey {
          result := result[k := Trim(pieces[1])];
        }
      } else {
        assert SegmentEntry(pairs[i]) == None;
      }
      i := i + 1;
    }
    assert pairs[..|pairs|] == pairs;
  }

  /** The forEach after one more segment: that segment's pair installed on top. */
  lemma FoldPrefixStep(segments: seq<string>, i: nat)
    requires i < |segments|
    ensures Fold(Entries(segments[..i + 1])) == Install(Fold(Entries(segments[..i])), SegmentEntry(segments[i]))
  {
    var e := Entries(segments[..i + 1]);
    assert e[..i] == Entries(segments[..i]);
    assert e[i] == SegmentEntry(segments[i]);
  }

  /** `entry` creates or overwrites the member `key`. */
  predicate Contributes(entry: Option<(string, string)>, key: string) {
    entry.Some? && entry.value.0 == key && key != ProtoKey
  }

  /** A key is present exactly when some entry contributes it. */
  lemma {:induction false} FoldKeys(entries: seq<Option<(string, string)>>, key: string)
    ensures key in Fold(entries) <==> exists j :: 0 <= j < |entries| && Contributes(entries[j], key)
    decreases |entries|
  {
    if entries != [] {
      var n := |entries| - 1;
      var p := entries[..n];
      FoldKeys(p, key);
      if key in Fold(entries) && key !in Fold(p) {
        assert Contributes(entries[n], key);
      }
      if j :| 0 <= j < |entries| && Contributes(entries[j], key) {
        if j < n {
          assert Contributes(p[j], key);
        }
      }
    }
  }

  /** The value of a key is the one its last contributing entry offers. */
  lemma {:induction false} FoldLastWins(entries: seq<Option<(string, string)>>, key: string, j: nat)
    requires j < |entries| && Contributes(entries[j], key)
    requires forall k :: j < k < |entries| ==> !Contributes(entries[k], key)
    ensures key in Fold(entries) && Fold(entries)[key] == entries[j].value.1
    decreases |entries|
  {
    var n := |entries| - 1;
    var p := entries[..n];
    if j < n {
      assert forall k :: j < k < |p| ==> p[k] == entries[k];
      FoldLastWins(p, key, j);
      assert !Contributes(entries[n], key);
    }
  }

  /** An entry list keeps `key` exactly when some entry contributes it, holding the value of the
      last such entry. */
  lemma FoldMeaning(entries: seq<Option<(string, string)>>, key: string)
    ensures key in Fold(entries) <==> exists j :: 0 <= j < |entries| && Contributes(entries[j], key)
    ensures key in Fold(entries) ==>
      exists j :: 0 <= j < |entries| && Contributes(entries[j], key) && Fold(entries)[key] == entries[j].value.1
        && forall k :: j < k < |entries| ==> !Contributes(entries[k], key)
  {
    FoldKeys(entries, key);
    if key in Fold(entries) {
      var j :| 0 <= j < |entries| && Contributes(entries[j], key);
      while exists k :: j < k < |entries| && Contributes(entries[k], key)
        invariant 0 <= j < |entries| && Contributes(entries[j], key)
        decreases |entries| - j
      {
        var k :| j < k < |entries| && Contributes(entries[k], key);
        j := k;
      }
      FoldLastWins(entries, key, j);
    }
  }

  /** parseQRContent keeps `key` exactly when some segment contributes it, and then holds the value
      of the last such segment. */
  lemma DecodeMeaning(text: string, key: string)
    ensures var es := Entries(Segments(text));
      && (key in Decode(text) <==> exists j :: 0 <= j < |es| && Contributes(es[j], key))
      && (key in Decode(text) ==>
            exists j :: 0 <= j < |es| && Contributes(es[j], key) && Decode(text)[key] == es[j].value.1
              && forall k :: j < k < |es| ==> !Contributes(es[k], key))
  {
    FoldMeaning(Entries(Segments(text)), key);
  }

  /** One more segment at the end overwrites the member it contributes and changes nothing else. */
  lemma DecodeAppend(text: string, segment: string)
    requires '|' !in segment
    ensures Decode(text + "|" + segment) == Install(Decode(text), SegmentEntry(segment))
    ensures forall key :: Contributes(SegmentEntry(segment), key) ==>
      Decode(text + "|" + segment) == Decode(text)[key := SegmentEntry(segment).value.1]
    ensures (forall key :: !Contributes(SegmentEntry(segment), key)) ==> Decode(text + "|" + segment) == Decode(text)
  {
    SplitAppend(text, '|', segment);
    assert text + "|" + segment == text + ['|'] + segment;
    FoldEntriesSnoc(Segments(text), segment);
    var entry := SegmentEntry(segment);
    if entry.Some? && entry.value.0 != ProtoKey {
      assert Contributes(entry, entry.value.0);
    }
  }

  /** The decoded mapping of a segment list is built one segment at a time, left to right. */
  lemma FoldEntriesSnoc(segments: seq<string>, segment: string)
    ensures Fold(Entries(segments + [segment])) == Install(Fold(Entries(segments)), SegmentEntry(segment))
  {
    var e := Entries(segments + [segment]);
    assert e[..|segments|] == Entries(segments);
  }

  /** Six segments, installed in order. */
  lemma FoldSix(s0: string, s1: string, s2: string, s3: string, s4: string, s5: string)
    ensures Fold(Entries([s0, s1, s2, s3, s4, s5])) ==
      Install(Install(Install(Install(Install(Install(map[], SegmentEntry(s0)), SegmentEntry(s1)),
        SegmentEntry(s2)), SegmentEntry(s3)), SegmentEntry(s4)), SegmentEntry(s5))
  {
    EntriesOfSix([s0, s1, s2, s3, s4, s5]);
    FoldOfSix(SegmentEntry(s0), SegmentEntry(s1), SegmentEntry(s2), SegmentEntry(s3), SegmentEntry(s4), SegmentEntry(s5));
  }

  /** The entries of six segments, one per segment. */
  lemma EntriesOfSix(segments: seq<string>)
    requires |segments| == 6
    ensures Entries(segments) == [SegmentEntry(segments[0]), SegmentEntry(segments[1]), SegmentEntry(segments[2]),
      SegmentEntry(segments[3]), SegmentEntry(segments[4]), SegmentEntry(segments[5])]
  {
  }

  /** Six entries, installed in order. */
  lemma FoldOfSix(e0: Option<(string, string)>, e1: Option<(string, string)>, e2: Option<(string, string)>,
                  e3: Option<(string, string)>, e4: Option<(string, string)>, e5: Option<(string, string)>)
    ensures Fold([e0, e1, e2, e3, e4, e5]) ==
      Install(Install(Install(Install(Install(Install(map[], e0), e1), e2), e3), e4), e5)
  {
    assert [e0][..0] == [];
    assert Fold([e0]) == Install(map[], e0);
    assert [e0, e1][..1] == [e0];
    assert Fold([e0, e1]) == Install(Fold([e0]), e1);
    assert [e0, e1, e2][..2] == [e0, e1];
    assert Fold([e0, e1, e2]) == Install(Fold([e0, e1]), e2);
    assert [e0, e1, e2, e3][..3] == [e0, e1, e2];
    assert Fold([e0, e1, e2, e3]) == Install(Fold([e0, e1, e2]), e3);
    assert [e0, e1, e2, e3, e4][..4] == [e0, e1, e2, e3];
    assert Fold([e0, e1, e2, e3, e4]) == Install(Fold([e0, e1, e2, e3]), e4);
    assert [e0, e1, e2, e3, e4, e5][..5] == [e0, e1, e2, e3, e4];
  }

  // ---------------------------------------------------------------------------
  // What single segments contribute

  /** A segment without `:` adds nothing. */
  lemma NoColonNoEntry(segment: string)
    requires ':' !in segment
    ensures SegmentEntry(segment) == None
  {
    SplitWithoutSeparator(segment, ':');
  }

  /** A segment `key:` with an empty value adds nothing. */
  lemma EmptyValueNoEntry(key: string)
    requires ':' !in key
    ensures SegmentEntry(key + ":") == None
  {
    assert key + ":" == key + [':'] + "";
    SplitAtFirstSeparator(key, ':', "");
  }

  /** Text after a second `:` is discarded. */
  lemma SecondColonDiscards(key: string, value: string, rest: string)
    requires key != "" && value != "" && ':' !in key && ':' !in value
    ensures SegmentEntry(key + ":" + value + ":" + rest) == Some((Trim(key), Trim(value)))
  {
    assert key + ":" + value + ":" + rest == key + [':'] + (value + [':'] + rest);
    SplitAtFirstSeparator(key, ':', value + [':'] + rest);
    SplitAtFirstSeparator(value, ':', rest);
  }

  /** The emptiness test runs before trimming: a whitespace-only key is stored as "". */
  lemma BlankKeyStoredAsEmpty(key: string, value: string)
    requires key != "" && forall i :: 0 <= i < |key| ==> IsWhitespace(key[i])
    requires value != "" && ':' !in value && '|' !in value
    ensures SegmentEntry(key + ":" + value) == Some(("", Trim(value)))
    ensures Decode(key + ":" + value) == map["" := Trim(value)]
  {
    var segment := key + ":" + value;
    assert ':' !in key && '|' !in key;
    assert segment == key + [':'] + value;
    SplitAtFirstSeparator(key, ':', value);
    SplitWithoutSeparator(value, ':');
    TrimOfBlank(key);
    SplitWithoutSeparator(segment, '|');
    FoldEntriesSnoc([], segment);
    assert [] + [segment] == [segment];
  }

  /** A key the template writes: non-empty, without `:`, and unchanged by trimming. */
  predicate SafeKey(key: string) {
    key != "" && ':' !in key && TrimStable(key)
  }

  /** A segment `KEY:v` under a fixed key offers that key with the first `:`-piece of `v`, trimmed,
      and nothing when that piece is empty. */
  lemma KeyedSegment(key: string, v: string)
    requires SafeKey(key)
    ensures var first := Split(v, ':')[0];
      SegmentEntry(key + ":" + v) == if first != "" then Some((key, Trim(first))) else None
  {
    assert key + ":" + v == key + [':'] + v;
    SplitAtFirstSeparator(key, ':', v);
    TrimOfTrimStable(key);
  }

  // ---------------------------------------------------------------------------
  // Encoder (the pass page's template string)

  /** One `KEY:value` segment of the template. */
  function Segment(key: string, value: string): string {
    key + ":" + value
  }

  /** The six segments of the template, in order, each missing member written as ''. */
  function QrSegments(d: Record): seq<string> {
    [Segment("APP", AppTag), Segment("REG", Field(d, "RegNo")), Segment("NAME", Field(d, "Name")),
     Segment("BRANCH", Field(d, "Branch")), Segment("SEC", Field(d, "Section")), Segment("FOOD", Field(d, "Food"))]
  }

  /** The QR text of the pass page: `APP:FRESHER2025|REG:…|NAME:…|BRANCH:…|SEC:…|FOOD:…`. */
  function QrText(d: Record): string {
    Join(QrSegments(d), '|')
  }

  /** No written member contains the segment separator. */
  predicate PipeFree(d: Record) {
    && '|' !in Field(d, "RegNo") && '|' !in Field(d, "Name") && '|' !in Field(d, "Branch")
    && '|' !in Field(d, "Section") && '|' !in Field(d, "Food")
  }

  /** A value the codec carries unchanged: non-empty, free of both delimiters, and trim-stable. */
  predicate CodecSafe(v: string) {
    v != "" && '|' !in v && ':' !in v && TrimStable(v)
  }

  /** The member `key` is present and codec-safe. */
  predicate MemberSafe(d: Record, key: string) {
    key in d && CodecSafe(d[key])
  }

  /** Every member the QR text carries is present and codec-safe. */
  predicate SafePass(d: Record) {
    && MemberSafe(d, "RegNo") && MemberSafe(d, "Name") && MemberSafe(d, "Branch")
    && MemberSafe(d, "Section") && MemberSafe(d, "Food")
  }

  lemma PipeFreeSegment(key: string, value: string)
    requires '|' !in key && '|' !in value
    ensures '|' !in Segment(key, value)
  {
  }

  /** Six segments without `|`, joined by `|`, split back into themselves. */
  lemma SixSplitJoin(s0: string, s1: string, s2: string, s3: string, s4: string, s5: string)
    requires '|' !in s0 && '|' !in s1 && '|' !in s2 && '|' !in s3 && '|' !in s4 && '|' !in s5
    ensures Split(Join([s0, s1, s2, s3, s4, s5], '|'), '|') == [s0, s1, s2, s3, s4, s5]
  {
    var segs := [s0, s1, s2, s3, s4, s5];
    assert forall i :: 0 <= i < |segs| ==> '|' !in segs[i];
    SplitJoin(segs, '|');
  }

  /** The QR text always consists of the six segments APP, REG, NAME, BRANCH, SEC, FOOD, in this order. */
  lemma QrTextSegments(d: Record)
    requires PipeFree(d)
    ensures Segments(QrText(d)) == QrSegments(d)
  {
    PipeFreeSegment("APP", AppTag);
    PipeFreeSegment("REG", Field(d, "RegNo"));
    PipeFreeSegment("NAME", Field(d, "Name"));
    PipeFreeSegment("BRANCH", Field(d, "Branch"));
    PipeFreeSegment("SEC", Field(d, "Section"));
    PipeFreeSegment("FOOD", Field(d, "Food"));
    SixSplitJoin(Segment("APP", AppTag), Segment("REG", Field(d, "RegNo")), Segment("NAME", Field(d, "Name")),
      Segment("BRANCH", Field(d, "Branch")), Segment("SEC", Field(d, "Section")), Segment("FOOD", Field(d, "Food")));
  }

  /** The entry a segment under a fixed, delimiter-free key contributes when its value is codec-safe. */
  lemma SafeSegmentEntry(key: string, v: string)
    requires SafeKey(key) && CodecSafe(v)
    ensures SegmentEntry(Segment(key, v)) == Some((key, v))
  {
    KeyedSegment(key, v);
    SplitWithoutSeparator(v, ':');
    TrimOfTrimStable(v);
  }

  /** Six safe segments decode to their six pairs, installed in order. */
  lemma SixSafe(k0: string, v0: string, k1: string, v1: string, k2: string, v2: string,
                k3: string, v3: string, k4: string, v4: string, k5: string, v5: string)
    requires SafeKey(k0) && SafeKey(k1) && SafeKey(k2) && SafeKey(k3) && SafeKey(k4) && SafeKey(k5)
    requires CodecSafe(v0) && CodecSafe(v1) && CodecSafe(v2) && CodecSafe(v3) && CodecSafe(v4) && CodecSafe(v5)
    requires ProtoKey !in {k0, k1, k2, k3, k4, k5}
    ensures Fold(Entries([Segment(k0, v0), Segment(k1, v1), Segment(k2, v2), Segment(k3, v3), Segment(k4, v4),
        Segment(k5, v5)]))
      == map[k0 := v0, k1 := v1, k2 := v2, k3 := v3, k4 := v4, k5 := v5]
  {
    SafeSegmentEntry(k0, v0);
    SafeSegmentEntry(k1, v1);
    SafeSegmentEntry(k2, v2);
    SafeSegmentEntry(k3, v3);
    SafeSegmentEntry(k4, v4);
    SafeSegmentEntry(k5, v5);
    FoldSix(Segment(k0, v0), Segment(k1, v1), Segment(k2, v2), Segment(k3, v3), Segment(k4, v4), Segment(k5, v5));
  }

  /** The keys and the tag of the template are safe. */
  lemma TemplateKeys()
    ensures SafeKey("APP") && SafeKey("REG") && SafeKey("NAME") && SafeKey("BRANCH") && SafeKey("SEC")
      && SafeKey("FOOD") && CodecSafe(AppTag)
    ensures ProtoKey !in {"APP", "REG", "NAME", "BRANCH", "SEC", "FOOD"}
  {
  }

  /** The segments of a codec-safe pass, written with its members. */
  lemma SafeQrSegments(d: Record)
    requires SafePass(d)
    ensures Segments(QrText(d)) == [Segment("APP", AppTag), Segment("REG", d["RegNo"]), Segment("NAME", d["Name"]),
      Segment("BRANCH", d["Branch"]), Segment("SEC", d["Section"]), Segment("FOOD", d["Food"])]
    ensures CodecSafe(d["RegNo"]) && CodecSafe(d["Name"]) && CodecSafe(d["Branch"]) && CodecSafe(d["Section"])
      && CodecSafe(d["Food"])
  {
    assert PipeFree(d);
    QrTextSegments(d);
  }

  /** Round trip: a pass whose members are all codec-safe decodes to exactly its six pairs. */
  lemma RoundTrip(d: Record)
    requires SafePass(d)
    ensures Decode(QrText(d)) == map["APP" := AppTag, "REG" := d["RegNo"], "NAME" := d["Name"],
      "BRANCH" := d["Branch"], "SEC" := d["Section"], "FOOD" := d["Food"]]
  {
    SafeQrSegments(d);
    TemplateKeys();
    SixSafe("APP", AppTag, "REG", d["RegNo"], "NAME", d["Name"], "BRANCH", d["Branch"], "SEC", d["Section"],
      "FOOD", d["Food"]);
  }

  /** Six segments under distinct safe keys, the second with an empty value: its key is absent. */
  lemma SixWithEmptySecond(k0: string, v0: string, k1: string, k2: string, v2: string,
                           k3: string, v3: string, k4: string, v4: string, k5: string, v5: string)
    requires SafeKey(k0) && SafeKey(k1) && SafeKey(k2) && SafeKey(k3) && SafeKey(k4) && SafeKey(k5)
    requires k1 != k0 && k1 != k2 && k1 != k3 && k1 != k4 && k1 != k5
    ensures k1 !in Fold(Entries([Segment(k0, v0), Segment(k1, ""), Segment(k2, v2), Segment(k3, v3), Segment(k4, v4),
        Segment(k5, v5)]))
  {
    FoldSix(Segment(k0, v0), Segment(k1, ""), Segment(k2, v2), Segment(k3, v3), Segment(k4, v4), Segment(k5, v5));
    KeyedSegment(k1, "");
    var m1 := Install(map[], SegmentEntry(Segment(k0, v0)));
    OtherKeyKeepsOut(map[], k0, v0, k1);
    var m2 := Install(m1, SegmentEntry(Segment(k1, "")));
    assert m2 == m1;
    var m3 := Install(m2, SegmentEntry(Segment(k2, v2)));
    OtherKeyKeepsOut(m2, k2, v2, k1);
    var m4 := Install(m3, SegmentEntry(Segment(k3, v3)));
    OtherKeyKeepsOut(m3, k3, v3, k1);
    var m5 := Install(m4, SegmentEntry(Segment(k4, v4)));
    OtherKeyKeepsOut(m4, k4, v4, k1);
    OtherKeyKeepsOut(m5, k5, v5, k1);
  }

  /** Installing a segment under a safe key leaves every other key as absent as it was. */
  lemma OtherKeyKeepsOut(m: Fields, key: string, v: string, other: string)
    requires SafeKey(key) && other != key && other !in m
    ensures other !in Install(m, SegmentEntry(Segment(key, v)))
  {
    KeyedSegment(key, v);
  }

  /** A REG whose value is only whitespace passes the emptiness test and is stored as "". */
  lemma BlankRegDecodes(value: string)
    requires value != "" && forall i :: 0 <= i < |value| ==> IsWhitespace(value[i])
    ensures Decode("REG:" + value) == map["REG" := ""]
  {
    BlankRegEntry(value);
    assert '|' !in "REG:" + value;
    DecodeOneSegment("REG:" + value);
  }

  /** The segment `REG:` followed by whitespace only offers REG with the empty value. */
  lemma BlankRegEntry(value: string)
    requires value != "" && forall i :: 0 <= i < |value| ==> IsWhitespace(value[i])
    ensures SegmentEntry("REG:" + value) == Some(("REG", ""))
  {
    assert ':' !in value && '|' !in value;
    assert SafeKey("REG") by {
      TemplateKeys();
    }
    KeyedSegment("REG", value);
    SplitWithoutSeparator(value, ':');
    TrimOfBlank(value);
    assert "REG" + ":" + value == "REG:" + value;
  }

  /** A text without `|` is one segment, installed on the empty object. */
  lemma DecodeOneSegment(segment: string)
    requires '|' !in segment
    ensures Decode(segment) == Install(map[], SegmentEntry(segment))
  {
    SplitWithoutSeparator(segment, '|');
    FoldEntriesSnoc([], segment);
    assert [] + [segment] == [segment];
  }

  lemma MissingRegNoDropsReg(d: Record)
    requires PipeFree(d) && Field(d, "RegNo") == ""
    ensures "REG" !in Decode(QrText(d))
  {
    QrTextSegments(d);
    SixWithEmptySecond("APP", AppTag, "REG", "NAME", Field(d, "Name"), "BRANCH", Field(d, "Branch"),
      "SEC", Field(d, "Section"), "FOOD", Field(d, "Food"));
  }
}
