/**
 The character scanner: one finding per suspicious code point, one per text with an ANSI
 escape, each under a key of its own.
 */
module CharLayer {
  import opened Models
  import opened Ledger

  /** A tool's scanned fields; annotations and input schema already rendered as text. */
  datatype Tool = Tool(name: string, description: string, annotations: string, inputSchema: string)

  datatype Range = Range(lo: int, hi: int)

  function SuspiciousRanges(): seq<Range> {
    [Range(0x200B, 0x200F), Range(0x202A, 0x202E), Range(0x2060, 0x206F), Range(0xFEFF, 0xFEFF), Range(0xE0000, 0xE007F)]
  }

  const FIELDS: seq<string> := ["description", "annotations", "input_schema"]

  predicate Within(range: Range, cp: int) {
    range.lo <= cp <= range.hi
  }

  /** Zero-width and directional marks, word joiners and invisible operators, the byte-order mark, tags. */
  predicate Suspicious(ch: char) {
    exists r :: 0 <= r < |SuspiciousRanges()| && Within(SuspiciousRanges()[r], ch as int)
  }

  /** No code point is in two ranges, so leaving the loop at the first one hides no second finding. */
  lemma {:induction false} RangesAreDisjoint(q: nat, r: nat, cp: int)
    requires q < r < |SuspiciousRanges()|
    ensures !(Within(SuspiciousRanges()[q], cp) && Within(SuspiciousRanges()[r], cp))
  {
    var ranges := SuspiciousRanges();
    assert forall k :: 0 <= k < |ranges| - 1 ==> ranges[k].hi < ranges[k + 1].lo;
  }

  /** The suspicious code points, first and last of each range included. */
  lemma {:induction false} SuspiciousIff(ch: char)
    ensures Suspicious(ch) <==>
            var cp := ch as int;
            0x200B <= cp <= 0x200F || 0x202A <= cp <= 0x202E || 0x2060 <= cp <= 0x206F || cp == 0xFEFF || 0xE0000 <= cp <= 0xE007F
  {
    var ranges := SuspiciousRanges();
    assert Suspicious(ch) <==> Within(ranges[0], ch as int) || Within(ranges[1], ch as int) || Within(ranges[2], ch as int)
                               || Within(ranges[3], ch as int) || Within(ranges[4], ch as int);
  }

  // ----- ESC [ (digit | ;)* letter -----

  predicate IsParam(ch: char) { '0' <= ch <= '9' || ch == ';' }

  predicate IsLetter(ch: char) { 'a' <= ch <= 'z' || 'A' <= ch <= 'Z' }

  /** text[i..=j] is one escape sequence. */
  predicate AnsiMatch(text: string, i: nat, j: nat) {
    && i + 2 <= j < |text|
    && text[i] as int == 0x1B && text[i + 1] == '['
    && (forall k :: i + 2 <= k < j ==> IsParam(text[k]))
    && IsLetter(text[j])
  }

  /** Escape and bracket, then digits and semicolons, then a letter. */
  lemma {:induction false} AnsiMatchIff(text: string, i: nat, j: nat)
    requires i < j < |text|
    ensures AnsiMatch(text, i, j) <==>
            var params := text[i + 1..j];
            && text[i] as int == 0x1B && params != "" && params[0] == '['
            && (forall k :: 1 <= k < |params| ==> params[k] in "0123456789;")
            && ('a' <= text[j] <= 'z' || 'A' <= text[j] <= 'Z')
  {
    forall ch: char ensures IsParam(ch) <==> ch in "0123456789;" {
      ParamIff(ch);
    }
    var params := text[i + 1..j];
    assert forall k :: 1 <= k < |params| ==> params[k] == text[i + 1 + k];
    assert forall k :: i + 2 <= k < j ==> text[k] == params[k - i - 1];
  }

  lemma {:induction false} ParamIff(ch: char)
    ensures IsParam(ch) <==> ch in "0123456789;"
  {
    var s := "0123456789;";
    assert forall k :: 0 <= k < |s| ==> IsParam(s[k]);
    if '0' <= ch <= '9' {
      assert ch == s[ch as int - '0' as int];
    }
    assert ';' == s[10];
  }

  /** The first position from k on that is not a parameter character. */
  function SkipParams(text: string, k: nat): (e: nat)
    requires k <= |text|
    ensures k <= e <= |text|
    ensures forall m :: k <= m < e ==> IsParam(text[m])
    ensures e < |text| ==> !IsParam(text[e])
    decreases |text| - k
  {
    if k < |text| && IsParam(text[k]) then SkipParams(text, k + 1) else k
  }

  /** The search finds a match exactly when some substring is an escape sequence. */
  method SearchAnsi(text: string) returns (found: bool)
    ensures found <==> exists i: nat, j: nat :: AnsiMatch(text, i, j)
  {
    var i := 0;
    while i + 2 < |text|
      invariant forall m: nat, j: nat :: m < i ==> !AnsiMatch(text, m, j)
    {
      if text[i] as int == 0x1B && text[i + 1] == '[' {
        var e := SkipParams(text, i + 2);
        if e < |text| && IsLetter(text[e]) {
          assert AnsiMatch(text, i, e);
          return true;
        }
        assert forall j: nat :: AnsiMatch(text, i, j) ==> j == e;
      }
      i := i + 1;
    }
    return false;
  }

  // ----- keys -----

  /** Where a finding comes from. */
  datatype Origin = Hidden(tool: string, field: string, pos: nat) | Ansi(tool: string, field: string)

  function Digit(n: nat): char
    requires n < 10
  {
    ('0' as int + n) as char
  }

  function Decimal(n: nat): (s: string)
    ensures s != "" && ':' !in s
  {
    if n < 10 then [Digit(n)] else Decimal(n / 10) + [Digit(n % 10)]
  }

  /** Reading decimal digits. */
  function Numeral(s: string): int {
    if s == "" then 0 else 10 * Numeral(s[..|s| - 1]) + (s[|s| - 1] as int - '0' as int)
  }

  /** The digits of n, which read back as n, without a leading zero. */
  lemma {:induction false} DecimalReadsBack(n: nat)
    ensures Numeral(Decimal(n)) == n
    ensures forall k :: 0 <= k < |Decimal(n)| ==> '0' <= Decimal(n)[k] <= '9'
    ensures |Decimal(n)| > 1 ==> Decimal(n)[0] != '0'
  {
    if n >= 10 {
      DecimalReadsBack(n / 10);
      assert Decimal(n)[..|Decimal(n)| - 1] == Decimal(n / 10);
      assert n < 100 ==> Decimal(n / 10) == [Digit(n / 10)];
    } else {
      assert Decimal(n)[..0] == "";
    }
  }

  lemma {:induction false} DecimalInjective(m: nat, n: nat)
    requires Decimal(m) == Decimal(n)
    ensures m == n
  {
    var s, t := Decimal(m), Decimal(n);
    assert s[|s| - 1] == Digit(m % 10) && t[|t| - 1] == Digit(n % 10);
    if m >= 10 && n >= 10 {
      assert s[..|s| - 1] == Decimal(m / 10) && t[..|t| - 1] == Decimal(n / 10);
      DecimalInjective(m / 10, n / 10);
    }
  }

  function KeyOf(o: Origin): string {
    match o
    case Hidden(tool, field, pos) => "char:unicode:" + tool + ":" + field + ":" + Decimal(pos)
    case Ansi(tool, field) => "char:ansi:" + tool + ":" + field
  }

  function Render(o: Origin): Finding {
    match o
    case Hidden(tool, _, _) => Finding("char:hidden-unicode", High, 0.95, Evidence(Text(KeyOf(o)), "", "", tool, ""))
    case Ansi(tool, _) => Finding("char:ansi-escape", Medium, 0.9, Evidence(Text(KeyOf(o)), "", "", tool, ""))
  }

  /** The findings as the table stores them. */
  lemma {:induction false} RenderedAs(tool: string, field: string, pos: nat)
    ensures var f := Render(Hidden(tool, field, pos));
            && f.detector == "char:hidden-unicode" && f.severity == High && f.confidence == 0.95
            && f.evidence == Evidence(f.evidence.key, "", "", tool, "")
            && EvidenceKey(f.evidence) == "char:unicode:" + tool + ":" + field + ":" + Decimal(pos)
    ensures var f := Render(Ansi(tool, field));
            && f.detector == "char:ansi-escape" && f.severity == Medium && f.confidence == 0.9
            && f.evidence == Evidence(f.evidence.key, "", "", tool, "")
            && EvidenceKey(f.evidence) == "char:ansi:" + tool + ":" + field
  {
  }

  /** The last colon of a text splits it in one way only. */
  lemma {:induction false} LastColonSplits(a: string, b: string, a': string, b': string)
    requires a + ":" + b == a' + ":" + b'
    requires ':' !in b && ':' !in b'
    ensures a == a' && b == b'
  {
    var s := a + ":" + b;
    assert s[|a|] == ':' && s[|a'|] == ':';
    assert forall k :: |a| < k < |s| ==> s[k] == b[k - |a| - 1];
    assert forall k :: |a'| < k < |s| ==> s[k] == b'[k - |a'| - 1];
    assert a == s[..|a|] && a' == s[..|a'|];
    assert b == s[|a| + 1..] && b' == s[|a'| + 1..];
  }

  predicate KnownField(o: Origin) {
    o.field in FIELDS
  }

  lemma {:induction false} FieldsHaveNoColon(field: string)
    requires field in FIELDS
    ensures ':' !in field
  {
  }

  /** Colons in tool names cannot make two origins collide: detector and key give back the
      tool name, the field and the position. */
  lemma {:induction false} KeysAreInjective(o: Origin, p: Origin)
    requires KnownField(o) && KnownField(p)
    requires Render(o).detector == Render(p).detector && KeyOf(o) == KeyOf(p)
    ensures o == p
  {
    FieldsHaveNoColon(o.field);
    FieldsHaveNoColon(p.field);
    if o.Hidden? {
      assert p.Hidden?;
      LastColonSplits("char:unicode:" + o.tool + ":" + o.field, Decimal(o.pos), "char:unicode:" + p.tool + ":" + p.field, Decimal(p.pos));
      DecimalInjective(o.pos, p.pos);
      LastColonSplits("char:unicode:" + o.tool, o.field, "char:unicode:" + p.tool, p.field);
      assert ("char:unicode:" + o.tool)[13..] == o.tool && ("char:unicode:" + p.tool)[13..] == p.tool;
    } else {
      assert p.Ansi?;
      LastColonSplits("char:ansi:" + o.tool, o.field, "char:ansi:" + p.tool, p.field);
      assert ("char:ansi:" + o.tool)[10..] == o.tool && ("char:ansi:" + p.tool)[10..] == p.tool;
    }
  }

  // ----- scanning -----

  function RenderAll(os: seq<Origin>): (fs: seq<Finding>)
    ensures |fs| == |os|
    ensures forall k :: 0 <= k < |os| ==> fs[k] == Render(os[k])
  {
    seq(|os|, k requires 0 <= k < |os| => Render(os[k]))
  }

  lemma {:induction false} RenderConcat(a: seq<Origin>, b: seq<Origin>)
    ensures RenderAll(a + b) == RenderAll(a) + RenderAll(b)
  {
  }

  ghost predicate HasAnsi(text: string) {
    exists i: nat, j: nat :: AnsiMatch(text, i, j)
  }

  /** One origin per suspicious position among the first n. */
  function HiddenOrigins(tool: string, field: string, text: string, n: nat): seq<Origin>
    requires n <= |text|
  {
    if n == 0 then []
    else HiddenOrigins(tool, field, text, n - 1) + if Suspicious(text[n - 1]) then [Hidden(tool, field, n - 1)] else []
  }

  /** What a scan of one text reports. */
  ghost function ScanOrigins(tool: string, field: string, text: string): seq<Origin> {
    HiddenOrigins(tool, field, text, |text|) + if HasAnsi(text) then [Ansi(tool, field)] else []
  }

  /** The origins are of this tool and field, at suspicious positions before n, in increasing order. */
  ghost predicate Increasing(tool: string, field: string, text: string, n: nat, os: seq<Origin>)
    requires n <= |text|
  {
    && (forall k :: 0 <= k < |os| ==> os[k].Hidden? && os[k].tool == tool && os[k].field == field)
    && (forall k :: 0 <= k < |os| ==> os[k].pos < n)
    && (forall k :: 0 <= k < |os| && os[k].pos < n ==> Suspicious(text[os[k].pos]))
    && (forall k, m :: 0 <= k < m < |os| ==> os[k].pos < os[m].pos)
  }

  lemma {:induction false} IncreasingExtends(tool: string, field: string, text: string, n: nat, os: seq<Origin>, os': seq<Origin>)
    requires n < |text| && Increasing(tool, field, text, n, os)
    requires os' == os + if Suspicious(text[n]) then [Hidden(tool, field, n)] else []
    ensures Increasing(tool, field, text, n + 1, os')
    ensures forall o :: o in os ==> o in os'
    ensures Suspicious(text[n]) ==> Hidden(tool, field, n) in os'
  {
  }

  /** Exactly one origin per suspicious position, in increasing order. */
  lemma {:induction false} HiddenExact(tool: string, field: string, text: string, n: nat)
    requires n <= |text|
    ensures Increasing(tool, field, text, n, HiddenOrigins(tool, field, text, n))
    ensures forall i :: 0 <= i < n && Suspicious(text[i]) ==> Hidden(tool, field, i) in HiddenOrigins(tool, field, text, n)
  {
    if n > 0 {
      HiddenExact(tool, field, text, n - 1);
      IncreasingExtends(tool, field, text, n - 1, HiddenOrigins(tool, field, text, n - 1), HiddenOrigins(tool, field, text, n));
    }
  }

  lemma {:induction false} InIncreasing(tool: string, field: string, text: string, os: seq<Origin>, i: nat)
    requires Increasing(tool, field, text, |text|, os) && Hidden(tool, field, i) in os
    ensures i < |text| && Suspicious(text[i])
  {
    var k :| 0 <= k < |os| && os[k] == Hidden(tool, field, i);
  }

  /** A position is reported exactly if it is suspicious, the escape sequence exactly if the text
      has one, and nothing twice. */
  lemma {:induction false} ScanExact(tool: string, field: string, text: string)
    ensures var os := ScanOrigins(tool, field, text);
            && (forall i: nat :: Hidden(tool, field, i) in os <==> i < |text| && Suspicious(text[i]))
            && (Ansi(tool, field) in os <==> HasAnsi(text))
            && (forall k :: 0 <= k < |os| ==> os[k].tool == tool && os[k].field == field)
            && NoDuplicates(os)
  {
    HiddenExact(tool, field, text, |text|);
    var hidden := HiddenOrigins(tool, field, text, |text|);
    ScanParts(tool, field, text, hidden, ScanOrigins(tool, field, text));
  }

  lemma {:induction false} ScanParts(tool: string, field: string, text: string, hidden: seq<Origin>, os: seq<Origin>)
    requires Increasing(tool, field, text, |text|, hidden)
    requires forall i :: 0 <= i < |text| && Suspicious(text[i]) ==> Hidden(tool, field, i) in hidden
    requires os == hidden + if HasAnsi(text) then [Ansi(tool, field)] else []
    ensures forall i: nat :: Hidden(tool, field, i) in os <==> i < |text| && Suspicious(text[i])
    ensures Ansi(tool, field) in os <==> HasAnsi(text)
    ensures forall k :: 0 <= k < |os| ==> os[k].tool == tool && os[k].field == field
    ensures NoDuplicates(os)
  {
    forall i: nat ensures Hidden(tool, field, i) in os <==> i < |text| && Suspicious(text[i]) {
      assert Hidden(tool, field, i) in os <==> Hidden(tool, field, i) in hidden;
      if Hidden(tool, field, i) in hidden {
        InIncreasing(tool, field, text, hidden, i);
      }
    }
    assert Ansi(tool, field) !in hidden;
    if HasAnsi(text) {
      assert os[|hidden|] == Ansi(tool, field);
    }
  }

  lemma {:induction false} NextHidden(tool: string, field: string, text: string, i: nat)
    requires i < |text|
    ensures RenderAll(HiddenOrigins(tool, field, text, i + 1)) ==
            RenderAll(HiddenOrigins(tool, field, text, i)) + if Suspicious(text[i]) then [Render(Hidden(tool, field, i))] else []
  {
    RenderConcat(HiddenOrigins(tool, field, text, i), [Hidden(tool, field, i)]);
  }

  method ScanHidden(tool: string, field: string, text: string) returns (out: seq<Finding>)
    ensures out == RenderAll(HiddenOrigins(tool, field, text, |text|))
  {
    out := [];
    var ranges := SuspiciousRanges();
    for i := 0 to |text|
      invariant out == RenderAll(HiddenOrigins(tool, field, text, i))
    {
      NextHidden(tool, field, text, i);
      var cp := text[i] as int;
      ghost var before := out;
      var r := 0;
      while r < |ranges|
        invariant 0 <= r <= |ranges| && out == before
        invariant forall q :: 0 <= q < r ==> !Within(ranges[q], cp)
      {
        if Within(ranges[r], cp) {
          out := out + [Render(Hidden(tool, field, i))];
          break;
        }
        r := r + 1;
      }
      assert Suspicious(text[i]) <==> r < |ranges|;
    }
  }

  method Scan(tool: string, field: string, text: string) returns (out: seq<Finding>)
    ensures out == RenderAll(ScanOrigins(tool, field, text))
  {
    out := ScanHidden(tool, field, text);
    var ansi := SearchAnsi(text);
    RenderConcat(HiddenOrigins(tool, field, text, |text|), [Ansi(tool, field)]);
    if ansi {
      out := out + [Render(Ansi(tool, field))];
    }
  }

  function FieldText(t: Tool, f: nat): string
    requires f < |FIELDS|
  {
    if f == 0 then t.description else if f == 1 then t.annotations else t.inputSchema
  }

  /** What the first n fields of a tool report, and what the first n tools report. */
  ghost function ToolOrigins(t: Tool, n: nat): seq<Origin>
    requires n <= |FIELDS|
  {
    if n == 0 then [] else ToolOrigins(t, n - 1) + ScanOrigins(t.name, FIELDS[n - 1], FieldText(t, n - 1))
  }

  ghost function RunOrigins(tools: seq<Tool>, n: nat): seq<Origin>
    requires n <= |tools|
  {
    if n == 0 then [] else RunOrigins(tools, n - 1) + ToolOrigins(tools[n - 1], |FIELDS|)
  }

  /** A tool reports its description, then its annotations, then its input schema; a run reports its tools
      in order. */
  lemma {:induction false} FieldsInOrder(tools: seq<Tool>, n: nat)
    requires n < |tools|
    ensures var t := tools[n];
            RunOrigins(tools, n + 1) == RunOrigins(tools, n) + (ScanOrigins(t.name, "description", t.description)
                                        + ScanOrigins(t.name, "annotations", t.annotations)
                                        + ScanOrigins(t.name, "input_schema", t.inputSchema))
    ensures RunOrigins(tools, 0) == []
  {
    var t := tools[n];
    assert ToolOrigins(t, 1) == ScanOrigins(t.name, "description", t.description);
    assert ToolOrigins(t, 2) == ToolOrigins(t, 1) + ScanOrigins(t.name, "annotations", t.annotations);
    assert ToolOrigins(t, 3) == ToolOrigins(t, 2) + ScanOrigins(t.name, "input_schema", t.inputSchema);
  }

  method RunDetector(tools: seq<Tool>) returns (out: seq<Finding>)
    ensures |out| == |RunOrigins(tools, |tools|)|
    ensures out == RenderAll(RunOrigins(tools, |tools|))
  {
    out := [];
    for n := 0 to |tools|
      invariant out == RenderAll(RunOrigins(tools, n))
    {
      var hits := ScanTool(tools[n]);
      RenderConcat(RunOrigins(tools, n), ToolOrigins(tools[n], |FIELDS|));
      out := out + hits;
    }
  }

  /** The fields of one tool in order, skipping the empty ones. */
  method ScanTool(t: Tool) returns (out: seq<Finding>)
    ensures out == RenderAll(ToolOrigins(t, |FIELDS|))
  {
    out := [];
    for f := 0 to |FIELDS|
      invariant out == RenderAll(ToolOrigins(t, f))
    {
      var text := FieldText(t, f);
      RenderConcat(ToolOrigins(t, f), ScanOrigins(t.name, FIELDS[f], text));
      if text != "" {
        var hits := Scan(t.name, FIELDS[f], text);
        out := out + hits;
      } else {
        assert ScanOrigins(t.name, FIELDS[f], text) == [];
      }
    }
  }

  // ----- one upsert of a run -----

  ghost predicate NoDuplicates(os: seq<Origin>) {
    forall k, m :: 0 <= k < m < |os| ==> os[k] != os[m]
  }

  ghost predicate DistinctNames(tools: seq<Tool>) {
    forall s, t :: 0 <= s < t < |tools| ==> tools[s].name != tools[t].name
  }

  lemma {:induction false} ConcatHasNoDuplicates(a: seq<Origin>, b: seq<Origin>)
    requires NoDuplicates(a) && NoDuplicates(b)
    requires forall k, m :: 0 <= k < |a| && 0 <= m < |b| ==> a[k] != b[m]
    ensures NoDuplicates(a + b)
  {
  }

  lemma {:induction false} ToolOriginsAreDistinct(t: Tool, n: nat)
    requires n <= |FIELDS|
    ensures NoDuplicates(ToolOrigins(t, n))
    ensures forall k :: 0 <= k < |ToolOrigins(t, n)| ==> ToolOrigins(t, n)[k].tool == t.name && ToolOrigins(t, n)[k].field in FIELDS[..n]
  {
    if n > 0 {
      ToolOriginsAreDistinct(t, n - 1);
      ScanExact(t.name, FIELDS[n - 1], FieldText(t, n - 1));
      assert FIELDS[n - 1] !in FIELDS[..n - 1];
      assert FIELDS[..n] == FIELDS[..n - 1] + [FIELDS[n - 1]];
      ConcatHasNoDuplicates(ToolOrigins(t, n - 1), ScanOrigins(t.name, FIELDS[n - 1], FieldText(t, n - 1)));
    }
  }

  /** An origin of a known field and of one of the first n tools. */
  ghost predicate FromTools(o: Origin, tools: seq<Tool>, n: nat)
    requires n <= |tools|
  {
    KnownField(o) && exists t :: 0 <= t < n && o.tool == tools[t].name
  }

  lemma {:induction false} RunOriginsAreDistinct(tools: seq<Tool>, n: nat)
    requires DistinctNames(tools) && n <= |tools|
    ensures NoDuplicates(RunOrigins(tools, n))
    ensures forall k :: 0 <= k < |RunOrigins(tools, n)| ==> FromTools(RunOrigins(tools, n)[k], tools, n)
  {
    if n > 0 {
      var a, b := RunOrigins(tools, n - 1), ToolOrigins(tools[n - 1], |FIELDS|);
      RunOriginsAreDistinct(tools, n - 1);
      ToolOriginsAreDistinct(tools[n - 1], |FIELDS|);
      assert FIELDS[..|FIELDS|] == FIELDS;
      forall k, m | 0 <= k < |a| && 0 <= m < |b| ensures a[k] != b[m] {
        assert FromTools(a[k], tools, n - 1);
      }
      ConcatHasNoDuplicates(a, b);
      forall k | 0 <= k < |a + b| ensures FromTools((a + b)[k], tools, n) {
        assert k < |a| ==> FromTools(a[k], tools, n - 1);
        assert k >= |a| ==> (a + b)[k] == b[k - |a|] && b[k - |a|].tool == tools[n - 1].name;
      }
    }
  }

  /** Of distinct origins of known fields, one upsert leaves every finding active. */
  lemma {:induction false} DistinctOriginsStayActive(rows: seq<Row>, origins: seq<Origin>, b: Batch, i: nat)
    requires OneActivePerKey(rows) && b.findings == RenderAll(origins) && NoDuplicates(origins)
    requires forall k :: 0 <= k < |origins| ==> KnownField(origins[k])
    requires i < |origins|
    ensures Upsert(rows, b).Ok? && |Upsert(rows, b).rows| == |rows| + |origins|
    ensures Upsert(rows, b).rows[|rows| + i].status.Active?
  {
    assert WellKeyedBatch(b) by {
      assert forall k :: 0 <= k < |origins| ==> KeyOf(origins[k]) != "";
    }
    WellKeyedUpsertFrom(rows, b, 0);
    forall j | i < j < |b.findings| && b.findings[j].detector == b.findings[i].detector
      ensures EvidenceKey(b.findings[j].evidence) != KeyText(StoredEvidence(b.findings[i].evidence))
    {
      KeysDiffer(origins[i], origins[j]);
      StoredUnderMatchingKey(b.findings[i]);
    }
    LastOfItsKeyStaysActive(rows, b, i);
  }

  lemma {:induction false} KnownFields(origins: seq<Origin>, tools: seq<Tool>)
    requires forall k :: 0 <= k < |origins| ==> FromTools(origins[k], tools, |tools|)
    ensures forall k :: 0 <= k < |origins| ==> KnownField(origins[k])
  {
  }

  /** For tools of distinct names, colons in them or not, one upsert of a run's findings commits
      and leaves every one of them active. */
  lemma {:induction false} AllStayActive(rows: seq<Row>, tools: seq<Tool>, b: Batch, i: nat)
    requires OneActivePerKey(rows) && DistinctNames(tools)
    requires b.findings == RenderAll(RunOrigins(tools, |tools|)) && i < |b.findings|
    ensures Upsert(rows, b).Ok? && |Upsert(rows, b).rows| == |rows| + |b.findings|
    ensures Upsert(rows, b).rows[|rows| + i].status.Active?
  {
    RunOriginsAreDistinct(tools, |tools|);
    KnownFields(RunOrigins(tools, |tools|), tools);
    DistinctOriginsStayActive(rows, RunOrigins(tools, |tools|), b, i);
  }

  lemma {:induction false} KeysDiffer(o: Origin, p: Origin)
    requires KnownField(o) && KnownField(p) && o != p && Render(o).detector == Render(p).detector
    ensures EvidenceKey(Render(o).evidence) != EvidenceKey(Render(p).evidence)
  {
    if KeyOf(o) == KeyOf(p) {
      KeysAreInjective(o, p);
    }
    assert KeyOf(o) != "" && KeyOf(p) != "";
  }
}
