/**
 How a model's reply becomes a value: the reply is stripped, taken out of its code fence, and
 decoded; when decoding fails, everything from the first opening to the last closing brace is
 decoded instead. The decoder itself is a parameter.
 */
module JsonSalvage {
  import opened Models

  const FENCE := "```"
  const TAG := "json"

  // ----- stripping -----

  /** The characters str.strip() removes. */
  predicate IsSpace(ch: char) {
    var cp := ch as int;
    || 0x09 <= cp <= 0x0D || 0x1C <= cp <= 0x20 || cp == 0x85 || cp == 0xA0 || cp == 0x1680
    || 0x2000 <= cp <= 0x200A || cp == 0x2028 || cp == 0x2029 || cp == 0x202F || cp == 0x205F || cp == 0x3000
  }

  predicate IsFencePad(ch: char) { ch == '`' || ch == ' ' || ch == '\n' }

  /** Space and newline: removed by either kind of stripping. */
  predicate IsBlank(ch: char) { ch == ' ' || ch == '\n' }

  /** What a JSON decoder skips around a value. */
  predicate IsJsonSpace(ch: char) { IsBlank(ch) || ch == '\r' || ch == '\t' }

  predicate All(p: char -> bool, s: string) {
    forall k :: 0 <= k < |s| ==> p(s[k])
  }

  function TrimLeft(p: char -> bool, s: string): (r: string)
    ensures |r| <= |s|
  {
    if s != "" && p(s[0]) then TrimLeft(p, s[1..]) else s
  }

  function TrimRight(p: char -> bool, s: string): (r: string)
    ensures r <= s
  {
    if s != "" && p(s[|s| - 1]) then TrimRight(p, s[..|s| - 1]) else s
  }

  function Trim(p: char -> bool, s: string): string {
    TrimRight(p, TrimLeft(p, s))
  }

  lemma {:induction false} TrimLeftDropsPadding(p: char -> bool, pad: string, core: string)
    requires All(p, pad) && core != "" && !p(core[0])
    ensures TrimLeft(p, pad + core) == core
  {
    if pad == "" {
      assert pad + core == core;
    } else {
      assert (pad + core)[1..] == pad[1..] + core;
      TrimLeftDropsPadding(p, pad[1..], core);
    }
  }

  /** Stripping on the right stops at the end of the core. */
  lemma {:induction false} TrimRightStopsAt(p: char -> bool, core: string, tail: string)
    requires core != "" && !p(core[|core| - 1])
    ensures TrimRight(p, core + tail) == core + TrimRight(p, tail)
  {
    if tail == "" {
      assert core + tail == core;
    } else if p(tail[|tail| - 1]) {
      assert (core + tail)[..|core + tail| - 1] == core + tail[..|tail| - 1];
      TrimRightStopsAt(p, core, tail[..|tail| - 1]);
    }
  }

  lemma {:induction false} TrimRightDropsPadding(p: char -> bool, pad: string)
    requires All(p, pad)
    ensures TrimRight(p, pad) == ""
  {
    if pad != "" {
      TrimRightDropsPadding(p, pad[..|pad| - 1]);
    }
  }

  lemma {:induction false} TrimFindsCore(p: char -> bool, lead: string, core: string, tail: string)
    requires All(p, lead) && core != "" && !p(core[0]) && !p(core[|core| - 1])
    ensures Trim(p, lead + core + tail) == core + TrimRight(p, tail)
  {
    assert lead + core + tail == lead + (core + tail);
    TrimLeftDropsPadding(p, lead, core + tail);
    TrimRightStopsAt(p, core, tail);
  }

  // ----- code fences -----

  predicate FenceAt(s: string, k: nat) {
    k + 3 <= |s| && s[k] == '`' && s[k + 1] == '`' && s[k + 2] == '`'
  }

  ghost predicate HasFence(s: string) {
    exists k: nat :: FenceAt(s, k)
  }

  /** The first fence at or after i, or the end of the text. */
  function NextFence(s: string, i: nat): (k: nat)
    requires i <= |s|
    ensures i <= k <= |s|
    ensures forall m: nat :: i <= m < k ==> !FenceAt(s, m)
    ensures k < |s| ==> FenceAt(s, k)
    decreases |s| - i
  {
    if i == |s| || FenceAt(s, i) then i else NextFence(s, i + 1)
  }

  /** The text between the opening fence and the next one, without its tag and padding. */
  function Unfence(t: string): string
    requires FENCE <= t
  {
    var part := t[|FENCE|..NextFence(t, |FENCE|)];
    Trim(IsFencePad, if TAG <= part then part[|TAG|..] else part)
  }

  // ----- salvage -----

  function FirstOpen(t: string): (i: nat)
    ensures i <= |t| && (i < |t| ==> t[i] == '{')
    ensures forall k :: 0 <= k < i ==> t[k] != '{'
  {
    if t == "" || t[0] == '{' then 0 else 1 + FirstOpen(t[1..])
  }

  /** One past the last closing brace, or 0. */
  function LastClose(t: string): (j: nat)
    ensures j <= |t| && (j > 0 ==> t[j - 1] == '}')
    ensures forall k :: j <= k < |t| ==> t[k] != '}'
  {
    if t == "" || t[|t| - 1] == '}' then |t| else LastClose(t[..|t| - 1])
  }

  /** None stands for the decoder's error. */
  function Decode<V>(loads: string -> Option<V>, t: string): Option<V> {
    if loads(t).Some? then loads(t)
    else
      var i, j := FirstOpen(t), LastClose(t);
      if i + 1 < j then loads(t[i..j]) else None
  }

  function ParseJson<V>(loads: string -> Option<V>, text: string): Option<V> {
    var t := Trim(IsSpace, text);
    Decode(loads, if FENCE <= t then Unfence(t) else t)
  }

  // ----- what salvage finds -----

  /** A decoder that knows one text only. */
  function OnlyDecodes<V>(obj: string, v: V): string -> Option<V> {
    s => if s == obj then Some(v) else None
  }

  /** An object's text: from an opening to a closing brace. */
  predicate ObjectText(obj: string) {
    |obj| >= 2 && obj[0] == '{' && obj[|obj| - 1] == '}'
  }

  lemma {:induction false} BracesBound(t: string, i: nat, j: nat)
    requires i < |t| && t[i] == '{' && j < |t| && t[j] == '}'
    ensures FirstOpen(t) <= i && t[FirstOpen(t)] == '{' && j < LastClose(t) && t[LastClose(t) - 1] == '}'
  {
  }

  lemma {:induction false} SliceIsObject(t: string, f: nat, l: nat)
    requires f + 1 < l <= |t| && t[f] == '{' && t[l - 1] == '}'
    ensures ObjectText(t[f..l])
  {
  }

  /** The salvaged slice is the widest one between braces: it contains every other. The braces
      inside it need not balance. */
  lemma {:induction false} SalvageIsWidest(t: string, i: nat, j: nat)
    requires i < j <= |t| && t[i] == '{' && t[j - 1] == '}'
    ensures FirstOpen(t) <= i && j <= LastClose(t)
    ensures ObjectText(t[FirstOpen(t)..LastClose(t)])
  {
    BracesBound(t, i, j - 1);
    SliceIsObject(t, FirstOpen(t), LastClose(t));
  }

  lemma {:induction false} SalvageFindsObject(before: string, obj: string, after: string)
    requires ObjectText(obj) && '{' !in before && '}' !in after
    ensures var t := before + obj + after;
            FirstOpen(t) == |before| && LastClose(t) == |before| + |obj| && t[FirstOpen(t)..LastClose(t)] == obj
  {
    var t := before + obj + after;
    var i, j := |before|, |before| + |obj|;
    assert t[i] == obj[0] && t[j - 1] == obj[|obj| - 1];
    SalvageIsWidest(t, i, j);
    assert forall k :: 0 <= k < i ==> t[k] == before[k];
    assert forall k :: j <= k < |t| ==> t[k] == after[k - j];
  }

  /** The white space characters of str.isspace(), by code point. */
  lemma {:induction false} IsSpaceIff(ch: char)
    ensures IsSpace(ch) <==>
            ch as int in {9, 10, 11, 12, 13, 28, 29, 30, 31, 32, 133, 160, 5760, 8192, 8193, 8194, 8195, 8196, 8197, 8198,
                          8199, 8200, 8201, 8202, 8232, 8233, 8239, 8287, 12288}
  {
  }

  /** What is dropped at either end of a fenced text. */
  lemma {:induction false} FencePadIff(ch: char)
    ensures IsFencePad(ch) <==> ch in "` \n"
  {
    assert "` \n"[0] == '`' && "` \n"[1] == ' ' && "` \n"[2] == '\n';
  }

  /** A reply with no fence that decodes as it stands, up to white space around it, is that value. */
  lemma {:induction false} PlainReply<V>(loads: string -> Option<V>, lead: string, core: string, tail: string)
    requires All(IsSpace, lead) && All(IsSpace, tail)
    requires core != "" && !IsSpace(core[0]) && !IsSpace(core[|core| - 1])
    requires !("```" <= core) && loads(core).Some?
    ensures ParseJson(loads, lead + core + tail) == loads(core)
  {
    TrimFindsCore(IsSpace, lead, core, tail);
    TrimRightDropsPadding(IsSpace, tail);
    assert core + "" == core;
  }

  /** Blank replies are decoded as the empty text. */
  lemma {:induction false} BlankReply<V>(loads: string -> Option<V>, text: string)
    requires All(IsSpace, text)
    ensures ParseJson(loads, text) == loads("")
  {
    assert text + "" == text;
    TrimLeftSkips(IsSpace, text, "");
  }

  // ----- prose around an object -----

  /** Stripping on either side drops padding only. */
  lemma {:induction false} TrimLeftSplits(p: char -> bool, before: string, core: string) returns (kept: string)
    requires core != "" && !p(core[0])
    ensures TrimLeft(p, before + core) == kept + core
    ensures forall ch :: !p(ch) ==> (ch in kept <==> ch in before)
    ensures forall ch :: ch in kept ==> ch in before
    ensures All(p, before) ==> kept == ""
  {
    if before != "" && p(before[0]) {
      assert (before + core)[1..] == before[1..] + core;
      kept := TrimLeftSplits(p, before[1..], core);
      assert before == [before[0]] + before[1..];
    } else {
      kept := before;
    }
  }

  lemma {:induction false} TrimRightKeeps(p: char -> bool, after: string)
    ensures forall ch :: !p(ch) ==> (ch in TrimRight(p, after) <==> ch in after)
  {
    if after != "" && p(after[|after| - 1]) {
      TrimRightKeeps(p, after[..|after| - 1]);
      assert after == after[..|after| - 1] + [after[|after| - 1]];
    }
  }

  lemma {:induction false} ProseStripped(before: string, obj: string, after: string) returns (b: string, a: string)
    requires ObjectText(obj)
    ensures Trim(IsSpace, before + obj + after) == b + obj + a
    ensures ('{' in b <==> '{' in before) && ('}' in a <==> '}' in after)
  {
    assert before + obj + after == before + (obj + after);
    b := TrimLeftSplits(IsSpace, before, obj + after);
    assert b + (obj + after) == (b + obj) + after;
    TrimRightStopsAt(IsSpace, b + obj, after);
    TrimRightKeeps(IsSpace, after);
    a := TrimRight(IsSpace, after);
  }

  lemma {:induction false} SalvageMissesObject(before: string, obj: string, after: string)
    requires ObjectText(obj) && ('{' in before || '}' in after)
    ensures var t := before + obj + after;
            FirstOpen(t) + |obj| < LastClose(t)
  {
    var t := before + obj + after;
    var i, j := |before|, |before| + |obj|;
    assert t[i] == obj[0] && t[j - 1] == obj[|obj| - 1];
    SalvageIsWidest(t, i, j);
    if '{' in before {
      var k :| 0 <= k < i && before[k] == '{';
      assert t[k] == '{';
    } else {
      var k :| 0 <= k < |after| && after[k] == '}';
      assert t[j + k] == '}';
    }
  }

  /** Prose around an object leaves its value alone, whatever decoder rejects the reply as a whole,
      exactly when there is no opening brace before the object and no closing one after it. */
  lemma {:induction false} ProseIsTransparentIff<V(!new)>(before: string, obj: string, after: string, v: V)
    requires ObjectText(obj)
    requires !("```" <= Trim(IsSpace, before + obj + after))
    ensures (forall loads: string -> Option<V> :: loads(Trim(IsSpace, before + obj + after)).None? ==>
              ParseJson(loads, before + obj + after) == loads(obj))
            <==> '{' !in before && '}' !in after
  {
    var b, a := ProseStripped(before, obj, after);
    var t := b + obj + a;
    if '{' !in before && '}' !in after {
      SalvageFindsObject(b, obj, a);
    } else {
      SalvageMissesObject(b, obj, a);
      var loads := OnlyDecodes(obj, v);
      assert loads(obj) == Some(v);
      assert ParseJson(loads, before + obj + after) == None;
    }
  }

  // ----- a fence around an object -----

  /** A fence around some text: bare or tagged, JSON white space inside, any before; closed and
      followed by anything, or never closed. */
  datatype Wrapping = Wrapping(lead: string, tagged: bool, inner: string, outer: string, closed: bool, rest: string)

  predicate Proper(w: Wrapping) {
    All(IsSpace, w.lead) && All(IsJsonSpace, w.inner) && All(IsJsonSpace, w.outer) && (w.closed || w.rest == "")
  }

  /** Inside the fence there are spaces and newlines only. */
  predicate Blank(w: Wrapping) {
    All(IsBlank, w.inner) && All(IsBlank, w.outer)
  }

  function Opening(w: Wrapping): string {
    "```" + (if w.tagged then "json" else "") + w.inner
  }

  function Fenced(w: Wrapping, obj: string): string {
    w.lead + Opening(w) + obj + w.outer + (if w.closed then "```" else "") + w.rest
  }

  /** After stripping, the reply is the opening, the object, and something that starts with white
      space and a fence, or nothing. */
  lemma {:induction false} FencedStripped(w: Wrapping, obj: string) returns (tail: string)
    requires Proper(w) && ObjectText(obj)
    ensures Trim(IsSpace, Fenced(w, obj)) == Opening(w) + obj + tail
    ensures w.closed ==> w.outer + FENCE <= tail
    ensures !w.closed ==> tail == ""
  {
    var core := Opening(w) + obj;
    if w.closed {
      assert Fenced(w, obj) == w.lead + (core + w.outer + FENCE) + w.rest;
      TrimFindsCore(IsSpace, w.lead, core + w.outer + FENCE, w.rest);
      tail := w.outer + FENCE + TrimRight(IsSpace, w.rest);
      assert core + w.outer + FENCE + TrimRight(IsSpace, w.rest) == core + tail;
    } else {
      assert Fenced(w, obj) == w.lead + core + w.outer;
      TrimFindsCore(IsSpace, w.lead, core, w.outer);
      TrimRightDropsPadding(IsSpace, w.outer);
      tail := "";
    }
  }

  /** Taking out of the fence drops the fence, the tag and, at either end, spaces and newlines. */
  lemma {:induction false} UnfenceTo(w: Wrapping, core: string, t: string) returns (kept: string)
    requires Proper(w) && core != "" && core[0] == '{' && Opening(w) + core <= t
    requires NextFence(t, |FENCE|) == |Opening(w) + core|
    ensures FENCE <= t && Unfence(t) == TrimRight(IsFencePad, kept + core)
    ensures All(IsJsonSpace, kept) && (Blank(w) ==> kept == "")
  {
    var tag, body := if w.tagged then TAG else "", w.inner + core;
    assert Opening(w) + core == FENCE + (tag + body);
    PartAfterFence(tag + body, t);
    assert IsJsonSpace(body[0]) || body[0] == '{';
    TagIsDropped(tag, body);
    assert Unfence(t) == Trim(IsFencePad, body);
    kept := TrimLeftSplits(IsFencePad, w.inner, core);
    forall k | 0 <= k < |kept| ensures IsJsonSpace(kept[k]) {
      assert kept[k] in w.inner;
    }
  }

  lemma {:induction false} PartAfterFence(part: string, t: string)
    requires FENCE + part <= t
    ensures FENCE <= t && t[|FENCE|..|FENCE + part|] == part
  {
    assert t[..|FENCE + part|] == FENCE + part;
  }

  lemma {:induction false} TagIsDropped(tag: string, body: string)
    requires tag == TAG || tag == ""
    requires body != "" && (IsJsonSpace(body[0]) || body[0] == '{')
    ensures (if TAG <= tag + body then (tag + body)[|TAG|..] else tag + body) == body
  {
    assert (tag + body)[|tag|..] == body;
    assert tag == "" ==> (tag + body)[0] == body[0];
  }

  /** No fence begins between the opening one and the white space after a fence-free object. */
  lemma {:induction false} NoEarlyFence(w: Wrapping, obj: string, t: string, blanks: string, m: nat)
    requires Proper(w) && ObjectText(obj) && !HasFence(obj) && All(IsJsonSpace, blanks)
    requires Opening(w) + obj + blanks <= t
    requires |FENCE| <= m < |Opening(w) + obj + blanks|
    ensures !FenceAt(t, m)
  {
    var o := |Opening(w)|;
    assert forall k :: 0 <= k < |Opening(w) + obj + blanks| ==> t[k] == (Opening(w) + obj + blanks)[k];
    if m < o {
      assert t[m] == Opening(w)[m];
    } else if m < o + |obj| {
      assert forall k :: 0 <= k < |obj| ==> t[o + k] == obj[k];
      assert !FenceAt(obj, m - o);
    } else {
      assert t[m] == blanks[m - o - |obj|];
    }
  }

  lemma {:induction false} FenceAfter(head: string, blanks: string, tail: string)
    requires blanks + FENCE <= tail
    ensures FenceAt(head + tail, |head + blanks|)
  {
    var k := |blanks|;
    assert tail[k] == FENCE[0] && tail[k + 1] == FENCE[1] && tail[k + 2] == FENCE[2];
  }

  /** The fence ends right behind the white space after a fence-free object. */
  lemma {:induction false} FenceFreeEnd(w: Wrapping, obj: string, tail: string, blanks: string)
    requires Proper(w) && ObjectText(obj) && !HasFence(obj)
    requires if w.closed then blanks == w.outer && w.outer + FENCE <= tail else blanks == tail == ""
    ensures Opening(w) + obj + blanks <= Opening(w) + obj + tail
    ensures NextFence(Opening(w) + obj + tail, |FENCE|) == |Opening(w) + obj + blanks|
  {
    var t := Opening(w) + obj + tail;
    assert Opening(w) + obj + blanks <= t by {
      assert w.closed ==> w.outer <= tail;
    }
    var end := |Opening(w) + obj + blanks|;
    forall m: nat | |FENCE| <= m < end ensures !FenceAt(t, m) {
      NoEarlyFence(w, obj, t, blanks, m);
    }
    if w.closed {
      FenceAfter(Opening(w) + obj, w.outer, tail);
    }
  }

  lemma {:induction false} FenceFreeText(w: Wrapping, obj: string) returns (l: string, r: string)
    requires Proper(w) && ObjectText(obj) && !HasFence(obj)
    ensures FENCE <= Trim(IsSpace, Fenced(w, obj)) && Unfence(Trim(IsSpace, Fenced(w, obj))) == l + obj + r
    ensures All(IsJsonSpace, l) && All(IsJsonSpace, r) && (Blank(w) ==> l == "" && r == "")
  {
    var tail := FencedStripped(w, obj);
    var blanks := if w.closed then w.outer else "";
    FenceFreeEnd(w, obj, tail, blanks);
    assert Opening(w) + obj + blanks == Opening(w) + (obj + blanks);
    l := UnfenceTo(w, obj + blanks, Opening(w) + obj + tail);
    r := TrimAfterObject(l, obj, blanks);
  }

  lemma {:induction false} TrimAfterObject(l: string, obj: string, blanks: string) returns (r: string)
    requires ObjectText(obj)
    ensures TrimRight(IsFencePad, l + (obj + blanks)) == l + obj + r
    ensures r <= blanks && (All(IsBlank, blanks) ==> r == "")
  {
    assert l + (obj + blanks) == (l + obj) + blanks;
    TrimRightStopsAt(IsFencePad, l + obj, blanks);
    r := TrimRight(IsFencePad, blanks);
    if All(IsBlank, blanks) {
      TrimRightDropsPadding(IsFencePad, blanks);
    }
  }

  /** White space around a value makes no difference to the decoder. */
  ghost predicate Tolerant<V(!new)>(loads: string -> Option<V>) {
    forall l, x, r :: All(IsJsonSpace, l) && All(IsJsonSpace, r) ==> loads(l + x + r) == loads(x)
  }

  lemma {:induction false} FenceFreeObject<V(!new)>(loads: string -> Option<V>, w: Wrapping, obj: string)
    requires Proper(w) && ObjectText(obj) && !HasFence(obj)
    requires Blank(w) || Tolerant(loads)
    ensures ParseJson(loads, Fenced(w, obj)) == loads(obj)
  {
    var l, r := FenceFreeText(w, obj);
    if Blank(w) {
      assert "" + obj + "" == obj;
    }
    assert loads(l + obj + r) == loads(obj);
    assert '{' !in l && '}' !in r;
    SalvageFindsObject(l, obj, r);
  }

  lemma {:induction false} OpeningHasNoTick(w: Wrapping, m: nat)
    requires Proper(w) && |FENCE| <= m < |Opening(w)|
    ensures Opening(w)[m] != '`'
  {
    var tag := if w.tagged then TAG else "";
    if m < |FENCE + tag| {
      assert Opening(w)[m] == tag[m - |FENCE|];
    } else {
      assert Opening(w)[m] == w.inner[m - |FENCE + tag|];
    }
  }

  lemma {:induction false} FenceShifts(head: string, obj: string, t: string, m: nat)
    requires head + obj <= t && m + 3 <= |obj|
    ensures FenceAt(t, |head| + m) <==> FenceAt(obj, m)
  {
    assert forall k :: 0 <= k < |obj| ==> t[|head| + k] == (head + obj)[|head| + k] == obj[k];
  }

  /** The first fence after the opening is the object's first inner fence. */
  lemma {:induction false} FirstInnerFence(w: Wrapping, head: string, obj: string, t: string)
    requires Proper(w) && ObjectText(obj) && HasFence(obj) && head == Opening(w) && head + obj <= t
    ensures 0 < NextFence(obj, 0) < |obj|
    ensures NextFence(t, |FENCE|) == |head| + NextFence(obj, 0)
  {
    var f := NextFence(obj, 0);
    var k: nat :| FenceAt(obj, k);
    assert f <= k && f + 3 <= |obj| by {
      assert k + 3 <= |obj|;
    }
    forall m: nat | |FENCE| <= m < |head| + f ensures !FenceAt(t, m) {
      if m < |head| {
        OpeningHasNoTick(w, m);
        assert t[m] == (head + obj)[m];
      } else {
        FenceShifts(head, obj, t, m - |head|);
      }
    }
    FenceShifts(head, obj, t, f);
  }

  /** The object is cut at its first inner fence: what is left of it begins with its brace and is shorter. */
  lemma {:induction false} InnerFenceCuts(w: Wrapping, obj: string, tail: string) returns (kept: string, cut: string)
    requires Proper(w) && ObjectText(obj) && HasFence(obj)
    ensures FENCE <= Opening(w) + obj + tail && Unfence(Opening(w) + obj + tail) == kept + cut
    ensures All(IsJsonSpace, kept) && cut != "" && cut <= obj[..NextFence(obj, 0)] && NextFence(obj, 0) < |obj|
  {
    var t, f := Opening(w) + obj + tail, NextFence(obj, 0);
    FirstInnerFence(w, Opening(w), obj, t);
    assert t[..|Opening(w)| + f] == Opening(w) + obj[..f];
    kept := UnfenceTo(w, obj[..f], t);
    cut := TrimAfterBrace(kept, obj[..f]);
  }

  lemma {:induction false} TrimAfterBrace(kept: string, core: string) returns (cut: string)
    requires core != "" && core[0] == '{'
    ensures TrimRight(IsFencePad, kept + core) == kept + cut && cut != "" && cut <= core
  {
    var brace, rest := [core[0]], TrimRight(IsFencePad, core[1..]);
    assert kept + core == (kept + brace) + core[1..];
    TrimRightStopsAt(IsFencePad, kept + brace, core[1..]);
    cut := brace + rest;
    assert (kept + brace) + rest == kept + cut;
    assert core == brace + core[1..];
  }

  // ----- a decoder that knows one text, with any white space around it -----

  function Knows<V>(obj: string, v: V): string -> Option<V> {
    s => if Trim(IsJsonSpace, s) == obj then Some(v) else None
  }

  lemma {:induction false} TrimLeftSkips(p: char -> bool, l: string, s: string)
    requires All(p, l)
    ensures TrimLeft(p, l + s) == TrimLeft(p, s)
  {
    if l == "" {
      assert l + s == s;
    } else {
      assert (l + s)[1..] == l[1..] + s;
      TrimLeftSkips(p, l[1..], s);
    }
  }

  lemma {:induction false} TrimRightSkips(p: char -> bool, s: string, r: string)
    requires All(p, r)
    ensures TrimRight(p, s + r) == TrimRight(p, s)
  {
    if r == "" {
      assert s + r == s;
    } else {
      assert (s + r)[..|s + r| - 1] == s + r[..|r| - 1];
      TrimRightSkips(p, s, r[..|r| - 1]);
    }
  }

  lemma {:induction false} TrimLeftBefore(p: char -> bool, s: string, r: string)
    ensures TrimLeft(p, s + r) == if TrimLeft(p, s) == "" then TrimLeft(p, r) else TrimLeft(p, s) + r
  {
    if s == "" {
      assert s + r == r;
    } else if p(s[0]) {
      assert (s + r)[1..] == s[1..] + r;
      TrimLeftBefore(p, s[1..], r);
    }
  }

  lemma {:induction false} TrimIgnoresPadding(p: char -> bool, l: string, s: string, r: string)
    requires All(p, l) && All(p, r)
    ensures Trim(p, l + s + r) == Trim(p, s)
  {
    assert l + s + r == l + (s + r);
    TrimLeftSkips(p, l, s + r);
    TrimLeftBefore(p, s, r);
    if TrimLeft(p, s) == "" {
      TrimLeftSkips(p, r, "");
      assert r + "" == r;
    } else {
      TrimRightSkips(p, TrimLeft(p, s), r);
    }
  }

  lemma {:induction false} KnowsIsTolerant<V(!new)>(obj: string, v: V)
    ensures Tolerant(Knows(obj, v))
  {
    forall l, x, r | All(IsJsonSpace, l) && All(IsJsonSpace, r)
      ensures Knows(obj, v)(l + x + r) == Knows(obj, v)(x)
    {
      TrimIgnoresPadding(IsJsonSpace, l, x, r);
    }
  }

  lemma {:induction false} KnowsObject<V>(obj: string, v: V)
    requires ObjectText(obj)
    ensures Knows(obj, v)(obj) == Some(v)
  {
    assert "" + obj + "" == obj;
    TrimFindsCore(IsJsonSpace, "", obj, "");
    assert TrimRight(IsJsonSpace, "") == "";
  }

  lemma {:induction false} ShorterIsUnknown<V>(obj: string, v: V, kept: string, cut: string)
    requires All(IsJsonSpace, kept) && |cut| < |obj|
    ensures Decode(Knows(obj, v), kept + cut) == None
  {
    var body := kept + cut;
    TrimLeftSkips(IsJsonSpace, kept, cut);
    assert forall i :: 0 <= i < |kept| ==> body[i] == kept[i] && IsJsonSpace(kept[i]);
    assert FirstOpen(body) >= |kept|;
  }

  /** A decoder that knows only the object is never asked about it once it is cut. */
  lemma {:induction false} CutObjectIsLost<V>(w: Wrapping, obj: string, v: V)
    requires Proper(w) && ObjectText(obj) && HasFence(obj)
    ensures ParseJson(Knows(obj, v), Fenced(w, obj)) == None
  {
    var tail := FencedStripped(w, obj);
    var kept, cut := InnerFenceCuts(w, obj, tail);
    assert |cut| < |obj|;
    ShorterIsUnknown(obj, v, kept, cut);
  }

  /** A fence around an object's text leaves its value alone exactly when the text contains no fence
      itself: whatever the decoder, as long as it ignores white space around a value, and whatever the
      decoder if there are only spaces and newlines inside the fence. */
  lemma {:induction false} FenceIsTransparentIff<V(!new)>(w: Wrapping, obj: string, v: V)
    requires Proper(w) && ObjectText(obj)
    ensures (forall loads: string -> Option<V> :: Tolerant(loads) ==> ParseJson(loads, Fenced(w, obj)) == loads(obj)) <==> !HasFence(obj)
    ensures Blank(w) ==>
              ((forall loads: string -> Option<V> :: ParseJson(loads, Fenced(w, obj)) == loads(obj)) <==> !HasFence(obj))
  {
    if HasFence(obj) {
      CutObjectIsLost(w, obj, v);
      KnowsIsTolerant(obj, v);
      KnowsObject(obj, v);
    } else {
      forall loads: string -> Option<V> | Blank(w) || Tolerant(loads) ensures ParseJson(loads, Fenced(w, obj)) == loads(obj) {
        FenceFreeObject(loads, w, obj);
      }
    }
  }
}
