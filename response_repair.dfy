/** Recovering the JSON text of a model reply: the fenced-block extraction shared by the
    query parser, the batch scorer and the deep analyser, the cleanup pass applied after
    a failed parse, and the deep analyser's brace trimming. The markdown-stripping
    replacements at the head of the cleanup pass are a caller-supplied transformer. */
module ResponseRepair {
  import opened Wrappers
  import opened Strings

  const Fence: string := "```"

  /** Where the fenced text starts: after the opening fence and an optional `json`. */
  function FenceBodyStart(s: string, p: nat): (start: nat)
    requires OccursAt(s, Fence, p)
    ensures start == p + 3 || (start == p + 7 && OccursAt(s, "json", p + 3))
  {
    if OccursAt(s, "json", p + 3) then p + 7 else p + 3
  }

  /** The capture of `/```(?:json)?\s*([\s\S]*?)\s*```/`, trimmed: the text between the
      first fence (and an optional `json`) and the next fence after it. */
  function FenceContent(s: string): Option<string> {
    var p := IndexOfFrom(s, Fence, 0);
    if p.None? then None
    else
      var start := FenceBodyStart(s, p.value);
      var q := IndexOfFrom(s, Fence, start);
      if q.None? then None else Some(Trim(s[start..q.value]))
  }

  /** A fenced block is found exactly when the text has two non-overlapping fences. */
  lemma FenceContentFound(s: string)
    ensures FenceContent(s).Some? <==>
              exists p: nat, q: nat :: OccursAt(s, Fence, p) && p + 3 <= q && OccursAt(s, Fence, q)
  {
    var p := IndexOfFrom(s, Fence, 0);
    if FenceContent(s).Some? {
      var start := FenceBodyStart(s, p.value);
      var q := IndexOfFrom(s, Fence, start);
      assert OccursAt(s, Fence, p.value) && p.value + 3 <= q.value && OccursAt(s, Fence, q.value);
    }
    if exists p': nat, q': nat :: OccursAt(s, Fence, p') && p' + 3 <= q' && OccursAt(s, Fence, q') {
      var p', q' :| OccursAt(s, Fence, p') && p' + 3 <= q' && OccursAt(s, Fence, q');
      assert p.Some?;
      var start := FenceBodyStart(s, p.value);
      if start == p.value + 7 && q' < start {
        JsonHasNoFence(s, p.value + 3, q');
      }
      assert OccursAt(s, Fence, q') && start <= q';
    }
  }

  /** A fence cannot start inside the word `json`. */
  lemma JsonHasNoFence(s: string, a: nat, q: nat)
    requires OccursAt(s, "json", a) && a <= q < a + 4
    ensures !OccursAt(s, Fence, q)
  {
    assert s[q] == "json"[q - a];
  }

  /** The text handed to `JSON.parse` first: the trimmed reply, or the trimmed inside of
      its first fenced block. */
  function JsonContent(content: string): string {
    var trimmed := Trim(content);
    var fenced := FenceContent(trimmed);
    if fenced.Some? then fenced.value else trimmed
  }

  /** A reply without fences is parsed whole, trimmed. */
  lemma UnfencedReplyIsTrimmed(content: string)
    requires !Contains(Trim(content), Fence)
    ensures JsonContent(content) == Trim(content)
  {
    IndexOfFindsContained(Trim(content), Fence);
  }

  /** The candidate text never has surrounding blanks. */
  lemma JsonContentIsTrimmed(content: string)
    ensures JsonContent(content) == Trim(JsonContent(content))
  {
    var t := Trim(content);
    if FenceContent(t).Some? {
      FenceContentIsTrimmed(t);
    } else {
      TrimIdempotent(content);
    }
  }

  /** A fenced block's text is trimmed. */
  lemma FenceContentIsTrimmed(t: string)
    requires FenceContent(t).Some?
    ensures Trim(FenceContent(t).value) == FenceContent(t).value
  {
    var p := IndexOfFrom(t, Fence, 0);
    var start := FenceBodyStart(t, p.value);
    var q := IndexOfFrom(t, Fence, start);
    TrimIdempotent(t[start..q.value]);
  }

  // ---------------------------------------------------------------- cleanup pass

  /** `[\u0000-\u001F\u007F-\u009F]` */
  predicate IsControl(c: char) {
    c as int <= 0x1F || (0x7F <= c as int <= 0x9F)
  }

  function ControlToSpace(s: string): (r: string)
    ensures |r| == |s|
    ensures forall i :: 0 <= i < |s| ==> r[i] == (if IsControl(s[i]) then ' ' else s[i])
  {
    seq(|s|, i requires 0 <= i < |s| => if IsControl(s[i]) then ' ' else s[i])
  }

  /** `.replace(/,\s*([}\]])/g, '$1')`: a comma followed by blanks and a closing bracket
      is dropped together with the blanks; matches are taken left to right. */
  function RemoveTrailingCommas(s: string, i: nat): (r: string)
    requires i <= |s|
    ensures |r| <= |s| - i
    decreases |s| - i
  {
    if i == |s| then ""
    else if s[i] == ',' && (var j := SkipSpaces(s, i + 1); j < |s| && (s[j] == '}' || s[j] == ']'))
    then [s[SkipSpaces(s, i + 1)]] + RemoveTrailingCommas(s, SkipSpaces(s, i + 1) + 1)
    else [s[i]] + RemoveTrailingCommas(s, i + 1)
  }

  /** Without commas the pass changes nothing. */
  lemma {:induction false} NoCommaNoChange(s: string, i: nat)
    requires i <= |s| && forall k :: i <= k < |s| ==> s[k] != ','
    ensures RemoveTrailingCommas(s, i) == s[i..]
    decreases |s| - i
  {
    if i < |s| {
      NoCommaNoChange(s, i + 1);
    }
  }

  /** No character other than a space from the control class: `[\u0000-\u001F\u007F-\u009F]`. */
  predicate Clean(s: string) {
    forall k :: 0 <= k < |s| ==> !IsControl(s[k]) || s[k] == ' '
  }

  /** The comma pass only keeps characters of its input. */
  lemma {:induction false} CommasKeepClean(s: string, i: nat)
    requires i <= |s| && Clean(s)
    ensures Clean(RemoveTrailingCommas(s, i))
    decreases |s| - i
  {
    if i < |s| {
      if s[i] == ',' && (var j := SkipSpaces(s, i + 1); j < |s| && (s[j] == '}' || s[j] == ']')) {
        CommasKeepClean(s, SkipSpaces(s, i + 1) + 1);
      } else {
        CommasKeepClean(s, i + 1);
      }
    }
  }

  // The comma pass described position by position, without reference to its scan.

  /** The blanks from `m` on are followed by `}` or `]`. */
  predicate ClosesAfter(s: string, m: nat)
    requires m <= |s|
  {
    var j := SkipSpaces(s, m);
    j < |s| && (s[j] == '}' || s[j] == ']')
  }

  /** The start of the run of blanks that ends just before `m`. */
  function BlankStart(s: string, m: nat): (b: nat)
    requires m <= |s|
    ensures b <= m && forall k :: b <= k < m ==> IsSpace(s[k])
    ensures b > 0 ==> !IsSpace(s[b - 1])
  {
    if m > 0 && IsSpace(s[m - 1]) then BlankStart(s, m - 1) else m
  }

  /** Position `m` is deleted by the comma pass: it is a comma followed by blanks and a
      closing bracket, or one of those blanks. */
  predicate Dropped(s: string, m: nat)
    requires m < |s|
  {
    (s[m] == ',' && ClosesAfter(s, m + 1))
    || (IsSpace(s[m]) && BlankStart(s, m) > 0 && s[BlankStart(s, m) - 1] == ',' && ClosesAfter(s, m))
  }

  /** `s[i..]` without its dropped positions. */
  function KeepFrom(s: string, i: nat): (r: string)
    requires i <= |s|
    decreases |s| - i
  {
    if i == |s| then "" else (if Dropped(s, i) then "" else [s[i]]) + KeepFrom(s, i + 1)
  }

  lemma {:induction false} SkipSpacesWithin(s: string, m: nat, k: nat)
    requires m <= |s| && m <= k <= SkipSpaces(s, m)
    ensures SkipSpaces(s, k) == SkipSpaces(s, m)
    decreases k - m
  {
    if m < k {
      SkipSpacesWithin(s, m + 1, k);
    }
  }

  lemma {:induction false} BlankStartAfter(s: string, c: nat, k: nat)
    requires c < k <= |s| && !IsSpace(s[c]) && forall m :: c < m < k ==> IsSpace(s[m])
    ensures BlankStart(s, k) == c + 1
    decreases k
  {
    if k > c + 1 {
      BlankStartAfter(s, c, k - 1);
    }
  }

  lemma KeepDropped(s: string, k: nat)
    requires k < |s| && Dropped(s, k)
    ensures KeepFrom(s, k) == KeepFrom(s, k + 1)
  {
  }

  lemma KeepKept(s: string, k: nat)
    requires k < |s| && !Dropped(s, k)
    ensures KeepFrom(s, k) == [s[k]] + KeepFrom(s, k + 1)
  {
  }

  /** A blank between a dropped comma and its bracket is dropped. */
  lemma BlankAfterCommaDropped(s: string, c: nat, k: nat)
    requires c < |s| && s[c] == ',' && ClosesAfter(s, c + 1)
    requires c + 1 <= k < SkipSpaces(s, c + 1)
    ensures Dropped(s, k)
  {
    var j := SkipSpaces(s, c + 1);
    assert IsSpace(s[k]);
    assert !IsSpace(s[c]);
    BlankStartAfter(s, c, k);
    SkipSpacesWithin(s, c + 1, k);
    assert ClosesAfter(s, k);
  }

  /** The blanks between a dropped comma and its bracket are all dropped. */
  lemma {:induction false} DroppedRun(s: string, c: nat, k: nat)
    requires c < |s| && s[c] == ',' && ClosesAfter(s, c + 1)
    requires c + 1 <= k <= SkipSpaces(s, c + 1)
    ensures KeepFrom(s, k) == KeepFrom(s, SkipSpaces(s, c + 1))
    decreases SkipSpaces(s, c + 1) - k
  {
    if k < SkipSpaces(s, c + 1) {
      BlankAfterCommaDropped(s, c, k);
      KeepDropped(s, k);
      DroppedRun(s, c, k + 1);
    }
  }

  /** Past a closing bracket, no position starts inside a dropped run of blanks. */
  lemma NotInRunAfterBracket(s: string, j: nat)
    requires j < |s| && (s[j] == '}' || s[j] == ']')
    ensures j + 1 < |s| ==> !(IsSpace(s[j + 1]) && Dropped(s, j + 1))
  {
    if j + 1 < |s| {
      assert !IsSpace(s[j]);
      assert BlankStart(s, j + 1) == j + 1;
    }
  }

  /** Outside a dropped run of blanks, the next position is outside one too, unless the
      current one is a dropped comma. */
  lemma NotInRunNext(s: string, i: nat)
    requires i < |s| && !(IsSpace(s[i]) && Dropped(s, i))
    requires !(s[i] == ',' && ClosesAfter(s, i + 1))
    ensures i + 1 < |s| ==> !(IsSpace(s[i + 1]) && Dropped(s, i + 1))
  {
    if i + 1 < |s| && IsSpace(s[i + 1]) {
      if IsSpace(s[i]) {
        assert BlankStart(s, i + 1) == BlankStart(s, i);
        assert SkipSpaces(s, i) == SkipSpaces(s, i + 1);
        assert !Dropped(s, i + 1);
      } else {
        assert BlankStart(s, i + 1) == i + 1;
        assert !Dropped(s, i + 1);
      }
    }
  }

  lemma CommaStep(s: string, i: nat)
    requires i < |s| && s[i] == ',' && ClosesAfter(s, i + 1)
    ensures RemoveTrailingCommas(s, i) == [s[SkipSpaces(s, i + 1)]] + RemoveTrailingCommas(s, SkipSpaces(s, i + 1) + 1)
    ensures Dropped(s, i)
  {
  }

  lemma OtherStep(s: string, i: nat)
    requires i < |s| && !(s[i] == ',' && ClosesAfter(s, i + 1))
    ensures RemoveTrailingCommas(s, i) == [s[i]] + RemoveTrailingCommas(s, i + 1)
  {
  }

  lemma BracketKept(s: string, j: nat)
    requires j < |s| && (s[j] == '}' || s[j] == ']')
    ensures !Dropped(s, j)
  {
    assert !IsSpace(s[j]);
  }

  lemma CommaCase(s: string, i: nat)
    requires i < |s| && s[i] == ',' && ClosesAfter(s, i + 1)
    requires RemoveTrailingCommas(s, SkipSpaces(s, i + 1) + 1) == KeepFrom(s, SkipSpaces(s, i + 1) + 1)
    ensures RemoveTrailingCommas(s, i) == KeepFrom(s, i)
  {
    var j := SkipSpaces(s, i + 1);
    CommaStep(s, i);
    KeepDropped(s, i);
    DroppedRun(s, i, i + 1);
    BracketKept(s, j);
    KeepKept(s, j);
  }

  lemma OtherCase(s: string, i: nat)
    requires i < |s| && !(s[i] == ',' && ClosesAfter(s, i + 1)) && !(IsSpace(s[i]) && Dropped(s, i))
    requires RemoveTrailingCommas(s, i + 1) == KeepFrom(s, i + 1)
    ensures RemoveTrailingCommas(s, i) == KeepFrom(s, i)
  {
    OtherStep(s, i);
    assert !Dropped(s, i);
    KeepKept(s, i);
  }

  /** Where the scan goes on after position `i`: past the bracket of a dropped comma, or to
      the next position. */
  function NextScan(s: string, i: nat): (n: nat)
    requires i < |s|
    ensures i < n <= |s|
  {
    if s[i] == ',' && ClosesAfter(s, i + 1) then SkipSpaces(s, i + 1) + 1 else i + 1
  }

  /** `i` is not inside a dropped run of blanks. */
  predicate OutsideRun(s: string, i: nat)
    requires i <= |s|
  {
    i < |s| ==> !(IsSpace(s[i]) && Dropped(s, i))
  }

  lemma NextScanOutside(s: string, i: nat)
    requires i < |s| && OutsideRun(s, i)
    ensures OutsideRun(s, NextScan(s, i))
  {
    if s[i] == ',' && ClosesAfter(s, i + 1) {
      NotInRunAfterBracket(s, SkipSpaces(s, i + 1));
    } else {
      NotInRunNext(s, i);
    }
  }

  lemma ScanStep(s: string, i: nat)
    requires i < |s| && OutsideRun(s, i)
    requires RemoveTrailingCommas(s, NextScan(s, i)) == KeepFrom(s, NextScan(s, i))
    ensures RemoveTrailingCommas(s, i) == KeepFrom(s, i)
  {
    if s[i] == ',' && ClosesAfter(s, i + 1) {
      CommaCase(s, i);
    } else {
      OtherCase(s, i);
    }
  }

  /** From a position outside a dropped run of blanks, the pass keeps exactly the
      positions that are not dropped. */
  lemma {:induction false} RemoveTrailingCommasKeeps(s: string, i: nat)
    requires i <= |s| && OutsideRun(s, i)
    ensures RemoveTrailingCommas(s, i) == KeepFrom(s, i)
    decreases |s| - i
  {
    if i < |s| {
      NextScanOutside(s, i);
      RemoveTrailingCommasKeeps(s, NextScan(s, i));
      ScanStep(s, i);
    }
  }

  /** `.replace(/,\s*([}\]])/g, '$1')` deletes exactly the commas that blanks and a
      closing bracket follow, with those blanks, and keeps every other character in order. */
  lemma RemoveTrailingCommasSpec(s: string)
    ensures RemoveTrailingCommas(s, 0) == KeepFrom(s, 0)
  {
    RemoveTrailingCommasKeeps(s, 0);
  }

  /** `.replace(/\s+/g, ' ')`: every run of blanks becomes one space. */
  function CollapseWhitespace(s: string, i: nat): (r: string)
    requires i <= |s|
    ensures forall k :: 0 <= k < |r| ==> IsSpace(r[k]) ==> r[k] == ' '
    ensures forall k :: 0 <= k < |r| - 1 ==> !(IsSpace(r[k]) && IsSpace(r[k + 1]))
    ensures i == |s| ==> r == []
    ensures i < |s| && !IsSpace(s[i]) ==> r != [] && !IsSpace(r[0])
    decreases |s| - i
  {
    if i == |s| then ""
    else if IsSpace(s[i]) then
      [' '] + CollapseWhitespace(s, SkipSpaces(s, i))
    else [s[i]] + CollapseWhitespace(s, i + 1)
  }

  /** The cleanup pass: markdown stripping, control characters to spaces, the line-break
      pass (a no-op once control characters are gone), trailing commas, blank runs, trim. */
  function Cleanup(s: string, markdownStrip: string -> string): (r: string)
    ensures Clean(r)
  {
    var noControl := ControlToSpace(markdownStrip(s));
    var noCommas := RemoveTrailingCommas(noControl, 0);
    CommasKeepClean(noControl, 0);
    var collapsed := CollapseWhitespace(noCommas, 0);
    CollapsedFromClean(noCommas, 0);
    TrimIsInfix(collapsed);
    Trim(collapsed)
  }

  /** Collapsing blanks adds no control character other than a space. */
  lemma {:induction false} CollapsedFromClean(s: string, i: nat)
    requires i <= |s| && Clean(s)
    ensures Clean(CollapseWhitespace(s, i))
    decreases |s| - i
  {
    if i < |s| {
      if IsSpace(s[i]) {
        CollapsedFromClean(s, SkipSpaces(s, i));
      } else {
        CollapsedFromClean(s, i + 1);
      }
    }
  }

  /** Where the trimmed text starts inside the original. */
  function TrimOffset(s: string): nat {
    |s| - |TrimStart(s)|
  }

  /** Trimming keeps a contiguous part of the text. */
  lemma TrimIsInfix(s: string)
    ensures TrimOffset(s) + |Trim(s)| <= |s|
    ensures Trim(s) == s[TrimOffset(s)..TrimOffset(s) + |Trim(s)|]
  {
    var t1 := TrimStart(s);
    var t := TrimEnd(t1);
    var o := |s| - |t1|;
    assert Trim(s) == t && TrimOffset(s) == o;
    assert t1 == s[o..] && t == t1[..|t|];
    SliceOfSuffix(s, o, |t|);
  }

  lemma SliceOfSuffix(s: string, o: nat, n: nat)
    requires o + n <= |s|
    ensures s[o..][..n] == s[o..o + n]
  {
  }

  /** An infix of a blank-collapsed text has no two blanks in a row. */
  lemma InfixKeepsSingleBlanks(c: string, a: nat, r: string)
    requires a + |r| <= |c| && r == c[a..a + |r|]
    requires forall k :: 0 <= k < |c| - 1 ==> !(IsSpace(c[k]) && IsSpace(c[k + 1]))
    ensures forall k :: 0 <= k < |r| - 1 ==> !(IsSpace(r[k]) && IsSpace(r[k + 1]))
  {
    forall k | 0 <= k < |r| - 1 ensures !(IsSpace(r[k]) && IsSpace(r[k + 1])) {
      assert r[k] == c[a + k] && r[k + 1] == c[a + k + 1];
    }
  }

  /** The cleaned text has no blank at either end and never two blanks in a row. */
  lemma CleanupShape(s: string, markdownStrip: string -> string)
    ensures var r := Cleanup(s, markdownStrip);
            (r != [] ==> !IsSpace(r[0]) && !IsSpace(r[|r| - 1]))
            && forall k :: 0 <= k < |r| - 1 ==> !(IsSpace(r[k]) && IsSpace(r[k + 1]))
  {
    var collapsed := CollapseWhitespace(RemoveTrailingCommas(ControlToSpace(markdownStrip(s)), 0), 0);
    assert Cleanup(s, markdownStrip) == Trim(collapsed);
    TrimIsInfix(collapsed);
    InfixKeepsSingleBlanks(collapsed, TrimOffset(collapsed), Trim(collapsed));
  }

  // ---------------------------------------------------------------- brace trimming

  /** `if (!s.startsWith('{'))` cut to the first `{` when it is past index 0. */
  function TrimToOpeningBrace(s: string): (r: string)
    ensures r == s || (exists a :: 0 < a < |s| && r == s[a..])
  {
    if StartsWith(s, "{") then s
    else
      var start := IndexOfFrom(s, "{", 0);
      if start.Some? && start.value > 0 then s[start.value..] else s
  }

  /** `if (!s.endsWith('}'))` cut after the last `}` when it is past index 0. */
  function TrimToClosingBrace(s: string): (r: string)
    ensures r == s || (exists b :: 0 < b < |s| && r == s[..b])
  {
    if EndsWith(s, "}") then s
    else
      var lastBrace := LastIndexOf(s, '}');
      if lastBrace.Some? && lastBrace.value > 0 && lastBrace.value < |s| - 1 then s[..lastBrace.value + 1] else s
  }

  function TrimToBraces(s: string): string {
    TrimToClosingBrace(TrimToOpeningBrace(s))
  }

  lemma OccursAtChar(s: string, c: char, i: nat)
    ensures OccursAt(s, [c], i) <==> i < |s| && s[i] == c
  {
    if i < |s| && s[i] == c {
      assert s[i..i + 1] == [c];
    }
  }

  /** A text holding a `{` is cut to start at its first `{`. */
  lemma TrimToOpeningBraceSpec(s: string, first: nat)
    requires first < |s| && s[first] == '{' && forall k :: 0 <= k < first ==> s[k] != '{'
    ensures TrimToOpeningBrace(s) == s[first..]
  {
    OccursAtChar(s, '{', first);
    if first == 0 {
      assert StartsWith(s, "{");
    } else {
      OccursAtChar(s, '{', 0);
      var start := IndexOfFrom(s, "{", 0);
      assert start.Some? && start.value <= first;
      OccursAtChar(s, '{', start.value);
    }
  }

  /** A text with a `}` past its first character ends with a `}` after the cut. */
  lemma TrimToClosingBraceSpec(t: string, j: nat)
    requires 0 < j < |t| && t[j] == '}'
    ensures EndsWith(TrimToClosingBrace(t), "}")
  {
    if !EndsWith(t, "}") {
      var lastBrace := LastIndexOf(t, '}');
      assert lastBrace.Some? && lastBrace.value >= j;
      var r := t[..lastBrace.value + 1];
      assert r[|r| - 1..] == "}";
    }
  }

  /** A text is cut to end at its last `}` when that `}` is past index 0, and is left
      as it is when that `}` is at index 0 or there is no `}`. */
  lemma TrimToLastClosingBrace(t: string, j: nat)
    requires j < |t| && t[j] == '}' && forall k :: j < k < |t| ==> t[k] != '}'
    ensures TrimToClosingBrace(t) == if j > 0 then t[..j + 1] else t
  {
    if EndsWith(t, "}") {
      assert t[|t| - 1..] == [t[|t| - 1]];
      assert j == |t| - 1;
      assert t[..j + 1] == t;
    } else {
      var lastBrace := LastIndexOf(t, '}');
      assert lastBrace == Some(j);
    }
  }

  lemma NoClosingBrace(t: string)
    requires forall k :: 0 <= k < |t| ==> t[k] != '}'
    ensures TrimToClosingBrace(t) == t
  {
    if EndsWith(t, "}") {
      assert t[|t| - 1..][0] == '}';
    }
  }

  /** A text holding a `{` comes out starting with its first `{`, and, when a `}` follows
      that `{`, ending with a `}`. */
  lemma TrimToBracesSpec(s: string, first: nat)
    requires first < |s| && s[first] == '{' && forall k :: 0 <= k < first ==> s[k] != '{'
    ensures StartsWith(TrimToBraces(s), "{")
    ensures (exists j :: first < j < |s| && s[j] == '}') ==> EndsWith(TrimToBraces(s), "}")
    ensures (forall j :: first < j < |s| ==> s[j] != '}') ==> TrimToBraces(s) == s[first..]
  {
    TrimToOpeningBraceSpec(s, first);
    var t := s[first..];
    assert t[0] == '{';
    if exists j :: first < j < |s| && s[j] == '}' {
      var j :| first < j < |s| && s[j] == '}';
      assert t[j - first] == '}';
      TrimToClosingBraceSpec(t, j - first);
    }
    if forall j :: first < j < |s| ==> s[j] != '}' {
      NoClosingBrace(t);
    }
    var r := TrimToBraces(s);
    assert r[0] == '{';
    OccursAtChar(r, '{', 0);
  }

  /** A text holding a `{`, followed later by a last `}`, comes out as exactly the span from
      its first `{` to its last `}`. */
  lemma TrimToBracesSpan(s: string, first: nat, last: nat)
    requires first < |s| && s[first] == '{' && forall k :: 0 <= k < first ==> s[k] != '{'
    requires first < last < |s| && s[last] == '}' && forall k :: last < k < |s| ==> s[k] != '}'
    ensures TrimToBraces(s) == s[first..last + 1]
  {
    TrimToOpeningBraceSpec(s, first);
    var t := s[first..];
    assert t[last - first] == '}';
    TrimToLastClosingBrace(t, last - first);
  }
}
