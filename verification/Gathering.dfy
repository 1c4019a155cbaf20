/**
 * Text gathered towards a token budget: it is cut at the strongest separator that yields more than one piece,
 * and a piece too long for the budget is cut again by the weaker ones, in the end by characters. The half
 * before the target (`lead`) is gathered from its end, the half behind it from its start; both are written
 * once over that flag.
 */
module Gathering {
  import opened Basics
  import opened TableMarkup
  import opened TokenTrim

  function Concat(ss: seq<string>): string {
    if ss == [] then "" else ss[0] + Concat(ss[1..])
  }

  lemma {:induction false} ConcatAppend(a: seq<string>, b: seq<string>)
    ensures Concat(a + b) == Concat(a) + Concat(b)
    decreases |a|
  {
    if a == [] {
      assert a + b == b;
    } else {
      assert (a + b)[1..] == a[1..] + b;
      ConcatAppend(a[1..], b);
      assert a[0] + (Concat(a[1..]) + Concat(b)) == a[0] + Concat(a[1..]) + Concat(b);
    }
  }

  lemma ConcatOne(a: seq<string>, s: string)
    ensures Concat(a + [s]) == Concat(a) + s
  {
    ConcatAppend(a, [s]);
    assert [s][1..] == [];
    assert s + "" == s;
  }

  // ---------------------------------------------------------------- separators

  predicate OccursAt(text: string, sep: string, at: nat) {
    at + |sep| <= |text| && text[at..at + |sep|] == sep
  }

  function IndexOf(text: string, sep: string, i: nat): (at: Option<nat>)
    requires sep != ""
    ensures at.Some? ==> i <= at.value && OccursAt(text, sep, at.value)
    decreases |text| - i
  {
    if i + |sep| > |text| then None
    else if OccursAt(text, sep, i) then Some(i)
    else IndexOf(text, sep, i + 1)
  }

  lemma {:induction false} NoEarlierOccurrence(text: string, sep: string, i: nat, k: nat)
    requires sep != "" && i <= k && OccursAt(text, sep, k)
    ensures var at := IndexOf(text, sep, i); at.Some? && at.value <= k
    decreases k - i
  {
    if i < k && !OccursAt(text, sep, i) {
      NoEarlierOccurrence(text, sep, i + 1, k);
    }
  }

  /** The library's `split`: the parts between the separator's occurrences. */
  function SplitOn(text: string, sep: string): (parts: seq<string>)
    requires sep != ""
    ensures parts != []
    decreases |text|
  {
    var at := IndexOf(text, sep, 0);
    if at.None? then [text] else [text[..at.value]] + SplitOn(text[at.value + |sep|..], sep)
  }

  /** No part holds the separator. */
  lemma {:induction false} PartsAreFree(text: string, sep: string, part: string, k: nat)
    requires sep != "" && part in SplitOn(text, sep)
    ensures !OccursAt(part, sep, k)
    decreases |text|
  {
    var at := IndexOf(text, sep, 0);
    if at.None? || part == text[..at.value] {
      if OccursAt(part, sep, k) {
        assert text[k..k + |sep|] == part[k..k + |sep|];
        NoEarlierOccurrence(text, sep, 0, k);
      }
    } else {
      PartsAreFree(text[at.value + |sep|..], sep, part, k);
    }
  }

  /** Every part but the last keeps its separator; an empty last part is dropped. */
  function Assemble(parts: seq<string>, sep: string): seq<string>
    requires parts != []
    decreases |parts|
  {
    if |parts| == 1 then (if parts[0] == "" then [] else parts) else [parts[0] + sep] + Assemble(parts[1..], sep)
  }

  /** The pieces by the first separator, from `i` on, that yields more than one, and its index. */
  function Segments(text: string, seps: seq<string>, i: nat): (r: (seq<string>, nat))
    requires i <= |seps|
    ensures i <= r.1 <= |seps|
    decreases |seps| - i
  {
    if text == "" || i == |seps| then ([text], |seps|)
    else if seps[i] != "" && IndexOf(text, seps[i], 0).Some? && |Assemble(SplitOn(text, seps[i]), seps[i])| > 1
    then (Assemble(SplitOn(text, seps[i]), seps[i]), i)
    else Segments(text, seps, i + 1)
  }

  lemma ConcatCons(s: string, tail: seq<string>)
    ensures Concat([s] + tail) == s + Concat(tail)
  {
    assert ([s] + tail)[1..] == tail;
  }

  lemma CutAt(text: string, sep: string, at: nat)
    requires at + |sep| <= |text| && text[at..at + |sep|] == sep
    ensures text == text[..at] + sep + text[at + |sep|..]
  {
  }

  lemma {:induction false} AssembleIsText(text: string, sep: string)
    requires sep != ""
    ensures Concat(Assemble(SplitOn(text, sep), sep)) == text
    ensures "" !in Assemble(SplitOn(text, sep), sep)
    decreases |text|
  {
    var at := IndexOf(text, sep, 0);
    if at.None? {
      assert [text][1..] == [] && text + "" == text;
    } else {
      var first, rest := text[..at.value], text[at.value + |sep|..];
      var tail := Assemble(SplitOn(rest, sep), sep);
      AssembleIsText(rest, sep);
      CutAt(text, sep, at.value);
      ConcatCons(first + sep, tail);
      AssembleCons(first, SplitOn(rest, sep), sep);
    }
  }

  lemma AssembleCons(first: string, parts: seq<string>, sep: string)
    requires parts != []
    ensures Assemble([first] + parts, sep) == [first + sep] + Assemble(parts, sep)
  {
    assert ([first] + parts)[1..] == parts;
  }

  /** Splitting loses nothing: the segments concatenate to the text, and none of them is empty. */
  lemma {:induction false} SegmentsAreText(text: string, seps: seq<string>, i: nat)
    requires i <= |seps|
    ensures var r := Segments(text, seps, i);
            && Concat(r.0) == text && r.0 != [] && (text != "" ==> "" !in r.0)
            && (r.1 == |seps| ==> r.0 == [text]) && (r.1 < |seps| ==> |r.0| > 1)
    decreases |seps| - i
  {
    assert [text][1..] == [] && text + "" == text;
    if text != "" && i < |seps| {
      if seps[i] != "" && IndexOf(text, seps[i], 0).Some? && |Assemble(SplitOn(text, seps[i]), seps[i])| > 1 {
        AssembleIsText(text, seps[i]);
      } else {
        SegmentsAreText(text, seps, i + 1);
      }
    }
  }

  lemma {:induction false} AssembleLoop(parts: seq<string>, sep: string, j: nat, done: seq<string>)
    requires parts != [] && j < |parts|
    ensures done + Assemble(parts[j..], sep)
         == (if j < |parts| - 1 then done + [parts[j] + sep] + Assemble(parts[j + 1..], sep)
             else if parts[j] == "" then done else done + [parts[j]])
  {
    if j < |parts| - 1 {
      assert parts[j..][1..] == parts[j + 1..] && parts[j..][0] == parts[j];
      assert done + ([parts[j] + sep] + Assemble(parts[j + 1..], sep)) == done + [parts[j] + sep] + Assemble(parts[j + 1..], sep);
    } else {
      assert parts[j..] == [parts[j]];
    }
  }

  method AssembleParts(parts: seq<string>, sep: string) returns (assembled: seq<string>)
    requires parts != []
    ensures assembled == Assemble(parts, sep)
  {
    assembled := [];
    assert parts[0..] == parts;
    for j := 0 to |parts| - 1
      invariant assembled + Assemble(parts[j..], sep) == Assemble(parts, sep)
    {
      AssembleLoop(parts, sep, j, assembled);
      assembled := assembled + [parts[j] + sep];
    }
    AssembleLoop(parts, sep, |parts| - 1, assembled);
    if parts[|parts| - 1] != "" {
      assembled := assembled + [parts[|parts| - 1]];
    }
  }

  /** `_split_text_segment`. */
  method SplitTextSegment(text: string, seps: seq<string>) returns (segments: seq<string>, index: nat)
    ensures (segments, index) == Segments(text, seps, 0)
  {
    if text == "" {
      return [text], |seps|;
    }
    for i := 0 to |seps|
      invariant Segments(text, seps, i) == Segments(text, seps, 0)
    {
      if seps[i] != "" && IndexOf(text, seps[i], 0).Some? {
        var assembled := AssembleParts(SplitOn(text, seps[i]), seps[i]);
        if |assembled| > 1 {
          return assembled, i;
        }
      }
    }
    return [text], |seps|;
  }

  // ---------------------------------------------------------------- gathering text

  /** The farther piece and the nearer one, in the order of the text. */
  function Attach(lead: bool, far: string, near: string): string {
    if lead then far + near else near + far
  }

  /** The piece that is `j` places away from the target. */
  function Away<T>(pieces: seq<T>, j: nat, lead: bool): T
    requires j < |pieces|
  {
    if lead then pieces[|pieces| - 1 - j] else pieces[j]
  }

  /** As much of the text as fits next to `existing`; none to stop the walk. */
  function Gather(text: string, existing: string, budget: int, seps: seq<string>, count: Count, lead: bool): Option<string>
    decreases |seps|, 1, 0
  {
    var split := Segments(text, seps, 0);
    Take(split.0, 0, "", existing, budget, seps, split.1, count, lead)
  }

  function Take(segments: seq<string>, j: nat, buf: string, existing: string, budget: int, seps: seq<string>, index: nat,
                count: Count, lead: bool): Option<string>
    requires j <= |segments| && index <= |seps|
    decreases |seps|, 0, |segments| - j + 1
  {
    if j == |segments| then (if buf == "" then None else Some(buf))
    else
      var candidate := Attach(lead, Away(segments, j, lead), buf);
      if Fits(count, Attach(lead, candidate, existing), budget)
      then Take(segments, j + 1, candidate, existing, budget, seps, index, count, lead)
      else if buf != "" then Some(buf)
      else Overflow(Away(segments, j, lead), existing, budget, seps, index, count, lead)
  }

  /** The nearest segment alone is too long: split it by weaker separators, or in the end by characters. */
  function Overflow(segment: string, existing: string, budget: int, seps: seq<string>, index: nat, count: Count, lead: bool): Option<string>
    requires index <= |seps|
    decreases |seps|, 0, 0
  {
    if index < |seps| && seps[index + 1..] != [] then Gather(segment, existing, budget, seps[index + 1..], count, lead)
    else
      var remaining := budget - Tokens(count, existing);
      if remaining <= 0 then None
      else
        var trimmed := CharTrimmed(segment, remaining, count, lead);
        if trimmed == "" then None else Some(trimmed)
  }

  /** `_accumulate_text_leading` and `_accumulate_text_trailing`. */
  method AccumulateText(text: string, existing: string, budget: int, seps: seq<string>, count: Count, lead: bool)
    returns (r: Option<string>)
    ensures r == Gather(text, existing, budget, seps, count, lead)
    decreases |seps|, 1
  {
    var segments, index := SplitTextSegment(text, seps);
    var buf := "";
    for j := 0 to |segments|
      invariant Gather(text, existing, budget, seps, count, lead) == Take(segments, j, buf, existing, budget, seps, index, count, lead)
    {
      var segment := Away(segments, j, lead);
      var candidate := Attach(lead, segment, buf);
      if Fits(count, Attach(lead, candidate, existing), budget) {
        buf := candidate;
      } else if buf != "" {
        return Some(buf);
      } else {
        r := AccumulateFinely(segment, existing, budget, seps, index, count, lead);
        return;
      }
    }
    r := if buf == "" then None else Some(buf);
  }

  /** The part of the loop for a segment that overflows alone; the recursion has fewer separators. */
  method AccumulateFinely(segment: string, existing: string, budget: int, seps: seq<string>, index: nat, count: Count, lead: bool)
    returns (r: Option<string>)
    requires index <= |seps|
    ensures r == Overflow(segment, existing, budget, seps, index, count, lead)
    decreases |seps|, 0
  {
    var weaker := if index < |seps| then seps[index + 1..] else [];
    if weaker != [] {
      r := AccumulateText(segment, existing, budget, weaker, count, lead);
      return;
    }
    var remaining := budget - Tokens(count, existing);
    if remaining <= 0 {
      return None;
    }
    var trimmed;
    if lead {
      trimmed := CharTrimLeading(segment, remaining, count);
    } else {
      trimmed := CharTrimTrailing(segment, remaining, count);
    }
    r := if trimmed == "" then None else Some(trimmed);
  }

  // ---------------------------------------------------------------- contiguity

  /** The part touches the target: a suffix before it, a prefix behind it. */
  predicate Touching(part: string, text: string, lead: bool) {
    |part| <= |text| && part == Snippet(text, |part|, lead)
  }

  lemma TouchingTransitive(a: string, b: string, c: string, lead: bool)
    requires Touching(a, b, lead) && Touching(b, c, lead)
    ensures Touching(a, c, lead)
  {
    if lead {
      assert a == c[|c| - |b|..][|b| - |a|..];
    } else {
      assert a == c[..|b|][..|a|];
    }
  }

  /** The nearest `j` segments, joined. */
  function Joined(segments: seq<string>, j: nat, lead: bool): string
    requires j <= |segments|
  {
    Concat(Nearest(segments, j, lead))
  }

  lemma JoinedNext(segments: seq<string>, j: nat, lead: bool)
    requires j < |segments|
    ensures Joined(segments, j + 1, lead) == Attach(lead, Away(segments, j, lead), Joined(segments, j, lead))
  {
    if lead {
      var n := |segments|;
      assert segments[n - (j + 1)..][1..] == segments[n - j..];
    } else {
      assert segments[..j + 1] == segments[..j] + [segments[j]];
      ConcatOne(segments[..j], segments[j]);
    }
  }

  lemma EndsTouch(a: string, b: string)
    ensures Touching(b, a + b, true) && Touching(a, a + b, false)
  {
    assert (a + b)[|a|..] == b && (a + b)[..|a|] == a;
  }

  lemma {:induction false} JoinedTouches(segments: seq<string>, j: nat, lead: bool)
    requires j <= |segments|
    ensures Touching(Joined(segments, j, lead), Concat(segments), lead)
  {
    var n := if lead then |segments| - j else j;
    assert segments == segments[..n] + segments[n..];
    ConcatAppend(segments[..n], segments[n..]);
    EndsTouch(Concat(segments[..n]), Concat(segments[n..]));
  }

  lemma NearestTouches(segments: seq<string>, lead: bool)
    requires segments != []
    ensures Touching(Away(segments, 0, lead), Concat(segments), lead)
  {
    JoinedNext(segments, 0, lead);
    JoinedTouches(segments, 1, lead);
    assert Nearest(segments, 0, lead) == [];
  }

  lemma {:induction false} GatherTouches(text: string, existing: string, budget: int, seps: seq<string>, count: Count, lead: bool)
    ensures var r := Gather(text, existing, budget, seps, count, lead);
            r.Some? ==> r.value != "" && Touching(r.value, text, lead)
    decreases |seps|, 1, 0
  {
    var split := Segments(text, seps, 0);
    SegmentsAreText(text, seps, 0);
    assert Nearest(split.0, 0, lead) == [];
    if text == "" {
      assert split.0 == [""];
    }
    TakeTouches(text, split.0, 0, "", existing, budget, seps, split.1, count, lead);
  }

  lemma {:induction false} TakeTouches(text: string, segments: seq<string>, j: nat, buf: string, existing: string, budget: int,
                                      seps: seq<string>, index: nat, count: Count, lead: bool)
    requires j <= |segments| && index <= |seps| && Concat(segments) == text && buf == Joined(segments, j, lead)
    requires "" !in segments || segments == [""]
    ensures var r := Take(segments, j, buf, existing, budget, seps, index, count, lead);
            r.Some? ==> r.value != "" && Touching(r.value, text, lead)
    decreases |seps|, 0, |segments| - j + 1
  {
    JoinedTouches(segments, j, lead);
    if j < |segments| {
      var segment := Away(segments, j, lead);
      var candidate := Attach(lead, segment, buf);
      JoinedNext(segments, j, lead);
      if Fits(count, Attach(lead, candidate, existing), budget) {
        TakeTouches(text, segments, j + 1, candidate, existing, budget, seps, index, count, lead);
      } else if buf == "" {
        EmptyMeansNone(segments, j, lead);
        NearestTouches(segments, lead);
        OverflowTouches(segment, existing, budget, seps, index, count, lead);
        var r := Overflow(segment, existing, budget, seps, index, count, lead);
        if r.Some? {
          TouchingTransitive(r.value, segment, text, lead);
        }
      }
    }
  }

  lemma {:induction false} OverflowTouches(segment: string, existing: string, budget: int, seps: seq<string>, index: nat, count: Count, lead: bool)
    requires index <= |seps|
    ensures var r := Overflow(segment, existing, budget, seps, index, count, lead);
            r.Some? ==> r.value != "" && Touching(r.value, segment, lead)
    decreases |seps|, 0, 0
  {
    var remaining := budget - Tokens(count, existing);
    if index < |seps| && seps[index + 1..] != [] {
      GatherTouches(segment, existing, budget, seps[index + 1..], count, lead);
    } else if remaining > 0 {
      CharTrimmedIsTight(segment, remaining, count, lead);
    }
  }

  lemma TakenIsNotEmpty(segments: seq<string>, j: nat, lead: bool)
    requires 0 < j < |segments| && "" !in segments
    ensures Joined(segments, j, lead) != ""
  {
    JoinedNext(segments, j - 1, lead);
    assert Away(segments, j - 1, lead) in segments;
  }

  /** With no empty segment, an empty buffer means that none was taken. */
  lemma EmptyMeansNone(segments: seq<string>, j: nat, lead: bool)
    requires j < |segments| && Joined(segments, j, lead) == "" && ("" !in segments || segments == [""])
    ensures j == 0
  {
    if 0 < j && segments != [""] {
      TakenIsNotEmpty(segments, j, lead);
    }
  }

  // ---------------------------------------------------------------- budget

  ghost predicate Subadditive(count: Count) {
    forall a, b :: Tokens(count, a + b) <= Tokens(count, a) + Tokens(count, b)
  }

  lemma AttachFits(count: Count, lead: bool, far: string, near: string, budget: int)
    requires Subadditive(count) && Fits(count, far, budget - Tokens(count, near))
    ensures Fits(count, Attach(lead, far, near), budget)
  {
    assert Tokens(count, far + near) <= Tokens(count, far) + Tokens(count, near);
    assert Tokens(count, near + far) <= Tokens(count, near) + Tokens(count, far);
  }

  lemma {:induction false} GatherFits(text: string, existing: string, budget: int, seps: seq<string>, count: Count, lead: bool)
    requires Subadditive(count)
    ensures var r := Gather(text, existing, budget, seps, count, lead);
            r.Some? ==> Fits(count, Attach(lead, r.value, existing), budget)
    decreases |seps|, 1, 0
  {
    var split := Segments(text, seps, 0);
    TakeFits(split.0, 0, "", existing, budget, seps, split.1, count, lead);
  }

  lemma {:induction false} TakeFits(segments: seq<string>, j: nat, buf: string, existing: string, budget: int,
                                   seps: seq<string>, index: nat, count: Count, lead: bool)
    requires j <= |segments| && index <= |seps| && Subadditive(count)
    requires buf != "" ==> Fits(count, Attach(lead, buf, existing), budget)
    ensures var r := Take(segments, j, buf, existing, budget, seps, index, count, lead);
            r.Some? ==> Fits(count, Attach(lead, r.value, existing), budget)
    decreases |seps|, 0, |segments| - j + 1
  {
    if j < |segments| {
      var candidate := Attach(lead, Away(segments, j, lead), buf);
      if Fits(count, Attach(lead, candidate, existing), budget) {
        TakeFits(segments, j + 1, candidate, existing, budget, seps, index, count, lead);
      } else if buf == "" {
        OverflowFits(Away(segments, j, lead), existing, budget, seps, index, count, lead);
      }
    }
  }

  lemma {:induction false} OverflowFits(segment: string, existing: string, budget: int, seps: seq<string>, index: nat, count: Count, lead: bool)
    requires index <= |seps| && Subadditive(count)
    ensures var r := Overflow(segment, existing, budget, seps, index, count, lead);
            r.Some? ==> Fits(count, Attach(lead, r.value, existing), budget)
    decreases |seps|, 0, 0
  {
    var remaining := budget - Tokens(count, existing);
    if index < |seps| && seps[index + 1..] != [] {
      GatherFits(segment, existing, budget, seps[index + 1..], count, lead);
    } else if remaining > 0 {
      CharTrimmedIsTight(segment, remaining, count, lead);
      AttachFits(count, lead, CharTrimmed(segment, remaining, count, lead), existing, budget);
    }
  }

  /** More of the text nearest to the target never takes fewer tokens. */
  ghost predicate NearMonotone(count: Count, text: string, lead: bool) {
    if lead then SuffixMonotone(count, text) else PrefixMonotone(count, text)
  }

  lemma NearestIsCheaper(count: Count, part: string, text: string, near: string, lead: bool)
    requires Touching(part, text, lead) && NearMonotone(count, Attach(lead, text, near), lead)
    ensures Tokens(count, Attach(lead, part, near)) <= Tokens(count, Attach(lead, text, near))
  {
    var whole := Attach(lead, text, near);
    if lead {
      assert Attach(lead, part, near) == whole[|text| - |part|..] && whole == whole[0..];
    } else {
      assert Attach(lead, part, near) == whole[..|near| + |part|] && whole == whole[..|whole|];
    }
  }

  lemma {:induction false} TakeAll(segments: seq<string>, j: nat, existing: string, budget: int,
                                  seps: seq<string>, index: nat, count: Count, lead: bool)
    requires j <= |segments| && index <= |seps| && Concat(segments) != ""
    requires var whole := Attach(lead, Concat(segments), existing); NearMonotone(count, whole, lead) && Fits(count, whole, budget)
    ensures Take(segments, j, Joined(segments, j, lead), existing, budget, seps, index, count, lead) == Some(Concat(segments))
    decreases |segments| - j
  {
    if j == |segments| {
      assert Nearest(segments, j, lead) == segments;
    } else {
      JoinedNext(segments, j, lead);
      JoinedTouches(segments, j + 1, lead);
      NearestIsCheaper(count, Joined(segments, j + 1, lead), Concat(segments), existing, lead);
      TakeAll(segments, j + 1, existing, budget, seps, index, count, lead);
    }
  }

  /** A text is taken whole if and only if it fits whole, under a tokenizer that grows with the text and is subadditive. */
  lemma WholeIffFits(text: string, existing: string, budget: int, seps: seq<string>, count: Count, lead: bool)
    requires text != "" && Subadditive(count) && NearMonotone(count, Attach(lead, text, existing), lead)
    ensures Gather(text, existing, budget, seps, count, lead) == Some(text) <==> Fits(count, Attach(lead, text, existing), budget)
  {
    var split := Segments(text, seps, 0);
    GatherFits(text, existing, budget, seps, count, lead);
    SegmentsAreText(text, seps, 0);
    if Fits(count, Attach(lead, text, existing), budget) {
      assert Nearest(split.0, 0, lead) == [];
      TakeAll(split.0, 0, existing, budget, seps, split.1, count, lead);
    }
  }

  lemma FirstCharacter(part: string, text: string, lead: bool)
    requires part != "" && Touching(part, text, lead)
    ensures Snippet(part, 1, lead) == Snippet(text, 1, lead)
  {
  }

  /** Nothing is gathered only where no budget is left, or not even the character next to the target fits into it. */
  lemma {:induction false} GatherGivesUp(text: string, existing: string, budget: int, seps: seq<string>, count: Count, lead: bool)
    requires text != "" && Gather(text, existing, budget, seps, count, lead).None?
    ensures var left := budget - Tokens(count, existing); left <= 0 || !Fits(count, Snippet(text, 1, lead), left)
    decreases |seps|, 1
  {
    var split := Segments(text, seps, 0);
    SegmentsAreText(text, seps, 0);
    assert Nearest(split.0, 0, lead) == [];
    var segment := Away(split.0, 0, lead);
    NearestTouches(split.0, lead);
    assert segment in split.0;
    FirstCharacter(segment, text, lead);
    TakeGivesUp(split.0, existing, budget, seps, split.1, count, lead);
    OverflowGivesUp(segment, existing, budget, seps, split.1, count, lead);
  }

  /** Once a piece is taken the walk over the segments ends with something. */
  lemma {:induction false} TakenIsKept(segments: seq<string>, j: nat, buf: string, existing: string, budget: int, seps: seq<string>, index: nat,
                                      count: Count, lead: bool)
    requires j <= |segments| && index <= |seps| && buf != ""
    ensures Take(segments, j, buf, existing, budget, seps, index, count, lead).Some?
    decreases |segments| - j
  {
    if j < |segments| {
      var candidate := Attach(lead, Away(segments, j, lead), buf);
      assert |candidate| == |Away(segments, j, lead)| + |buf|;
      if Fits(count, Attach(lead, candidate, existing), budget) {
        TakenIsKept(segments, j + 1, candidate, existing, budget, seps, index, count, lead);
      }
    }
  }

  lemma TakeGivesUp(segments: seq<string>, existing: string, budget: int, seps: seq<string>, index: nat, count: Count, lead: bool)
    requires segments != [] && "" !in segments && index <= |seps|
    requires Take(segments, 0, "", existing, budget, seps, index, count, lead).None?
    ensures Overflow(Away(segments, 0, lead), existing, budget, seps, index, count, lead).None?
  {
    var segment := Away(segments, 0, lead);
    assert segment in segments && Attach(lead, segment, "") == segment;
    if Fits(count, Attach(lead, segment, existing), budget) {
      TakenIsKept(segments, 1, segment, existing, budget, seps, index, count, lead);
    }
  }

  lemma {:induction false} OverflowGivesUp(segment: string, existing: string, budget: int, seps: seq<string>, index: nat, count: Count, lead: bool)
    requires index <= |seps| && segment != "" && Overflow(segment, existing, budget, seps, index, count, lead).None?
    ensures var left := budget - Tokens(count, existing); left <= 0 || !Fits(count, Snippet(segment, 1, lead), left)
    decreases |seps|, 0
  {
    var left := budget - Tokens(count, existing);
    if index < |seps| && seps[index + 1..] != [] {
      GatherGivesUp(segment, existing, budget, seps[index + 1..], count, lead);
    } else if left > 0 {
      CharTrimmedIsTight(segment, left, count, lead);
    }
  }
}
