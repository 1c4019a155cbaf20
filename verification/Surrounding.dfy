/**
 * The text around a target: tags are atoms, and the walk over them, from the target outwards, gathers the
 * prose between them.
 */
module Surrounding {
  import opened Basics
  import opened TableMarkup
  import opened TokenTrim
  import opened Gathering

  datatype Kind = Prose | Drawing | Equation | TableTag

  datatype Atom = Atom(kind: Kind, text: string)

  /** A tag found by the scanner. */
  datatype Span = Span(start: nat, end: nat, kind: Kind)

  // ---------------------------------------------------------------- atoms

  /** The scanner's matches: non-empty, inside the text, one behind the other. */
  ghost predicate SpansOf(text: string, spans: seq<Span>) {
    && (forall i | 0 <= i < |spans| :: spans[i].start < spans[i].end <= |text|)
    && forall i, j | 0 <= i < j < |spans| :: spans[i].end <= spans[j].start
  }

  function Texts(atoms: seq<Atom>): seq<string> {
    seq(|atoms|, i requires 0 <= i < |atoms| => atoms[i].text)
  }

  lemma {:induction false} AtomsAreSolid(text: string, spans: seq<Span>, i: nat, pos: nat)
    requires i <= |spans| && SpansOf(text, spans)
    ensures Solid(AtomsFrom(text, spans, i, pos))
    decreases |spans| - i
  {
    if i < |spans| {
      AtomsAreSolid(text, spans, i + 1, spans[i].end);
    }
  }

  /** One more atom covers the text a little further. */
  lemma AtomsGrow(atoms: seq<Atom>, kind: Kind, text: string, pos: nat, end: nat)
    requires pos <= end <= |text| && Concat(Texts(atoms)) == text[..pos]
    ensures Concat(Texts(atoms + [Atom(kind, text[pos..end])])) == text[..end]
  {
    var a := Atom(kind, text[pos..end]);
    assert Texts(atoms + [a]) == Texts(atoms) + [a.text];
    ConcatOne(Texts(atoms), a.text);
    assert text[..pos] + text[pos..end] == text[..end];
  }

  /** No atom is empty. */
  ghost predicate Solid(atoms: seq<Atom>) {
    forall i | 0 <= i < |atoms| :: atoms[i].text != ""
  }

  function ProseOf(text: string, from: nat, to: nat): seq<Atom>
    requires to <= |text|
  {
    if from < to then [Atom(Prose, text[from..to])] else []
  }

  /** The tags from the `i`-th on and the prose around them, from `pos` on. */
  function AtomsFrom(text: string, spans: seq<Span>, i: nat, pos: nat): seq<Atom>
    requires i <= |spans| && SpansOf(text, spans)
    decreases |spans| - i
  {
    if i == |spans| then ProseOf(text, pos, |text|)
    else
      var s := spans[i];
      ProseOf(text, pos, s.start) + ([Atom(s.kind, text[s.start..s.end])] + AtomsFrom(text, spans, i + 1, s.end))
  }

  function AtomsOf(text: string, spans: seq<Span>): seq<Atom>
    requires SpansOf(text, spans)
  {
    AtomsFrom(text, spans, 0, 0)
  }

  /** The atoms that are tags. */
  function Tags(atoms: seq<Atom>): seq<Atom> {
    if atoms == [] then [] else (if atoms[0].kind.Prose? then [] else [atoms[0]]) + Tags(atoms[1..])
  }

  lemma {:induction false} TagsConcat(a: seq<Atom>, b: seq<Atom>)
    ensures Tags(a + b) == Tags(a) + Tags(b)
  {
    if a == [] {
      assert a + b == b;
    } else {
      assert (a + b)[1..] == a[1..] + b;
      TagsConcat(a[1..], b);
    }
  }

  /** The scanner's tags from the `i`-th on. */
  function SpanAtoms(text: string, spans: seq<Span>, i: nat): (atoms: seq<Atom>)
    requires i <= |spans| && SpansOf(text, spans)
    ensures |atoms| == |spans| - i
    decreases |spans| - i
  {
    if i == |spans| then [] else [Atom(spans[i].kind, text[spans[i].start..spans[i].end])] + SpanAtoms(text, spans, i + 1)
  }

  lemma {:induction false} SpanAtomAt(text: string, spans: seq<Span>, i: nat, j: nat)
    requires i <= j < |spans| && SpansOf(text, spans)
    ensures SpanAtoms(text, spans, i)[j - i] == Atom(spans[j].kind, text[spans[j].start..spans[j].end])
    decreases j - i
  {
    if i < j {
      SpanAtomAt(text, spans, i + 1, j);
    }
  }

  lemma {:induction false} TagsFrom(text: string, spans: seq<Span>, i: nat, pos: nat)
    requires i <= |spans| && SpansOf(text, spans) && forall j | 0 <= j < |spans| :: !spans[j].kind.Prose?
    ensures Tags(AtomsFrom(text, spans, i, pos)) == SpanAtoms(text, spans, i)
    decreases |spans| - i
  {
    if i == |spans| {
      NoTagsInProse(text, pos, |text|);
    } else {
      var s := spans[i];
      var tag, rest := [Atom(s.kind, text[s.start..s.end])], AtomsFrom(text, spans, i + 1, s.end);
      TagsFrom(text, spans, i + 1, s.end);
      NoTagsInProse(text, pos, s.start);
      assert tag[1..] == [] && Tags(tag) == tag;
      TagsConcat(ProseOf(text, pos, s.start), tag + rest);
      TagsConcat(tag, rest);
    }
  }

  lemma NoTagsInProse(text: string, from: nat, to: nat)
    requires to <= |text|
    ensures Tags(ProseOf(text, from, to)) == []
  {
  }

  /** The tags among the atoms are what the scanner found, each with its kind, in their order. */
  lemma TagsAreSpans(text: string, spans: seq<Span>)
    requires SpansOf(text, spans) && forall j | 0 <= j < |spans| :: !spans[j].kind.Prose?
    ensures var tags := Tags(AtomsOf(text, spans));
            |tags| == |spans| && forall j | 0 <= j < |spans| :: tags[j] == Atom(spans[j].kind, text[spans[j].start..spans[j].end])
  {
    TagsFrom(text, spans, 0, 0);
    forall j | 0 <= j < |spans|
      ensures Tags(AtomsOf(text, spans))[j] == Atom(spans[j].kind, text[spans[j].start..spans[j].end])
    {
      SpanAtomAt(text, spans, 0, j);
    }
  }

  /** `_atomize`: the tags and the prose between them, in order, and nothing lost. */
  method Atomize(text: string, spans: seq<Span>) returns (atoms: seq<Atom>)
    requires SpansOf(text, spans)
    ensures atoms == AtomsOf(text, spans) && Concat(Texts(atoms)) == text
  {
    atoms := [];
    var pos := 0;
    assert text[..0] == "";
    for i := 0 to |spans|
      invariant 0 <= pos <= |text| && (i < |spans| ==> pos <= spans[i].start)
      invariant Concat(Texts(atoms)) == text[..pos]
      invariant atoms + AtomsFrom(text, spans, i, pos) == AtomsOf(text, spans)
    {
      var s := spans[i];
      ghost var before, tag, rest := atoms, [Atom(s.kind, text[s.start..s.end])], AtomsFrom(text, spans, i + 1, s.end);
      if s.start > pos {
        AtomsGrow(atoms, Prose, text, pos, s.start);
        atoms := atoms + [Atom(Prose, text[pos..s.start])];
      }
      assert atoms == before + ProseOf(text, pos, s.start);
      AtomsGrow(atoms, s.kind, text, s.start, s.end);
      atoms := atoms + [Atom(s.kind, text[s.start..s.end])];
      ThreeParts(before, ProseOf(text, pos, s.start), tag, rest);
      pos := s.end;
    }
    if pos < |text| {
      AtomsGrow(atoms, Prose, text, pos, |text|);
      atoms := atoms + [Atom(Prose, text[pos..])];
    }
    assert text[..|text|] == text && text[pos..|text|] == text[pos..];
  }

  lemma ThreeParts(a: seq<Atom>, b: seq<Atom>, c: seq<Atom>, d: seq<Atom>)
    ensures a + (b + (c + d)) == a + b + c + d
  {
  }

  /** What one atom makes of the text gathered so far, and whether the walk ends there. */
  function Step(atom: Atom, acc: string, budget: int, seps: seq<string>, count: Count, lib: Library, lead: bool): (string, bool) {
    var whole := Attach(lead, atom.text, acc);
    if atom.text == "" then (acc, false)
    else if atom.kind.Prose? then
      var addition := Gather(atom.text, acc, budget, seps, count, lead);
      if addition.None? then (acc, true)
      else (Attach(lead, addition.value, acc), Tokens(count, Attach(lead, addition.value, acc)) >= budget)
    else if Fits(count, whole, budget) then (whole, false)
    else (if atom.kind.TableTag? then WithTrimmed(atom.text, acc, budget, count, lib, lead) else acc, true)
  }

  /** A table too big for the budget contributes its nearest rows. */
  function WithTrimmed(tag: string, acc: string, budget: int, count: Count, lib: Library, lead: bool): string {
    var remaining := budget - Tokens(count, acc);
    if remaining <= 0 then acc
    else
      var trimmed := TrimmedTable(tag, lib, remaining, lead, count);
      if trimmed.Some? then Attach(lead, trimmed.value, acc) else acc
  }

  /** The walk over the atoms, from the target outwards. */
  function Walk(atoms: seq<Atom>, j: nat, acc: string, budget: int, seps: seq<string>, count: Count, lib: Library, lead: bool): string
    requires j <= |atoms|
    decreases |atoms| - j
  {
    if j == |atoms| then acc
    else
      var step := Step(Away(atoms, j, lead), acc, budget, seps, count, lib, lead);
      if step.1 then step.0 else Walk(atoms, j + 1, step.0, budget, seps, count, lib, lead)
  }

  method AddProse(text: string, acc: string, budget: int, seps: seq<string>, count: Count, lead: bool) returns (more: string, last: bool)
    ensures var addition := Gather(text, acc, budget, seps, count, lead);
            && (addition.None? ==> more == acc && last)
            && (addition.Some? ==> more == Attach(lead, addition.value, acc) && (last <==> Tokens(count, more) >= budget))
  {
    var addition := AccumulateText(text, acc, budget, seps, count, lead);
    if addition.None? {
      return acc, true;
    }
    more := Attach(lead, addition.value, acc);
    last := Tokens(count, more) >= budget;
  }

  method AddTable(tag: string, acc: string, budget: int, count: Count, lib: Library, lead: bool) returns (more: string)
    ensures more == WithTrimmed(tag, acc, budget, count, lib, lead)
  {
    more := acc;
    var remaining := budget - Tokens(count, acc);
    if remaining > 0 {
      var trimmed := RowTrim(tag, lib, remaining, lead, count);
      if trimmed.Some? {
        more := Attach(lead, trimmed.value, acc);
      }
    }
  }

  method AddAtom(atom: Atom, acc: string, budget: int, seps: seq<string>, count: Count, lib: Library, lead: bool)
    returns (more: string, last: bool)
    ensures (more, last) == Step(atom, acc, budget, seps, count, lib, lead)
  {
    if atom.text == "" {
      return acc, false;
    }
    if atom.kind.Prose? {
      more, last := AddProse(atom.text, acc, budget, seps, count, lead);
      return;
    }
    more, last := Attach(lead, atom.text, acc), false;
    if !Fits(count, more, budget) {
      more, last := acc, true;
      if atom.kind.TableTag? {
        more := AddTable(atom.text, acc, budget, count, lib, lead);
      }
    }
  }

  /** The loop of `_build_leading` and `_build_trailing`. */
  method WalkAtoms(atoms: seq<Atom>, budget: int, seps: seq<string>, count: Count, lib: Library, lead: bool) returns (acc: string)
    ensures acc == Walk(atoms, 0, "", budget, seps, count, lib, lead)
  {
    acc := "";
    for j := 0 to |atoms|
      invariant Walk(atoms, j, acc, budget, seps, count, lib, lead) == Walk(atoms, 0, "", budget, seps, count, lib, lead)
    {
      var last;
      acc, last := AddAtom(Away(atoms, j, lead), acc, budget, seps, count, lib, lead);
      if last {
        return;
      }
    }
  }

  lemma StepFits(atom: Atom, acc: string, budget: int, seps: seq<string>, count: Count, lib: Library, lead: bool)
    requires Subadditive(count) && Fits(count, acc, budget)
    ensures Fits(count, Step(atom, acc, budget, seps, count, lib, lead).0, budget)
  {
    if atom.text != "" && atom.kind.Prose? {
      GatherFits(atom.text, acc, budget, seps, count, lead);
    } else if atom.kind.TableTag? {
      TrimmedFits(atom.text, acc, budget, count, lib, lead);
    }
  }

  /** Under a subadditive tokenizer the walk never leaves the budget, tags and trimmed tables included. */
  lemma {:induction false} WalkFits(atoms: seq<Atom>, j: nat, acc: string, budget: int, seps: seq<string>, count: Count, lib: Library, lead: bool)
    requires j <= |atoms| && Subadditive(count) && Fits(count, acc, budget)
    ensures Fits(count, Walk(atoms, j, acc, budget, seps, count, lib, lead), budget)
    decreases |atoms| - j
  {
    if j < |atoms| {
      var step := Step(Away(atoms, j, lead), acc, budget, seps, count, lib, lead);
      StepFits(Away(atoms, j, lead), acc, budget, seps, count, lib, lead);
      if !step.1 {
        WalkFits(atoms, j + 1, step.0, budget, seps, count, lib, lead);
      }
    }
  }

  lemma TrimmedFits(tag: string, acc: string, budget: int, count: Count, lib: Library, lead: bool)
    requires Subadditive(count) && Fits(count, acc, budget)
    ensures Fits(count, WithTrimmed(tag, acc, budget, count, lib, lead), budget)
  {
    var remaining := budget - Tokens(count, acc);
    var trimmed := TrimmedTable(tag, lib, remaining, lead, count);
    if remaining > 0 && trimmed.Some? {
      AttachFits(count, lead, trimmed.value, acc, budget);
    }
  }

  /** The string functions the builders call: cleaning, dropping tables, and scanning for tags. */
  datatype Cleaner = Cleaner(strip: string -> string, dropTables: string -> string, scan: string -> seq<Span>)

  /** The candidate text after the tables are dropped, if they must be, and internal markup is stripped. */
  function Cleaned(source: string, tables: bool, cleaner: Cleaner): string {
    var kept := if tables then cleaner.dropTables(source) else source;
    if kept == "" then "" else cleaner.strip(kept)
  }

  ghost predicate Scans(cleaner: Cleaner) {
    forall text :: SpansOf(text, cleaner.scan(text))
  }

  // ---------------------------------------------------------------- contiguity

  /** Where a character of a half comes from: a place in the text, counted from the target, or a trimmed table. */
  datatype Origin = Place(distance: nat) | Rows

  function Places(n: nat, from: nat): (places: seq<Origin>)
    ensures |places| == n && forall i | 0 <= i < n :: places[i] == Place(from + i)
  {
    if n == 0 then [] else [Place(from)] + Places(n - 1, from + 1)
  }

  /** These are the places from `from` on, without a gap. */
  predicate InPlace(origins: seq<Origin>, from: nat) {
    origins == [] || (origins[0] == Place(from) && InPlace(origins[1..], from + 1))
  }

  function RowMarks(n: nat): (marks: seq<Origin>)
    ensures |marks| == n && forall i | 0 <= i < n :: marks[i] == Rows
  {
    if n == 0 then [] else [Rows] + RowMarks(n - 1)
  }

  lemma {:induction false} PlacesAreInPlace(n: nat, from: nat)
    ensures InPlace(Places(n, from), from)
  {
    if n > 0 {
      assert Places(n, from)[1..] == Places(n - 1, from + 1);
      PlacesAreInPlace(n - 1, from + 1);
    }
  }

  lemma {:induction false} InPlaceAt(origins: seq<Origin>, from: nat, i: nat)
    requires InPlace(origins, from) && i < |origins|
    ensures origins[i] == Place(from + i)
  {
    if i > 0 {
      InPlaceAt(origins[1..], from + 1, i - 1);
    }
  }

  lemma {:induction false} PlacesJoin(first: seq<Origin>, rest: seq<Origin>, from: nat)
    requires InPlace(first, from)
    ensures InPlace(first + rest, from) <==> InPlace(rest, from + |first|)
    decreases |first|
  {
    if first == [] {
      assert first + rest == rest;
    } else {
      assert (first + rest)[1..] == first[1..] + rest;
      PlacesJoin(first[1..], rest, from + 1);
    }
  }

  /** The tag cannot be taken whole. */
  predicate Overflows(atom: Atom, acc: string, budget: int, count: Count, lead: bool) {
    !atom.kind.Prose? && atom.text != "" && !Fits(count, Attach(lead, atom.text, acc), budget)
  }

  /** A step adds a part on the far side: of prose its nearest characters, of a tag all of it or some rows. */
  lemma StepAdds(atom: Atom, acc: string, budget: int, seps: seq<string>, count: Count, lib: Library, lead: bool) returns (part: string)
    ensures var step := Step(atom, acc, budget, seps, count, lib, lead);
            && step.0 == Attach(lead, part, acc)
            && (!Overflows(atom, acc, budget, count, lead) ==> Touching(part, atom.text, lead))
  {
    part := if !Overflows(atom, acc, budget, count, lead) then atom.text else "";
    EndsTouch("", atom.text);
    EndsTouch(atom.text, "");
    if atom.text == "" {
      return "";
    }
    if atom.kind.Prose? {
      var addition := Gather(atom.text, acc, budget, seps, count, lead);
      GatherTouches(atom.text, acc, budget, seps, count, lead);
      return if addition.Some? then addition.value else "";
    }
    if atom.kind.TableTag? && Overflows(atom, acc, budget, count, lead) && budget - Tokens(count, acc) > 0 {
      var trimmed := TrimmedTable(atom.text, lib, budget - Tokens(count, acc), lead, count);
      return if trimmed.Some? then trimmed.value else "";
    }
  }

  function Growth(acc: string, more: string): nat {
    if |more| < |acc| then 0 else |more| - |acc|
  }

  /** Atom by atom: how long it is, how much the walk keeps of it, and whether that is rows of a trimmed table. */
  datatype Trail = End | Next(length: nat, kept: nat, rows: bool, rest: Trail)

  /** What the walk keeps from the `j`-th atom on. */
  function TrailOf(atoms: seq<Atom>, j: nat, acc: string, budget: int, seps: seq<string>, count: Count, lib: Library, lead: bool): Trail
    requires j <= |atoms|
    decreases |atoms| - j
  {
    if j == |atoms| then End
    else
      var atom := Away(atoms, j, lead);
      var step := Step(atom, acc, budget, seps, count, lib, lead);
      Next(|atom.text|, Growth(acc, step.0), Overflows(atom, acc, budget, count, lead),
           if step.1 then End else TrailOf(atoms, j + 1, step.0, budget, seps, count, lib, lead))
  }

  /** The origins, nearest first, along a trail that begins `reach` away from the target. */
  function Origins(trail: Trail, reach: nat): seq<Origin> {
    match trail
    case End => []
    case Next(length, kept, rows, rest) => (if rows then RowMarks(kept) else Places(kept, reach)) + Origins(rest, reach + length)
  }

  /** Behind an atom that is not kept whole nothing is kept, and no rows are. */
  predicate Tight(trail: Trail) {
    match trail
    case End => true
    case Next(length, kept, rows, rest) => if kept == length && !rows then Tight(rest) else (rows ==> kept == 0) && Bare(rest)
  }

  predicate Bare(trail: Trail) {
    trail.Next? ==> trail.kept == 0 && Bare(trail.rest)
  }

  /** No atom is empty, and no more is kept of one than there is. */
  predicate Proper(trail: Trail) {
    trail.Next? ==> trail.length > 0 && (!trail.rows ==> trail.kept <= trail.length) && Proper(trail.rest)
  }

  /** Whatever is kept farther out is not the place that comes next here. */
  lemma {:induction false} FartherOut(trail: Trail, reach: nat, from: nat)
    requires from < reach
    ensures InPlace(Origins(trail, reach), from) <==> Bare(trail)
  {
    if trail.Next? {
      if trail.kept == 0 {
        FartherOut(trail.rest, reach + trail.length, from);
        assert Origins(trail, reach) == Origins(trail.rest, reach + trail.length);
      } else {
        assert Origins(trail, reach)[0] != Place(from);
      }
    }
  }

  lemma {:induction false} TightIffInPlace(trail: Trail, reach: nat)
    requires Proper(trail)
    ensures InPlace(Origins(trail, reach), reach) <==> Tight(trail)
  {
    if trail.Next? {
      var behind := Origins(trail.rest, reach + trail.length);
      if !trail.rows {
        PlacesAreInPlace(trail.kept, reach);
        PlacesJoin(Places(trail.kept, reach), behind, reach);
        if trail.kept == trail.length {
          TightIffInPlace(trail.rest, reach + trail.length);
        } else {
          FartherOut(trail.rest, reach + trail.length, reach + trail.kept);
        }
      } else if trail.kept == 0 {
        assert Origins(trail, reach) == behind;
        FartherOut(trail.rest, reach + trail.length, reach);
      } else {
        assert Origins(trail, reach)[0] == Rows;
      }
    }
  }

  /** The walk adds nothing at this atom. */
  predicate Silent(atom: Atom, acc: string, budget: int, seps: seq<string>, count: Count, lib: Library, lead: bool) {
    if atom.kind.Prose? then Gather(atom.text, acc, budget, seps, count, lead).None?
    else
      && !Fits(count, Attach(lead, atom.text, acc), budget)
      && !(atom.kind.TableTag? && Tokens(count, acc) < budget
           && TrimmedTable(atom.text, lib, budget - Tokens(count, acc), lead, count).Some?)
  }

  /** The walk takes this atom whole and goes on. */
  predicate Passed(atom: Atom, acc: string, budget: int, seps: seq<string>, count: Count, lead: bool) {
    var whole := Attach(lead, atom.text, acc);
    if atom.kind.Prose? then Gather(atom.text, acc, budget, seps, count, lead) == Some(atom.text) && Tokens(count, whole) < budget
    else Fits(count, whole, budget)
  }

  /** The first atom from the `j`-th on that is not passed when everything nearer is taken. */
  function FirstHeld(atoms: seq<Atom>, j: nat, budget: int, seps: seq<string>, count: Count, lead: bool): (k: nat)
    requires j <= |atoms|
    ensures j <= k <= |atoms|
    decreases |atoms| - j
  {
    if j == |atoms| || !Passed(Away(atoms, j, lead), Joined(Texts(atoms), j, lead), budget, seps, count, lead) then j
    else FirstHeld(atoms, j + 1, budget, seps, count, lead)
  }

  /**
   * The first atom that is not passed adds nothing; or it is prose, and what is gathered of it uses up the
   * budget, or nothing can be added behind it at the next atom.
   */
  predicate Closes(atoms: seq<Atom>, k: nat, near: string, budget: int, seps: seq<string>, count: Count, lib: Library, lead: bool)
    requires k < |atoms|
  {
    var atom := Away(atoms, k, lead);
    var addition := Gather(atom.text, near, budget, seps, count, lead);
    || Silent(atom, near, budget, seps, count, lib, lead)
    || (atom.kind.Prose? && addition.Some? &&
        var more := Attach(lead, addition.value, near);
        || Tokens(count, more) >= budget
        || k + 1 == |atoms|
        || Silent(Away(atoms, k + 1, lead), more, budget, seps, count, lib, lead))
  }

  predicate Contiguous(atoms: seq<Atom>, j: nat, budget: int, seps: seq<string>, count: Count, lib: Library, lead: bool)
    requires j <= |atoms|
  {
    var k := FirstHeld(atoms, j, budget, seps, count, lead);
    k == |atoms| || Closes(atoms, k, Joined(Texts(atoms), k, lead), budget, seps, count, lib, lead)
  }

  /** A silent step adds nothing and is the last; any other adds something. */
  lemma SilentStep(atom: Atom, acc: string, budget: int, seps: seq<string>, count: Count, lib: Library, lead: bool)
    requires atom.text != ""
    ensures Silent(atom, acc, budget, seps, count, lib, lead) ==> Step(atom, acc, budget, seps, count, lib, lead) == (acc, true)
    ensures !Silent(atom, acc, budget, seps, count, lib, lead) ==> |Step(atom, acc, budget, seps, count, lib, lead).0| > |acc|
  {
    if atom.kind.Prose? {
      SilentProse(atom, acc, budget, seps, count, lib, lead);
    } else if atom.kind.TableTag? {
      RowsGrow(atom.text, acc, budget, count, lib, lead);
    }
  }

  lemma SilentProse(atom: Atom, acc: string, budget: int, seps: seq<string>, count: Count, lib: Library, lead: bool)
    requires atom.text != "" && atom.kind.Prose?
    ensures var step := Step(atom, acc, budget, seps, count, lib, lead);
            if Gather(atom.text, acc, budget, seps, count, lead).None? then step == (acc, true) else |step.0| > |acc|
  {
    GatherTouches(atom.text, acc, budget, seps, count, lead);
  }

  lemma RowsGrow(tag: string, acc: string, budget: int, count: Count, lib: Library, lead: bool)
    ensures var more := WithTrimmed(tag, acc, budget, count, lib, lead);
            if Tokens(count, acc) < budget && TrimmedTable(tag, lib, budget - Tokens(count, acc), lead, count).Some?
            then |more| > |acc| else more == acc
  {
    if Tokens(count, acc) < budget {
      TrimmedIsNotEmpty(tag, lib, budget - Tokens(count, acc), lead, count);
      var trimmed := TrimmedTable(tag, lib, budget - Tokens(count, acc), lead, count);
      assert trimmed.Some? ==> |Attach(lead, trimmed.value, acc)| == |trimmed.value| + |acc|;
    }
  }

  lemma TrimmedIsNotEmpty(tag: string, lib: Library, budget: int, lead: bool, count: Count)
    ensures var r := TrimmedTable(tag, lib, budget, lead, count); r.Some? ==> r.value != ""
  {
  }

  lemma GatheredLess(text: string, acc: string, budget: int, seps: seq<string>, count: Count, lead: bool)
    ensures var r := Gather(text, acc, budget, seps, count, lead); r.Some? && r.value != text ==> |r.value| < |text|
  {
    GatherTouches(text, acc, budget, seps, count, lead);
    assert Snippet(text, |text|, lead) == text;
  }

  lemma ProseStep(atom: Atom, acc: string, part: string, budget: int, seps: seq<string>, count: Count, lib: Library, lead: bool)
    requires atom.kind.Prose? && atom.text != "" && Gather(atom.text, acc, budget, seps, count, lead) == Some(part)
    ensures var more := Attach(lead, part, acc);
            Step(atom, acc, budget, seps, count, lib, lead) == (more, Tokens(count, more) >= budget) && Growth(acc, more) == |part|
  {
  }

  lemma WholeTagStep(atom: Atom, acc: string, budget: int, seps: seq<string>, count: Count, lib: Library, lead: bool)
    requires !atom.kind.Prose? && atom.text != "" && Fits(count, Attach(lead, atom.text, acc), budget)
    ensures var more := Attach(lead, atom.text, acc);
            Step(atom, acc, budget, seps, count, lib, lead) == (more, false) && Growth(acc, more) == |atom.text|
  {
  }

  lemma BareIffSilent(atoms: seq<Atom>, j: nat, acc: string, budget: int, seps: seq<string>, count: Count, lib: Library, lead: bool)
    requires j < |atoms| && Solid(atoms)
    ensures Bare(TrailOf(atoms, j, acc, budget, seps, count, lib, lead))
            <==> Silent(Away(atoms, j, lead), acc, budget, seps, count, lib, lead)
  {
    SilentStep(Away(atoms, j, lead), acc, budget, seps, count, lib, lead);
  }

  /** At the first atom that is not passed. */
  lemma HeldCloses(atoms: seq<Atom>, j: nat, near: string, budget: int, seps: seq<string>, count: Count, lib: Library, lead: bool)
    requires j < |atoms| && Solid(atoms) && !Passed(Away(atoms, j, lead), near, budget, seps, count, lead)
    ensures Tight(TrailOf(atoms, j, near, budget, seps, count, lib, lead)) <==> Closes(atoms, j, near, budget, seps, count, lib, lead)
  {
    var atom := Away(atoms, j, lead);
    var addition := Gather(atom.text, near, budget, seps, count, lead);
    SilentStep(atom, near, budget, seps, count, lib, lead);
    if atom.kind.Prose? && addition.Some? {
      ProseStep(atom, near, addition.value, budget, seps, count, lib, lead);
      GatheredLess(atom.text, near, budget, seps, count, lead);
      if j + 1 < |atoms| {
        BareIffSilent(atoms, j + 1, Attach(lead, addition.value, near), budget, seps, count, lib, lead);
      }
    }
  }

  lemma ContiguousAt(atoms: seq<Atom>, j: nat, near: string, budget: int, seps: seq<string>, count: Count, lib: Library, lead: bool)
    requires j < |atoms| && near == Joined(Texts(atoms), j, lead)
    ensures Contiguous(atoms, j, budget, seps, count, lib, lead)
            <==> if Passed(Away(atoms, j, lead), near, budget, seps, count, lead)
                 then Contiguous(atoms, j + 1, budget, seps, count, lib, lead)
                 else Closes(atoms, j, near, budget, seps, count, lib, lead)
  {
  }

  lemma NextJoined(atoms: seq<Atom>, j: nat, near: string, lead: bool)
    requires j < |atoms| && near == Joined(Texts(atoms), j, lead)
    ensures Attach(lead, Away(atoms, j, lead).text, near) == Joined(Texts(atoms), j + 1, lead)
  {
    JoinedNext(Texts(atoms), j, lead);
    assert Away(Texts(atoms), j, lead) == Away(atoms, j, lead).text;
  }

  /** From the `j`-th atom on, when everything nearer is taken. */
  lemma {:induction false} TightFrom(atoms: seq<Atom>, j: nat, near: string, budget: int, seps: seq<string>, count: Count, lib: Library, lead: bool)
    requires j <= |atoms| && Solid(atoms) && near == Joined(Texts(atoms), j, lead)
    ensures Tight(TrailOf(atoms, j, near, budget, seps, count, lib, lead)) <==> Contiguous(atoms, j, budget, seps, count, lib, lead)
    decreases |atoms| - j
  {
    if j < |atoms| {
      var atom := Away(atoms, j, lead);
      ContiguousAt(atoms, j, near, budget, seps, count, lib, lead);
      if Passed(atom, near, budget, seps, count, lead) {
        if atom.kind.Prose? {
          ProseStep(atom, near, atom.text, budget, seps, count, lib, lead);
        } else {
          WholeTagStep(atom, near, budget, seps, count, lib, lead);
        }
        NextJoined(atoms, j, near, lead);
        TightFrom(atoms, j + 1, Attach(lead, atom.text, near), budget, seps, count, lib, lead);
      } else {
        HeldCloses(atoms, j, near, budget, seps, count, lib, lead);
      }
    }
  }

  lemma {:induction false} TrailsAreProper(atoms: seq<Atom>, j: nat, acc: string, budget: int, seps: seq<string>, count: Count, lib: Library, lead: bool)
    requires j <= |atoms| && Solid(atoms)
    ensures Proper(TrailOf(atoms, j, acc, budget, seps, count, lib, lead))
    decreases |atoms| - j
  {
    if j < |atoms| {
      var atom := Away(atoms, j, lead);
      var step := Step(atom, acc, budget, seps, count, lib, lead);
      var part := StepAdds(atom, acc, budget, seps, count, lib, lead);
      assert Growth(acc, Attach(lead, part, acc)) == |part|;
      if !step.1 {
        TrailsAreProper(atoms, j + 1, step.0, budget, seps, count, lib, lead);
      }
    }
  }

  /** A half is, place by place, the text nearest to the target, if and only if its walk is contiguous. */
  lemma NearestIffContiguous(atoms: seq<Atom>, budget: int, seps: seq<string>, count: Count, lib: Library, lead: bool)
    requires Solid(atoms)
    ensures InPlace(Origins(TrailOf(atoms, 0, "", budget, seps, count, lib, lead), 0), 0)
            <==> Contiguous(atoms, 0, budget, seps, count, lib, lead)
  {
    assert Nearest(Texts(atoms), 0, lead) == [];
    TightFrom(atoms, 0, "", budget, seps, count, lib, lead);
    TrailsAreProper(atoms, 0, "", budget, seps, count, lib, lead);
    TightIffInPlace(TrailOf(atoms, 0, "", budget, seps, count, lib, lead), 0);
  }

  lemma AwayAttached(far: string, near: string, lead: bool)
    ensures forall i | 0 <= i < |near| :: Away(Attach(lead, far, near), i, lead) == Away(near, i, lead)
    ensures forall i | |near| <= i < |near| + |far| :: Away(Attach(lead, far, near), i, lead) == Away(far, i - |near|, lead)
  {
  }

  lemma TouchingPlaces(part: string, text: string, lead: bool)
    requires |part| <= |text|
    ensures Touching(part, text, lead) <==> forall i | 0 <= i < |part| :: Away(part, i, lead) == Away(text, i, lead)
  {
    var near := Snippet(text, |part|, lead);
    assert forall i | 0 <= i < |part| :: Away(near, i, lead) == Away(text, i, lead);
    if forall i | 0 <= i < |part| :: Away(part, i, lead) == Away(text, i, lead) {
      forall k | 0 <= k < |part|
        ensures part[k] == near[k]
      {
        assert part[k] == Away(part, if lead then |part| - 1 - k else k, lead);
      }
    }
  }

  /** The `i`-th character of a half, counted from the target, is the one at the place it comes from. */
  ghost predicate ComesFrom(half: string, i: int, origin: Origin, text: string, lead: bool) {
    0 <= i < |half| && (origin.Place? ==> origin.distance < |text| && Away(half, i, lead) == Away(text, origin.distance, lead))
  }

  /** What `half` has on the far side of `acc` comes from these origins. */
  ghost predicate Traced(acc: string, half: string, origins: seq<Origin>, text: string, lead: bool) {
    && |half| == |acc| + |origins| && Touching(acc, half, lead)
    && forall i | 0 <= i < |origins| :: ComesFrom(half, |acc| + i, origins[i], text, lead)
  }

  lemma TracedNothing(acc: string, text: string, lead: bool)
    ensures Traced(acc, acc, [], text, lead)
  {
    assert Snippet(acc, |acc|, lead) == acc;
  }

  lemma TracedOn(acc: string, more: string, half: string, a: seq<Origin>, b: seq<Origin>, text: string, lead: bool)
    requires Traced(acc, more, a, text, lead) && Traced(more, half, b, text, lead)
    ensures Traced(acc, half, a + b, text, lead)
  {
    TouchingTransitive(acc, more, half, lead);
    TouchingPlaces(more, half, lead);
    forall i | 0 <= i < |a + b|
      ensures ComesFrom(half, |acc| + i, (a + b)[i], text, lead)
    {
      assert if i < |a| then ComesFrom(more, |acc| + i, a[i], text, lead) else ComesFrom(half, |more| + (i - |a|), b[i - |a|], text, lead);
    }
  }

  lemma PartPlace(part: string, acc: string, atom: string, near: string, text: string, lead: bool, i: nat)
    requires Touching(part, atom, lead) && Touching(Attach(lead, atom, near), text, lead) && i < |part|
    ensures |near| + i < |text| && Away(Attach(lead, part, acc), |acc| + i, lead) == Away(text, |near| + i, lead)
  {
    AwayAttached(part, acc, lead);
    AwayAttached(atom, near, lead);
    TouchingPlaces(part, atom, lead);
    TouchingPlaces(Attach(lead, atom, near), text, lead);
  }

  lemma TracedPart(part: string, acc: string, atom: string, near: string, text: string, lead: bool)
    requires Touching(part, atom, lead) && Touching(Attach(lead, atom, near), text, lead)
    ensures Traced(acc, Attach(lead, part, acc), Places(|part|, |near|), text, lead)
  {
    TracedAlong(part, acc, atom, near, Places(|part|, |near|), text, lead);
  }

  lemma TracedAlong(part: string, acc: string, atom: string, near: string, places: seq<Origin>, text: string, lead: bool)
    requires Touching(part, atom, lead) && Touching(Attach(lead, atom, near), text, lead)
    requires |places| == |part| && forall i | 0 <= i < |part| :: places[i] == Place(|near| + i)
    ensures Traced(acc, Attach(lead, part, acc), places, text, lead)
  {
    AccTouches(part, acc, lead);
    forall i | 0 <= i < |places|
      ensures ComesFrom(Attach(lead, part, acc), |acc| + i, places[i], text, lead)
    {
      PartPlace(part, acc, atom, near, text, lead, i);
    }
  }

  lemma AccTouches(part: string, acc: string, lead: bool)
    ensures Touching(acc, Attach(lead, part, acc), lead) && |Attach(lead, part, acc)| == |acc| + |part|
  {
    EndsTouch(part, acc);
    EndsTouch(acc, part);
  }

  lemma TracedRows(part: string, acc: string, text: string, lead: bool)
    ensures Traced(acc, Attach(lead, part, acc), RowMarks(|part|), text, lead)
  {
    EndsTouch(part, acc);
    EndsTouch(acc, part);
  }

  /** One step, at an atom behind `near` in the text. */
  lemma StepTraced(atom: Atom, acc: string, near: string, text: string, budget: int, seps: seq<string>, count: Count, lib: Library, lead: bool)
    requires Touching(Attach(lead, atom.text, near), text, lead)
    ensures var more := Step(atom, acc, budget, seps, count, lib, lead).0;
            var kept := Growth(acc, more);
            Traced(acc, more, if Overflows(atom, acc, budget, count, lead) then RowMarks(kept) else Places(kept, |near|), text, lead)
  {
    var part := StepAdds(atom, acc, budget, seps, count, lib, lead);
    assert Growth(acc, Attach(lead, part, acc)) == |part|;
    if Overflows(atom, acc, budget, count, lead) {
      TracedRows(part, acc, text, lead);
    } else {
      TracedPart(part, acc, atom.text, near, text, lead);
    }
  }

  lemma TracedNext(acc: string, more: string, half: string, trail: Trail, reach: nat, text: string, lead: bool)
    requires trail.Next? && Traced(acc, more, if trail.rows then RowMarks(trail.kept) else Places(trail.kept, reach), text, lead)
    requires Traced(more, half, Origins(trail.rest, reach + trail.length), text, lead)
    ensures Traced(acc, half, Origins(trail, reach), text, lead)
  {
    TracedOn(acc, more, half, if trail.rows then RowMarks(trail.kept) else Places(trail.kept, reach),
             Origins(trail.rest, reach + trail.length), text, lead);
  }

  /** Every character of a half is that of its origin; and the walk only adds on the far side. */
  lemma {:induction false} OriginsAreTrue(atoms: seq<Atom>, j: nat, acc: string, near: string, budget: int, seps: seq<string>, count: Count, lib: Library, lead: bool)
    requires j <= |atoms| && near == Joined(Texts(atoms), j, lead)
    ensures Traced(acc, Walk(atoms, j, acc, budget, seps, count, lib, lead),
                   Origins(TrailOf(atoms, j, acc, budget, seps, count, lib, lead), |near|), Concat(Texts(atoms)), lead)
    decreases |atoms| - j
  {
    var text, half := Concat(Texts(atoms)), Walk(atoms, j, acc, budget, seps, count, lib, lead);
    if j == |atoms| {
      TracedNothing(acc, text, lead);
    } else {
      var atom := Away(atoms, j, lead);
      var step := Step(atom, acc, budget, seps, count, lib, lead);
      NextJoined(atoms, j, near, lead);
      JoinedTouches(Texts(atoms), j + 1, lead);
      StepTraced(atom, acc, near, text, budget, seps, count, lib, lead);
      if step.1 {
        TracedNothing(half, text, lead);
      } else {
        OriginsAreTrue(atoms, j + 1, step.0, Attach(lead, atom.text, near), budget, seps, count, lib, lead);
      }
      TracedNext(acc, step.0, half, TrailOf(atoms, j, acc, budget, seps, count, lib, lead), |near|, text, lead);
    }
  }

  /** A contiguous walk gathers a suffix of the text before the target, a prefix of the text behind it. */
  lemma ContiguousTouches(atoms: seq<Atom>, budget: int, seps: seq<string>, count: Count, lib: Library, lead: bool)
    requires Solid(atoms) && Contiguous(atoms, 0, budget, seps, count, lib, lead)
    ensures Touching(Walk(atoms, 0, "", budget, seps, count, lib, lead), Concat(Texts(atoms)), lead)
  {
    var half, text := Walk(atoms, 0, "", budget, seps, count, lib, lead), Concat(Texts(atoms));
    var origins := Origins(TrailOf(atoms, 0, "", budget, seps, count, lib, lead), 0);
    NearestIffContiguous(atoms, budget, seps, count, lib, lead);
    assert Nearest(Texts(atoms), 0, lead) == [];
    OriginsAreTrue(atoms, 0, "", "", budget, seps, count, lib, lead);
    forall i | 0 <= i < |half|
      ensures i < |text| && Away(half, i, lead) == Away(text, i, lead)
    {
      InPlaceAt(origins, 0, i);
      assert ComesFrom(half, 0 + i, origins[i], text, lead);
    }
    if half != "" {
      var last := |half| - 1;
      InPlaceAt(origins, 0, last);
      assert ComesFrom(half, 0 + last, origins[last], text, lead);
    }
    TouchingPlaces(half, text, lead);
  }

  /** The half as a function of its inputs. */
  function Half(source: string, tables: bool, budget: int, seps: seq<string>, count: Count, lib: Library, cleaner: Cleaner, lead: bool): string
    requires Scans(cleaner)
  {
    var text := Cleaned(source, tables, cleaner);
    if source == "" || budget <= 0 || text == "" then ""
    else Walk(AtomsOf(text, cleaner.scan(text)), 0, "", budget, seps, count, lib, lead)
  }

  /**
   * `_build_leading` and `_build_trailing`. Under a subadditive tokenizer the half stays within its budget;
   * where the walk is contiguous, as on text without tags, it is a suffix, or a prefix, of the cleaned source.
   */
  method BuildHalf(source: string, tables: bool, budget: int, seps: seq<string>, count: Count, lib: Library, cleaner: Cleaner, lead: bool)
    returns (half: string)
    requires Scans(cleaner)
    ensures half == Half(source, tables, budget, seps, count, lib, cleaner, lead)
    ensures budget <= 0 ==> half == ""
    ensures budget > 0 && Subadditive(count) ==> Fits(count, half, budget)
    ensures var text := Cleaned(source, tables, cleaner);
            Contiguous(AtomsOf(text, cleaner.scan(text)), 0, budget, seps, count, lib, lead) ==> Touching(half, text, lead)
    ensures cleaner.scan(Cleaned(source, tables, cleaner)) == [] ==> Touching(half, Cleaned(source, tables, cleaner), lead)
    ensures !tables && cleaner.scan(cleaner.strip(source)) == [] && source != "" ==> Touching(half, cleaner.strip(source), lead)
    ensures tables && cleaner.scan(cleaner.strip(cleaner.dropTables(source))) == [] && source != "" && cleaner.dropTables(source) != "" ==>
      Touching(half, cleaner.strip(cleaner.dropTables(source)), lead)
    ensures tables && cleaner.dropTables(source) == "" ==> half == ""
  {
    ghost var whole := Cleaned(source, tables, cleaner);
    EndsTouch("", whole);
    EndsTouch(whole, "");
    if source == "" || budget <= 0 {
      return "";
    }
    var text := source;
    if tables {
      text := cleaner.dropTables(text);
    }
    if text != "" {
      text := cleaner.strip(text);
    }
    if text == "" {
      return "";
    }
    assert SpansOf(text, cleaner.scan(text));
    var atoms := Atomize(text, cleaner.scan(text));
    half := WalkAtoms(atoms, budget, seps, count, lib, lead);
    HalfIsSound(text, cleaner.scan(text), budget, seps, count, lib, lead);
  }

  lemma HalfIsSound(text: string, spans: seq<Span>, budget: int, seps: seq<string>, count: Count, lib: Library, lead: bool)
    requires SpansOf(text, spans) && Concat(Texts(AtomsOf(text, spans))) == text && text != "" && budget > 0
    ensures var half := Walk(AtomsOf(text, spans), 0, "", budget, seps, count, lib, lead);
            && (Subadditive(count) ==> Fits(count, half, budget))
            && (spans == [] || Contiguous(AtomsOf(text, spans), 0, budget, seps, count, lib, lead) ==> Touching(half, text, lead))
  {
    var atoms := AtomsOf(text, spans);
    if Subadditive(count) {
      WalkFits(atoms, 0, "", budget, seps, count, lib, lead);
    }
    if spans == [] {
      assert text[0..|text|] == text;
      assert atoms == [Atom(Prose, text)];
    }
    AtomsAreSolid(text, spans, 0, 0);
    if Contiguous(atoms, 0, budget, seps, count, lib, lead) {
      ContiguousTouches(atoms, budget, seps, count, lib, lead);
    }
  }

  // ---------------------------------------------------------------- tags break contiguity

  /** A tokenizer that spends eleven tokens on a 'z' and one on every other character. */
  function Weigh(s: string): nat {
    if s == "" then 0 else (if s[0] == 'z' then 11 else 1) + Weigh(s[1..])
  }

  lemma {:induction false} WeighPlain(s: string, t: string)
    requires 'z' !in s
    ensures Weigh(s + t) == |s| + Weigh(t)
  {
    if s == "" {
      assert s + t == t;
    } else {
      assert (s + t)[1..] == s[1..] + t;
      WeighPlain(s[1..], t);
    }
  }

  const TAG := "<drawing/>"

  /** A scanner that finds the drawing in front of the two letters, in a source that needs no cleaning. */
  const PLAIN := Cleaner((t: string) => t, (t: string) => t, (t: string) => if t == TAG + "zz" then [Span(0, |TAG|, Drawing)] else [])

  lemma PlainScans()
    ensures Scans(PLAIN)
  {
  }

  lemma TaggedAtoms()
    ensures Scans(PLAIN) && AtomsOf(TAG + "zz", PLAIN.scan(TAG + "zz")) == [Atom(Drawing, TAG), Atom(Prose, "zz")]
  {
    PlainScans();
    var text := TAG + "zz";
    assert text[0..|TAG|] == TAG && text[|TAG|..|text|] == "zz";
    assert AtomsFrom(text, PLAIN.scan(text), 1, |TAG|) == [Atom(Prose, "zz")];
  }

  lemma LetterThenTag(lib: Library)
    ensures Step(Atom(Prose, "zz"), "", 21, [], Weigh, lib, true) == ("z", false)
    ensures Step(Atom(Drawing, TAG), "z", 21, [], Weigh, lib, true) == (TAG + "z", false)
  {
    CutLetters();
    assert "z" + "" == "z" && "z"[1..] == "" && Weigh("z") == 11;
    WeighPlain(TAG, "z");
  }

  /**
   * With tags the half need not touch the target: before the letters stands a drawing, and a budget of 21
   * keeps one letter, drops the other and still takes the drawing in front of it.
   */
  lemma TagsBreakContiguity(lib: Library)
    ensures Scans(PLAIN) && PLAIN.scan(TAG + "zz") == [Span(0, |TAG|, Drawing)]
    ensures var half := Half(TAG + "zz", false, 21, [], Weigh, lib, PLAIN, true);
            half == TAG + "z" && !Touching(half, TAG + "zz", true)
  {
    TaggedAtoms();
    LetterThenTag(lib);
    var tag, prose := Atom(Drawing, TAG), Atom(Prose, "zz");
    WalkOfTwo(tag, prose, 21, lib);
    LetterIsMissing();
  }

  lemma LetterIsMissing()
    ensures !Touching(TAG + "z", TAG + "zz", true)
  {
    assert (TAG + "zz")[1..][0] != (TAG + "z")[0];
  }

  lemma WalkOfTwo(far: Atom, near: Atom, budget: int, lib: Library)
    requires var first := Step(near, "", budget, [], Weigh, lib, true); !first.1 && !Step(far, first.0, budget, [], Weigh, lib, true).1
    ensures var first := Step(near, "", budget, [], Weigh, lib, true);
            Walk([far, near], 0, "", budget, [], Weigh, lib, true) == Step(far, first.0, budget, [], Weigh, lib, true).0
  {
    var atoms, first := [far, near], Step(near, "", budget, [], Weigh, lib, true);
    assert Walk(atoms, 0, "", budget, [], Weigh, lib, true) == Walk(atoms, 1, first.0, budget, [], Weigh, lib, true);
  }

  lemma CutLetters()
    ensures Gather("zz", "", 21, [], Weigh, true) == Some("z")
  {
    assert "zz"[1..] == "z" && "z"[1..] == "" && "zz"[2..] == "" && "zz"[0..] == "zz";
    assert Weigh("z") == 11 && Weigh("zz") == 22;
    var fits := SuffixFits("zz", 21, Weigh);
    assert !fits(0) && fits(1);
    assert FirstFit(fits, 0, 1) == 1;
    assert FirstFit(fits, 0, 2) == 1;
    assert CharTrimmed("zz", 21, Weigh, true) == "z";
    assert Segments("zz", [], 0) == (["zz"], 0);
    assert "zz" + "" == "zz";
  }
}
