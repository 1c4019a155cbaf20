/** The local workspace registry: which names are valid, how a fresh one is found, and what every operation keeps. */
module Workspaces {
  import opened Basics

  const MAX_ID := 128

  // ---------------------------------------------------------------- names

  predicate Lower(c: char) { 'a' <= c <= 'z' }

  predicate Alnum(c: char) { Lower(c) || Digit(c) || 'A' <= c <= 'Z' }

  predicate IdChar(c: char) { Alnum(c) || c == '.' || c == '_' || c == '-' }

  /** What the id pattern accepts. */
  predicate ValidId(s: string) {
    1 <= |s| <= MAX_ID && Alnum(s[0]) && forall i | 0 <= i < |s| :: IdChar(s[i])
  }

  /** White space, as the source language strips it. */
  predicate Blank(c: char) {
    var n := c as int;
    || 0x09 <= n <= 0x0D || 0x1C <= n <= 0x20 || n == 0x85 || n == 0xA0 || n == 0x1680
    || 0x2000 <= n <= 0x200A || n == 0x2028 || n == 0x2029 || n == 0x202F || n == 0x205F || n == 0x3000
  }

  function StripLeft(s: string, blank: char -> bool): (r: string)
    ensures |r| <= |s|
  {
    if s != "" && blank(s[0]) then StripLeft(s[1..], blank) else s
  }

  function StripRight(s: string, blank: char -> bool): (r: string)
    ensures r <= s && (r != "" ==> !blank(r[|r| - 1]))
    decreases |s|
  {
    if s != "" && blank(s[|s| - 1]) then StripRight(s[..|s| - 1], blank) else s
  }

  /** `_validate_id`. */
  function Validate(id: string): (key: Option<string>)
    ensures key.Some? ==> ValidId(key.value)
  {
    var value := StripRight(StripLeft(id, Blank), Blank);
    if ValidId(value) then Some(value) else None
  }

  predicate Dash(c: char) { c == '-' }

  /** Every run of other characters becomes one dash. */
  function Dashes(s: string): string {
    if s == "" then ""
    else if Lower(s[0]) || Digit(s[0]) then [s[0]] + Dashes(s[1..])
    else
      var rest := Dashes(s[1..]);
      if rest != "" && rest[0] == '-' then rest else "-" + rest
  }

  function LettersAndDigits(s: string): string {
    if s == "" then ""
    else (if LetterOrDigit(s[0]) then [s[0]] else "") + LettersAndDigits(s[1..])
  }

  predicate LetterOrDigit(ch: char) {
    Lower(ch) || Digit(ch)
  }

  lemma {:induction false} LettersStay(s: string)
    ensures LettersAndDigits(Dashes(s)) == LettersAndDigits(s)
  {
    if s != "" {
      var rest := Dashes(s[1..]);
      LettersStay(s[1..]);
      assert ([s[0]] + rest)[1..] == rest && ("-" + rest)[1..] == rest;
    }
  }

  lemma {:induction false} OneDashAtATime(s: string)
    ensures forall i | 0 <= i < |Dashes(s)| - 1 && Dashes(s)[i] == '-' :: LetterOrDigit(Dashes(s)[i + 1])
    ensures forall i | 0 <= i < |Dashes(s)| :: Dashes(s)[i] == '-' || LetterOrDigit(Dashes(s)[i])
  {
    if s != "" {
      OneDashAtATime(s[1..]);
    }
  }

  lemma {:induction false} NoDashAdded(s: string)
    requires forall ch | ch in s :: LetterOrDigit(ch)
    ensures Dashes(s) == s
  {
    if s != "" {
      assert s[0] in s;
      NoDashAdded(s[1..]);
    }
  }

  /** Letters and digits stay, in their order; between them there is at most one dash, and none where nothing else stood. */
  lemma DashesKeep(s: string)
    ensures LettersAndDigits(Dashes(s)) == LettersAndDigits(s)
    ensures forall i | 0 <= i < |Dashes(s)| - 1 && Dashes(s)[i] == '-' :: LetterOrDigit(Dashes(s)[i + 1])
    ensures (forall ch | ch in s :: LetterOrDigit(ch)) ==> Dashes(s) == s
  {
    LettersStay(s);
    OneDashAtATime(s);
    if forall ch | ch in s :: LetterOrDigit(ch) {
      NoDashAdded(s);
    }
  }

  /** Where something else stands between two words, or at an end, there is a dash. */
  lemma {:induction false} DashBetween(a: string, x: char, b: string)
    requires !LetterOrDigit(x) && (a == "" || LetterOrDigit(a[|a| - 1])) && (b == "" || LetterOrDigit(b[0]))
    ensures Dashes(a + [x] + b) == Dashes(a) + "-" + Dashes(b)
  {
    var s := a + [x] + b;
    if a == "" {
      assert s[1..] == b;
      assert b != "" ==> Dashes(b) == [b[0]] + Dashes(b[1..]);
    } else {
      assert s[1..] == a[1..] + [x] + b;
      assert a[1..] != "" ==> a[1..][|a[1..]| - 1] == a[|a| - 1];
      DashBetween(a[1..], x, b);
      assert a[1..] != "" && !LetterOrDigit(a[0]) ==> Dashes(a[1..]) != "" by {
        if a[1..] != "" {
          LastLetterStays(a[1..]);
        }
      }
      assert Dashes(s[1..]) == Dashes(a[1..]) + "-" + Dashes(b);
    }
  }

  lemma {:induction false} LastLetterStays(s: string)
    requires s != "" && LetterOrDigit(s[|s| - 1])
    ensures Dashes(s) != ""
  {
    if |s| > 1 {
      LastLetterStays(s[1..]);
    }
  }

  /** A run of other characters is one dash. */
  lemma {:induction false} RunIsOneDash(a: string, x: char, y: char, b: string)
    requires !LetterOrDigit(x) && !LetterOrDigit(y)
    ensures Dashes(a + [x, y] + b) == Dashes(a + [x] + b)
  {
    var s, u := a + [x, y] + b, a + [x] + b;
    if a == "" {
      assert s[1..] == [y] + b && ([y] + b)[1..] == b && u[1..] == b;
    } else {
      assert s[1..] == a[1..] + [x, y] + b && u[1..] == a[1..] + [x] + b;
      RunIsOneDash(a[1..], x, y, b);
    }
  }

  /** `_generated_id_base` on the lower-cased ASCII form of a label, with its random fallback. */
  function IdBase(ascii: string, fallback: string): string {
    var base := StripRight(StripLeft(Dashes(ascii), Dash), Dash);
    var cut := StripRight(if |base| <= MAX_ID then base else base[..MAX_ID], Dash);
    if cut == "" then "workspace-" + fallback else cut
  }

  lemma {:induction false} DashesChars(s: string)
    ensures forall i | 0 <= i < |Dashes(s)| :: Lower(Dashes(s)[i]) || Digit(Dashes(s)[i]) || Dashes(s)[i] == '-'
  {
    if s != "" {
      DashesChars(s[1..]);
    }
  }

  lemma {:induction false} StripLeftStarts(s: string, blank: char -> bool)
    ensures var r := StripLeft(s, blank); r == s[|s| - |r|..] && (r != "" ==> !blank(r[0]))
  {
    if s != "" && blank(s[0]) {
      StripLeftStarts(s[1..], blank);
    }
  }

  /** The base of a generated id is itself a valid id, whatever the label. */
  lemma IdBaseIsValid(ascii: string, fallback: string)
    requires |fallback| == 8 && forall i | 0 <= i < 8 :: Lower(fallback[i]) || Digit(fallback[i])
    ensures ValidId(IdBase(ascii, fallback))
  {
    var l := StripLeft(Dashes(ascii), Dash);
    StrippedChars(ascii);
    var base := StripRight(l, Dash);
    var cut := StripRight(if |base| <= MAX_ID then base else base[..MAX_ID], Dash);
    if cut != "" {
      assert cut <= l;
      PrefixIsValid(cut, l);
    }
  }

  lemma StrippedChars(ascii: string)
    ensures var l := StripLeft(Dashes(ascii), Dash);
            && (forall i | 0 <= i < |l| :: Lower(l[i]) || Digit(l[i]) || l[i] == '-') && (l != "" ==> l[0] != '-')
  {
    var d := Dashes(ascii);
    var l := StripLeft(d, Dash);
    DashesChars(ascii);
    StripLeftStarts(d, Dash);
    forall i | 0 <= i < |l|
      ensures Lower(l[i]) || Digit(l[i]) || l[i] == '-'
    {
      assert l[i] == d[|d| - |l| + i];
    }
  }

  lemma PrefixIsValid(cut: string, l: string)
    requires cut <= l && 0 < |cut| <= MAX_ID && l[0] != '-'
    requires forall i | 0 <= i < |l| :: Lower(l[i]) || Digit(l[i]) || l[i] == '-'
    ensures ValidId(cut)
  {
    forall i | 0 <= i < |cut|
      ensures IdChar(cut[i])
    {
      assert cut[i] == l[i];
    }
    assert cut[0] == l[0];
  }

  // ---------------------------------------------------------------- a fresh name

  function Value(s: string): nat
    requires forall i | 0 <= i < |s| :: Digit(s[i])
  {
    if s == "" then 0
    else
      assert Digit(s[|s| - 1]);
      Value(s[..|s| - 1]) * 10 + (s[|s| - 1] as int - '0' as int)
  }

  lemma {:induction false} DecimalValue(n: nat)
    ensures Value(Decimal(n)) == n
  {
    if n < 10 {
      assert Decimal(n)[..0] == "";
    } else {
      DecimalValue(n / 10);
      assert Decimal(n)[..|Decimal(n)| - 1] == Decimal(n / 10);
    }
  }

  lemma {:induction false} DecimalLength(m: nat, n: nat)
    requires m <= n
    ensures |Decimal(m)| <= |Decimal(n)|
    decreases n
  {
    if m >= 10 {
      DecimalLength(m / 10, n / 10);
    }
  }

  /** A slice that counts a negative end from the back, as the source language does. */
  function Upto(s: string, end: int): string {
    if end >= |s| then s else if end >= 0 then s[..end] else if |s| + end >= 0 then s[..|s| + end] else ""
  }

  /** The candidate with a numbered suffix, cut so that the suffix fits. */
  function Candidate(base: string, k: nat): string {
    StripRight(Upto(base, MAX_ID - |Decimal(k)| - 1), Dash) + "-" + Decimal(k)
  }

  /** What stands behind the last dash. */
  function AfterDash(s: string): string {
    if s == "" || s[|s| - 1] == '-' then "" else AfterDash(s[..|s| - 1]) + [s[|s| - 1]]
  }

  lemma {:induction false} AfterDashIs(front: string, d: string)
    requires '-' !in d
    ensures AfterDash(front + "-" + d) == d
    decreases |d|
  {
    if d != "" {
      var s := front + "-" + d;
      assert s[..|s| - 1] == front + "-" + d[..|d| - 1];
      assert d[|d| - 1] in d;
      AfterDashIs(front, d[..|d| - 1]);
      assert d == d[..|d| - 1] + [d[|d| - 1]];
    }
  }

  lemma NumberOf(base: string, k: nat)
    ensures AfterDash(Candidate(base, k)) == Decimal(k) && Value(AfterDash(Candidate(base, k))) == k
  {
    AfterDashIs(StripRight(Upto(base, MAX_ID - |Decimal(k)| - 1), Dash), Decimal(k));
    DecimalValue(k);
  }

  /** The number stands behind the last dash, so different suffixes give different candidates. */
  lemma CandidatesDiffer(base: string, j: nat, k: nat)
    requires Candidate(base, j) == Candidate(base, k)
    ensures j == k
  {
    NumberOf(base, j);
    NumberOf(base, k);
  }

  function Tried(base: string, k: nat): set<string>
    requires k >= 2
  {
    set i | 2 <= i < k :: Candidate(base, i)
  }

  lemma TriedGrows(base: string, k: nat)
    requires k >= 2
    ensures Tried(base, k + 1) == Tried(base, k) + {Candidate(base, k)}
    ensures Candidate(base, k) !in Tried(base, k)
  {
    if Candidate(base, k) in Tried(base, k) {
      var i :| 2 <= i < k && Candidate(base, i) == Candidate(base, k);
      CandidatesDiffer(base, i, k);
    }
  }

  lemma TriedOneMore(base: string, k: nat)
    requires k >= 2
    ensures |Tried(base, k + 1)| == |Tried(base, k)| + 1
  {
    TriedGrows(base, k);
  }

  lemma {:induction false} TriedCount(base: string, k: nat)
    requires k >= 2
    ensures |Tried(base, k)| == k - 2
    decreases k
  {
    if k == 2 {
      assert Tried(base, 2) == {};
    } else {
      TriedCount(base, k - 1);
      TriedOneMore(base, k - 1);
    }
  }

  lemma {:induction false} SubsetSize(a: set<string>, b: set<string>)
    requires a <= b
    ensures |a| <= |b|
    decreases a
  {
    if a != {} {
      var x :| x in a;
      SubsetSize(a - {x}, b - {x});
    }
  }

  /** Only as many suffixes can be taken as there are taken names. */
  lemma TriedIsBounded(base: string, k: nat, taken: set<string>)
    requires k >= 2 && Tried(base, k) <= taken
    ensures k - 2 <= |taken|
  {
    TriedCount(base, k);
    SubsetSize(Tried(base, k), taken);
  }

  /** The first suffix from `k` on whose candidate is free. */
  function FirstFree(base: string, k: nat, taken: set<string>): (n: nat)
    requires k >= 2 && Tried(base, k) <= taken
    ensures k <= n <= |taken| + 2 && Candidate(base, n) !in taken
    decreases |taken| + 2 - k
  {
    TriedIsBounded(base, k, taken);
    if Candidate(base, k) !in taken then k
    else
      TriedGrows(base, k);
      TriedIsBounded(base, k + 1, taken);
      FirstFree(base, k + 1, taken)
  }

  function FreshId(base: string, taken: set<string>): (id: string)
    ensures id !in taken
  {
    if base !in taken then base
    else
      assert Tried(base, 2) == {};
      Candidate(base, FirstFree(base, 2, taken))
  }

  /** `_available_generated_id`: the search ends after at most one more try than there are taken names. */
  method AvailableGeneratedId(base: string, taken: set<string>) returns (id: string)
    ensures id == FreshId(base, taken)
  {
    if base !in taken {
      return base;
    }
    var suffix := 2;
    assert Tried(base, 2) == {};
    while Candidate(base, suffix) in taken
      invariant suffix >= 2 && Tried(base, suffix) <= taken
      invariant FirstFree(base, suffix, taken) == FirstFree(base, 2, taken)
      decreases |taken| + 2 - suffix
    {
      TriedGrows(base, suffix);
      TriedIsBounded(base, suffix + 1, taken);
      suffix := suffix + 1;
    }
    id := Candidate(base, suffix);
  }

  lemma {:induction false} FirstFreeIsFirst(base: string, k: nat, taken: set<string>)
    requires k >= 2 && Tried(base, k) <= taken
    ensures forall i | 2 <= i < FirstFree(base, k, taken) :: Candidate(base, i) in taken
    decreases FirstFree(base, k, taken) - k
  {
    TriedIsBounded(base, k, taken);
    assert forall i | 2 <= i < k :: Candidate(base, i) in Tried(base, k);
    if Candidate(base, k) in taken {
      TriedGrows(base, k);
      TriedIsBounded(base, k + 1, taken);
      FirstFreeIsFirst(base, k + 1, taken);
    }
  }

  /** The base itself if it is free, and else the candidate with the smallest suffix from 2 on that is. */
  lemma FreshIdIsFirst(base: string, taken: set<string>)
    ensures if base !in taken then FreshId(base, taken) == base
            else exists n: nat :: n >= 2 && FreshId(base, taken) == Candidate(base, n) && Candidate(base, n) !in taken
                                  && forall i | 2 <= i < n :: Candidate(base, i) in taken
  {
    if base in taken {
      assert Tried(base, 2) == {};
      FirstFreeIsFirst(base, 2, taken);
      var n := FirstFree(base, 2, taken);
      assert n >= 2 && FreshId(base, taken) == Candidate(base, n) && Candidate(base, n) !in taken;
    }
  }

  /** A candidate is as much of the base as leaves room for the suffix, without dashes at its end, a dash, and the number. */
  lemma CandidateIs(base: string, k: nat)
    requires |Decimal(k)| < MAX_ID
    ensures var c, room := Candidate(base, k), MAX_ID - |Decimal(k)| - 1;
            exists head ::
              && head <= base && c == head + "-" + Decimal(k) && |c| <= MAX_ID
              && (head != "" ==> head[|head| - 1] != '-')
              && forall i | |head| <= i < |base| && i < room :: base[i] == '-'
  {
    var cut := Upto(base, MAX_ID - |Decimal(k)| - 1);
    OnlyDashesStripped(cut);
    var head := StripRight(cut, Dash);
    assert cut <= base && head <= cut;
  }

  lemma {:induction false} OnlyDashesStripped(s: string)
    ensures forall i | |StripRight(s, Dash)| <= i < |s| :: s[i] == '-'
    decreases |s|
  {
    if s != "" && Dash(s[|s| - 1]) {
      OnlyDashesStripped(s[..|s| - 1]);
    }
  }

  /** A fresh id is valid, as long as the names taken are not so many that their number has 127 digits. */
  lemma FreshIdIsValid(base: string, taken: set<string>)
    requires ValidId(base) && |Decimal(|taken| + 2)| <= MAX_ID - 2
    ensures ValidId(FreshId(base, taken)) && |FreshId(base, taken)| <= MAX_ID
  {
    if base in taken {
      assert Tried(base, 2) == {};
      var n := FirstFree(base, 2, taken);
      DecimalLength(n, |taken| + 2);
      CandidateIsValid(base, n);
    }
  }

  lemma CandidateIsValid(base: string, k: nat)
    requires ValidId(base) && |Decimal(k)| <= MAX_ID - 2
    ensures ValidId(Candidate(base, k))
  {
    var cut := Upto(base, MAX_ID - |Decimal(k)| - 1);
    var head := StripRight(cut, Dash);
    KeepsFirst(cut, Dash);
    assert head != "" && head[0] == base[0];
    var c := Candidate(base, k);
    forall i | 0 <= i < |c|
      ensures IdChar(c[i])
    {
      assert i < |head| ==> c[i] == head[i] == base[i];
      assert i > |head| ==> c[i] == Decimal(k)[i - |head| - 1];
    }
  }

  lemma {:induction false} KeepsFirst(s: string, blank: char -> bool)
    requires s != "" && !blank(s[0])
    ensures StripRight(s, blank) != ""
    decreases |s|
  {
    if blank(s[|s| - 1]) {
      KeepsFirst(s[..|s| - 1], blank);
    }
  }

  // ---------------------------------------------------------------- the registry

  /** A workspace root: managed below the home directory under its id, or somewhere else. */
  datatype Root = Managed(id: string) | External(path: string)

  datatype Workspace = Workspace(root: Root, name: Option<string>)

  /** The registry file, with the schema it was written in, none if there is no file; and the directories on disk. */
  datatype Registry = Registry(schema: Option<nat>, active: Option<string>, records: map<string, Workspace>, dirs: set<Root>)

  /** The schema that every write leaves behind. */
  const SCHEMA := 2

  datatype Settings = Settings(defaultId: string, defaultRoot: Root)

  /** Which registry write of a request fails, if any: the one that repairs the registry first, or the request's own. */
  datatype Failing = NoWrite | FirstWrite | OwnWrite

  datatype Request =
    | Initialize(failing: Failing)
    | SetActive(id: string, failing: Failing)
    | Create(wanted: Option<string>, name: Option<string>, root: Option<Root>, base: string, failing: Failing)
    | Delete(id: string, failing: Failing)

  function Initialized(r: Registry, c: Settings): Registry {
    var records := if c.defaultId in r.records then r.records
                   else r.records[c.defaultId := Workspace(c.defaultRoot, Some("Default"))];
    Registry(Some(SCHEMA), if r.active.Some? && r.active.value in records then r.active else Some(c.defaultId),
             records, r.dirs + {c.defaultRoot})
  }

  /** The registry is written only where it needs repair: in an older schema, or without the default or the active workspace. */
  predicate NeedsRepair(r: Registry, c: Settings) {
    r.schema != Some(SCHEMA) || c.defaultId !in r.records || r.active.None? || r.active.value !in r.records
  }

  /** The names a generated id must avoid: registered ones, and directories below the workspace home. */
  function Taken(r: Registry): set<string> {
    r.records.Keys + set d | d in r.dirs && d.Managed? :: d.id
  }

  /** The key a create request asks for; none if it is refused. */
  function KeyFor(r: Registry, q: Request): Option<string>
    requires q.Create?
  {
    if q.wanted.None? then (if q.name.None? then None else Some(FreshId(q.base, Taken(r))))
    else
      var key := Validate(q.wanted.value);
      if key.None? || key.value in r.records then None else key
  }

  /** A registry write that fails leaves the new directory behind, unregistered. */
  function Created(r: Registry, q: Request): Registry
    requires q.Create?
  {
    var key := KeyFor(r, q);
    if key.None? then r
    else
      var root := if q.root.Some? then q.root.value else Managed(key.value);
      if root in r.dirs then r
      else if q.failing.OwnWrite? then r.(dirs := r.dirs + {root})
      else r.(records := r.records[key.value := Workspace(root, q.name)], dirs := r.dirs + {root})
  }

  predicate Deletable(r: Registry, c: Settings, key: string) {
    key in r.records && key != c.defaultId && r.records[key].root == Managed(key) && |r.records| > 1
  }

  function Deleted(r: Registry, c: Settings, key: string, writeFails: bool): Registry {
    if !Deletable(r, c, key) || writeFails then r
    else r.(active := if r.active == Some(key) then Some(c.defaultId) else r.active, records := r.records - {key},
            dirs := r.dirs - {r.records[key].root})
  }

  /** Every request initializes the registry first; a refused one changes nothing beyond that. */
  function Apply(r: Registry, c: Settings, q: Request): Registry {
    if q.failing.FirstWrite? && NeedsRepair(r, c) then r
    else
      var i := Initialized(r, c);
      match q
      case Initialize(_) => i
      case SetActive(id, failing) =>
        if Validate(id).Some? && Validate(id).value in i.records && !failing.OwnWrite? then i.(active := Validate(id)) else i
      case Create(_, _, _, _, _) => Created(i, q)
      case Delete(id, failing) => if Validate(id).Some? then Deleted(i, c, Validate(id).value, failing.OwnWrite?) else i
  }

  function ApplyAll(r: Registry, c: Settings, qs: seq<Request>): Registry
    decreases |qs|
  {
    if qs == [] then r else ApplyAll(Apply(r, c, qs[0]), c, qs[1..])
  }

  /** The active and the default workspace are registered, in the present schema. */
  predicate Repaired(r: Registry, c: Settings) {
    r.schema == Some(SCHEMA) && c.defaultId in r.records && r.active.Some? && r.active.value in r.records
  }

  /** Every workspace has a directory of its own, and the default's is kept for it. */
  ghost predicate Roots(r: Registry, c: Settings) {
    && (forall k | k in r.records :: r.records[k].root in r.dirs)
    && (forall j, k | j in r.records && k in r.records && j != k :: r.records[j].root != r.records[k].root)
    && (c.defaultId !in r.records ==> forall k | k in r.records :: r.records[k].root != c.defaultRoot)
  }

  lemma CreatedRoots(r: Registry, c: Settings, q: Request)
    requires Repaired(r, c) && Roots(r, c) && q.Create?
    ensures Repaired(Created(r, q), c) && Roots(Created(r, q), c)
  {
    if KeyFor(r, q).Some? && q.wanted.None? {
      assert KeyFor(r, q).value !in Taken(r);
    }
  }

  lemma CreatedRepaired(r: Registry, c: Settings, q: Request)
    requires Repaired(r, c) && q.Create?
    ensures Repaired(Created(r, q), c)
  {
    if KeyFor(r, q).Some? && q.wanted.None? {
      assert KeyFor(r, q).value !in Taken(r);
    }
  }

  /** One request on whatever registry was stored: it is repaired, unless the repair itself could not be written. */
  lemma ApplyRepairs(r: Registry, c: Settings, q: Request)
    ensures Apply(r, c, q) == r || Repaired(Apply(r, c, q), c)
    ensures q.failing.FirstWrite? && NeedsRepair(r, c) ==> Apply(r, c, q) == r
    ensures !(q.failing.FirstWrite? && NeedsRepair(r, c)) ==> Repaired(Apply(r, c, q), c)
    ensures Repaired(r, c) ==> Repaired(Apply(r, c, q), c)
  {
    var i := Initialized(r, c);
    assert Repaired(i, c);
    if q.Create? {
      CreatedRepaired(i, c, q);
    }
  }

  lemma ApplyRoots(r: Registry, c: Settings, q: Request)
    requires Roots(r, c)
    ensures Roots(Apply(r, c, q), c)
  {
    var i := Initialized(r, c);
    assert Repaired(i, c) && Roots(i, c);
    if q.Create? {
      CreatedRoots(i, c, q);
    }
  }

  /**
   * Whatever registry was stored, in whatever schema, and whatever requests are refused or fail: as soon as one
   * repair could be written, the active and the default workspace are registered; until then nothing changes. Workspaces that
   * had directories of their own keep them.
   */
  lemma {:induction false} RegistryStaysSound(r: Registry, c: Settings, qs: seq<Request>)
    ensures ApplyAll(r, c, qs) == r || Repaired(ApplyAll(r, c, qs), c)
    ensures (exists q :: q in qs && !q.failing.FirstWrite?) || Repaired(r, c) ==> Repaired(ApplyAll(r, c, qs), c)
    ensures Roots(r, c) ==> Roots(ApplyAll(r, c, qs), c)
    decreases |qs|
  {
    if qs != [] {
      ApplyRepairs(r, c, qs[0]);
      if Roots(r, c) {
        ApplyRoots(r, c, qs[0]);
      }
      RegistryStaysSound(Apply(r, c, qs[0]), c, qs[1..]);
      assert qs == [qs[0]] + qs[1..];
    }
  }

  /** What a create leaves whose registry write failed: the same request with an id of its own is refused from then on. */
  lemma FailedCreateBlocksItself(r: Registry, c: Settings, id: string, name: Option<string>, root: Option<Root>, base: string, again: Failing)
    requires Repaired(r, c)
    ensures var t := Apply(r, c, Request.Create(Some(id), name, root, base, OwnWrite));
            && t == r.(dirs := t.dirs)
            && Apply(t, c, Request.Create(Some(id), name, root, base, again)) == t
  {
    assert Initialized(r, c) == r.(dirs := r.dirs + {c.defaultRoot});
  }

  /** A deletion takes its own directory and no other workspace's; one whose write fails takes nothing. */
  lemma DeletionIsLocal(r: Registry, c: Settings, id: string, failing: Failing, other: string)
    requires Repaired(r, c) && Roots(r, c) && other in r.records && Validate(id) != Some(other)
    ensures var t, i := Apply(r, c, Request.Delete(id, failing)), Initialized(r, c);
            && other in t.records && t.records[other] == r.records[other] && t.records[other].root in t.dirs
            && (Validate(id).Some? ==> (Validate(id).value in t.records
                  <==> Validate(id).value in r.records && (failing.OwnWrite? || !Deletable(r, c, Validate(id).value))))
            && (failing.OwnWrite? ==> t == i)
  {
  }

  /** A create without an id always finds one, and the registered workspace did not exist before. */
  lemma GeneratedCreateSucceeds(r: Registry, q: Request)
    requires q.Create? && q.wanted.None? && q.name.Some? && q.root.None? && !q.failing.OwnWrite?
    ensures var t := Created(r, q);
            exists key :: key !in r.records && t.records == r.records[key := Workspace(Managed(key), q.name)]
                          && t.dirs == r.dirs + {Managed(key)} && Managed(key) !in r.dirs && t.active == r.active
  {
    var key := FreshId(q.base, Taken(r));
    assert key !in Taken(r);
    assert Managed(key) !in r.dirs;
    assert key !in r.records;
  }

  // ---------------------------------------------------------------- requests for a workspace by its id

  /** The id that a request gives, with or without blanks around it. */
  ghost predicate Gives(given: string, id: string) {
    ValidId(id) && exists a, b :: given == a + id + b && (forall ch | ch in a :: Blank(ch)) && forall ch | ch in b :: Blank(ch)
  }

  lemma {:induction false} StripLeftOf(a: string, s: string)
    requires (forall ch | ch in a :: Blank(ch)) && s != "" && !Blank(s[0])
    ensures StripLeft(a + s, Blank) == s
  {
    if a == "" {
      assert a + s == s;
    } else {
      assert (a + s)[0] in a && (a + s)[1..] == a[1..] + s;
      StripLeftOf(a[1..], s);
    }
  }

  lemma {:induction false} StripRightOf(s: string, b: string)
    requires (forall ch | ch in b :: Blank(ch)) && s != "" && !Blank(s[|s| - 1])
    ensures StripRight(s + b, Blank) == s
    decreases |b|
  {
    if b == "" {
      assert s + b == s;
    } else {
      var t := s + b;
      assert t[|t| - 1] in b && t[..|t| - 1] == s + b[..|b| - 1];
      StripRightOf(s, b[..|b| - 1]);
    }
  }

  lemma {:induction false} StrippedLeft(s: string) returns (a: string)
    ensures s == a + StripLeft(s, Blank) && forall ch | ch in a :: Blank(ch)
  {
    a := "";
    if s != "" && Blank(s[0]) {
      var rest := StrippedLeft(s[1..]);
      a := [s[0]] + rest;
      assert s == [s[0]] + s[1..];
    }
  }

  lemma {:induction false} StrippedRight(s: string) returns (b: string)
    ensures s == StripRight(s, Blank) + b && forall ch | ch in b :: Blank(ch)
    decreases |s|
  {
    b := "";
    if s != "" && Blank(s[|s| - 1]) {
      var rest := StrippedRight(s[..|s| - 1]);
      b := rest + [s[|s| - 1]];
      assert s == s[..|s| - 1] + [s[|s| - 1]];
    }
  }

  lemma IdIsNotBlank(id: string)
    requires ValidId(id)
    ensures !Blank(id[0]) && !Blank(id[|id| - 1])
  {
    assert IdChar(id[0]) && IdChar(id[|id| - 1]);
  }

  lemma GivenIsTaken(a: string, id: string, b: string)
    requires ValidId(id) && (forall ch | ch in a :: Blank(ch)) && forall ch | ch in b :: Blank(ch)
    ensures Validate(a + id + b) == Some(id)
  {
    IdIsNotBlank(id);
    assert a + id + b == a + (id + b) && (id + b)[0] == id[0];
    StripLeftOf(a, id + b);
    StripRightOf(id, b);
  }

  /** An id is taken as the request gives it, blanks around it aside; anything else is refused. */
  lemma ValidateIs(given: string, id: string)
    ensures Validate(given) == Some(id) <==> Gives(given, id)
  {
    if Validate(given) == Some(id) {
      var a := StrippedLeft(given);
      var b := StrippedRight(StripLeft(given, Blank));
      assert given == a + id + b;
    }
    if Gives(given, id) {
      var a, b :| given == a + id + b && (forall ch | ch in a :: Blank(ch)) && forall ch | ch in b :: Blank(ch);
      GivenIsTaken(a, id, b);
    }
  }

  /**
   * A create with an id succeeds if and only if the id is free, its directory is not there, and the write works;
   * it then adds this workspace and nothing else. A failed write leaves only the directory.
   */
  lemma CreateById(r: Registry, c: Settings, given: string, id: string, name: Option<string>, root: Option<Root>, base: string, failing: Failing)
    requires Repaired(r, c) && Gives(given, id)
    ensures var t := Apply(r, c, Request.Create(Some(given), name, root, base, failing));
            var own, dirs := if root.Some? then root.value else Managed(id), r.dirs + {c.defaultRoot};
            var free := id !in r.records && own !in dirs;
            && t.active == r.active && t.schema == r.schema
            && t.records == (if free && !failing.OwnWrite? then r.records[id := Workspace(own, name)] else r.records)
            && t.dirs == if free then dirs + {own} else dirs
  {
    ValidateIs(given, id);
  }

  /** A create with neither a usable id nor a name to make one from is refused. */
  lemma CreateRefused(r: Registry, c: Settings, q: Request)
    requires Repaired(r, c) && q.Create?
    requires if q.wanted.Some? then forall id :: !Gives(q.wanted.value, id) else q.name.None?
    ensures Apply(r, c, q) == r.(dirs := r.dirs + {c.defaultRoot})
  {
    if q.wanted.Some? && Validate(q.wanted.value).Some? {
      ValidateIs(q.wanted.value, Validate(q.wanted.value).value);
    }
  }

  /** The active workspace changes exactly to a registered one, and nothing else changes. */
  lemma SetActiveById(r: Registry, c: Settings, given: string, id: string, failing: Failing)
    requires Repaired(r, c) && Gives(given, id)
    ensures Apply(r, c, Request.SetActive(given, failing))
         == r.(active := if id in r.records && !failing.OwnWrite? then Some(id) else r.active, dirs := r.dirs + {c.defaultRoot})
  {
    ValidateIs(given, id);
  }

  /**
   * A deletion succeeds if and only if the workspace is registered, is not the default one, lies in its own
   * managed directory, and the write works. Its entry and directory go; if it was active the default one is active now.
   */
  lemma DeleteById(r: Registry, c: Settings, given: string, id: string, failing: Failing)
    requires Repaired(r, c) && Gives(given, id)
    ensures var t, dirs := Apply(r, c, Request.Delete(given, failing)), r.dirs + {c.defaultRoot};
            if id in r.records && id != c.defaultId && r.records[id].root == Managed(id) && !failing.OwnWrite?
            then t == r.(records := r.records - {id}, dirs := dirs - {Managed(id)},
                         active := if r.active == Some(id) then Some(c.defaultId) else r.active)
            else t == r.(dirs := dirs)
  {
    ValidateIs(given, id);
    if id in r.records && id != c.defaultId {
      SubsetSize({id, c.defaultId}, r.records.Keys);
      assert |r.records| == |r.records.Keys|;
    }
  }

  /** While the write that would repair the registry fails nothing can be done; a sound registry needs no such write. */
  lemma FailedRepair(r: Registry, c: Settings, q: Request)
    requires q.failing.FirstWrite?
    ensures !Repaired(r, c) ==> Apply(r, c, q) == r
    ensures Repaired(r, c) && q.SetActive? && Gives(q.id, c.defaultId) ==> Apply(r, c, q).active == Some(c.defaultId)
  {
    if Repaired(r, c) && q.SetActive? && Gives(q.id, c.defaultId) {
      ValidateIs(q.id, c.defaultId);
    }
  }

  /** What initialization repairs: the default workspace is registered, and the active one is a registered one; the rest is kept. */
  lemma InitializeRepairs(r: Registry, c: Settings)
    ensures var t := Apply(r, c, Initialize(NoWrite));
            && Repaired(t, c) && t.dirs == r.dirs + {c.defaultRoot}
            && (forall k | k in r.records :: k in t.records && t.records[k] == r.records[k])
            && (forall k | k in t.records && k !in r.records :: k == c.defaultId && t.records[k] == Workspace(c.defaultRoot, Some("Default")))
            && (r.active.Some? && r.active.value in t.records ==> t.active == r.active)
            && (r.active.None? || r.active.value !in t.records ==> t.active == Some(c.defaultId))
  {
  }

  // ---------------------------------------------------------------- the manager

  class WorkspaceManager {
    var schema: Option<nat>
    var active: Option<string>
    var records: map<string, Workspace>
    var dirs: set<Root>
    const settings: Settings

    constructor (settings: Settings)
      ensures this.settings == settings && View() == Registry(None, None, map[], {})
    {
      this.settings, schema, active, records, dirs := settings, None, None, map[], {};
    }

    ghost function View(): Registry
      reads this
    {
      Registry(schema, active, records, dirs)
    }

    /** The registry is written if it needs repair; when that fails nothing has changed. */
    method Initialize(failing: Failing) returns (ok: bool)
      modifies this
      ensures ok <==> !(failing.FirstWrite? && NeedsRepair(old(View()), settings))
      ensures View() == if ok then Initialized(old(View()), settings) else old(View())
    {
      var changed := schema != Some(SCHEMA);
      var chosen, all := active, records;
      if settings.defaultId !in all {
        all := all[settings.defaultId := Workspace(settings.defaultRoot, Some("Default"))];
        changed := true;
      }
      if chosen.None? || chosen.value !in all {
        chosen := Some(settings.defaultId);
        changed := true;
      }
      ok := !(changed && failing.FirstWrite?);
      if !ok { return; }
      schema, active, records := Some(SCHEMA), chosen, all;
      dirs := dirs + {settings.defaultRoot};
    }

    method SetActive(id: string, failing: Failing) returns (ok: bool)
      modifies this
      ensures View() == Apply(old(View()), settings, Request.SetActive(id, failing))
      ensures ok ==> active == Validate(id)
    {
      ok := Initialize(failing);
      if !ok { return; }
      var key := Validate(id);
      ok := key.Some? && key.value in records && !failing.OwnWrite?;
      if ok {
        active := key;
      }
    }

    /** The key of a new workspace; none if the request is refused. */
    method ChooseKey(id: Option<string>, name: Option<string>, root: Option<Root>, base: string, failing: Failing) returns (key: Option<string>)
      ensures key == KeyFor(View(), Request.Create(id, name, root, base, failing))
    {
      if id.None? {
        if name.None? {
          return None;
        }
        var generated := AvailableGeneratedId(base, records.Keys + set d | d in dirs && d.Managed? :: d.id);
        return Some(generated);
      }
      key := Validate(id.value);
      if key.Some? && key.value in records {
        key := None;
      }
    }

    /** The directory is made before the registry is written, and stays if that fails. */
    method Create(id: Option<string>, name: Option<string>, root: Option<Root>, base: string, failing: Failing) returns (ok: bool)
      modifies this
      ensures View() == Apply(old(View()), settings, Request.Create(id, name, root, base, failing))
    {
      ok := Initialize(failing);
      if !ok { return; }
      ok := false;
      var key := ChooseKey(id, name, root, base, failing);
      if key.None? { return; }
      var target := if root.Some? then root.value else Managed(key.value);
      if target in dirs { return; }
      dirs := dirs + {target};
      if failing.OwnWrite? { return; }
      records := records[key.value := Workspace(target, name)];
      ok := true;
    }

    /** The directory is set aside before the registry is written, and put back if the write fails. */
    method Delete(id: string, failing: Failing) returns (ok: bool)
      modifies this
      ensures View() == Apply(old(View()), settings, Request.Delete(id, failing))
    {
      ok := Initialize(failing);
      if !ok { return; }
      ok := false;
      var key := Validate(id);
      if key.None? || key.value !in records || key.value == settings.defaultId { return; }
      var k := key.value;
      if records[k].root != Managed(k) || |records| <= 1 { return; }
      var target := records[k].root;
      var replacement := if active == key then Some(settings.defaultId) else active;
      var present := target in dirs;
      dirs := dirs - {target};
      if failing.OwnWrite? {
        dirs := if present then dirs + {target} else dirs;
        return;
      }
      active, records := replacement, records - {k};
      ok := true;
    }
  }
}
