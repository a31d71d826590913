/**
 * Plan discovery of app.py (lines 62-90): from the directory listing, pick
 * one data file per regular ("MSS") term 5..20 and at most one lump-sum
 * ("MIS") file, and collect them in the insertion-ordered dict `planes`
 * that feeds the plan selector.
 *
 * `Discovered` states the rule declaratively, as "the first CSV name that
 * passes the test, for each term in ascending order, then the lump-sum
 * file"; `DiscoverPlans` is the nested loops of the source, with their
 * `continue` and `break`, proved to build exactly that.
 */
module PlanDiscovery {
  import opened Text
  import opened Results
  import CostFactors

  /** The file a plan reads and its term in years (0 for the lump-sum plan). */
  datatype Plan = Plan(file: string, term: nat)

  /** One `key: (filename, term)` item of `planes`. */
  datatype Entry = Entry(name: string, plan: Plan)

  /** `if not planes`: no plan file was found. */
  datatype DiscoveryError = NoPlanFiles

  /** The terms the regular-plan loop tries: `range(5, 21)`. */
  const FirstTerm: nat := 5
  const LastTerm: nat := 20

  /** The key of the lump-sum plan. */
  const MisLabel: string := "MIS - Aporte Unico"

  /** The key of the regular plan of term `i`: `f"MSS - {i} Años"`. */
  function MssLabel(i: nat): string {
    "MSS - " + DecimalText(i) + " Años"
  }

  // ---------------------------------------------------------------------
  // The CSV filter (line 63)
  // ---------------------------------------------------------------------

  /** `[f for f in all_files if f.endswith('.csv')]`. */
  function CsvFiles(names: seq<string>): (r: seq<string>)
    ensures forall f :: f in r <==> f in names && EndsWith(f, ".csv")
    ensures |r| <= |names|
  {
    if names == [] then []
    else (if EndsWith(names[0], ".csv") then [names[0]] else []) + CsvFiles(names[1..])
  }

  /** The filter keeps listing order: filtering a concatenation concatenates the filtered parts. */
  lemma {:induction false} CsvFilesAppend(a: seq<string>, b: seq<string>)
    ensures CsvFiles(a + b) == CsvFiles(a) + CsvFiles(b)
  {
    if a == [] {
      assert a + b == b;
    } else {
      assert (a + b)[0] == a[0];
      assert (a + b)[1..] == a[1..] + b;
      CsvFilesAppend(a[1..], b);
    }
  }

  /** A single name is kept exactly when it ends in `.csv`. */
  lemma CsvFilesSingle(f: string)
    ensures CsvFiles([f]) == if EndsWith(f, ".csv") then [f] else []
  {
    assert [f][1..] == [];
  }

  // ---------------------------------------------------------------------
  // The two matching tests (lines 74-75 and 81)
  // ---------------------------------------------------------------------

  /**
   * The name is taken for term `i`: it contains "MSS" and `str(i)`, and for a
   * one-digit term it does not also contain "1" followed by that digit
   * (such a name is skipped by `continue`).
   */
  predicate MatchesTerm(name: string, i: nat) {
    Contains(name, "MSS") && Contains(name, DecimalText(i))
    && !(i < 10 && Contains(name, "1" + DecimalText(i)))
  }

  /** The name, lower-cased, contains "nico" or "unique". */
  predicate IsMisName(name: string) {
    Contains(Lower(name), "nico") || Contains(Lower(name), "unique")
  }

  /** The two tests a CSV name is put to: the regular test of one term, or the lump-sum test. */
  datatype Test = TermTest(term: nat) | LumpSumTest

  /** The name passes test `t`. */
  predicate Passes(t: Test, name: string) {
    match t
    case TermTest(i) => MatchesTerm(name, i)
    case LumpSumTest => IsMisName(name)
  }

  /** `j` is the first index of `names` whose name passes `t`. */
  ghost predicate IsFirst(names: seq<string>, j: int, t: Test) {
    0 <= j < |names| && Passes(t, names[j]) && forall j' :: 0 <= j' < j ==> !Passes(t, names[j'])
  }

  /** The index of the first name that passes `t`, as a `for ... break` loop finds it. */
  function FirstWhere(names: seq<string>, t: Test): (r: Option<nat>)
    ensures r.Some? ==> r.value < |names|
  {
    if names == [] then None
    else if Passes(t, names[0]) then Some(0)
    else match FirstWhere(names[1..], t)
      case None => None
      case Some(k) => Some(k + 1)
  }

  /** `FirstWhere` finds the first name that passes, and finds none exactly when no name passes. */
  lemma {:induction false} FirstWhereIsFirst(names: seq<string>, t: Test)
    ensures FirstWhere(names, t).Some? ==> IsFirst(names, FirstWhere(names, t).value, t)
    ensures FirstWhere(names, t).None? <==> forall j :: 0 <= j < |names| ==> !Passes(t, names[j])
  {
    if names != [] && !Passes(t, names[0]) {
      FirstWhereIsFirst(names[1..], t);
      assert forall j :: 1 <= j < |names| ==> names[j] == names[1..][j - 1];
    }
  }

  // ---------------------------------------------------------------------
  // The rule, stated declaratively
  // ---------------------------------------------------------------------

  /** The item for term `i`: the first CSV name that passes its test, if any. */
  function TermEntries(csv: seq<string>, i: nat): (r: seq<Entry>)
    ensures |r| <= 1
    ensures r != [] ==> r[0].name == MssLabel(i) && r[0].plan.term == i
  {
    match FirstWhere(csv, TermTest(i))
    case None => []
    case Some(j) => [Entry(MssLabel(i), Plan(csv[j], i))]
  }

  /** The items of the regular plans of terms `FirstTerm` .. `n - 1`, in ascending term order. */
  function MssEntries(csv: seq<string>, n: nat): seq<Entry>
  {
    if n <= FirstTerm then [] else MssEntries(csv, n - 1) + TermEntries(csv, n - 1)
  }

  /** The lump-sum item: the first CSV name that passes the MIS test, if any. */
  function MisEntries(csv: seq<string>): (r: seq<Entry>)
    ensures |r| <= 1
    ensures r != [] ==> r[0].name == MisLabel && r[0].plan.term == 0
  {
    match FirstWhere(csv, LumpSumTest)
    case None => []
    case Some(j) => [Entry(MisLabel, Plan(csv[j], 0))]
  }

  /** The items of `planes`, in insertion order, for the CSV names `csv`. */
  function Discovered(csv: seq<string>): seq<Entry> {
    MssEntries(csv, LastTerm + 1) + MisEntries(csv)
  }

  // ---------------------------------------------------------------------
  // The insertion-ordered dict `planes`
  // ---------------------------------------------------------------------

  /**
   * A Python dict from plan label to plan, as the list of its items in
   * insertion order (what `list(planes.items())` gives).
   */
  datatype PlanDict = PlanDict(items: seq<Entry>) {

    /** `key in planes`. */
    predicate HasKey(key: string) {
      exists k :: 0 <= k < |items| && items[k].name == key
    }

    /** `list(planes.keys())`: the labels in insertion order. */
    function Keys(): (r: seq<string>)
      ensures |r| == |items|
      ensures forall k :: 0 <= k < |items| ==> r[k] == items[k].name
    {
      seq(|items|, k requires 0 <= k < |items| => items[k].name)
    }

    /** `planes[key] = plan`: a new key goes last, an existing key keeps its place and takes the new plan. */
    function Set(key: string, plan: Plan): (d: PlanDict)
      ensures !HasKey(key) ==> d.items == items + [Entry(key, plan)]
      ensures HasKey(key) ==> |d.items| == |items| && forall k :: 0 <= k < |items| ==>
        d.items[k] == if items[k].name == key then Entry(key, plan) else items[k]
      ensures !HasKey(key) ==> d.Keys() == Keys() + [key]
      ensures HasKey(key) ==> d.Keys() == Keys()
    {
      if HasKey(key) then
        PlanDict(seq(|items|, k requires 0 <= k < |items| =>
          if items[k].name == key then Entry(key, plan) else items[k]))
      else
        PlanDict(items + [Entry(key, plan)])
    }

    /** `planes[key]`: the plan of the first item with that label. */
    function Get(key: string): (r: Option<Plan>)
      ensures r.None? <==> !HasKey(key)
      ensures r.Some? ==> exists k :: 0 <= k < |items| && items[k] == Entry(key, r.value)
      decreases |items|
    {
      if items == [] then None
      else if items[0].name == key then Some(items[0].plan)
      else
        var r := PlanDict(items[1..]).Get(key);
        assert r.Some? ==> exists k :: 0 <= k < |items| && items[k] == Entry(key, r.value) by {
          if r.Some? {
            var k :| 0 <= k < |items[1..]| && items[1..][k] == Entry(key, r.value);
            assert items[k + 1] == Entry(key, r.value);
          }
        }
        r
    }
  }

  /** `{}`. */
  const EmptyDict: PlanDict := PlanDict([])

  // ---------------------------------------------------------------------
  // The loops (lines 62-87)
  // ---------------------------------------------------------------------

  /**
   * Lines 62-87: filter the listing, fill `planes` with the regular plans and
   * then the lump-sum plan, and fail when nothing was found.
   */
  method DiscoverPlans(allFiles: seq<string>) returns (r: Result<PlanDict, DiscoveryError>)
    ensures r.Failure? <==> Discovered(CsvFiles(allFiles)) == []
    ensures r.Success? ==> r.value.items == Discovered(CsvFiles(allFiles))
  {
    var csvFiles := CsvFiles(allFiles);
    var planes := AddRegularPlans(csvFiles);
    NewMisLabel(csvFiles);
    planes := AddLumpSumPlan(csvFiles, planes);
    assert planes.items == Discovered(csvFiles);
    if |planes.items| == 0 {
      return Failure(NoPlanFiles);
    }
    return Success(planes);
  }

  /**
   * Lines 69-77: starting from `{}`, for each term 5..20 find the CSV name
   * the inner loop breaks on, if any, and set the term's item to it.
   */
  method AddRegularPlans(csvFiles: seq<string>) returns (planes: PlanDict)
    ensures planes.items == MssEntries(csvFiles, LastTerm + 1)
  {
    planes := EmptyDict;
    for i := FirstTerm to LastTerm + 1
      invariant planes.items == MssEntries(csvFiles, i)
    {
      var taken := FindTermFile(csvFiles, i);
      if taken.Some? {
        TermFound(csvFiles, i, taken.value, planes);
        planes := planes.Set(MssLabel(i), Plan(csvFiles[taken.value], i));
        assert planes.items == MssEntries(csvFiles, i + 1);
      } else {
        TermMissing(csvFiles, i);
      }
    }
  }

  /**
   * Lines 73-77, the inner loop for term `i`: scan the CSV names, skip a
   * one-digit term's "1"-prefixed name with `continue`, and stop with
   * `break` at the first name that passes; `None` when the loop runs out.
   */
  method FindTermFile(csvFiles: seq<string>, i: nat) returns (taken: Option<nat>)
    ensures taken.Some? ==> IsFirst(csvFiles, taken.value, TermTest(i))
    ensures taken.None? ==> forall j :: 0 <= j < |csvFiles| ==> !MatchesTerm(csvFiles[j], i)
  {
    taken := None;
    var j := 0;
    while j < |csvFiles|
      invariant 0 <= j <= |csvFiles|
      invariant taken.None?
      invariant forall j' :: 0 <= j' < j ==> !MatchesTerm(csvFiles[j'], i)
    {
      var filename := csvFiles[j];
      if Contains(filename, "MSS") && Contains(filename, DecimalText(i)) {
        if i < 10 && Contains(filename, "1" + DecimalText(i)) {
          j := j + 1;
          continue;
        }
        taken := Some(j);
        break;
      }
      j := j + 1;
    }
  }

  /**
   * Lines 80-83: scan the CSV names and set the lump-sum item for the first
   * one that passes the MIS test, then stop.
   */
  method AddLumpSumPlan(csvFiles: seq<string>, planes: PlanDict) returns (planes': PlanDict)
    ensures MisEntries(csvFiles) == [] ==> planes' == planes
    ensures MisEntries(csvFiles) != [] ==> planes' == planes.Set(MisLabel, MisEntries(csvFiles)[0].plan)
  {
    planes' := planes;
    ghost var found := false;
    var k := 0;
    while k < |csvFiles|
      invariant 0 <= k <= |csvFiles|
      invariant planes' == planes && !found
      invariant forall k' :: 0 <= k' < k ==> !IsMisName(csvFiles[k'])
    {
      var filename := csvFiles[k];
      if Contains(Lower(filename), "nico") || Contains(Lower(filename), "unique") {
        FirstMisNameTaken(csvFiles, k);
        planes', found := planes'.Set(MisLabel, Plan(filename, 0)), true;
        break;
      }
      k := k + 1;
    }
    if !found {
      NoMisName(csvFiles);
    }
  }

  /** The first name taken for term `i` appends the item of term `i`. */
  lemma TermFound(csv: seq<string>, i: nat, j: nat, d: PlanDict)
    requires FirstTerm <= i && d.items == MssEntries(csv, i)
    requires j < |csv| && MatchesTerm(csv[j], i)
    requires forall j' :: 0 <= j' < j ==> !MatchesTerm(csv[j'], i)
    ensures d.Set(MssLabel(i), Plan(csv[j], i)).items == MssEntries(csv, i + 1)
  {
    NewTermLabel(csv, i);
    FirstTermNameTaken(csv, i, j);
  }

  /** A term no name passes adds nothing. */
  lemma TermMissing(csv: seq<string>, i: nat)
    requires FirstTerm <= i
    requires forall j :: 0 <= j < |csv| ==> !MatchesTerm(csv[j], i)
    ensures MssEntries(csv, i + 1) == MssEntries(csv, i)
  {
    NoTermName(csv, i);
  }

  /** While term `i` is being searched, its label is not yet a key of `planes`. */
  lemma NewTermLabel(csv: seq<string>, i: nat)
    requires FirstTerm <= i
    ensures !PlanDict(MssEntries(csv, i)).HasKey(MssLabel(i))
  {
    var m := MssEntries(csv, i);
    MssEntriesFacts(csv, i);
    if PlanDict(m).HasKey(MssLabel(i)) {
      var k :| 0 <= k < |m| && m[k].name == MssLabel(i);
      MssLabelInjective(i, m[k].plan.term);
    }
  }

  /** After the regular plans, the lump-sum label is not yet a key of `planes`. */
  lemma NewMisLabel(csv: seq<string>)
    ensures !PlanDict(MssEntries(csv, LastTerm + 1)).HasKey(MisLabel)
  {
    var m := MssEntries(csv, LastTerm + 1);
    MssEntriesFacts(csv, LastTerm + 1);
    forall k | 0 <= k < |m| ensures m[k].name != MisLabel {
      MisLabelIsNotMss(m[k].plan.term);
    }
  }

  // ---------------------------------------------------------------------
  // Labels
  // ---------------------------------------------------------------------

  /** Different terms get different labels, so no regular item overwrites another. */
  lemma MssLabelInjective(a: nat, b: nat)
    requires MssLabel(a) == MssLabel(b)
    ensures a == b
  {
    var la, lb := MssLabel(a), MssLabel(b);
    assert la[6..|la| - 5] == DecimalText(a);
    assert lb[6..|lb| - 5] == DecimalText(b);
    DecimalTextInjective(a, b);
  }

  /** The lump-sum label is not the label of any regular plan. */
  lemma MisLabelIsNotMss(i: nat)
    ensures MssLabel(i) != MisLabel
  {
    assert MssLabel(i)[1] == 'S' != MisLabel[1];
  }

  // ---------------------------------------------------------------------
  // The first-match rule
  // ---------------------------------------------------------------------

  /** For each term, the first CSV name that passes its test is the one taken: a later one never replaces it. */
  lemma FirstTermNameTaken(csv: seq<string>, i: nat, j: nat)
    requires j < |csv| && MatchesTerm(csv[j], i)
    requires forall j' :: 0 <= j' < j ==> !MatchesTerm(csv[j'], i)
    ensures TermEntries(csv, i) == [Entry(MssLabel(i), Plan(csv[j], i))]
  {
    FirstWhereIsFirst(csv, TermTest(i));
    assert FirstWhere(csv, TermTest(i)) == Some(j);
  }

  /** The lump-sum file is the first CSV name that passes the MIS test. */
  lemma FirstMisNameTaken(csv: seq<string>, k: nat)
    requires k < |csv| && IsMisName(csv[k])
    requires forall k' :: 0 <= k' < k ==> !IsMisName(csv[k'])
    ensures MisEntries(csv) == [Entry(MisLabel, Plan(csv[k], 0))]
  {
    FirstWhereIsFirst(csv, LumpSumTest);
    assert FirstWhere(csv, LumpSumTest) == Some(k);
  }

  /** A term gets no item exactly when no CSV name passes its test. */
  lemma NoTermName(csv: seq<string>, i: nat)
    ensures TermEntries(csv, i) == [] <==> forall j :: 0 <= j < |csv| ==> !MatchesTerm(csv[j], i)
  {
    FirstWhereIsFirst(csv, TermTest(i));
    var r := FirstWhere(csv, TermTest(i));
    if r.Some? {
      assert MatchesTerm(csv[r.value], i);
    }
  }

  /** There is no lump-sum item exactly when no CSV name passes the MIS test. */
  lemma NoMisName(csv: seq<string>)
    ensures MisEntries(csv) == [] <==> forall k :: 0 <= k < |csv| ==> !IsMisName(csv[k])
  {
    FirstWhereIsFirst(csv, LumpSumTest);
    var r := FirstWhere(csv, LumpSumTest);
    if r.Some? {
      assert IsMisName(csv[r.value]);
    }
  }

  // ---------------------------------------------------------------------
  // Properties of the rule
  // ---------------------------------------------------------------------

  /** The regular items for terms below `n`: one per term that has a name, in ascending term order. */
  lemma {:induction false} MssEntriesFacts(csv: seq<string>, n: nat)
    ensures forall k :: 0 <= k < |MssEntries(csv, n)| ==>
      FirstTerm <= MssEntries(csv, n)[k].plan.term < n
      && [MssEntries(csv, n)[k]] == TermEntries(csv, MssEntries(csv, n)[k].plan.term)
    ensures forall a, b :: 0 <= a < b < |MssEntries(csv, n)| ==>
      MssEntries(csv, n)[a].plan.term < MssEntries(csv, n)[b].plan.term
  {
    if n > FirstTerm {
      var m: seq<Entry>, t: seq<Entry> := MssEntries(csv, n - 1), TermEntries(csv, n - 1);
      var all: seq<Entry> := m + t;
      MssEntriesFacts(csv, n - 1);
      assert MssEntries(csv, n) == all;
      forall k | 0 <= k < |all|
        ensures FirstTerm <= all[k].plan.term < n && [all[k]] == TermEntries(csv, all[k].plan.term)
      {
        if k >= |m| {
          assert all[k] == t[0];
        }
      }
    }
  }

  /** The item of a term, when there is one, is built from the first CSV name that passes the term's test. */
  lemma TermEntryChosen(csv: seq<string>, i: nat)
    ensures TermEntries(csv, i) != [] ==>
      exists j :: IsFirst(csv, j, TermTest(i)) && TermEntries(csv, i)[0] == Entry(MssLabel(i), Plan(csv[j], i))
  {
    FirstWhereIsFirst(csv, TermTest(i));
  }

  /** The lump-sum item, when there is one, is built from the first CSV name that passes the MIS test. */
  lemma MisEntryChosen(csv: seq<string>)
    ensures MisEntries(csv) != [] ==>
      exists j :: IsFirst(csv, j, LumpSumTest) && MisEntries(csv)[0] == Entry(MisLabel, Plan(csv[j], 0))
  {
    FirstWhereIsFirst(csv, LumpSumTest);
  }

  /** The item of every term below `n` that has one appears among the regular items for terms below `n`. */
  lemma {:induction false} TermEntriesIncluded(csv: seq<string>, n: nat, i: nat)
    requires FirstTerm <= i < n
    ensures forall e :: e in TermEntries(csv, i) ==> e in MssEntries(csv, n)
  {
    if i < n - 1 {
      TermEntriesIncluded(csv, n - 1, i);
    }
  }

  /**
   * Every regular item has a term in 5..20, the label `MSS - {term} Años`,
   * and a CSV name that contains "MSS" and the term's digits, and, for a
   * one-digit term, not "1" followed by the digit.
   */
  lemma RegularItems(csv: seq<string>)
    ensures forall k :: 0 <= k < |Discovered(csv)| && Discovered(csv)[k].name != MisLabel ==>
      && FirstTerm <= Discovered(csv)[k].plan.term <= LastTerm
      && Discovered(csv)[k].name == MssLabel(Discovered(csv)[k].plan.term)
      && Discovered(csv)[k].plan.file in csv
      && Contains(Discovered(csv)[k].plan.file, "MSS")
      && Contains(Discovered(csv)[k].plan.file, DecimalText(Discovered(csv)[k].plan.term))
      && (Discovered(csv)[k].plan.term < 10 ==>
            !Contains(Discovered(csv)[k].plan.file, "1" + DecimalText(Discovered(csv)[k].plan.term)))
  {
    var m: seq<Entry> := MssEntries(csv, LastTerm + 1);
    var d: seq<Entry> := Discovered(csv);
    MssEntriesFacts(csv, LastTerm + 1);
    forall k | 0 <= k < |d| && d[k].name != MisLabel
      ensures FirstTerm <= d[k].plan.term <= LastTerm && d[k].name == MssLabel(d[k].plan.term)
      ensures d[k].plan.file in csv && MatchesTerm(d[k].plan.file, d[k].plan.term)
    {
      if k < |m| {
        assert d[k] == m[k];
        TermEntryChosen(csv, m[k].plan.term);
      }
    }
  }

  /**
   * First match wins: when `j` is the first CSV name that passes the test
   * of term `i`, the item of term `i` is that name, whatever later names pass.
   */
  lemma FirstMatchWins(csv: seq<string>, i: nat, j: nat)
    requires FirstTerm <= i <= LastTerm
    requires j < |csv| && MatchesTerm(csv[j], i)
    requires forall j' :: 0 <= j' < j ==> !MatchesTerm(csv[j'], i)
    ensures Entry(MssLabel(i), Plan(csv[j], i)) in Discovered(csv)
  {
    FirstTermNameTaken(csv, i, j);
    TermEntriesIncluded(csv, LastTerm + 1, i);
  }

  /** A term 5..20 has an item exactly when some CSV name passes its test. */
  lemma TermPresence(csv: seq<string>, i: nat)
    requires FirstTerm <= i <= LastTerm
    ensures (exists k :: 0 <= k < |Discovered(csv)| && Discovered(csv)[k].plan.term == i)
        <==> (exists j :: 0 <= j < |csv| && MatchesTerm(csv[j], i))
  {
    var d := Discovered(csv);
    RegularItems(csv);
    LumpSumItem(csv);
    if exists j :: 0 <= j < |csv| && MatchesTerm(csv[j], i) {
      FirstWhereIsFirst(csv, TermTest(i));
      var j := FirstWhere(csv, TermTest(i)).value;
      FirstMatchWins(csv, i, j);
      var k :| 0 <= k < |d| && d[k] == Entry(MssLabel(i), Plan(csv[j], i));
      assert d[k].plan.term == i;
    }
    if exists k :: 0 <= k < |d| && d[k].plan.term == i {
      var k :| 0 <= k < |d| && d[k].plan.term == i;
      assert d[k].name != MisLabel;
      var j :| 0 <= j < |csv| && csv[j] == d[k].plan.file;
      assert MatchesTerm(csv[j], i);
    }
  }

  /**
   * There is a lump-sum item exactly when some CSV name, lower-cased,
   * contains "nico" or "unique"; it is the last item, has term 0 and the
   * first such name.
   */
  lemma LumpSumItem(csv: seq<string>)
    ensures (exists k :: 0 <= k < |Discovered(csv)| && Discovered(csv)[k].name == MisLabel)
        <==> (exists j :: 0 <= j < |csv| && IsMisName(csv[j]))
    ensures forall k :: 0 <= k < |Discovered(csv)| && Discovered(csv)[k].name == MisLabel ==>
      && k == |Discovered(csv)| - 1
      && Discovered(csv)[k].plan.term == 0
      && exists j :: IsFirst(csv, j, LumpSumTest) && Discovered(csv)[k].plan.file == csv[j]
  {
    var m: seq<Entry> := MssEntries(csv, LastTerm + 1);
    var d: seq<Entry> := Discovered(csv);
    NewMisLabel(csv);
    NoMisName(csv);
    MisEntryChosen(csv);
    assert forall k :: 0 <= k < |m| ==> d[k] == m[k] && m[k].name != MisLabel;
    assert forall k :: |m| <= k < |d| ==> d[k] == MisEntries(csv)[k - |m|];
    if exists j :: 0 <= j < |csv| && IsMisName(csv[j]) {
      assert d[|m|].name == MisLabel;
    }
  }

  /** The items come in the selector's order: the regular terms ascending, then the lump-sum item. */
  lemma DiscoveredOrder(csv: seq<string>)
    ensures forall k :: 0 <= k < |Discovered(csv)| - 1 ==> Discovered(csv)[k].name != MisLabel
    ensures forall a, b :: 0 <= a < b < |Discovered(csv)| && Discovered(csv)[b].name != MisLabel ==>
      Discovered(csv)[a].plan.term < Discovered(csv)[b].plan.term
  {
    var m: seq<Entry>, e: seq<Entry> := MssEntries(csv, LastTerm + 1), MisEntries(csv);
    var d: seq<Entry> := m + e;
    MssEntriesFacts(csv, LastTerm + 1);
    NewMisLabel(csv);
    forall k | 0 <= k < |d|
      ensures d[k] == (if k < |m| then m[k] else e[k - |m|])
      ensures d[k].name != MisLabel <==> k < |m|
    {
    }
  }

  /** No two items share a label: no assignment to `planes` overwrites an earlier one. */
  lemma DistinctLabels(csv: seq<string>)
    ensures forall a, b :: 0 <= a < b < |Discovered(csv)| ==> Discovered(csv)[a].name != Discovered(csv)[b].name
  {
    var d := Discovered(csv);
    RegularItems(csv);
    DiscoveredOrder(csv);
    forall a, b | 0 <= a < b < |d| ensures d[a].name != d[b].name {
      if d[b].name == MisLabel {
        MisLabelIsNotMss(d[a].plan.term);
      } else if d[a].name == d[b].name {
        MssLabelInjective(d[a].plan.term, d[b].plan.term);
      }
    }
  }

  /** `if not planes`: nothing is found exactly when no CSV name passes any of the tests. */
  lemma NothingFound(csv: seq<string>)
    ensures Discovered(csv) == [] <==>
      forall j :: 0 <= j < |csv| ==>
        !IsMisName(csv[j]) && forall i :: FirstTerm <= i <= LastTerm ==> !MatchesTerm(csv[j], i)
  {
    var d := Discovered(csv);
    LumpSumItem(csv);
    if d == [] {
      forall j, i | 0 <= j < |csv| && FirstTerm <= i <= LastTerm ensures !MatchesTerm(csv[j], i) {
        TermPresence(csv, i);
      }
    } else if d[0].name == MisLabel {
      assert exists j :: 0 <= j < |csv| && IsMisName(csv[j]);
    } else {
      RegularItems(csv);
      TermPresence(csv, d[0].plan.term);
    }
  }

  /**
   * Lines 89-90: choosing the option at position `k` of the selector,
   * `list(planes.keys())`, and looking it up in `planes` gives that item's plan.
   */
  lemma SelectedPlan(csv: seq<string>, k: nat)
    requires k < |Discovered(csv)|
    ensures PlanDict(Discovered(csv)).Get(PlanDict(Discovered(csv)).Keys()[k]) == Some(Discovered(csv)[k].plan)
  {
    var d := Discovered(csv);
    var planes := PlanDict(d);
    DistinctLabels(csv);
    assert planes.HasKey(d[k].name);
    var r := planes.Get(d[k].name);
    var k' :| 0 <= k' < |d| && d[k'] == Entry(d[k].name, r.value);
    assert k' == k;
  }

  /** Every regular item's term is a key of the cost-factor table; the lump-sum term 0 is not. */
  lemma TermsHaveCostFactors(csv: seq<string>)
    ensures forall k :: 0 <= k < |Discovered(csv)| ==>
      (Discovered(csv)[k].name != MisLabel <==> CostFactors.Lookup(Discovered(csv)[k].plan.term).Some?)
  {
    RegularItems(csv);
    LumpSumItem(csv);
  }

  /**
   * The "1" + digit skip of line 75 on a concrete name: the 15-year file fails
   * the 5-year test and passes its own.
   */
  lemma SkipRuleExample(name: string)
    requires name == "MSS 15.csv"
    ensures !MatchesTerm(name, 5) && MatchesTerm(name, 15)
  {
    assert DecimalText(5) == "5" && DecimalText(15) == "15";
    assert name[..3] == "MSS" && name[4..][..2] == "15";
    ContainsAt(name, "MSS", 0);
    ContainsAt(name, "15", 4);
  }

  /** The 5-year file itself passes the 5-year test: it holds no "15". */
  lemma OwnTermExample(name: string)
    requires name == "MSS 5.csv"
    ensures MatchesTerm(name, 5)
  {
    assert DecimalText(5) == "5" && "1" + DecimalText(5) == "15";
    assert name[..3] == "MSS" && name[4..][..1] == "5";
    ContainsAt(name, "MSS", 0);
    ContainsAt(name, "5", 4);
    if Contains(name, "15") {
      ContainsHasFirstChar(name, "15");
      assert false;
    }
  }

  /**
   * The "MSS" test of line 74 is case-sensitive and the lump-sum test of
   * line 81 is not: a lower-case "mss" name is never a regular plan, while
   * an upper-case "UNICO" name is the lump-sum plan.
   */
  lemma CaseExample(regular: string, lumpSum: string)
    requires regular == "mss 5.csv" && lumpSum == "UNICO.csv"
    ensures !MatchesTerm(regular, 5) && IsMisName(lumpSum)
  {
    if Contains(regular, "MSS") {
      ContainsHasFirstChar(regular, "MSS");
      assert false;
    }
    var l := Lower(lumpSum);
    assert l[1..][..4] == "nico" by {
      assert l[1] == 'n' && l[2] == 'i' && l[3] == 'c' && l[4] == 'o';
    }
    ContainsAt(l, "nico", 1);
  }

  /**
   * A name that carries a year: "2015" holds "15", so by the skip of line 75
   * the file is never the 5-year plan, while it passes the 15- and 20-year tests.
   */
  lemma YearInNameExample(name: string)
    requires name == "MSS 5 2015.csv"
    ensures !MatchesTerm(name, 5) && MatchesTerm(name, 15) && MatchesTerm(name, 20)
  {
    assert name[..3] == "MSS";
    ContainsAt(name, "MSS", 0);
    assert name[8..][..2] == "15";
    ContainsAt(name, "15", 8);
    assert !MatchesTerm(name, 5) by {
      assert "1" + DecimalText(5) == "15";
    }
    assert MatchesTerm(name, 15) by {
      assert DecimalText(15) == "15";
    }
    assert MatchesTerm(name, 20) by {
      assert DecimalText(20) == "20" && name[6..][..2] == "20";
      ContainsAt(name, "20", 6);
    }
  }
}
