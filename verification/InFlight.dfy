/** The register of branches in flight and its reconciliation with the open pull requests
    (scripts/check_in_flight.py). */
module InFlight {
  import opened Prelude
  import opened Ordering

  // ----- Rows and pull requests -----

  datatype Row = Row(
    order: string, branch: string, agent: string, pr: string, base: string, state: string, updated: string, line: nat)

  datatype PullRequest = PullRequest(number: nat, branch: string, fork: Option<string>)

  const STATES: set<string> := {"in flight", "in review", "green", "blocked"}
  const UNSET: set<string> := {"\U{2014}", "-", ""}

  predicate Digit(c: char) { '0' <= c <= '9' }

  /** The number some decimal digits denote. */
  function Value(digits: string): nat
    requires forall c <- digits :: Digit(c)
  {
    assert digits != "" ==> Digit(digits[|digits| - 1]);
    if digits == "" then 0 else 10 * Value(digits[..|digits| - 1]) + (digits[|digits| - 1] - '0') as nat
  }

  predicate NamesPr(pr: string) { |pr| >= 2 && pr[0] == '#' && forall c <- pr[1..] :: Digit(c) }

  function PrNumber(row: Row): Option<nat> { if NamesPr(row.pr) then Some(Value(row.pr[1..])) else None }

  predicate Sha(s: string) { 7 <= |s| <= 40 && forall c <- s :: Digit(c) || 'a' <= c <= 'f' }

  predicate Date(s: string) {
    |s| == 10 && s[4] == '-' && s[7] == '-' && forall i | 0 <= i < 10 && i != 4 && i != 7 :: Digit(s[i])
  }

  function Head(pr: PullRequest): string {
    if pr.fork.Some? && pr.fork.value != "" then pr.fork.value + ":" + pr.branch else pr.branch
  }

  // ----- A row on its own -----

  predicate FieldsOk(row: Row) {
    && row.state in STATES && (row.base in UNSET || Sha(row.base)) && (row.pr in UNSET || NamesPr(row.pr))
    && Date(row.updated) && row.agent !in UNSET && row.order !in UNSET
  }

  predicate RowsOk(rows: seq<Row>) {
    && (forall row <- rows :: row.branch !in UNSET && FieldsOk(row))
    && (forall i, j | 0 <= i < j < |rows| ::
          rows[i].branch != rows[j].branch && (PrNumber(rows[i]).Some? ==> PrNumber(rows[i]) != PrNumber(rows[j])))
  }

  datatype Problem =
    | NoBranch(row: Row) | BranchTwice(row: Row) | BadState(row: Row) | BadBase(row: Row) | BadPr(row: Row)
    | BadDate(row: Row) | NoAgent(row: Row) | NoOrder(row: Row) | PrTwice(row: Row)

  method ValidateFields(row: Row) returns (problems: seq<Problem>)
    ensures problems == [] <==> FieldsOk(row)
  {
    problems := [];
    if row.state !in STATES {
      problems := problems + [BadState(row)];
    }
    if row.base !in UNSET && !Sha(row.base) {
      problems := problems + [BadBase(row)];
    }
    if row.pr !in UNSET && !NamesPr(row.pr) {
      problems := problems + [BadPr(row)];
    }
    if !Date(row.updated) {
      problems := problems + [BadDate(row)];
    }
    if row.agent in UNSET {
      problems := problems + [NoAgent(row)];
    }
    if row.order in UNSET {
      problems := problems + [NoOrder(row)];
    }
  }

  /** A register without problems is one whose rows are well formed and name each branch and each
      pull request once. */
  method ValidateRows(rows: seq<Row>) returns (problems: seq<Problem>)
    ensures problems == [] <==> RowsOk(rows)
  {
    problems := [];
    var seen: set<string>, seenPrs: set<nat> := {}, {};
    for i := 0 to |rows|
      invariant problems == [] <==> RowsOk(rows[..i])
      invariant problems == [] ==> seen == (set row <- rows[..i] :: row.branch)
      invariant problems == [] ==> seenPrs == (set row <- rows[..i] | PrNumber(row).Some? :: PrNumber(row).value)
    {
      var row := rows[i];
      assert rows[..i + 1] == rows[..i] + [row];
      RowsOkStep(rows[..i], row);
      if row.branch in UNSET {
        problems := problems + [NoBranch(row)];
        continue;
      }
      if row.branch in seen {
        problems := problems + [BranchTwice(row)];
      }
      seen := seen + {row.branch};
      var fields := ValidateFields(row);
      problems := problems + fields;
      var number := PrNumber(row);
      if number.Some? {
        if number.value in seenPrs {
          problems := problems + [PrTwice(row)];
        }
        seenPrs := seenPrs + {number.value};
      }
    }
    assert rows[..|rows|] == rows;
  }

  lemma {:induction false} RowsOkStep(rows: seq<Row>, row: Row)
    ensures RowsOk(rows + [row]) <==>
      && RowsOk(rows) && row.branch !in UNSET && FieldsOk(row)
      && (forall other <- rows :: other.branch != row.branch)
      && (PrNumber(row).Some? ==> forall other <- rows :: PrNumber(other) != PrNumber(row))
  {
    var all := rows + [row];
    assert forall i | 0 <= i < |rows| :: all[i] == rows[i];
    if RowsOk(all) {
      assert row in all;
      forall other <- rows
        ensures other in all && other.branch != row.branch && (PrNumber(row).Some? ==> PrNumber(other) != PrNumber(row))
      {
        var i :| 0 <= i < |rows| && rows[i] == other;
        assert all[i] == other && all[|rows|] == row;
      }
    }
  }

  // ----- Findings -----

  datatype Finding =
    | LiveUnnamed(row: Row, live: seq<nat>)
    | LiveMisnamed(row: Row, live: seq<nat>)
    | StalePr(row: Row)
    | StaleBranch(row: Row)
    | OpenElsewhere(row: Row, head: string)
    | SeveralOpen(branch: string, numbers: seq<nat>)
    | RowMissing(branch: string, numbers: seq<nat>)
    | RowElsewhere(branch: string, numbers: seq<nat>)
    | FromFork(pr: PullRequest)

  /** Something found, and whether it can be fixed from here. */
  datatype Report = Report(finding: Finding, fixable: bool)

  /** What a reconciliation looks at; a fact that could not be gathered is absent. */
  datatype Case = Case(
    rows: seq<Row>, open: Option<seq<PullRequest>>, remote: Option<set<string>>, current: Option<string>)

  predicate OnWorkingBranch(current: Option<string>) { current.Some? && current.value != "main" }

  predicate Own(c: Case, branch: string) { OnWorkingBranch(c.current) && c.current == Some(branch) }

  function Insert(pr: PullRequest, sorted: seq<PullRequest>): seq<PullRequest> {
    if sorted == [] || pr.number <= sorted[0].number then [pr] + sorted else [sorted[0]] + Insert(pr, sorted[1..])
  }

  /** The stable sort by number. */
  function ByNumber(prs: seq<PullRequest>): seq<PullRequest> {
    if prs == [] then [] else Insert(prs[0], ByNumber(prs[1..]))
  }

  function Prs(c: Case): seq<PullRequest> { if c.open.Some? then ByNumber(c.open.value) else [] }

  /** The open pull requests of a branch here. */
  function Live(prs: seq<PullRequest>, branch: string): seq<nat> {
    if prs == [] then []
    else
      var last := prs[|prs| - 1];
      Live(prs[..|prs| - 1], branch) + if last.fork.None? && last.branch == branch then [last.number] else []
  }

  function HeadOf(prs: seq<PullRequest>, number: nat): Option<string> {
    if prs == [] then None
    else if prs[|prs| - 1].number == number then Some(Head(prs[|prs| - 1]))
    else HeadOf(prs[..|prs| - 1], number)
  }

  predicate IsOpen(prs: seq<PullRequest>, number: nat) { exists pr <- prs :: pr.number == number }

  /** The work the row announces has finished, as far as can be told. */
  predicate Stale(c: Case, row: Row) {
    && Live(Prs(c), row.branch) == []
    && match PrNumber(row)
       case Some(number) => c.open.Some? && !IsOpen(Prs(c), number)
       case None => c.remote.Some? && row.branch !in c.remote.value && c.current != Some(row.branch)
  }

  function RowReports(c: Case, row: Row): seq<Report> {
    var (live, number, own) := (Live(Prs(c), row.branch), PrNumber(row), Own(c, row.branch));
    if live != [] then
      if number.None? then [Report(LiveUnnamed(row, live), own)]
      else if number.value !in live then [Report(LiveMisnamed(row, live), own)]
      else []
    else if Stale(c, row) then
      [Report(if number.Some? then StalePr(row) else StaleBranch(row), OnWorkingBranch(c.current))]
    else if number.Some? && HeadOf(Prs(c), number.value).Some? then
      [Report(OpenElsewhere(row, HeadOf(Prs(c), number.value).value), own)]
    else []
  }

  /** What is reported about each of some things, in order. */
  function Collect<T>(things: seq<T>, about: T -> seq<Report>): seq<Report> {
    if things == [] then [] else Collect(things[..|things| - 1], about) + about(things[|things| - 1])
  }

  lemma {:induction false} CollectStep<T>(things: seq<T>, next: T, about: T -> seq<Report>)
    ensures Collect(things + [next], about) == Collect(things, about) + about(next)
  {
    assert (things + [next])[..|things|] == things;
  }

  function AllRowReports(c: Case, rows: seq<Row>): seq<Report> { Collect(rows, row => RowReports(c, row)) }

  predicate Listed(rows: seq<Row>, branch: string) { exists row <- rows :: row.branch == branch }

  predicate Claimed(rows: seq<Row>, number: nat) { exists row <- rows :: PrNumber(row) == Some(number) }

  function Unclaimed(rows: seq<Row>, numbers: seq<nat>): seq<nat> {
    if numbers == [] then []
    else
      var last := numbers[|numbers| - 1];
      Unclaimed(rows, numbers[..|numbers| - 1]) + if Claimed(rows, last) then [] else [last]
  }

  function BranchReports(c: Case, branch: string): seq<Report> {
    var (numbers, own) := (Live(Prs(c), branch), Own(c, branch));
    var several := if |numbers| > 1 then [Report(SeveralOpen(branch, numbers), own)] else [];
    if Listed(c.rows, branch) then several
    else if own then several + [Report(RowMissing(branch, numbers), true)]
    else
      var unclaimed := Unclaimed(c.rows, numbers);
      several + if unclaimed != [] then [Report(RowElsewhere(branch, unclaimed), false)] else []
  }

  function AllBranchReports(c: Case, branches: seq<string>): seq<Report> {
    Collect(branches, branch => BranchReports(c, branch))
  }

  /** The branches with pull requests, in the order met. */
  function Branches(prs: seq<PullRequest>): seq<string> {
    if prs == [] then []
    else
      var earlier, last := Branches(prs[..|prs| - 1]), prs[|prs| - 1];
      if last.fork.Some? || last.branch in earlier then earlier else earlier + [last.branch]
  }

  function InsertName(name: string, sorted: seq<string>): seq<string> {
    if sorted == [] || !StringLess(sorted[0], name) then [name] + sorted else [sorted[0]] + InsertName(name, sorted[1..])
  }

  function ByName(names: seq<string>): seq<string> {
    if names == [] then [] else InsertName(names[0], ByName(names[1..]))
  }

  function ForkReports(c: Case, prs: seq<PullRequest>): seq<Report> {
    if prs == [] then []
    else
      var last := prs[|prs| - 1];
      ForkReports(c, prs[..|prs| - 1])
      + if last.fork.Some? && !Claimed(c.rows, last.number) then [Report(FromFork(last), false)] else []
  }

  /** Everything found, in order. */
  function Reports(c: Case): seq<Report> {
    AllRowReports(c, c.rows) + AllBranchReports(c, ByName(Branches(Prs(c)))) + ForkReports(c, Prs(c))
  }

  /** The findings of those reports that can, or cannot, be fixed from here. */
  function Sift(reports: seq<Report>, fixable: bool): seq<Finding> {
    if reports == [] then []
    else
      var last := reports[|reports| - 1];
      Sift(reports[..|reports| - 1], fixable) + if last.fixable == fixable then [last.finding] else []
  }

  function Failures(c: Case): seq<Finding> { Sift(Reports(c), true) }

  function Notes(c: Case): seq<Finding> { Sift(Reports(c), false) }

  // ----- The loops -----

  lemma {:induction false} BranchesStep(c: Case, branches: seq<string>, branch: string, before: seq<Report>)
    ensures before + AllBranchReports(c, branches + [branch])
      == before + AllBranchReports(c, branches) + BranchReports(c, branch)
  {
    CollectStep(branches, branch, b => BranchReports(c, b));
  }

  lemma {:induction false} RowsStep(c: Case, rows: seq<Row>, row: Row)
    ensures AllRowReports(c, rows + [row]) == AllRowReports(c, rows) + RowReports(c, row)
  {
    CollectStep(rows, row, r => RowReports(c, r));
  }

  /** Where findings go. */
  class Reconciler {
    var failures: seq<Finding>
    var notes: seq<Finding>
    /** Everything reported so far. */
    ghost var reported: seq<Report>

    ghost predicate Valid()
      reads this
    {
      failures == Sift(reported, true) && notes == Sift(reported, false)
    }

    constructor ()
      ensures Valid() && reported == []
    {
      failures, notes, reported := [], [], [];
    }

    method Put(finding: Finding, fixable: bool)
      requires Valid()
      modifies this
      ensures Valid() && reported == old(reported) + [Report(finding, fixable)]
    {
      if fixable {
        failures := failures + [finding];
      } else {
        notes := notes + [finding];
      }
      reported := reported + [Report(finding, fixable)];
      assert reported[..|reported| - 1] == old(reported);
    }

    /** The numbers open on each branch here, and those branches in the order met. */
    method GroupByBranch(prs: seq<PullRequest>) returns (onBranch: map<string, seq<nat>>, branches: seq<string>)
      ensures branches == Branches(prs)
      ensures forall branch :: branch in onBranch <==> branch in branches
      ensures forall branch :: Live(prs, branch) == if branch in onBranch then onBranch[branch] else []
    {
      onBranch, branches := map[], [];
      for i := 0 to |prs|
        invariant branches == Branches(prs[..i])
        invariant forall branch :: branch in onBranch <==> branch in branches
        invariant forall branch :: Live(prs[..i], branch) == if branch in onBranch then onBranch[branch] else []
      {
        var pr := prs[i];
        assert prs[..i + 1][..i] == prs[..i];
        if pr.fork.None? {
          if pr.branch !in onBranch {
            branches := branches + [pr.branch];
          }
          var earlier := if pr.branch in onBranch then onBranch[pr.branch] else [];
          onBranch := onBranch[pr.branch := earlier + [pr.number]];
        }
      }
      assert prs[..|prs|] == prs;
    }

    method HeadsByNumber(prs: seq<PullRequest>) returns (headOf: map<nat, string>)
      ensures forall number :: HeadOf(prs, number) == if number in headOf then Some(headOf[number]) else None
    {
      headOf := map[];
      for i := 0 to |prs|
        invariant forall number :: HeadOf(prs[..i], number) == if number in headOf then Some(headOf[number]) else None
      {
        assert prs[..i + 1][..i] == prs[..i];
        headOf := headOf[prs[i].number := Head(prs[i])];
      }
      assert prs[..|prs|] == prs;
    }

    method JudgeRow(c: Case, row: Row, live: seq<nat>, head: Option<string>)
      requires Valid()
      requires live == Live(Prs(c), row.branch)
      requires head == if PrNumber(row).Some? then HeadOf(Prs(c), PrNumber(row).value) else None
      modifies this
      ensures Valid() && reported == old(reported) + RowReports(c, row)
    {
      var own, number := Own(c, row.branch), PrNumber(row);
      if live != [] {
        if number.None? {
          Put(LiveUnnamed(row, live), own);
        } else if number.value !in live {
          Put(LiveMisnamed(row, live), own);
        }
        return;
      }
      var stale: bool;
      if number.Some? {
        if c.open.None? {
          assert head.None?;
          return;
        }
        stale := !IsOpen(Prs(c), number.value);
      } else {
        stale := c.remote.Some? && row.branch !in c.remote.value && c.current != Some(row.branch);
      }
      if stale {
        Put(if number.Some? then StalePr(row) else StaleBranch(row), OnWorkingBranch(c.current));
        return;
      }
      if head.Some? {
        Put(OpenElsewhere(row, head.value), own);
      }
    }

    method JudgeBranch(c: Case, branch: string, numbers: seq<nat>)
      requires Valid()
      requires numbers == Live(Prs(c), branch)
      modifies this
      ensures Valid() && reported == old(reported) + BranchReports(c, branch)
    {
      var own := Own(c, branch);
      if |numbers| > 1 {
        Put(SeveralOpen(branch, numbers), own);
      }
      if Listed(c.rows, branch) {
        return;
      }
      if own {
        Put(RowMissing(branch, numbers), true);
        return;
      }
      var unclaimed := Unclaimed(c.rows, numbers);
      if unclaimed != [] {
        Put(RowElsewhere(branch, unclaimed), false);
      }
    }

    /** One row, judged by what the dictionaries say of its branch and its number. */
    method JudgeListed(c: Case, row: Row, onBranch: map<string, seq<nat>>, headOf: map<nat, string>)
      requires Valid()
      requires forall branch :: Live(Prs(c), branch) == if branch in onBranch then onBranch[branch] else []
      requires forall number :: HeadOf(Prs(c), number) == if number in headOf then Some(headOf[number]) else None
      modifies this
      ensures Valid() && reported == old(reported) + RowReports(c, row)
    {
      var live := if row.branch in onBranch then onBranch[row.branch] else [];
      var number := PrNumber(row);
      var head := if number.Some? && number.value in headOf then Some(headOf[number.value]) else None;
      JudgeRow(c, row, live, head);
    }

    method JudgeRows(c: Case, onBranch: map<string, seq<nat>>, headOf: map<nat, string>)
      requires Valid() && reported == []
      requires forall branch :: Live(Prs(c), branch) == if branch in onBranch then onBranch[branch] else []
      requires forall number :: HeadOf(Prs(c), number) == if number in headOf then Some(headOf[number]) else None
      modifies this
      ensures Valid() && reported == AllRowReports(c, c.rows)
    {
      for i := 0 to |c.rows|
        invariant Valid() && reported == AllRowReports(c, c.rows[..i])
      {
        var row := c.rows[i];
        assert c.rows[..i + 1] == c.rows[..i] + [row];
        RowsStep(c, c.rows[..i], row);
        JudgeListed(c, row, onBranch, headOf);
      }
      assert c.rows[..|c.rows|] == c.rows;
    }

    method JudgeBranches(c: Case, onBranch: map<string, seq<nat>>, branches: seq<string>)
      requires Valid()
      requires forall branch :: Live(Prs(c), branch) == if branch in onBranch then onBranch[branch] else []
      modifies this
      ensures Valid() && reported == old(reported) + AllBranchReports(c, branches)
    {
      for i := 0 to |branches|
        invariant Valid() && reported == old(reported) + AllBranchReports(c, branches[..i])
      {
        BranchesStep(c, branches[..i], branches[i], old(reported));
        assert branches[..i + 1] == branches[..i] + [branches[i]];
        JudgeBranch(c, branches[i], if branches[i] in onBranch then onBranch[branches[i]] else []);
      }
      assert branches[..|branches|] == branches;
    }

    method JudgeForks(c: Case, prs: seq<PullRequest>)
      requires Valid()
      modifies this
      ensures Valid() && reported == old(reported) + ForkReports(c, prs)
    {
      for i := 0 to |prs|
        invariant Valid() && reported == old(reported) + ForkReports(c, prs[..i])
      {
        assert prs[..i + 1][..i] == prs[..i];
        if prs[i].fork.Some? && !Claimed(c.rows, prs[i].number) {
          Put(FromFork(prs[i]), false);
        }
      }
      assert prs[..|prs|] == prs;
    }

    /** Compares the register with the repository. */
    method Reconcile(c: Case)
      requires Valid() && reported == []
      modifies this
      ensures failures == Failures(c) && notes == Notes(c)
    {
      var prs := Prs(c);
      var onBranch, met := GroupByBranch(prs);
      var headOf := HeadsByNumber(prs);
      JudgeRows(c, onBranch, headOf);
      JudgeBranches(c, onBranch, ByName(met));
      JudgeForks(c, prs);
    }
  }
}
