/** What reconciliation promises: it fails only on what can be repaired here, and repairing works. */
module InFlightLaws {
  import opened Prelude
  import opened Ordering
  import opened InFlight

  // ----- Sifting -----

  ghost predicate Quiet(reports: seq<Report>) { forall r <- reports :: !r.fixable }

  lemma {:induction false} SiftQuiet(reports: seq<Report>)
    ensures Sift(reports, true) == [] <==> Quiet(reports)
    decreases |reports|
  {
    if reports != [] {
      var earlier, last := reports[..|reports| - 1], reports[|reports| - 1];
      SiftQuiet(earlier);
      assert reports == earlier + [last];
    }
  }

  lemma {:induction false} ForksReported(c: Case, prs: seq<PullRequest>)
    ensures forall r <- ForkReports(c, prs) :: !r.fixable && r.finding.FromFork?
    decreases |prs|
  {
    if prs != [] {
      ForksReported(c, prs[..|prs| - 1]);
    }
  }

  // ----- Branches and numbers -----

  lemma {:induction false} NamesKept(names: seq<string>)
    ensures forall name :: name in ByName(names) <==> name in names
  {
    if names != [] {
      NamesKept(names[1..]);
      NameInserted(names[0], ByName(names[1..]));
      assert names == [names[0]] + names[1..];
    }
  }

  lemma {:induction false} NameInserted(name: string, sorted: seq<string>)
    ensures forall other :: other in InsertName(name, sorted) <==> other == name || other in sorted
  {
    if sorted != [] {
      NameInserted(name, sorted[1..]);
      assert sorted == [sorted[0]] + sorted[1..];
    }
  }

  lemma {:induction false} BranchesLive(prs: seq<PullRequest>, branch: string)
    ensures branch in Branches(prs) <==> Live(prs, branch) != []
    decreases |prs|
  {
    if prs != [] {
      BranchesLive(prs[..|prs| - 1], branch);
    }
  }

  lemma {:induction false} LiveIsOpen(prs: seq<PullRequest>, branch: string)
    ensures forall number <- Live(prs, branch) :: IsOpen(prs, number)
    decreases |prs|
  {
    if prs != [] {
      var earlier, last := prs[..|prs| - 1], prs[|prs| - 1];
      LiveIsOpen(earlier, branch);
      assert prs == earlier + [last];
      forall number <- Live(prs, branch)
        ensures IsOpen(prs, number)
      {
        if number in Live(earlier, branch) {
          var pr :| pr in earlier && pr.number == number;
          assert pr in prs;
        } else {
          assert last in prs;
        }
      }
    }
  }

  lemma {:induction false} HeadIsOpen(prs: seq<PullRequest>, number: nat)
    ensures HeadOf(prs, number).Some? <==> IsOpen(prs, number)
    decreases |prs|
  {
    if prs != [] {
      var earlier, last := prs[..|prs| - 1], prs[|prs| - 1];
      HeadIsOpen(earlier, number);
      assert prs == earlier + [last];
    }
  }

  // ----- When there is nothing to fix here -----

  /** Nothing about the row can be fixed on the current branch: another branch's row is not stale,
      and the current branch's own row names its open pull request, or none if it has none. */
  ghost predicate RowFine(c: Case, row: Row) {
    if Own(c, row.branch) then
      c.open.Some? ==>
        match PrNumber(row)
        case Some(number) => number in Live(Prs(c), row.branch)
        case None => Live(Prs(c), row.branch) == []
    else !Stale(c, row)
  }

  lemma RowQuiet(c: Case, row: Row)
    requires OnWorkingBranch(c.current)
    ensures Quiet(RowReports(c, row)) <==> RowFine(c, row)
  {
    if PrNumber(row).Some? {
      HeadIsOpen(Prs(c), PrNumber(row).value);
    }
  }

  lemma BranchQuiet(c: Case, branch: string)
    ensures Quiet(BranchReports(c, branch))
      <==> (Own(c, branch) ==> |Live(Prs(c), branch)| <= 1 && Listed(c.rows, branch))
  {
    if Own(c, branch) {
      OwnBranchReports(c, branch);
    } else {
      assert forall r <- BranchReports(c, branch) :: !r.fixable;
    }
  }

  lemma OwnBranchReports(c: Case, branch: string)
    requires Own(c, branch)
    ensures Quiet(BranchReports(c, branch)) <==> |Live(Prs(c), branch)| <= 1 && Listed(c.rows, branch)
  {
    var numbers := Live(Prs(c), branch);
    var several, missing := Report(SeveralOpen(branch, numbers), true), Report(RowMissing(branch, numbers), true);
    assert BranchReports(c, branch)
      == (if |numbers| > 1 then [several] else []) + (if Listed(c.rows, branch) then [] else [missing]);
    QuietConcat(if |numbers| > 1 then [several] else [], if Listed(c.rows, branch) then [] else [missing]);
  }

  lemma QuietConcat(a: seq<Report>, b: seq<Report>)
    ensures Quiet(a + b) <==> Quiet(a) && Quiet(b)
  {
    assert forall r :: r in a + b <==> r in a || r in b;
  }

  lemma {:induction false} QuietAll<T>(things: seq<T>, about: T -> seq<Report>)
    ensures Quiet(Collect(things, about)) <==> forall thing <- things :: Quiet(about(thing))
    decreases |things|
  {
    if things != [] {
      var earlier, last := things[..|things| - 1], things[|things| - 1];
      QuietAll(earlier, about);
      QuietConcat(Collect(earlier, about), about(last));
      assert things == earlier + [last];
    }
  }

  lemma ReportsQuiet(c: Case)
    ensures Failures(c) == [] <==> (
      && (forall row <- c.rows :: Quiet(RowReports(c, row)))
      && (forall branch | Live(Prs(c), branch) != [] :: Quiet(BranchReports(c, branch))))
  {
    var branches := ByName(Branches(Prs(c)));
    SiftQuiet(Reports(c));
    ForksReported(c, Prs(c));
    NamesKept(Branches(Prs(c)));
    forall branch
      ensures branch in branches <==> Live(Prs(c), branch) != []
    {
      BranchesLive(Prs(c), branch);
    }
    QuietConcat(AllRowReports(c, c.rows), AllBranchReports(c, branches));
    QuietConcat(AllRowReports(c, c.rows) + AllBranchReports(c, branches), ForkReports(c, Prs(c)));
    QuietAll(c.rows, row => RowReports(c, row));
    QuietAll(branches, branch => BranchReports(c, branch));
  }

  /** On a working branch reconciliation passes exactly when no other branch's row is stale, the
      branch has at most one open pull request, it has a row if it has one, and its row says so. */
  lemma PassesExactly(c: Case)
    requires OnWorkingBranch(c.current)
    ensures Failures(c) == [] <==>
      && (forall row <- c.rows :: RowFine(c, row))
      && |Live(Prs(c), c.current.value)| <= 1
      && (Live(Prs(c), c.current.value) != [] ==> Listed(c.rows, c.current.value))
  {
    ReportsQuiet(c);
    forall row <- c.rows
      ensures Quiet(RowReports(c, row)) <==> RowFine(c, row)
    {
      RowQuiet(c, row);
    }
    forall branch
      ensures Quiet(BranchReports(c, branch))
        <==> (branch == c.current.value ==> |Live(Prs(c), branch)| <= 1 && Listed(c.rows, branch))
    {
      BranchQuiet(c, branch);
    }
  }

  /** Seen from main or a detached head, nothing fails. */
  lemma NothingFailsElsewhere(c: Case)
    requires !OnWorkingBranch(c.current)
    ensures Failures(c) == []
  {
    ReportsQuiet(c);
    forall branch
      ensures Quiet(BranchReports(c, branch))
    {
      BranchQuiet(c, branch);
    }
  }

  /** A row whose branch has an open pull request is never called stale. */
  lemma LiveRowsAreNotStale(c: Case, row: Row)
    requires Live(Prs(c), row.branch) != []
    ensures StalePr(row) !in Failures(c) + Notes(c) && StaleBranch(row) !in Failures(c) + Notes(c)
  {
    SiftFrom(Reports(c), true);
    SiftFrom(Reports(c), false);
    forall other
      ensures forall r <- RowReports(c, other) :: !CallsStale(r, row)
    {
      StaleRowOnly(c, other, row);
    }
    forall branch
      ensures forall r <- BranchReports(c, branch) :: !CallsStale(r, row)
    {
      StaleNeverForBranch(c, branch, row);
    }
    NeverCalled(c.rows, other => RowReports(c, other), row);
    NeverCalled(ByName(Branches(Prs(c))), branch => BranchReports(c, branch), row);
    ForksReported(c, Prs(c));
    assert forall r <- Reports(c) :: !CallsStale(r, row);
  }

  predicate CallsStale(r: Report, row: Row) { r.finding == StalePr(row) || r.finding == StaleBranch(row) }

  lemma {:induction false} NeverCalled<T>(things: seq<T>, about: T -> seq<Report>, row: Row)
    requires forall thing <- things, r <- about(thing) :: !CallsStale(r, row)
    ensures forall r <- Collect(things, about) :: !CallsStale(r, row)
    decreases |things|
  {
    if things != [] {
      assert things == things[..|things| - 1] + [things[|things| - 1]];
      NeverCalled(things[..|things| - 1], about, row);
    }
  }

  lemma StaleRowOnly(c: Case, other: Row, row: Row)
    requires Live(Prs(c), row.branch) != []
    ensures forall r <- RowReports(c, other) :: !CallsStale(r, row)
  {
  }

  lemma StaleNeverForBranch(c: Case, branch: string, row: Row)
    ensures forall r <- BranchReports(c, branch) :: !CallsStale(r, row)
  {
  }

  lemma {:induction false} SiftFrom(reports: seq<Report>, fixable: bool)
    ensures forall f <- Sift(reports, fixable) :: Report(f, fixable) in reports
    decreases |reports|
  {
    if reports != [] {
      SiftFrom(reports[..|reports| - 1], fixable);
      assert reports == reports[..|reports| - 1] + [reports[|reports| - 1]];
    }
  }

  // ----- Repair -----

  function DigitFor(d: nat): (c: char)
    requires d < 10
    ensures Digit(c) && (c - '0') as nat == d
  {
    ('0' as int + d) as char
  }

  function Decimal(n: nat): (r: string)
    ensures r != ""
  {
    (if n < 10 then "" else Decimal(n / 10)) + [DigitFor(n % 10)]
  }

  lemma ValueStep(digits: string, c: char)
    requires (forall d <- digits :: Digit(d)) && Digit(c)
    ensures (forall d <- digits + [c] :: Digit(d)) && Value(digits + [c]) == 10 * Value(digits) + (c - '0') as nat
  {
    assert (digits + [c])[..|digits|] == digits;
  }

  lemma {:induction false} DecimalReads(n: nat)
    ensures (forall c <- Decimal(n) :: Digit(c)) && Value(Decimal(n)) == n
  {
    if n < 10 {
      ValueStep("", DigitFor(n));
      assert Decimal(n) == "" + [DigitFor(n)];
    } else {
      DecimalReads(n / 10);
      ValueStep(Decimal(n / 10), DigitFor(n % 10));
    }
  }

  /** How a row names the first of some pull requests. */
  function PrText(numbers: seq<nat>): string { if numbers == [] then "-" else "#" + Decimal(numbers[0]) }

  function Wanted(numbers: seq<nat>): Option<nat> { if numbers == [] then None else Some(numbers[0]) }

  lemma PrTextReads(numbers: seq<nat>, row: Row)
    requires row.pr == PrText(numbers)
    ensures PrNumber(row) == Wanted(numbers)
  {
    if numbers != [] {
      DecimalReads(numbers[0]);
      assert row.pr[1..] == Decimal(numbers[0]);
    }
  }

  /** The row with its branch's open pull request, if it is the current branch's own. */
  function Mended(c: Case, row: Row): Row {
    var live := Live(Prs(c), row.branch);
    if !Own(c, row.branch) || c.open.None? || PrNumber(row) == Wanted(live) then row else row.(pr := PrText(live))
  }

  /** Other branches' stale rows are dropped and the own row is mended. */
  function Cleared(c: Case, rows: seq<Row>): seq<Row> {
    if rows == [] then []
    else
      var last := rows[|rows| - 1];
      Cleared(c, rows[..|rows| - 1]) + if !Own(c, last.branch) && Stale(c, last) then [] else [Mended(c, last)]
  }

  predicate NeedsRow(c: Case)
    requires OnWorkingBranch(c.current)
  {
    Live(Prs(c), c.current.value) != [] && !Listed(c.rows, c.current.value)
  }

  /** A new row for the current branch. */
  function NewRow(c: Case, draft: Row): Row
    requires OnWorkingBranch(c.current)
  {
    draft.(branch := c.current.value, pr := PrText(Live(Prs(c), c.current.value)))
  }

  function Repair(c: Case, draft: Row): seq<Row>
    requires OnWorkingBranch(c.current)
  {
    Cleared(c, c.rows) + if NeedsRow(c) then [NewRow(c, draft)] else []
  }

  lemma {:induction false} ClearedHolds(c: Case, rows: seq<Row>)
    ensures forall row :: (row in Cleared(c, rows) <==>
      exists was <- rows :: row == Mended(c, was) && (Own(c, was.branch) || !Stale(c, was)))
    decreases |rows|
  {
    if rows != [] {
      ClearedHolds(c, rows[..|rows| - 1]);
      assert rows == rows[..|rows| - 1] + [rows[|rows| - 1]];
    }
  }

  lemma MendedFine(c: Case, row: Row)
    requires Own(c, row.branch) || !Stale(c, row)
    ensures RowFine(c, Mended(c, row))
  {
    if Own(c, row.branch) && c.open.Some? {
      var live := Live(Prs(c), row.branch);
      PrTextReads(live, row.(pr := PrText(live)));
    }
  }

  /** Repairing the register makes reconciliation pass. */
  lemma RepairWorks(c: Case, draft: Row)
    requires OnWorkingBranch(c.current) && |Live(Prs(c), c.current.value)| <= 1
    ensures Failures(c.(rows := Repair(c, draft))) == []
  {
    var repaired := c.(rows := Repair(c, draft));
    var branch := c.current.value;
    ClearedHolds(c, c.rows);
    forall row <- repaired.rows
      ensures RowFine(repaired, row)
    {
      if row in Cleared(c, c.rows) {
        var was :| was in c.rows && row == Mended(c, was) && (Own(c, was.branch) || !Stale(c, was));
        MendedFine(c, was);
      } else {
        PrTextReads(Live(Prs(c), branch), row);
      }
      assert RowFine(c, row);
    }
    if Live(Prs(c), branch) != [] {
      if Listed(c.rows, branch) {
        var was :| was in c.rows && was.branch == branch;
        assert Mended(c, was) in Cleared(c, c.rows) && Mended(c, was) in repaired.rows;
      } else {
        assert NewRow(c, draft) in repaired.rows;
      }
    }
    PassesExactly(repaired);
  }

  /** Some register makes reconciliation pass exactly when the branch has at most one open pull request. */
  lemma RepairableExactly(c: Case, draft: Row)
    requires OnWorkingBranch(c.current)
    ensures (exists rows :: Failures(c.(rows := rows)) == []) <==> |Live(Prs(c), c.current.value)| <= 1
  {
    if |Live(Prs(c), c.current.value)| <= 1 {
      RepairWorks(c, draft);
    } else {
      forall rows
        ensures Failures(c.(rows := rows)) != []
      {
        PassesExactly(c.(rows := rows));
      }
    }
  }

  lemma {:induction false} ClearedShorter(c: Case, rows: seq<Row>)
    ensures |Cleared(c, rows)| <= |rows|
    decreases |rows|
  {
    if rows != [] {
      ClearedShorter(c, rows[..|rows| - 1]);
    }
  }

  /** The row stays as it is. */
  ghost predicate Untouched(c: Case, row: Row) { (Own(c, row.branch) || !Stale(c, row)) && Mended(c, row) == row }

  lemma SameEnds(a: seq<Row>, b: seq<Row>, x: Row, y: Row)
    ensures a + [x] == b + [y] <==> a == b && x == y
  {
    if a + [x] == b + [y] {
      assert |a| == |b|;
      assert (a + [x])[|a|] == x && (b + [y])[|a|] == y;
      assert (a + [x])[..|a|] == a && (b + [y])[..|a|] == b;
    }
  }

  lemma AllUntouched(c: Case, earlier: seq<Row>, last: Row)
    ensures (forall row <- earlier + [last] :: Untouched(c, row))
      <==> (forall row <- earlier :: Untouched(c, row)) && Untouched(c, last)
  {
    assert forall row :: row in earlier + [last] <==> row in earlier || row == last;
  }

  lemma ClearedStep(c: Case, earlier: seq<Row>, last: Row)
    ensures Cleared(c, earlier + [last])
      == Cleared(c, earlier) + if !Own(c, last.branch) && Stale(c, last) then [] else [Mended(c, last)]
  {
    assert (earlier + [last])[..|earlier|] == earlier;
  }

  /** A dropped row is missed. */
  lemma DroppedDiffers(c: Case, earlier: seq<Row>, last: Row)
    requires !Own(c, last.branch) && Stale(c, last)
    ensures Cleared(c, earlier + [last]) != earlier + [last]
  {
    ClearedStep(c, earlier, last);
    ClearedShorter(c, earlier);
    assert |Cleared(c, earlier + [last])| < |earlier + [last]|;
  }

  /** A kept row is the same exactly when it needs no mending. */
  lemma KeptSame(c: Case, earlier: seq<Row>, last: Row)
    requires Own(c, last.branch) || !Stale(c, last)
    ensures Cleared(c, earlier + [last]) == earlier + [last] <==> Cleared(c, earlier) == earlier && Mended(c, last) == last
  {
    ClearedStep(c, earlier, last);
    SameEnds(Cleared(c, earlier), earlier, Mended(c, last), last);
  }

  lemma {:induction false} ClearedSame(c: Case, rows: seq<Row>)
    ensures Cleared(c, rows) == rows <==> forall row <- rows :: Untouched(c, row)
    decreases |rows|
  {
    if rows != [] {
      var earlier, last := rows[..|rows| - 1], rows[|rows| - 1];
      assert rows == earlier + [last];
      ClearedSame(c, earlier);
      AllUntouched(c, earlier, last);
      if !Own(c, last.branch) && Stale(c, last) {
        DroppedDiffers(c, earlier, last);
      } else {
        KeptSame(c, earlier, last);
      }
    }
  }

  /** Reconciliation passes exactly when repairing would change nothing. */
  lemma PassingNeedsNoRepair(c: Case, draft: Row)
    requires OnWorkingBranch(c.current) && |Live(Prs(c), c.current.value)| <= 1
    ensures Failures(c) == [] <==> Repair(c, draft) == c.rows
  {
    PassesExactly(c);
    ClearedSame(c, c.rows);
    forall row <- c.rows
      ensures RowFine(c, row) <==> Untouched(c, row)
    {
      FineIsUntouched(c, row);
    }
    assert NeedsRow(c) ==> NewRow(c, draft) in Repair(c, draft);
  }

  lemma MendedSame(c: Case, row: Row)
    ensures Mended(c, row) == row
      <==> !Own(c, row.branch) || c.open.None? || PrNumber(row) == Wanted(Live(Prs(c), row.branch))
  {
    var live := Live(Prs(c), row.branch);
    if row.(pr := PrText(live)) == row {
      PrTextReads(live, row);
    }
  }

  lemma FineIsUntouched(c: Case, row: Row)
    requires OnWorkingBranch(c.current) && |Live(Prs(c), c.current.value)| <= 1
    ensures RowFine(c, row) <==> Untouched(c, row)
  {
    MendedSame(c, row);
    if Own(c, row.branch) {
      OneWanted(Live(Prs(c), row.branch), PrNumber(row));
    }
  }

  lemma OneWanted(live: seq<nat>, number: Option<nat>)
    requires |live| <= 1
    ensures number == Wanted(live) <==> if number.Some? then number.value in live else live == []
  {
  }

  // ----- Repair and the register's own rules -----

  /** No other branch's row names the current branch's open pull request. */
  ghost predicate NoneClaims(c: Case, rows: seq<Row>)
    requires OnWorkingBranch(c.current)
  {
    var live := Live(Prs(c), c.current.value);
    live != [] ==> forall row <- rows | row.branch != c.current.value :: PrNumber(row) != Some(live[0])
  }

  lemma PrTextOk(numbers: seq<nat>)
    ensures PrText(numbers) in UNSET || NamesPr(PrText(numbers))
  {
    if numbers != [] {
      DecimalReads(numbers[0]);
      assert PrText(numbers)[1..] == Decimal(numbers[0]);
    }
  }

  lemma MendedNumber(c: Case, row: Row)
    ensures Mended(c, row) == row || (Own(c, row.branch) && PrNumber(Mended(c, row)) == Wanted(Live(Prs(c), row.branch)))
    ensures Mended(c, row).branch == row.branch
    ensures FieldsOk(row) ==> FieldsOk(Mended(c, row))
  {
    var live := Live(Prs(c), row.branch);
    PrTextOk(live);
    PrTextReads(live, row.(pr := PrText(live)));
  }

  /** Mending keeps the rows of two branches apart. */
  lemma MendedApart(c: Case, x: Row, y: Row)
    requires OnWorkingBranch(c.current) && NoneClaims(c, [x, y])
    requires x.branch != y.branch && (PrNumber(y).Some? ==> PrNumber(x) != PrNumber(y))
    ensures Mended(c, x).branch != Mended(c, y).branch
    ensures PrNumber(Mended(c, y)).Some? ==> PrNumber(Mended(c, x)) != PrNumber(Mended(c, y))
  {
    MendedNumber(c, x);
    MendedNumber(c, y);
    assert x in [x, y] && y in [x, y];
  }

  lemma {:induction false} ClearedOk(c: Case, rows: seq<Row>)
    requires OnWorkingBranch(c.current) && RowsOk(rows) && NoneClaims(c, rows)
    ensures RowsOk(Cleared(c, rows))
    decreases |rows|
  {
    if rows != [] {
      var earlier, last := rows[..|rows| - 1], rows[|rows| - 1];
      assert rows == earlier + [last];
      RowsOkStep(earlier, last);
      ClearedOk(c, earlier);
      if Own(c, last.branch) || !Stale(c, last) {
        MendedNumber(c, last);
        ClearedHolds(c, earlier);
        forall other <- Cleared(c, earlier)
          ensures other.branch != last.branch
          ensures PrNumber(Mended(c, last)).Some? ==> PrNumber(other) != PrNumber(Mended(c, last))
        {
          var was :| was in earlier && other == Mended(c, was);
          MendedApart(c, was, last);
        }
        RowsOkStep(Cleared(c, earlier), Mended(c, last));
      }
    }
  }

  lemma NewRowOk(c: Case, draft: Row)
    requires OnWorkingBranch(c.current) && NeedsRow(c) && RowsOk(Cleared(c, c.rows)) && NoneClaims(c, c.rows)
    requires c.current.value !in UNSET && FieldsOk(NewRow(c, draft))
    ensures RowsOk(Repair(c, draft))
  {
    var row := NewRow(c, draft);
    PrTextReads(Live(Prs(c), c.current.value), row);
    ClearedHolds(c, c.rows);
    forall other <- Cleared(c, c.rows)
      ensures other.branch != row.branch && PrNumber(other) != PrNumber(row)
    {
      var was :| was in c.rows && other == Mended(c, was);
      MendedNumber(c, was);
      assert was.branch != c.current.value;
    }
    RowsOkStep(Cleared(c, c.rows), row);
  }

  /** The current branch's open pull request is named by its own row after the repair. */
  lemma OwnRowNames(c: Case, draft: Row) returns (own: Row)
    requires OnWorkingBranch(c.current) && Live(Prs(c), c.current.value) != []
    ensures own in Repair(c, draft) && own.branch == c.current.value
    ensures PrNumber(own) == Some(Live(Prs(c), c.current.value)[0])
  {
    var live := Live(Prs(c), c.current.value);
    if Listed(c.rows, c.current.value) {
      var was :| was in c.rows && was.branch == c.current.value;
      own := Mended(c, was);
      ClearedHolds(c, c.rows);
      PrTextReads(live, was.(pr := PrText(live)));
    } else {
      own := NewRow(c, draft);
      PrTextReads(live, own);
    }
  }

  /** A valid register repaired is valid exactly when no other branch's row names the current
      branch's open pull request: the repair leaves such a row alone. */
  lemma RepairStaysValidExactly(c: Case, draft: Row)
    requires OnWorkingBranch(c.current) && RowsOk(c.rows)
    requires c.current.value !in UNSET && FieldsOk(NewRow(c, draft))
    ensures RowsOk(Repair(c, draft)) <==> NoneClaims(c, c.rows)
  {
    if NoneClaims(c, c.rows) {
      ClearedOk(c, c.rows);
      if NeedsRow(c) {
        NewRowOk(c, draft);
      }
    } else {
      var live := Live(Prs(c), c.current.value);
      var claim :| claim in c.rows && claim.branch != c.current.value && PrNumber(claim) == Some(live[0]);
      LiveIsOpen(Prs(c), c.current.value);
      ClearedHolds(c, c.rows);
      assert claim == Mended(c, claim) && claim in Repair(c, draft);
      var own := OwnRowNames(c, draft);
      TwoClaims(Repair(c, draft), claim, own);
    }
  }

  lemma TwoClaims(rows: seq<Row>, x: Row, y: Row)
    requires x in rows && y in rows && x != y && PrNumber(x).Some? && PrNumber(x) == PrNumber(y)
    ensures !RowsOk(rows)
  {
    var i :| 0 <= i < |rows| && rows[i] == x;
    var j :| 0 <= j < |rows| && rows[j] == y;
    assert PrNumber(rows[i]) == PrNumber(rows[j]);
    assert i < j || j < i;
  }
}
