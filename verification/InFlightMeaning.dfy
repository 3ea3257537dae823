/** What a reconciliation reports, told from the register and the pull requests alone. */
module InFlightMeaning {
  import opened Prelude
  import opened Ordering
  import opened InFlight
  import opened InFlightLaws

  // ----- Rows -----

  /** Letter by letter: `d` stands for a decimal digit. */
  predicate Fits(text: string, pattern: string) {
    |text| == |pattern| && forall i | 0 <= i < |text| :: if pattern[i] == 'd' then text[i] in "0123456789" else text[i] == pattern[i]
  }

  lemma DigitExactly(c: char)
    ensures Digit(c) <==> c in "0123456789"
  {
    if Digit(c) {
      assert "0123456789"[c as int - '0' as int] == c;
    }
  }

  lemma DateExactly(text: string)
    ensures Date(text) <==> Fits(text, "dddd-dd-dd")
  {
    var pattern := "dddd-dd-dd";
    forall i | 0 <= i < |text|
      ensures Digit(text[i]) <==> text[i] in "0123456789"
    {
      DigitExactly(text[i]);
    }
    assert pattern[4] == '-' && pattern[7] == '-';
    assert forall i | 0 <= i < 10 && i != 4 && i != 7 :: pattern[i] == 'd';
  }

  /** A row with its cells filled in as they should be. */
  predicate Filled(row: Row) {
    && (row.state == "in flight" || row.state == "in review" || row.state == "green" || row.state == "blocked")
    && (Empty(row.base) || (7 <= |row.base| <= 40 && forall c <- row.base :: c in "0123456789abcdef"))
    && (Empty(row.pr) || (|row.pr| >= 2 && row.pr[0] == '#' && forall c <- row.pr[1..] :: c in "0123456789"))
    && Fits(row.updated, "dddd-dd-dd") && !Empty(row.agent) && !Empty(row.order)
  }

  /** A dash of either kind, or nothing. */
  predicate Empty(cell: string) { cell == "" || cell == "-" || cell == "\U{2014}" }

  lemma HexExactly(c: char)
    ensures Digit(c) || 'a' <= c <= 'f' <==> c in "0123456789abcdef"
  {
    var hex := "0123456789abcdef";
    if Digit(c) {
      assert hex[c as int - '0' as int] == c;
    } else if 'a' <= c <= 'f' {
      assert hex[10 + (c as int - 'a' as int)] == c;
    }
  }

  lemma FieldsExactly(row: Row)
    ensures FieldsOk(row) <==> Filled(row)
  {
    DateExactly(row.updated);
    forall c
      ensures Digit(c) <==> c in "0123456789"
      ensures Digit(c) || 'a' <= c <= 'f' <==> c in "0123456789abcdef"
    {
      DigitExactly(c);
      HexExactly(c);
    }
  }

  /** A register is in order when its rows name their branches and are filled in, and no branch and no pull
      request has two of them. */
  lemma RegisterExactly(rows: seq<Row>)
    ensures RowsOk(rows) <==>
      && (forall row <- rows :: !Empty(row.branch) && Filled(row))
      && (forall i, j | 0 <= i < |rows| && 0 <= j < |rows| && i != j ::
            rows[i].branch != rows[j].branch && (PrNumber(rows[i]).None? || PrNumber(rows[i]) != PrNumber(rows[j])))
  {
    forall row
      ensures FieldsOk(row) <==> Filled(row)
    {
      FieldsExactly(row);
    }
    if RowsOk(rows) {
      forall i, j | 0 <= i < |rows| && 0 <= j < |rows| && i != j
        ensures rows[i].branch != rows[j].branch && (PrNumber(rows[i]).None? || PrNumber(rows[i]) != PrNumber(rows[j]))
      {
        if i < j {
          assert rows[i].branch != rows[j].branch;
        } else {
          assert rows[j].branch != rows[i].branch;
        }
      }
    }
  }

  // ----- Pull requests -----

  /** The numbers of the open pull requests of a branch here, each as often as it is listed. */
  function NumbersOf(prs: seq<PullRequest>, branch: string): multiset<nat> {
    if prs == [] then multiset{}
    else
      (if prs[0].fork.None? && prs[0].branch == branch then multiset{prs[0].number} else multiset{}) + NumbersOf(prs[1..], branch)
  }

  predicate Ascend(numbers: seq<nat>) { forall i, j | 0 <= i < j < |numbers| :: numbers[i] <= numbers[j] }

  predicate ByNumbers(prs: seq<PullRequest>) { forall i, j | 0 <= i < j < |prs| :: prs[i].number <= prs[j].number }

  lemma {:induction false} NumbersJoin(a: seq<PullRequest>, b: seq<PullRequest>, branch: string)
    ensures NumbersOf(a + b, branch) == NumbersOf(a, branch) + NumbersOf(b, branch)
  {
    if a == [] {
      assert a + b == b;
    } else {
      assert (a + b)[1..] == a[1..] + b;
      NumbersJoin(a[1..], b, branch);
    }
  }

  lemma {:induction false} InsertKeepsNumbers(pr: PullRequest, sorted: seq<PullRequest>, branch: string)
    ensures NumbersOf(Insert(pr, sorted), branch) == NumbersOf([pr] + sorted, branch)
  {
    assert ([pr] + sorted)[1..] == sorted;
    if sorted != [] && pr.number > sorted[0].number {
      var rest := Insert(pr, sorted[1..]);
      InsertKeepsNumbers(pr, sorted[1..], branch);
      assert ([sorted[0]] + rest)[1..] == rest && ([pr] + sorted[1..])[1..] == sorted[1..];
    }
  }

  lemma {:induction false} InsertKeepsAll(pr: PullRequest, sorted: seq<PullRequest>)
    ensures forall x :: x in Insert(pr, sorted) <==> x == pr || x in sorted
  {
    if sorted != [] && pr.number > sorted[0].number {
      InsertKeepsAll(pr, sorted[1..]);
      assert sorted == [sorted[0]] + sorted[1..];
    }
  }

  lemma {:induction false} InsertKeepsOrder(pr: PullRequest, sorted: seq<PullRequest>)
    requires ByNumbers(sorted)
    ensures ByNumbers(Insert(pr, sorted))
  {
    if sorted != [] && pr.number > sorted[0].number {
      var rest := Insert(pr, sorted[1..]);
      InsertKeepsOrder(pr, sorted[1..]);
      InsertKeepsAll(pr, sorted[1..]);
      forall x <- rest
        ensures sorted[0].number <= x.number
      {
        FirstLeast(sorted, x);
      }
      HeadLeast(sorted[0], rest);
    } else {
      forall x <- sorted
        ensures pr.number <= x.number
      {
        FirstLeast(sorted, x);
      }
      HeadLeast(pr, sorted);
    }
  }

  lemma FirstLeast(sorted: seq<PullRequest>, x: PullRequest)
    requires ByNumbers(sorted) && sorted != []
    ensures x in sorted || x in sorted[1..] ==> sorted[0].number <= x.number
  {
    if x in sorted {
      var i :| 0 <= i < |sorted| && sorted[i] == x;
      assert i > 0 ==> sorted[0].number <= sorted[i].number;
    }
  }

  lemma HeadLeast(pr: PullRequest, rest: seq<PullRequest>)
    requires ByNumbers(rest) && forall x <- rest :: pr.number <= x.number
    ensures ByNumbers([pr] + rest)
  {
    var all := [pr] + rest;
    forall i, j | 0 <= i < j < |all|
      ensures all[i].number <= all[j].number
    {
      assert all[j] == rest[j - 1];
      if i > 0 {
        assert all[i] == rest[i - 1];
      } else {
        assert rest[j - 1] in rest;
      }
    }
  }

  lemma {:induction false} SortKeepsNumbers(prs: seq<PullRequest>, branch: string)
    ensures NumbersOf(ByNumber(prs), branch) == NumbersOf(prs, branch)
    ensures forall x :: x in ByNumber(prs) <==> x in prs
    ensures ByNumbers(ByNumber(prs))
  {
    if prs != [] {
      SortKeepsNumbers(prs[1..], branch);
      InsertKeepsNumbers(prs[0], ByNumber(prs[1..]), branch);
      InsertKeepsAll(prs[0], ByNumber(prs[1..]));
      InsertKeepsOrder(prs[0], ByNumber(prs[1..]));
      assert ([prs[0]] + ByNumber(prs[1..]))[1..] == ByNumber(prs[1..]);
      assert prs == [prs[0]] + prs[1..];
    }
  }

  lemma {:induction false} LiveCounts(prs: seq<PullRequest>, branch: string)
    ensures multiset(Live(prs, branch)) == NumbersOf(prs, branch)
    decreases |prs|
  {
    if prs != [] {
      var earlier, last := prs[..|prs| - 1], prs[|prs| - 1];
      assert prs == earlier + [last];
      LiveCounts(earlier, branch);
      NumbersJoin(earlier, [last], branch);
      assert [last][1..] == [];
    }
  }

  lemma {:induction false} LiveAmong(prs: seq<PullRequest>, branch: string, n: nat)
    requires n in Live(prs, branch)
    ensures exists i | 0 <= i < |prs| :: prs[i].number == n
    decreases |prs|
  {
    var earlier, last := prs[..|prs| - 1], prs[|prs| - 1];
    if n in Live(earlier, branch) {
      LiveAmong(earlier, branch, n);
      var i :| 0 <= i < |earlier| && earlier[i].number == n;
      assert prs[i].number == n;
    } else {
      assert prs[|prs| - 1].number == n;
    }
  }

  lemma AscendMore(numbers: seq<nat>, last: nat)
    requires Ascend(numbers) && forall n <- numbers :: n <= last
    ensures Ascend(numbers + [last])
  {
    var all := numbers + [last];
    forall i, j | 0 <= i < j < |all|
      ensures all[i] <= all[j]
    {
      assert all[i] == numbers[i] && numbers[i] in numbers;
    }
  }

  lemma {:induction false} LiveAscends(prs: seq<PullRequest>, branch: string)
    requires ByNumbers(prs)
    ensures Ascend(Live(prs, branch))
    decreases |prs|
  {
    if prs != [] {
      var earlier, last := prs[..|prs| - 1], prs[|prs| - 1];
      LiveAscends(earlier, branch);
      forall n <- Live(earlier, branch)
        ensures n <= last.number
      {
        LiveAmong(earlier, branch, n);
        var i :| 0 <= i < |earlier| && earlier[i].number == n;
        assert prs[i].number <= prs[|prs| - 1].number;
      }
      AscendMore(Live(earlier, branch), last.number);
    }
  }

  /** What is open, in any order. */
  function Open(c: Case): seq<PullRequest> { if c.open.Some? then c.open.value else [] }

  /** The numbers a branch's reports name: those of its open pull requests here, in ascending order. */
  lemma LiveExactly(c: Case, branch: string)
    ensures multiset(Live(Prs(c), branch)) == NumbersOf(Open(c), branch) && Ascend(Live(Prs(c), branch))
  {
    SortKeepsNumbers(Open(c), branch);
    LiveCounts(Prs(c), branch);
    LiveAscends(Prs(c), branch);
  }

  lemma PrsAreOpen(c: Case, pr: PullRequest)
    ensures pr in Prs(c) <==> pr in Open(c)
  {
    SortKeepsNumbers(Open(c), "");
  }

  /** The pull request listed last under a number. */
  ghost predicate LastNumbered(prs: seq<PullRequest>, number: nat, pr: PullRequest) {
    exists i | 0 <= i < |prs| :: prs[i] == pr && pr.number == number && forall j | i < j < |prs| :: prs[j].number != number
  }

  lemma {:induction false} HeadJoins(x: PullRequest, prs: seq<PullRequest>, number: nat)
    ensures HeadOf([x] + prs, number)
      == if HeadOf(prs, number).Some? then HeadOf(prs, number) else if x.number == number then Some(Head(x)) else None
    decreases |prs|
  {
    var all := [x] + prs;
    if prs == [] {
      assert all[..0] == [];
    } else {
      assert all[..|all| - 1] == [x] + prs[..|prs| - 1];
      HeadJoins(x, prs[..|prs| - 1], number);
    }
  }

  lemma {:induction false} InsertKeepsHead(pr: PullRequest, sorted: seq<PullRequest>, number: nat)
    ensures HeadOf(Insert(pr, sorted), number) == HeadOf([pr] + sorted, number)
  {
    HeadJoins(pr, sorted, number);
    if sorted != [] && pr.number > sorted[0].number {
      InsertKeepsHead(pr, sorted[1..], number);
      HeadJoins(sorted[0], Insert(pr, sorted[1..]), number);
      HeadJoins(pr, sorted[1..], number);
      HeadJoins(sorted[0], sorted[1..], number);
      assert sorted == [sorted[0]] + sorted[1..];
    }
  }

  lemma {:induction false} SortKeepsHead(prs: seq<PullRequest>, number: nat)
    ensures HeadOf(ByNumber(prs), number) == HeadOf(prs, number)
  {
    if prs != [] {
      SortKeepsHead(prs[1..], number);
      InsertKeepsHead(prs[0], ByNumber(prs[1..]), number);
      HeadJoins(prs[0], ByNumber(prs[1..]), number);
      HeadJoins(prs[0], prs[1..], number);
      assert prs == [prs[0]] + prs[1..];
    }
  }

  lemma {:induction false} HeadExactly(prs: seq<PullRequest>, number: nat, head: string)
    ensures HeadOf(prs, number) == Some(head) <==> exists pr :: LastNumbered(prs, number, pr) && head == Shown(pr)
    decreases |prs|
  {
    if prs != [] {
      var n := |prs| - 1;
      var earlier := prs[..n];
      HeadExactly(earlier, number, head);
      if prs[n].number == number {
        assert LastNumbered(prs, number, prs[n]);
        forall pr | LastNumbered(prs, number, pr)
          ensures pr == prs[n]
        {
        }
      } else {
        forall pr
          ensures LastNumbered(prs, number, pr) <==> LastNumbered(earlier, number, pr)
        {
          LastStays(earlier, prs[n], number, pr);
          assert prs == earlier + [prs[n]];
        }
      }
    }
  }

  lemma LastStays(earlier: seq<PullRequest>, last: PullRequest, number: nat, pr: PullRequest)
    requires last.number != number
    ensures LastNumbered(earlier + [last], number, pr) <==> LastNumbered(earlier, number, pr)
  {
    var all := earlier + [last];
    if LastNumbered(all, number, pr) {
      var i :| 0 <= i < |all| && all[i] == pr && pr.number == number && forall j | i < j < |all| :: all[j].number != number;
      assert i < |earlier| && earlier[i] == pr;
      assert forall j | i < j < |earlier| :: earlier[j] == all[j];
    }
    if LastNumbered(earlier, number, pr) {
      var i :| 0 <= i < |earlier| && earlier[i] == pr && pr.number == number && forall j | i < j < |earlier| :: earlier[j].number != number;
      assert all[i] == pr;
      assert forall j | i < j < |all| :: all[j].number != number;
    }
  }

  /** A pull request's branch, with the fork's name before it if there is one. */
  function Shown(pr: PullRequest): string {
    match pr.fork
    case Some(fork) => if fork == "" then pr.branch else fork + ":" + pr.branch
    case None => pr.branch
  }

  // ----- Findings -----

  /** The row has a number, and no open pull request has it. */
  predicate NumberGone(c: Case, row: Row) {
    PrNumber(row).Some? && c.open.Some? && forall pr <- c.open.value :: pr.number != PrNumber(row).value
  }

  /** The row has no number, and its branch is neither known here nor the current one. */
  predicate BranchGone(c: Case, row: Row) {
    PrNumber(row).None? && c.remote.Some? && row.branch !in c.remote.value && c.current != Some(row.branch)
  }

  predicate Working(c: Case) { c.current.Some? && c.current.value != "main" }

  predicate Mine(c: Case, branch: string) { Working(c) && c.current.value == branch }

  /** These are the numbers of the branch's open pull requests here, in ascending order. */
  predicate AreOpen(c: Case, branch: string, numbers: seq<nat>) {
    multiset(numbers) == NumbersOf(Open(c), branch) && Ascend(numbers)
  }

  /** What is found about one row, and whether it can be fixed from here. */
  ghost predicate Explains(c: Case, row: Row, r: Report) {
    match r.finding
    case LiveUnnamed(found, live) =>
      found == row && live != [] && AreOpen(c, row.branch, live) && PrNumber(row).None? && r.fixable == Mine(c, row.branch)
    case LiveMisnamed(found, live) =>
      && found == row && live != [] && AreOpen(c, row.branch, live) && PrNumber(row).Some? && PrNumber(row).value !in live
      && r.fixable == Mine(c, row.branch)
    case StalePr(found) =>
      found == row && AreOpen(c, row.branch, []) && NumberGone(c, row) && r.fixable == Working(c)
    case StaleBranch(found) =>
      found == row && AreOpen(c, row.branch, []) && BranchGone(c, row) && r.fixable == Working(c)
    case OpenElsewhere(found, head) =>
      && found == row && AreOpen(c, row.branch, []) && PrNumber(row).Some? && r.fixable == Mine(c, row.branch)
      && HeadShown(c, PrNumber(row).value, head)
    case _ => false
  }

  lemma SameSize(a: seq<nat>, b: seq<nat>)
    requires multiset(a) == multiset(b)
    ensures |a| == |b|
  {
    assert |multiset(a)| == |a| && |multiset(b)| == |b|;
  }

  /** Ascending numbers are told apart by how often each occurs. */
  lemma {:induction false} SameNumbers(a: seq<nat>, b: seq<nat>)
    requires multiset(a) == multiset(b) && Ascend(a) && Ascend(b)
    ensures a == b
    decreases |a|
  {
    SameSize(a, b);
    if a != [] {
      SameFirst(a, b);
      assert a == [a[0]] + a[1..] && b == [b[0]] + b[1..];
      SameRest(a, b);
      RestAscends(a);
      RestAscends(b);
      SameNumbers(a[1..], b[1..]);
    }
  }

  lemma SameFirst(a: seq<nat>, b: seq<nat>)
    requires multiset(a) == multiset(b) && Ascend(a) && Ascend(b) && a != [] && b != []
    ensures a[0] == b[0]
  {
    assert a[0] in multiset(a) && a[0] in b;
    assert b[0] in multiset(b) && b[0] in a;
    LeastFirst(a, b[0]);
    LeastFirst(b, a[0]);
  }

  lemma SameRest(a: seq<nat>, b: seq<nat>)
    requires multiset(a) == multiset(b) && a != [] && b != [] && a[0] == b[0]
    ensures multiset(a[1..]) == multiset(b[1..])
  {
    assert a == [a[0]] + a[1..] && b == [b[0]] + b[1..];
    assert multiset(a) - multiset{a[0]} == multiset(a[1..]) && multiset(b) - multiset{b[0]} == multiset(b[1..]);
  }

  lemma RestAscends(a: seq<nat>)
    requires Ascend(a) && a != []
    ensures Ascend(a[1..])
  {
  }

  lemma LeastFirst(a: seq<nat>, n: nat)
    requires Ascend(a) && n in a
    ensures a[0] <= n
  {
    var i :| 0 <= i < |a| && a[i] == n;
  }

  lemma AreOpenExactly(c: Case, branch: string, numbers: seq<nat>)
    ensures AreOpen(c, branch, numbers) <==> numbers == Live(Prs(c), branch)
  {
    LiveExactly(c, branch);
    if AreOpen(c, branch, numbers) {
      SameNumbers(numbers, Live(Prs(c), branch));
    }
  }

  lemma StaleExactly(c: Case, row: Row)
    ensures Stale(c, row) <==> AreOpen(c, row.branch, []) && (NumberGone(c, row) || BranchGone(c, row))
  {
    AreOpenExactly(c, row.branch, []);
    forall pr
      ensures pr in Prs(c) <==> pr in Open(c)
    {
      PrsAreOpen(c, pr);
    }
  }

  lemma {:induction false} NumberedHead(prs: seq<PullRequest>, number: nat)
    ensures HeadOf(prs, number).Some? <==> exists pr <- prs :: pr.number == number
    decreases |prs|
  {
    if prs != [] {
      NumberedHead(prs[..|prs| - 1], number);
      assert prs == prs[..|prs| - 1] + [prs[|prs| - 1]];
    }
  }

  /** A row is reported exactly for what explains it. */
  lemma RowExactly(c: Case, row: Row, r: Report)
    ensures r in RowReports(c, row) <==> Explains(c, row, r)
  {
    match r.finding
    case LiveUnnamed(_, live) => LiveRowExactly(c, row, r, live);
    case LiveMisnamed(_, live) => LiveRowExactly(c, row, r, live);
    case StalePr(_) => StaleRowExactly(c, row, r);
    case StaleBranch(_) => StaleRowExactly(c, row, r);
    case OpenElsewhere(_, head) => ElsewhereRowExactly(c, row, r, head);
    case _ =>
  }

  lemma LiveRowExactly(c: Case, row: Row, r: Report, live: seq<nat>)
    requires (r.finding.LiveUnnamed? || r.finding.LiveMisnamed?) && r.finding.live == live
    ensures r in RowReports(c, row) <==> Explains(c, row, r)
  {
    LiveRowSays(c, row, r, live);
    AreOpenExactly(c, row.branch, live);
  }

  lemma LiveRowSays(c: Case, row: Row, r: Report, live: seq<nat>)
    requires (r.finding.LiveUnnamed? || r.finding.LiveMisnamed?) && r.finding.live == live
    ensures r in RowReports(c, row) <==>
      && live != [] && live == Live(Prs(c), row.branch) && r.finding.row == row && r.fixable == Own(c, row.branch)
      && if r.finding.LiveUnnamed? then PrNumber(row).None? else PrNumber(row).Some? && PrNumber(row).value !in live
  {
  }

  lemma StaleRowExactly(c: Case, row: Row, r: Report)
    requires r.finding.StalePr? || r.finding.StaleBranch?
    ensures r in RowReports(c, row) <==> Explains(c, row, r)
  {
    AreOpenExactly(c, row.branch, []);
    StaleExactly(c, row);
  }

  lemma ElsewhereRowExactly(c: Case, row: Row, r: Report, head: string)
    requires r.finding.OpenElsewhere? && r.finding.head == head
    ensures r in RowReports(c, row) <==> Explains(c, row, r)
  {
    AreOpenExactly(c, row.branch, []);
    StaleExactly(c, row);
    ElsewhereExactly(c, row, head);
  }

  /** This is the head of the pull request listed last under the number. */
  ghost predicate HeadShown(c: Case, number: nat, head: string) {
    exists pr :: LastNumbered(Open(c), number, pr) && head == Shown(pr)
  }

  lemma ElsewhereExactly(c: Case, row: Row, head: string)
    ensures PrNumber(row).Some? ==>
      (HeadOf(Prs(c), PrNumber(row).value) == Some(head) <==> HeadShown(c, PrNumber(row).value, head))
    ensures PrNumber(row).Some? && HeadOf(Prs(c), PrNumber(row).value) == Some(head) ==> !NumberGone(c, row)
  {
    if PrNumber(row).Some? {
      SortKeepsHead(Open(c), PrNumber(row).value);
      HeadExactly(Open(c), PrNumber(row).value, head);
      NumberedHead(Open(c), PrNumber(row).value);
    }
  }

  /** No row names this number. */
  predicate Unnamed(c: Case, number: nat) { forall row <- c.rows :: PrNumber(row) != Some(number) }

  /** What is found about a branch with open pull requests, or about one from a fork. */
  ghost predicate ExplainsRest(c: Case, r: Report) {
    match r.finding
    case SeveralOpen(branch, numbers) => AreOpen(c, branch, numbers) && |numbers| > 1 && r.fixable == Mine(c, branch)
    case RowMissing(branch, numbers) =>
      && AreOpen(c, branch, numbers) && numbers != [] && Mine(c, branch) && r.fixable
      && forall row <- c.rows :: row.branch != branch
    case RowElsewhere(branch, numbers) =>
      && !Mine(c, branch) && !r.fixable && (forall row <- c.rows :: row.branch != branch)
      && numbers != [] && AreUnnamed(c, branch, numbers)
    case FromFork(pr) => pr in Open(c) && pr.fork.Some? && Unnamed(c, pr.number) && !r.fixable
    case _ => false
  }

  lemma {:induction false} UnclaimedCounts(c: Case, numbers: seq<nat>, n: nat)
    ensures multiset(Unclaimed(c.rows, numbers))[n] == if Unnamed(c, n) then multiset(numbers)[n] else 0
    decreases |numbers|
  {
    if numbers != [] {
      var earlier, last := numbers[..|numbers| - 1], numbers[|numbers| - 1];
      assert numbers == earlier + [last];
      UnclaimedCounts(c, earlier, n);
    }
  }

  lemma {:induction false} UnclaimedAscends(c: Case, numbers: seq<nat>)
    requires Ascend(numbers)
    ensures Ascend(Unclaimed(c.rows, numbers))
    decreases |numbers|
  {
    if numbers != [] {
      var earlier, last := numbers[..|numbers| - 1], numbers[|numbers| - 1];
      UnclaimedAscends(c, earlier);
      forall n <- Unclaimed(c.rows, earlier)
        ensures n <= last
      {
        UnclaimedCounts(c, earlier, n);
        assert n in multiset(earlier) && n in earlier;
        var i :| 0 <= i < |earlier| && earlier[i] == n;
        assert numbers[i] <= numbers[|numbers| - 1];
      }
      AscendMore(Unclaimed(c.rows, earlier), last);
    }
  }

  /** These are the numbers of the branch's open pull requests that no row names, in ascending order. */
  ghost predicate AreUnnamed(c: Case, branch: string, numbers: seq<nat>) {
    Ascend(numbers) && forall n :: multiset(numbers)[n] == if Unnamed(c, n) then NumbersOf(Open(c), branch)[n] else 0
  }

  lemma AreUnnamedExactly(c: Case, branch: string, numbers: seq<nat>)
    ensures AreUnnamed(c, branch, numbers) <==> numbers == Unclaimed(c.rows, Live(Prs(c), branch))
  {
    var unclaimed := Unclaimed(c.rows, Live(Prs(c), branch));
    LiveExactly(c, branch);
    UnclaimedAscends(c, Live(Prs(c), branch));
    forall n
      ensures multiset(unclaimed)[n] == if Unnamed(c, n) then NumbersOf(Open(c), branch)[n] else 0
    {
      UnclaimedCounts(c, Live(Prs(c), branch), n);
    }
    if AreUnnamed(c, branch, numbers) {
      assert forall n :: multiset(numbers)[n] == multiset(unclaimed)[n];
      assert multiset(numbers) == multiset(unclaimed);
      SameNumbers(numbers, unclaimed);
    }
  }

  lemma BranchExactly(c: Case, branch: string, r: Report)
    requires Live(Prs(c), branch) != []
    ensures r in BranchReports(c, branch) <==> AboutBranch(r.finding) && r.finding.branch == branch && ExplainsRest(c, r)
  {
    BranchSays(c, branch, r);
    match r.finding
    case SeveralOpen(_, numbers) => AreOpenExactly(c, branch, numbers);
    case RowMissing(_, numbers) => AreOpenExactly(c, branch, numbers);
    case RowElsewhere(_, numbers) => AreUnnamedExactly(c, branch, numbers);
    case _ =>
  }

  lemma BranchSays(c: Case, branch: string, r: Report)
    ensures var (live, listed) := (Live(Prs(c), branch), exists row <- c.rows :: row.branch == branch);
      r in BranchReports(c, branch) <==>
        match r.finding
        case SeveralOpen(b, numbers) => b == branch && numbers == live && |live| > 1 && r.fixable == Own(c, branch)
        case RowMissing(b, numbers) => b == branch && numbers == live && !listed && Own(c, branch) && r.fixable
        case RowElsewhere(b, numbers) =>
          b == branch && numbers == Unclaimed(c.rows, live) && numbers != [] && !listed && !Own(c, branch) && !r.fixable
        case _ => false
  {
  }

  predicate AboutBranch(f: Finding) { f.SeveralOpen? || f.RowMissing? || f.RowElsewhere? }

  lemma {:induction false} ForkExactly(c: Case, prs: seq<PullRequest>, r: Report)
    ensures r in ForkReports(c, prs) <==>
      r.finding.FromFork? && r.finding.pr in prs && r.finding.pr.fork.Some? && Unnamed(c, r.finding.pr.number) && !r.fixable
    decreases |prs|
  {
    if prs != [] {
      ForkExactly(c, prs[..|prs| - 1], r);
      assert prs == prs[..|prs| - 1] + [prs[|prs| - 1]];
    }
  }

  lemma {:induction false} CollectExactly<T>(things: seq<T>, about: T -> seq<Report>, r: Report)
    ensures r in Collect(things, about) <==> exists x <- things :: r in about(x)
    decreases |things|
  {
    if things != [] {
      CollectExactly(things[..|things| - 1], about, r);
      assert things == things[..|things| - 1] + [things[|things| - 1]];
    }
  }

  lemma BranchesExactly(c: Case, r: Report)
    ensures r in AllBranchReports(c, ByName(Branches(Prs(c)))) <==> AboutBranch(r.finding) && ExplainsRest(c, r)
  {
    var branches := ByName(Branches(Prs(c)));
    CollectExactly(branches, b => BranchReports(c, b), r);
    NamesKept(Branches(Prs(c)));
    forall branch
      ensures branch in branches <==> Live(Prs(c), branch) != []
    {
      BranchesLive(Prs(c), branch);
    }
    forall branch | branch in branches
      ensures r in BranchReports(c, branch) <==> AboutBranch(r.finding) && r.finding.branch == branch && ExplainsRest(c, r)
    {
      BranchExactly(c, branch, r);
    }
    if AboutBranch(r.finding) && ExplainsRest(c, r) {
      RestIsLive(c, r);
    }
  }

  lemma RestIsLive(c: Case, r: Report)
    requires AboutBranch(r.finding) && ExplainsRest(c, r)
    ensures Live(Prs(c), r.finding.branch) != []
  {
    match r.finding
    case SeveralOpen(branch, numbers) => AreOpenExactly(c, branch, numbers);
    case RowMissing(branch, numbers) => AreOpenExactly(c, branch, numbers);
    case RowElsewhere(branch, numbers) => AreUnnamedExactly(c, branch, numbers);
  }

  /** Something is reported if and only if it explains a row, a branch with open pull requests, or a pull request
      from a fork. */
  lemma ReportsExactly(c: Case, r: Report)
    ensures r in Reports(c) <==> (exists row <- c.rows :: Explains(c, row, r)) || ExplainsRest(c, r)
  {
    CollectExactly(c.rows, row => RowReports(c, row), r);
    forall row
      ensures r in RowReports(c, row) <==> Explains(c, row, r)
    {
      RowExactly(c, row, r);
    }
    BranchesExactly(c, r);
    ForkExactly(c, Prs(c), r);
    if r.finding.FromFork? {
      PrsAreOpen(c, r.finding.pr);
    }
  }

  /** It is a failure if it can be fixed from here, and a note if not. */
  lemma {:induction false} SiftExactly(reports: seq<Report>, fixable: bool, f: Finding)
    ensures f in Sift(reports, fixable) <==> Report(f, fixable) in reports
    decreases |reports|
  {
    if reports != [] {
      SiftExactly(reports[..|reports| - 1], fixable, f);
      assert reports == reports[..|reports| - 1] + [reports[|reports| - 1]];
    }
  }

  /** A reconciliation fails, or notes, exactly what explains something and can, or cannot, be fixed from here. */
  lemma FindingsExactly(c: Case, f: Finding)
    ensures f in Failures(c) <==> (exists row <- c.rows :: Explains(c, row, Report(f, true))) || ExplainsRest(c, Report(f, true))
    ensures f in Notes(c) <==> (exists row <- c.rows :: Explains(c, row, Report(f, false))) || ExplainsRest(c, Report(f, false))
  {
    SiftExactly(Reports(c), true, f);
    SiftExactly(Reports(c), false, f);
    ReportsExactly(c, Report(f, true));
    ReportsExactly(c, Report(f, false));
  }

  // ----- Order -----

  /** Rows come first, then branches, then pull requests from forks. */
  function Rank(f: Finding): nat { if f.FromFork? then 2 else if AboutBranch(f) then 1 else 0 }

  predicate Ranked(findings: seq<Finding>) { forall i, j | 0 <= i < j < |findings| :: Rank(findings[i]) <= Rank(findings[j]) }

  predicate AllRanked(reports: seq<Report>, rank: nat) { forall r <- reports :: Rank(r.finding) == rank }

  lemma {:induction false} SiftAmong(reports: seq<Report>, fixable: bool, rank: nat)
    requires AllRanked(reports, rank)
    ensures forall f <- Sift(reports, fixable) :: Rank(f) == rank
    decreases |reports|
  {
    if reports != [] {
      SiftAmong(reports[..|reports| - 1], fixable, rank);
    }
  }

  lemma {:induction false} SiftJoins(a: seq<Report>, b: seq<Report>, fixable: bool)
    ensures Sift(a + b, fixable) == Sift(a, fixable) + Sift(b, fixable)
    decreases |b|
  {
    if b == [] {
      assert a + b == a;
    } else {
      assert (a + b)[..|a + b| - 1] == a + b[..|b| - 1];
      SiftJoins(a, b[..|b| - 1], fixable);
    }
  }

  lemma RanksJoin(a: seq<Finding>, b: seq<Finding>, rank: nat)
    requires Ranked(a) && (forall f <- a :: Rank(f) <= rank) && forall f <- b :: Rank(f) == rank
    ensures Ranked(a + b)
  {
    var all := a + b;
    forall i, j | 0 <= i < j < |all|
      ensures Rank(all[i]) <= Rank(all[j])
    {
      assert all[i] == (if i < |a| then a[i] else b[i - |a|]) && all[j] == (if j < |a| then a[j] else b[j - |a|]);
      assert i < |a| ==> a[i] in a;
      assert j >= |a| ==> b[j - |a|] in b;
    }
  }

  lemma ReportsRanked(c: Case)
    ensures AllRanked(AllRowReports(c, c.rows), 0) && AllRanked(AllBranchReports(c, ByName(Branches(Prs(c)))), 1)
    ensures AllRanked(ForkReports(c, Prs(c)), 2)
  {
    forall r <- AllRowReports(c, c.rows)
      ensures Rank(r.finding) == 0
    {
      CollectExactly(c.rows, row => RowReports(c, row), r);
    }
    forall r <- AllBranchReports(c, ByName(Branches(Prs(c))))
      ensures Rank(r.finding) == 1
    {
      BranchesExactly(c, r);
    }
    forall r <- ForkReports(c, Prs(c))
      ensures Rank(r.finding) == 2
    {
      ForkExactly(c, Prs(c), r);
    }
  }

  /** Failures and notes come in that order. */
  lemma FindingsInOrder(c: Case)
    ensures Ranked(Failures(c)) && Ranked(Notes(c))
  {
    FindingsRanked(c, true);
    FindingsRanked(c, false);
  }

  lemma FindingsRanked(c: Case, fixable: bool)
    ensures Ranked(Sift(Reports(c), fixable))
  {
    var rows, branches, forks := AllRowReports(c, c.rows), AllBranchReports(c, ByName(Branches(Prs(c)))), ForkReports(c, Prs(c));
    ReportsRanked(c);
    SiftAmong(rows, fixable, 0);
    SiftAmong(branches, fixable, 1);
    SiftAmong(forks, fixable, 2);
    SiftJoins(rows, branches, fixable);
    SiftJoins(rows + branches, forks, fixable);
    assert Ranked(Sift(rows, fixable));
    RanksJoin(Sift(rows, fixable), Sift(branches, fixable), 1);
    RanksJoin(Sift(rows + branches, fixable), Sift(forks, fixable), 2);
  }
}
