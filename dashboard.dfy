/**
 * The dashboard aggregations (backend/src/dashboard/dashboard.service.ts):
 * the manager's team table and its counts, the admin averages, the
 * most recent import per file, and the month-by-month evolution chart of an
 * employee's movements.
 *
 * The database queries themselves are not modelled: their results arrive as
 * sequences in the order the query returns them.
 */
module Dashboard {
  import opened Common
  import opened HourBalance
  import opened Compensation

  // ---------------------------------------------------------------------
  // Sums and counts

  /** The number of occurrences of `s` in `ss` (`filter(...).length`). */
  function Count(ss: seq<BalanceStatus>, s: BalanceStatus): (n: nat)
    ensures n <= |ss|
  {
    if ss == [] then 0 else Count(ss[..|ss| - 1], s) + (if ss[|ss| - 1] == s then 1 else 0)
  }

  /** `reduce((sum, x) => sum + x, 0)`. */
  function Total(xs: seq<real>): real
  {
    if xs == [] then 0.0 else Total(xs[..|xs| - 1]) + xs[|xs| - 1]
  }

  /** Every status is one of the four, so the four counts add up to the length. */
  lemma {:induction false} CountsPartition(ss: seq<BalanceStatus>)
    ensures Count(ss, Normal) + Count(ss, Warning) + Count(ss, Critical) + Count(ss, Expired) == |ss|
  {
    if ss != [] {
      CountsPartition(ss[..|ss| - 1]);
    }
  }

  /** The critical and warning counts together never exceed the number of statuses counted. */
  lemma CriticalAndWarningBounded(ss: seq<BalanceStatus>)
    ensures Count(ss, Critical) + Count(ss, Warning) <= |ss|
  {
    CountsPartition(ss);
  }

  /** A total of values that are all at least `lo` is at least `n·lo`. */
  lemma {:induction false} TotalAtLeast(xs: seq<real>, lo: real)
    requires forall k :: 0 <= k < |xs| ==> lo <= xs[k]
    ensures lo * |xs| as real <= Total(xs)
  {
    if xs != [] {
      var n := |xs| - 1;
      assert forall k :: 0 <= k < n ==> xs[..n][k] == xs[k];
      TotalAtLeast(xs[..n], lo);
      assert lo * |xs| as real == lo * n as real + lo;
    }
  }

  /** A total of values that are all at most `hi` is at most `n·hi`. */
  lemma {:induction false} TotalAtMost(xs: seq<real>, hi: real)
    requires forall k :: 0 <= k < |xs| ==> xs[k] <= hi
    ensures Total(xs) <= hi * |xs| as real
  {
    if xs != [] {
      var n := |xs| - 1;
      assert forall k :: 0 <= k < n ==> xs[..n][k] == xs[k];
      TotalAtMost(xs[..n], hi);
      assert hi * |xs| as real == hi * n as real + hi;
    }
  }

  /** A total of values that all lie in [lo, hi] lies in [n·lo, n·hi]. */
  lemma TotalBounds(xs: seq<real>, lo: real, hi: real)
    requires forall k :: 0 <= k < |xs| ==> lo <= xs[k] <= hi
    ensures lo * |xs| as real <= Total(xs)
    ensures Total(xs) <= hi * |xs| as real
  {
    TotalAtLeast(xs, lo);
    TotalAtMost(xs, hi);
  }

  // ---------------------------------------------------------------------
  // Manager dashboard

  /** One row of the team table. The e-mail column is not modelled. */
  datatype TeamMember = TeamMember(id: string, name: string, balance: real, status: BalanceStatus)

  datatype TeamStatistics = TeamStatistics(totalEmployees: nat, criticalCount: nat, warningCount: nat, totalBalance: real)

  datatype ManagerDashboard = ManagerDashboard(teamData: seq<TeamMember>, statistics: TeamStatistics)

  /** The employees whose manager is `managerId`, in query order. */
  function Team(users: seq<User>, managerId: string): (team: seq<User>)
    ensures |team| <= |users|
  {
    if users == [] then []
    else
      var rest := Team(users[..|users| - 1], managerId);
      var u := users[|users| - 1];
      if u.managerId == Some(managerId) then rest + [u] else rest
  }

  /** The team is exactly the users whose manager is `managerId`. */
  lemma {:induction false} TeamMembers(users: seq<User>, managerId: string)
    ensures forall u :: u in Team(users, managerId) <==> u in users && u.managerId == Some(managerId)
  {
    if users != [] {
      var n := |users| - 1;
      TeamMembers(users[..n], managerId);
      assert users == users[..n] + [users[n]];
    }
  }

  /**
   * The row of one employee: their latest balance record's balance and
   * status, or balance 0 and NORMAL when they have none (`|| 0`, `|| 'NORMAL'`).
   */
  function TeamRow(u: User, balances: map<string, BalanceRecord>): (t: TeamMember)
    ensures t.id == u.id && t.name == u.name
    ensures u.id !in balances ==> t.balance == 0.0 && t.status == Normal
    ensures u.id in balances ==> t.balance == balances[u.id].balance && t.status == balances[u.id].status
  {
    if u.id in balances then TeamMember(u.id, u.name, balances[u.id].balance, balances[u.id].status)
    else TeamMember(u.id, u.name, 0.0, Normal)
  }

  function TeamStatuses(team: seq<TeamMember>): seq<BalanceStatus>
  {
    MapSeq(team, (m: TeamMember) => m.status)
  }

  function TeamBalances(team: seq<TeamMember>): seq<real>
  {
    MapSeq(team, (m: TeamMember) => m.balance)
  }

  /** The team statistics over the table rows. */
  function TeamStats(teamData: seq<TeamMember>): TeamStatistics
  {
    TeamStatistics(|teamData|, Count(TeamStatuses(teamData), Critical), Count(TeamStatuses(teamData), Warning),
                   Total(TeamBalances(teamData)))
  }

  /** `getManagerDashboard`. */
  function GetManagerDashboard(users: seq<User>, balances: map<string, BalanceRecord>, managerId: string): ManagerDashboard
  {
    var employees := Team(users, managerId);
    var teamData := seq(|employees|, k requires 0 <= k < |employees| => TeamRow(employees[k], balances));
    ManagerDashboard(teamData, TeamStats(teamData))
  }

  /**
   * The manager's table has one row per team member, in query order, each
   * carrying the member's balance (0 and NORMAL without a record), and the
   * critical and warning counts are at most the team size.
   */
  lemma ManagerDashboardRows(users: seq<User>, balances: map<string, BalanceRecord>, managerId: string)
    ensures var d := GetManagerDashboard(users, balances, managerId);
      var team := Team(users, managerId);
      && |d.teamData| == d.statistics.totalEmployees == |team|
      && (forall k :: 0 <= k < |team| ==> d.teamData[k] == TeamRow(team[k], balances))
      && d.statistics.criticalCount + d.statistics.warningCount <= d.statistics.totalEmployees
  {
    var d := GetManagerDashboard(users, balances, managerId);
    CriticalAndWarningBounded(TeamStatuses(d.teamData));
  }

  /**
   * When every row of the team table shows a balance between `lo` and `hi`
   * hours, the team total is between `n·lo` and `n·hi`.
   */
  lemma TeamTotalBounds(teamData: seq<TeamMember>, lo: real, hi: real)
    requires forall k :: 0 <= k < |teamData| ==> lo <= teamData[k].balance <= hi
    ensures lo * |teamData| as real <= TeamStats(teamData).totalBalance <= hi * |teamData| as real
  {
    TotalAtLeast(TeamBalances(teamData), lo);
    TotalAtMost(TeamBalances(teamData), hi);
  }

  // ---------------------------------------------------------------------
  // Admin dashboard

  datatype AdminStatistics = AdminStatistics(
    criticalCount: nat, warningCount: nat, totalBalance: real, avgBalance: real, pendingCompensations: nat)

  function RecordStatuses(bs: seq<BalanceRecord>): seq<BalanceStatus>
  {
    MapSeq(bs, (b: BalanceRecord) => b.status)
  }

  function RecordBalances(bs: seq<BalanceRecord>): seq<real>
  {
    MapSeq(bs, (b: BalanceRecord) => b.balance)
  }

  /** `balances.length > 0 ? totalBalance / balances.length : 0`. */
  function Average(xs: seq<real>): real
  {
    if |xs| > 0 then Total(xs) / |xs| as real else 0.0
  }

  /** The average of values in [lo, hi] is in [lo, hi], and times the count gives back the total. */
  lemma AverageWithinRange(xs: seq<real>, lo: real, hi: real)
    requires |xs| > 0
    requires forall k :: 0 <= k < |xs| ==> lo <= xs[k] <= hi
    ensures lo <= Average(xs) <= hi
    ensures Average(xs) * |xs| as real == Total(xs)
  {
    TotalBounds(xs, lo, hi);
    var n := |xs| as real;
    var t := Total(xs);
    DivisionBounds(t, n, lo, hi);
  }

  /** For `n > 0`, `lo·n <= t <= hi·n` gives `lo <= t/n <= hi`, and `t/n·n == t`. */
  lemma DivisionBounds(t: real, n: real, lo: real, hi: real)
    requires n > 0.0
    requires lo * n <= t <= hi * n
    ensures lo <= t / n <= hi
    ensures t / n * n == t
  {
    assert t / n * n == t;
  }

  /** The compensation requests still PENDING. */
  function PendingCompensations(w: Workflow): nat
  {
    |set id | id in w.compensations && w.compensations[id].status == Pending|
  }

  /** The balance statistics of `getAdminDashboard`, over every balance record. */
  function GetAdminStatistics(bs: seq<BalanceRecord>, w: Workflow): AdminStatistics
  {
    AdminStatistics(
      Count(RecordStatuses(bs), Critical), Count(RecordStatuses(bs), Warning),
      Total(RecordBalances(bs)), Average(RecordBalances(bs)), PendingCompensations(w))
  }

  /**
   * The admin counts are at most the number of records, the average is 0
   * without records, and otherwise it lies between the smallest and largest
   * balance and is the total over the count.
   */
  lemma AdminStatisticsFacts(bs: seq<BalanceRecord>, w: Workflow, lo: real, hi: real)
    requires forall k :: 0 <= k < |bs| ==> lo <= bs[k].balance <= hi
    ensures var s := GetAdminStatistics(bs, w);
      && s.criticalCount + s.warningCount <= |bs|
      && (|bs| == 0 ==> s.avgBalance == 0.0 && s.totalBalance == 0.0)
      && (|bs| > 0 ==> lo <= s.avgBalance <= hi && s.avgBalance * |bs| as real == s.totalBalance)
  {
    CriticalAndWarningBounded(RecordStatuses(bs));
    if |bs| > 0 {
      AverageWithinRange(RecordBalances(bs), lo, hi);
    }
  }

  // ---------------------------------------------------------------------
  // First occurrence of each key

  /**
   * The positions of the first occurrence of each key, in the order the keys
   * are first seen: what a JavaScript `Map` or object filled in one pass with
   * "insert the key if it is not there yet" holds, in insertion order.
   */
  function FirstIndices(keys: seq<string>): (r: seq<nat>)
    ensures forall a :: 0 <= a < |r| ==> r[a] < |keys| && keys[r[a]] !in keys[..r[a]]
    ensures forall a, b :: 0 <= a < b < |r| ==> r[a] < r[b]
  {
    if keys == [] then []
    else
      var n := |keys| - 1;
      var r := FirstIndices(keys[..n]);
      assert forall a :: 0 <= a < |r| ==> keys[..n][r[a]] == keys[r[a]] && keys[..n][..r[a]] == keys[..r[a]];
      if keys[n] in keys[..n] then r else r + [n]
  }

  /** Every key of `keys` has its first occurrence listed, and no other position is. */
  lemma {:induction false} FirstIndicesCover(keys: seq<string>)
    ensures forall k :: k in keys <==> exists a :: 0 <= a < |FirstIndices(keys)| && keys[FirstIndices(keys)[a]] == k
  {
    if keys != [] {
      var n := |keys| - 1;
      var init := keys[..n];
      FirstIndicesCover(init);
      var r0 := FirstIndices(init);
      var r := FirstIndices(keys);
      assert forall a :: 0 <= a < |r0| ==> r[a] == r0[a] && init[r0[a]] == keys[r0[a]];
      forall k | k in keys ensures exists a :: 0 <= a < |r| && keys[r[a]] == k {
        if k in init {
          var a :| 0 <= a < |r0| && init[r0[a]] == k;
          assert keys[r[a]] == k;
        } else {
          assert k == keys[n];
          assert keys[r[|r| - 1]] == k;
        }
      }
    }
  }

  /** The listed positions hold pairwise different keys. */
  lemma FirstIndicesDistinct(keys: seq<string>)
    ensures var r := FirstIndices(keys);
      forall a, b :: 0 <= a < b < |r| ==> keys[r[a]] != keys[r[b]]
  {
    var r := FirstIndices(keys);
    forall a, b | 0 <= a < b < |r| ensures keys[r[a]] != keys[r[b]] {
      assert keys[r[a]] == keys[..r[b]][r[a]];
    }
  }

  // ---------------------------------------------------------------------
  // Recent imports

  /** An imported day that names its source file, with its user's name and registration number. */
  datatype ImportEntry = ImportEntry(sourceFile: string, importedAt: int, employeeName: string, employeeId: string)

  function FileKeys(imports: seq<ImportEntry>): (keys: seq<string>)
    ensures |keys| == |imports| && forall k :: 0 <= k < |imports| ==> keys[k] == imports[k].sourceFile
  {
    seq(|imports|, k requires 0 <= k < |imports| => imports[k].sourceFile)
  }

  const RecentImportsLimit: nat := 10

  /** The first (most recent, as the input is newest first) import of each file, at most ten files. */
  function RecentImports(allImports: seq<ImportEntry>): seq<ImportEntry>
  {
    var firsts := FirstIndices(FileKeys(allImports));
    Take(seq(|firsts|, a requires 0 <= a < |firsts| => allImports[firsts[a]]), RecentImportsLimit)
  }

  /** Extending the scanned prefix by one key lists position `i` exactly when its key is new. */
  lemma FirstIndicesStep(keys: seq<string>, i: nat)
    requires i < |keys|
    ensures keys[..i + 1] == keys[..i] + [keys[i]]
    ensures FirstIndices(keys[..i + 1]) ==
      if keys[i] in keys[..i] then FirstIndices(keys[..i]) else FirstIndices(keys[..i]) + [i]
    ensures forall a :: 0 <= a < |FirstIndices(keys[..i])| ==> FirstIndices(keys[..i])[a] < i
  {
    assert keys[..i + 1][..i] == keys[..i];
  }

  /**
   * After scanning the first `i` imports, `files` lists the files in
   * first-seen order, each mapped to its first import, and the map holds
   * exactly the files seen.
   */
  ghost predicate ByFileScanned(allImports: seq<ImportEntry>, i: nat, byFile: map<string, ImportEntry>, files: seq<string>)
    requires i <= |allImports|
  {
    var firsts := FirstIndices(FileKeys(allImports)[..i]);
    && |files| == |firsts|
    && (forall a :: 0 <= a < |files| ==> files[a] in byFile && byFile[files[a]] == allImports[firsts[a]])
    && (forall f :: f in byFile <==> f in FileKeys(allImports)[..i])
  }

  /** An import of a file already seen changes nothing. */
  lemma ByFileSeen(allImports: seq<ImportEntry>, i: nat, byFile: map<string, ImportEntry>, files: seq<string>)
    requires i < |allImports| && ByFileScanned(allImports, i, byFile, files)
    requires allImports[i].sourceFile in byFile
    ensures ByFileScanned(allImports, i + 1, byFile, files)
  {
    var keys := FileKeys(allImports);
    FirstIndicesStep(keys, i);
    assert keys[i] in keys[..i];
    assert FirstIndices(keys[..i + 1]) == FirstIndices(keys[..i]);
    assert forall f :: f in byFile <==> f in keys[..i + 1];
  }

  /** An import of a new file is filed under it and its file goes to the end of the list. */
  lemma ByFileNew(allImports: seq<ImportEntry>, i: nat, byFile: map<string, ImportEntry>, files: seq<string>)
    requires i < |allImports| && ByFileScanned(allImports, i, byFile, files)
    requires allImports[i].sourceFile !in byFile
    ensures ByFileScanned(allImports, i + 1, byFile[allImports[i].sourceFile := allImports[i]], files + [allImports[i].sourceFile])
  {
    var keys := FileKeys(allImports);
    var imp := allImports[i];
    var byFile', files' := byFile[imp.sourceFile := imp], files + [imp.sourceFile];
    var firsts := FirstIndices(keys[..i]);
    FirstIndicesStep(keys, i);
    assert keys[i] !in keys[..i];
    assert FirstIndices(keys[..i + 1]) == firsts + [i];
    assert |files'| == |firsts + [i]|;
    assert forall a :: 0 <= a < |files'| ==> files'[a] in byFile' && byFile'[files'[a]] == allImports[(firsts + [i])[a]] by {
      forall a | 0 <= a < |files'|
        ensures files'[a] in byFile' && byFile'[files'[a]] == allImports[(firsts + [i])[a]]
      {
        if a < |files| {
          assert files[a] in byFile;
        }
      }
    }
    assert forall f :: f in byFile' <==> f in keys[..i + 1];
  }

  /** Once every import is scanned, the files map to the first import of each file, in order. */
  lemma ByFileDone(allImports: seq<ImportEntry>, byFile: map<string, ImportEntry>, files: seq<string>)
    requires ByFileScanned(allImports, |allImports|, byFile, files)
    ensures var firsts := FirstIndices(FileKeys(allImports));
      |files| == |firsts|
      && forall a :: 0 <= a < |files| ==> files[a] in byFile && byFile[files[a]] == allImports[firsts[a]]
  {
    assert FileKeys(allImports)[..|allImports|] == FileKeys(allImports);
  }

  /** The `importsByFile` pass of `getAdminDashboard`, then `Array.from(values()).slice(0, 10)`. */
  method ImportsByFile(allImports: seq<ImportEntry>) returns (recent: seq<ImportEntry>)
    ensures recent == RecentImports(allImports)
  {
    var importsByFile: map<string, ImportEntry> := map[];
    var files: seq<string> := [];
    var i := 0;
    while i < |allImports|
      invariant 0 <= i <= |allImports|
      invariant ByFileScanned(allImports, i, importsByFile, files)
    {
      var imp := allImports[i];
      if imp.sourceFile !in importsByFile {
        ByFileNew(allImports, i, importsByFile, files);
        importsByFile := importsByFile[imp.sourceFile := imp];
        files := files + [imp.sourceFile];
      } else {
        ByFileSeen(allImports, i, importsByFile, files);
      }
      i := i + 1;
    }
    ByFileDone(allImports, importsByFile, files);
    var values := seq(|files|, a requires 0 <= a < |files| && files[a] in importsByFile => importsByFile[files[a]]);
    recent := Take(values, RecentImportsLimit);
  }

  /** `imp` is the first entry of `allImports` for its file. */
  predicate FirstImportOf(allImports: seq<ImportEntry>, imp: ImportEntry)
  {
    exists i :: 0 <= i < |allImports| && allImports[i] == imp
      && forall j :: 0 <= j < i ==> allImports[j].sourceFile != imp.sourceFile
  }

  /**
   * The recent imports name pairwise different files, at most ten of them,
   * each entry being the first (most recent) import of its file; when at
   * most ten files were imported, every file appears.
   */
  lemma RecentImportsFacts(allImports: seq<ImportEntry>)
    ensures var r := RecentImports(allImports);
      && |r| <= RecentImportsLimit
      && (forall a, b :: 0 <= a < b < |r| ==> r[a].sourceFile != r[b].sourceFile)
      && (forall a :: 0 <= a < |r| ==> FirstImportOf(allImports, r[a]))
      && (|FirstIndices(FileKeys(allImports))| <= RecentImportsLimit ==>
            forall i :: 0 <= i < |allImports| ==> exists a :: 0 <= a < |r| && r[a].sourceFile == allImports[i].sourceFile)
  {
    RecentImportsDistinct(allImports);
    RecentImportsFirst(allImports);
    RecentImportsComplete(allImports);
  }

  /** Entry `a` of the recent imports is the import at the `a`-th first occurrence of a file. */
  lemma RecentImportAt(allImports: seq<ImportEntry>, a: nat)
    requires a < |RecentImports(allImports)|
    ensures a < |FirstIndices(FileKeys(allImports))|
    ensures RecentImports(allImports)[a] == allImports[FirstIndices(FileKeys(allImports))[a]]
  {
  }

  lemma RecentImportsDistinct(allImports: seq<ImportEntry>)
    ensures var r := RecentImports(allImports);
      forall a, b :: 0 <= a < b < |r| ==> r[a].sourceFile != r[b].sourceFile
  {
    var keys := FileKeys(allImports);
    var firsts := FirstIndices(keys);
    var r := RecentImports(allImports);
    FirstIndicesDistinct(keys);
    forall a, b | 0 <= a < b < |r| ensures r[a].sourceFile != r[b].sourceFile {
      RecentImportAt(allImports, a);
      RecentImportAt(allImports, b);
      assert keys[firsts[a]] != keys[firsts[b]];
    }
  }

  lemma RecentImportsFirst(allImports: seq<ImportEntry>)
    ensures var r := RecentImports(allImports);
      forall a :: 0 <= a < |r| ==> FirstImportOf(allImports, r[a])
  {
    var keys := FileKeys(allImports);
    var firsts := FirstIndices(keys);
    var r := RecentImports(allImports);
    forall a | 0 <= a < |r|
      ensures FirstImportOf(allImports, r[a])
    {
      RecentImportAt(allImports, a);
      var i := firsts[a];
      assert keys[i] !in keys[..i];
      forall j | 0 <= j < i ensures allImports[j].sourceFile != r[a].sourceFile {
        assert keys[j] == keys[..i][j];
      }
    }
  }

  lemma RecentImportsComplete(allImports: seq<ImportEntry>)
    ensures var r := RecentImports(allImports);
      |FirstIndices(FileKeys(allImports))| <= RecentImportsLimit ==>
        forall i :: 0 <= i < |allImports| ==> exists a :: 0 <= a < |r| && r[a].sourceFile == allImports[i].sourceFile
  {
    var keys := FileKeys(allImports);
    var firsts := FirstIndices(keys);
    var r := RecentImports(allImports);
    if |firsts| <= RecentImportsLimit {
      FirstIndicesCover(keys);
      assert |r| == |firsts|;
      forall i | 0 <= i < |allImports| ensures exists a :: 0 <= a < |r| && r[a].sourceFile == allImports[i].sourceFile {
        assert keys[i] in keys;
        var a :| 0 <= a < |firsts| && keys[firsts[a]] == keys[i];
        RecentImportAt(allImports, a);
        assert r[a].sourceFile == allImports[i].sourceFile;
      }
    }
  }

  // ---------------------------------------------------------------------
  // Evolution chart

  /** An ENTRY movement adds its hours to the running balance; any other subtracts them. */
  function Signed(m: Movement): real
  {
    if m.kind == Entry then m.hours else -m.hours
  }

  /** The running balance after the movements, in the order given. */
  function Running(ms: seq<Movement>): real
  {
    if ms == [] then 0.0 else Running(ms[..|ms| - 1]) + Signed(ms[|ms| - 1])
  }

  /** The ENTRY hours of the movements. */
  function EntryHours(ms: seq<Movement>): real
  {
    if ms == [] then 0.0 else EntryHours(ms[1..]) + (if ms[0].kind == Entry then ms[0].hours else 0.0)
  }

  /** The hours of the movements that are not ENTRY. */
  function OtherHours(ms: seq<Movement>): real
  {
    if ms == [] then 0.0 else OtherHours(ms[1..]) + (if ms[0].kind != Entry then ms[0].hours else 0.0)
  }

  /** The `YYYY-MM` key of each movement's reference date. */
  function MonthKeys(ms: seq<Movement>, monthOf: int -> string): (keys: seq<string>)
    ensures |keys| == |ms| && forall k :: 0 <= k < |ms| ==> keys[k] == monthOf(ms[k].referenceDate)
  {
    seq(|ms|, k requires 0 <= k < |ms| => monthOf(ms[k].referenceDate))
  }

  /** The months seen so far in first-seen order, each month's value, and the running balance. */
  datatype Evolution = Evolution(months: seq<string>, values: map<string, real>, running: real)

  datatype MonthBalance = MonthBalance(month: string, balance: real)

  /** The state of `calculateEvolutionData` after the movements; `monthOf` gives the `YYYY-MM` key of a date. */
  function Evolve(ms: seq<Movement>, monthOf: int -> string): (e: Evolution)
    ensures forall k :: 0 <= k < |e.months| ==> e.months[k] in e.values
  {
    if ms == [] then Evolution([], map[], 0.0)
    else
      var m := ms[|ms| - 1];
      Advance(Evolve(ms[..|ms| - 1], monthOf), m, monthOf(m.referenceDate))
  }

  /** One movement: its month joins the list if new, and its value becomes the new running balance. */
  function Advance(e: Evolution, m: Movement, month: string): Evolution
  {
    var running := e.running + Signed(m);
    Evolution(if month in e.values then e.months else e.months + [month], e.values[month := running], running)
  }

  /** The chart: `Object.entries(monthlyData)` as (month, balance) points. */
  function EvolutionData(ms: seq<Movement>, monthOf: int -> string): seq<MonthBalance>
  {
    var e := Evolve(ms, monthOf);
    seq(|e.months|, k requires 0 <= k < |e.months| => MonthBalance(e.months[k], e.values[e.months[k]]))
  }

  /**
   * One pass of the `calculateEvolutionData` loop: a month seen for the first
   * time joins the list; the month's value ends as the balance after the movement.
   */
  method AddMovement(monthlyData: map<string, real>, months: seq<string>, runningBalance: real, movement: Movement, month: string)
    returns (monthlyData': map<string, real>, months': seq<string>, runningBalance': real)
    ensures Evolution(months', monthlyData', runningBalance') == Advance(Evolution(months, monthlyData, runningBalance), movement, month)
  {
    monthlyData', months' := monthlyData, months;
    if month !in monthlyData' || monthlyData'[month] == 0.0 {
      if month !in monthlyData' {
        months' := months' + [month];
      }
      monthlyData' := monthlyData'[month := runningBalance];
    }
    runningBalance' := runningBalance + (if movement.kind == Entry then movement.hours else -movement.hours);
    monthlyData' := monthlyData'[month := runningBalance'];
  }

  /** `calculateEvolutionData`. */
  method CalculateEvolutionData(movements: seq<Movement>, monthOf: int -> string) returns (evolution: seq<MonthBalance>)
    ensures evolution == EvolutionData(movements, monthOf)
  {
    var monthlyData: map<string, real> := map[];
    var months: seq<string> := [];
    var runningBalance := 0.0;
    var i := 0;
    while i < |movements|
      invariant 0 <= i <= |movements|
      invariant Evolve(movements[..i], monthOf) == Evolution(months, monthlyData, runningBalance)
    {
      var movement := movements[i];
      var month := monthOf(movement.referenceDate);
      EvolveStep(movements, monthOf, i);
      monthlyData, months, runningBalance := AddMovement(monthlyData, months, runningBalance, movement, month);
      i := i + 1;
    }
    WholePrefix(movements);
    evolution := seq(|months|, k requires 0 <= k < |months| && months[k] in monthlyData => MonthBalance(months[k], monthlyData[months[k]]));
  }

  /** The evolution over one more movement is one more step. */
  lemma EvolveStep(ms: seq<Movement>, monthOf: int -> string, i: nat)
    requires i < |ms|
    ensures Evolve(ms[..i + 1], monthOf) == Advance(Evolve(ms[..i], monthOf), ms[i], monthOf(ms[i].referenceDate))
  {
    assert ms[..i + 1][..i] == ms[..i];
  }

  /** The running balance is the ENTRY hours minus all other hours. */
  lemma {:induction false} RunningIsEntriesMinusOthers(ms: seq<Movement>)
    ensures Running(ms) == EntryHours(ms) - OtherHours(ms)
  {
    if ms != [] {
      var n := |ms| - 1;
      RunningIsEntriesMinusOthers(ms[..n]);
      SplitSums(ms[..n], ms[n]);
      assert ms[..n] + [ms[n]] == ms;
    }
  }

  /** Adding one movement at the end adds it to the matching sum. */
  lemma {:induction false} SplitSums(ms: seq<Movement>, m: Movement)
    ensures EntryHours(ms + [m]) == EntryHours(ms) + (if m.kind == Entry then m.hours else 0.0)
    ensures OtherHours(ms + [m]) == OtherHours(ms) + (if m.kind != Entry then m.hours else 0.0)
  {
    if ms != [] {
      assert (ms + [m])[1..] == ms[1..] + [m];
      SplitSums(ms[1..], m);
    } else {
      assert [m][1..] == [];
    }
  }

  /** The position of the last occurrence of `k` in `keys`. */
  function LastIndex(keys: seq<string>, k: string): (i: nat)
    requires k in keys
    ensures i < |keys| && keys[i] == k
    ensures forall j :: i < j < |keys| ==> keys[j] != k
  {
    var n := |keys| - 1;
    if keys[n] == k then n
    else
      assert k in keys[..n] by {
        var i :| 0 <= i < |keys| && keys[i] == k;
        assert keys[..n][i] == k;
      }
      var j := LastIndex(keys[..n], k);
      assert keys[..n][j] == keys[j];
      j
  }

  /** A key that is not the last one keeps its last position when the last key is dropped. */
  lemma LastIndexOfPrefix(keys: seq<string>, k: string)
    requires k in keys && keys[|keys| - 1] != k
    ensures k in keys[..|keys| - 1] && LastIndex(keys, k) == LastIndex(keys[..|keys| - 1], k)
  {
  }

  /** The month keys of a prefix are the prefix of the month keys. */
  lemma MonthKeysPrefix(ms: seq<Movement>, monthOf: int -> string, n: nat)
    requires n <= |ms|
    ensures MonthKeys(ms[..n], monthOf) == MonthKeys(ms, monthOf)[..n]
  {
  }

  /** The final running balance of the chart is the fold of the signed hours. */
  lemma {:induction false} EvolutionRunning(ms: seq<Movement>, monthOf: int -> string)
    ensures Evolve(ms, monthOf).running == Running(ms)
  {
    if ms != [] {
      EvolutionRunning(ms[..|ms| - 1], monthOf);
    }
  }

  /** The chart has a value for exactly the months of the movements. */
  lemma {:induction false} EvolutionKeys(ms: seq<Movement>, monthOf: int -> string)
    ensures forall month :: month in Evolve(ms, monthOf).values <==> month in MonthKeys(ms, monthOf)
  {
    if ms != [] {
      var n := |ms| - 1;
      EvolutionKeys(ms[..n], monthOf);
      MonthKeysPrefix(ms, monthOf, n);
      var keys := MonthKeys(ms, monthOf);
      assert keys == keys[..n] + [keys[n]];
    }
  }

  /** The chart's months are the movements' months, each once, in first-seen order. */
  lemma {:induction false} EvolutionMonths(ms: seq<Movement>, monthOf: int -> string)
    ensures var e := Evolve(ms, monthOf);
      var keys := MonthKeys(ms, monthOf);
      var firsts := FirstIndices(keys);
      && |e.months| == |firsts|
      && forall a :: 0 <= a < |firsts| ==> e.months[a] == keys[firsts[a]]
  {
    if ms != [] {
      var n := |ms| - 1;
      var init := ms[..n];
      EvolutionMonths(init, monthOf);
      EvolutionKeys(init, monthOf);
      MonthKeysPrefix(ms, monthOf, n);
      var keys := MonthKeys(ms, monthOf);
      var firsts0 := FirstIndices(keys[..n]);
      assert forall a :: 0 <= a < |firsts0| ==> keys[..n][firsts0[a]] == keys[firsts0[a]];
    }
  }

  /** A month other than the last movement's keeps its value, and its last movement, when that movement is added. */
  lemma OlderMonthValue(ms: seq<Movement>, monthOf: int -> string, month: string)
    requires ms != []
    requires month in Evolve(ms[..|ms| - 1], monthOf).values && month != monthOf(ms[|ms| - 1].referenceDate)
    requires month in MonthKeys(ms[..|ms| - 1], monthOf)
    requires Evolve(ms[..|ms| - 1], monthOf).values[month] ==
      Running(ms[..|ms| - 1][..LastIndex(MonthKeys(ms[..|ms| - 1], monthOf), month) + 1])
    ensures month in MonthKeys(ms, monthOf)
    ensures Evolve(ms, monthOf).values[month] == Running(ms[..LastIndex(MonthKeys(ms, monthOf), month) + 1])
  {
    var n := |ms| - 1;
    var init := ms[..n];
    var j := LastIndex(MonthKeys(init, monthOf), month);
    assert month in MonthKeys(ms, monthOf) && LastIndex(MonthKeys(ms, monthOf), month) == j by {
      OlderMonthKey(ms, monthOf, month);
    }
    assert Evolve(ms, monthOf).values[month] == Evolve(init, monthOf).values[month] by {
      EvolveKeepsOtherMonth(init, ms[n], monthOf, month);
      PrefixAndLast(ms);
    }
    PrefixOfPrefix(ms, n, j + 1);
  }

  /** The last movement changes only its own month's value. */
  lemma EvolveKeepsOtherMonth(init: seq<Movement>, last: Movement, monthOf: int -> string, month: string)
    requires month in Evolve(init, monthOf).values && month != monthOf(last.referenceDate)
    ensures month in Evolve(init + [last], monthOf).values
    ensures Evolve(init + [last], monthOf).values[month] == Evolve(init, monthOf).values[month]
  {
    assert (init + [last])[..|init|] == init;
  }

  /** A month seen before the last movement, and not its month, keeps its last position. */
  lemma OlderMonthKey(ms: seq<Movement>, monthOf: int -> string, month: string)
    requires ms != []
    requires month in MonthKeys(ms[..|ms| - 1], monthOf) && month != monthOf(ms[|ms| - 1].referenceDate)
    ensures month in MonthKeys(ms, monthOf)
    ensures LastIndex(MonthKeys(ms, monthOf), month) == LastIndex(MonthKeys(ms[..|ms| - 1], monthOf), month)
  {
    var n := |ms| - 1;
    var keys := MonthKeys(ms, monthOf);
    MonthKeysPrefix(ms, monthOf, n);
    assert keys[n] != month;
    assert month in keys by {
      var i :| 0 <= i < n && keys[..n][i] == month;
      assert keys[i] == month;
    }
    LastIndexOfPrefix(keys, month);
  }

  /** The last movement's month holds the running balance after all the movements. */
  lemma LatestMonthValue(ms: seq<Movement>, monthOf: int -> string)
    requires ms != []
    ensures var keys := MonthKeys(ms, monthOf);
      var month := keys[|ms| - 1];
      month in Evolve(ms, monthOf).values && LastIndex(keys, month) == |ms| - 1
      && Evolve(ms, monthOf).values[month] == Running(ms)
  {
    var n := |ms| - 1;
    EvolveStep(ms, monthOf, n);
    EvolutionRunning(ms, monthOf);
    assert ms[..n + 1] == ms;
  }

  /** Each month of the chart holds the running balance right after that month's last movement. */
  ghost predicate MonthValuesRunning(ms: seq<Movement>, monthOf: int -> string)
  {
    forall month :: month in Evolve(ms, monthOf).values ==>
      month in MonthKeys(ms, monthOf)
      && Evolve(ms, monthOf).values[month] == Running(ms[..LastIndex(MonthKeys(ms, monthOf), month) + 1])
  }

  /** One movement more: a month's value is still the running balance after its last movement. */
  lemma MonthValueStep(ms: seq<Movement>, monthOf: int -> string, month: string)
    requires ms != []
    requires var init := ms[..|ms| - 1];
      month in Evolve(init, monthOf).values ==>
        month in MonthKeys(init, monthOf) && Evolve(init, monthOf).values[month] == Running(init[..LastIndex(MonthKeys(init, monthOf), month) + 1])
    requires month in Evolve(ms, monthOf).values
    ensures month in MonthKeys(ms, monthOf)
    ensures Evolve(ms, monthOf).values[month] == Running(ms[..LastIndex(MonthKeys(ms, monthOf), month) + 1])
  {
    var n := |ms| - 1;
    var init := ms[..n];
    if month == monthOf(ms[n].referenceDate) {
      LatestMonthValue(ms, monthOf);
      assert MonthKeys(ms, monthOf)[n] == month;
      assert ms[..n + 1] == ms;
    } else {
      EarlierMonth(ms, monthOf, month);
      OlderMonthValue(ms, monthOf, month);
    }
  }

  /** A month with a value that is not the last movement's month had its value before that movement. */
  lemma EarlierMonth(ms: seq<Movement>, monthOf: int -> string, month: string)
    requires ms != []
    requires month in Evolve(ms, monthOf).values && month != monthOf(ms[|ms| - 1].referenceDate)
    ensures month in Evolve(ms[..|ms| - 1], monthOf).values
  {
    var n := |ms| - 1;
    EvolveStep(ms, monthOf, n);
    assert ms[..n + 1] == ms;
  }

  /** Each month's value is the running balance right after that month's last movement. */
  lemma {:induction false} EvolutionValues(ms: seq<Movement>, monthOf: int -> string)
    ensures var e := Evolve(ms, monthOf);
      var keys := MonthKeys(ms, monthOf);
      forall month :: month in e.values ==> month in keys && e.values[month] == Running(ms[..LastIndex(keys, month) + 1])
  {
    ValuesRunningAlong(ms, monthOf);
  }

  /** `MonthValuesRunning` holds of every sequence of movements, by induction on the sequence. */
  lemma {:induction false} ValuesRunningAlong(ms: seq<Movement>, monthOf: int -> string)
    ensures MonthValuesRunning(ms, monthOf)
  {
    if ms != [] {
      ValuesRunningAlong(ms[..|ms| - 1], monthOf);
      forall month | month in Evolve(ms, monthOf).values
        ensures month in MonthKeys(ms, monthOf)
        ensures Evolve(ms, monthOf).values[month] == Running(ms[..LastIndex(MonthKeys(ms, monthOf), month) + 1])
      {
        MonthValueStep(ms, monthOf, month);
      }
    }
  }

  /**
   * The value of the last movement's month is the balance after all the
   * movements: their ENTRY hours minus their other hours.
   */
  lemma LastMonthIsNet(ms: seq<Movement>, monthOf: int -> string)
    requires ms != []
    ensures var e := Evolve(ms, monthOf);
      var month := monthOf(ms[|ms| - 1].referenceDate);
      month in e.values && e.values[month] == EntryHours(ms) - OtherHours(ms)
  {
    LatestMonthValue(ms, monthOf);
    RunningIsEntriesMinusOthers(ms);
  }
}
