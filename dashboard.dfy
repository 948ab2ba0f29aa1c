/**
  The dashboard aggregation of src/lib/firebase/dashboard.ts. The projects
  snapshot is passed in as a sequence; the task reads are a map from project
  id to that project's task collection, and a project whose read failed has
  no entry (its failure is logged and skipped).
 */
module Dashboard {
  import opened Common
  import opened ProjectStore

  datatype TaskTally = TaskTally(pending: nat, inProgress: nat, completed: nat)

  datatype Metrics = Metrics(
    totalProjects: nat,
    projectsByStatus: map<string, Entry>,
    projectsByCategory: map<string, Entry>,
    totalTasks: nat,
    tasksByStatus: TaskTally,
    recentProjects: seq<ProjectDoc>,
    completionRate: real)

  /** How many projects the dashboard lists as recent. */
  const RecentCount := 5

  /** projectsByStatus before the fold: the four known statuses at 0. */
  const InitialStatusCounts: map<string, Entry> :=
    map["upcoming" := Count(0), "ongoing" := Count(0), "completed" := Count(0), "on-hold" := Count(0)]

  const NoTasks := TaskTally(0, 0, 0)

  // ---------------------------------------------------------------------
  // Counters keyed by string, on a plain JavaScript object
  // ---------------------------------------------------------------------

  /**
    The value of one property of a counter object: a number, or the string
    that `+ 1` makes of an inherited function.
   */
  datatype Entry = Count(n: nat) | Text(s: string)

  /** The text an inherited Object.prototype method converts to (the form V8 prints). */
  function NativeSource(name: string): string
  {
    "function " + (if name == "constructor" then "Object" else name) + "() { [native code] }"
  }

  /** `n` copies of the digit 1, which `+ 1` appends to a string one at a time. */
  function Ones(n: nat): string
  {
    seq(n, _ => '1')
  }

  /**
    `counts[key] = (counts[key] || 0) + 1` on an object whose prototype is
    Object.prototype. An own number goes up by one and an own string gets "1"
    appended. A missing key starts at 1, unless it names an inherited method:
    then the method's text with "1" appended is stored. Assigning a string to
    "__proto__" is ignored, so that key never appears.
   */
  function Bump(counts: map<string, Entry>, key: string): (r: map<string, Entry>)
    ensures key == "__proto__" ==> r == counts
    ensures key != "__proto__" ==> r.Keys == counts.Keys + {key}
    ensures key != "__proto__" && key in counts && counts[key].Count? ==> r[key] == Count(counts[key].n + 1)
    ensures key != "__proto__" && key in counts && counts[key].Text? ==> r[key] == Text(counts[key].s + "1")
    ensures key !in counts && !ProtoKey(key) ==> r[key] == Count(1)
    ensures key !in counts && ProtoKey(key) && key != "__proto__" ==> r[key] == Text(NativeSource(key) + "1")
    ensures forall k :: k in counts && k != key ==> r[k] == counts[k]
  {
    if key == "__proto__" then counts
    else if key in counts then
      match counts[key]
      case Count(n) => counts[key := Count(n + 1)]
      case Text(t) => counts[key := Text(t + "1")]
    else if ProtoKey(key) then counts[key := Text(NativeSource(key) + "1")]
    else counts[key := Count(1)]
  }

  function NumberIn(e: Entry): nat
  {
    if e.Count? then e.n else 0
  }

  /** The sum of the numeric values of a counter object; string values add nothing. */
  ghost function NumericSum(m: map<string, Entry>): nat
    decreases |m|
  {
    if m == map[] then 0
    else
      var k :| k in m;
      assert |m - {k}| < |m| by { assert m.Keys - {k} < m.Keys; }
      NumberIn(m[k]) + NumericSum(m - {k})
  }

  /** The sum does not depend on which key is taken out first. */
  lemma {:induction false} NumericSumRemove(m: map<string, Entry>, key: string)
    requires key in m
    ensures NumericSum(m) == NumberIn(m[key]) + NumericSum(m - {key})
    decreases |m|
  {
    var k :| k in m && NumericSum(m) == NumberIn(m[k]) + NumericSum(m - {k});
    if k != key {
      assert (m - {k}).Keys - {key} < (m - {k}).Keys;
      NumericSumRemove(m - {k}, key);
      assert (m - {key}).Keys - {k} < (m - {key}).Keys;
      NumericSumRemove(m - {key}, k);
      assert m - {k} - {key} == m - {key} - {k};
    }
  }

  /** Setting one entry changes the sum by the difference of the numbers. */
  lemma NumericSumSet(m: map<string, Entry>, key: string, e: Entry)
    ensures NumericSum(m[key := e]) + (if key in m then NumberIn(m[key]) else 0) == NumericSum(m) + NumberIn(e)
  {
    NumericSumRemove(m[key := e], key);
    assert m[key := e] - {key} == m - {key};
    if key in m {
      NumericSumRemove(m, key);
    } else {
      assert m - {key} == m;
    }
  }

  // ---------------------------------------------------------------------
  // The project counters
  // ---------------------------------------------------------------------

  function StatusOf(p: ProjectDoc): string
  {
    p.data.status
  }

  function CategoryOf(p: ProjectDoc): string
  {
    p.data.category
  }

  /** A counter object after the forEach over `ps` bumps `key` of each project. */
  function Tally(ps: seq<ProjectDoc>, key: ProjectDoc -> string, init: map<string, Entry>): map<string, Entry>
  {
    if ps == [] then init
    else Bump(Tally(ps[..|ps| - 1], key, init), key(ps[|ps| - 1]))
  }

  /** projectsByStatus after the forEach over `ps`. */
  function StatusCounts(ps: seq<ProjectDoc>): map<string, Entry>
  {
    Tally(ps, StatusOf, InitialStatusCounts)
  }

  /** projectsByCategory after the forEach over `ps`. */
  function CategoryCounts(ps: seq<ProjectDoc>): map<string, Entry>
  {
    Tally(ps, CategoryOf, map[])
  }

  /** The number of projects in `ps` whose key is `k`. */
  function KeyCount(ps: seq<ProjectDoc>, key: ProjectDoc -> string, k: string): (n: nat)
    ensures n <= |ps|
  {
    if ps == [] then 0
    else KeyCount(ps[..|ps| - 1], key, k) + (if key(ps[|ps| - 1]) == k then 1 else 0)
  }

  /** The number of projects in `ps` whose key is not a prototype name. */
  function OrdinaryCount(ps: seq<ProjectDoc>, key: ProjectDoc -> string): (n: nat)
    ensures n <= |ps|
    ensures (forall i :: 0 <= i < |ps| ==> !ProtoKey(key(ps[i]))) ==> n == |ps|
  {
    if ps == [] then 0
    else OrdinaryCount(ps[..|ps| - 1], key) + (if ProtoKey(key(ps[|ps| - 1])) then 0 else 1)
  }

  function KeysOf(ps: seq<ProjectDoc>, key: ProjectDoc -> string): set<string>
  {
    set i | 0 <= i < |ps| :: key(ps[i])
  }

  /** A starting object: numbers only, under names that are not prototype names. */
  predicate Plain(init: map<string, Entry>)
  {
    forall k :: k in init ==> init[k].Count? && !ProtoKey(k)
  }

  function Initial(init: map<string, Entry>, k: string): nat
  {
    if k in init then NumberIn(init[k]) else 0
  }

  lemma LastPrefix<T>(s: seq<T>)
    requires s != []
    ensures s == s[..|s| - 1] + [s[|s| - 1]]
    ensures forall i :: 0 <= i < |s| - 1 ==> s[..|s| - 1][i] == s[i]
  {
  }

  /** The counter object holds its starting keys and every key that occurs, "__proto__" excepted. */
  lemma {:induction false} TallyKeys(ps: seq<ProjectDoc>, key: ProjectDoc -> string, init: map<string, Entry>)
    ensures Tally(ps, key, init).Keys == init.Keys + (KeysOf(ps, key) - {"__proto__"})
  {
    if ps != [] {
      var prefix := ps[..|ps| - 1];
      TallyKeys(prefix, key, init);
      assert KeysOf(ps, key) == KeysOf(prefix, key) + {key(ps[|ps| - 1])} by {
        forall s | s in KeysOf(ps, key) ensures s in KeysOf(prefix, key) + {key(ps[|ps| - 1])} {
          var i :| 0 <= i < |ps| && key(ps[i]) == s;
          if i < |ps| - 1 { assert prefix[i] == ps[i]; }
        }
        forall s | s in KeysOf(prefix, key) ensures s in KeysOf(ps, key) {
          var i :| 0 <= i < |prefix| && key(prefix[i]) == s;
          assert ps[i] == prefix[i];
        }
      }
    }
  }

  /** An ordinary key of the counter object: its starting value plus the number of projects with that key. */
  lemma {:induction false} TallyAtOrdinary(ps: seq<ProjectDoc>, key: ProjectDoc -> string, init: map<string, Entry>, k: string)
    requires Plain(init) && !ProtoKey(k)
    ensures var m, c := Tally(ps, key, init), KeyCount(ps, key, k);
      && (k in m <==> k in init || c > 0)
      && (k in m ==> m[k] == Count(Initial(init, k) + c))
  {
    if ps != [] {
      TallyAtOrdinary(ps[..|ps| - 1], key, init, k);
    }
  }

  /**
    A key named after an inherited member: present once it occurs, holding
    the member's text followed by one "1" per project; "__proto__" is never
    present.
   */
  lemma {:induction false} TallyAtInherited(ps: seq<ProjectDoc>, key: ProjectDoc -> string, init: map<string, Entry>, k: string)
    requires Plain(init) && ProtoKey(k)
    ensures var m, c := Tally(ps, key, init), KeyCount(ps, key, k);
      && (k in m <==> k != "__proto__" && c > 0)
      && (k in m ==> m[k] == Text(NativeSource(k) + Ones(c)))
  {
    if ps == [] {
      assert k !in init;
    } else {
      var prefix, x := ps[..|ps| - 1], key(ps[|ps| - 1]);
      var m, c := Tally(prefix, key, init), KeyCount(prefix, key, k);
      TallyAtInherited(prefix, key, init, k);
      assert Tally(ps, key, init) == Bump(m, x);
      if x == k && k != "__proto__" {
        assert KeyCount(ps, key, k) == c + 1;
        BumpInherited(m, k, c);
      } else {
        assert KeyCount(ps, key, k) == if x == k then c + 1 else c;
        BumpElsewhere(m, x, k);
      }
    }
  }

  /** Bumping one key leaves every other key, and every bump of "__proto__", as it was. */
  lemma BumpElsewhere(m: map<string, Entry>, x: string, k: string)
    requires x != k || x == "__proto__"
    ensures k in Bump(m, x) <==> k in m
    ensures k in m ==> Bump(m, x)[k] == m[k]
  {
  }

  /** One more project under an inherited name appends one more "1". */
  lemma BumpInherited(m: map<string, Entry>, k: string, c: nat)
    requires ProtoKey(k) && k != "__proto__"
    requires k in m <==> c > 0
    requires k in m ==> m[k] == Text(NativeSource(k) + Ones(c))
    ensures k in Bump(m, k) && Bump(m, k)[k] == Text(NativeSource(k) + Ones(c + 1))
  {
    OnesAppend(NativeSource(k), c);
  }

  /** Appending "1" to a text that ends in `c` ones gives `c + 1` ones. */
  lemma OnesAppend(s: string, c: nat)
    ensures s + Ones(c) + "1" == s + Ones(c + 1)
    ensures c == 0 ==> s + "1" == s + Ones(1)
  {
    assert Ones(c) + "1" == Ones(c + 1);
    assert s + Ones(c) == s + Ones(c + 1)[..c];
  }

  /** TallyAtOrdinary and TallyAtInherited for every key at once. */
  lemma TallyValues(ps: seq<ProjectDoc>, key: ProjectDoc -> string, init: map<string, Entry>)
    requires Plain(init)
    ensures forall k :: !ProtoKey(k) && k in Tally(ps, key, init) ==>
      Tally(ps, key, init)[k] == Count(Initial(init, k) + KeyCount(ps, key, k))
    ensures forall k :: !ProtoKey(k) && k !in Tally(ps, key, init) ==> k !in init && KeyCount(ps, key, k) == 0
    ensures forall k :: ProtoKey(k) ==> (k in Tally(ps, key, init) <==> k != "__proto__" && KeyCount(ps, key, k) > 0)
    ensures forall k :: ProtoKey(k) && k in Tally(ps, key, init) ==>
      Tally(ps, key, init)[k] == Text(NativeSource(k) + Ones(KeyCount(ps, key, k)))
  {
    forall k | ProtoKey(k) {
      TallyAtInherited(ps, key, init, k);
    }
    forall k | !ProtoKey(k) {
      TallyAtOrdinary(ps, key, init, k);
    }
  }

  /**
    The numbers of the counter object sum to their starting sum plus one per
    project whose key is an ordinary name; a project under a prototype name
    adds no number.
   */
  lemma {:induction false} TallySum(ps: seq<ProjectDoc>, key: ProjectDoc -> string, init: map<string, Entry>)
    requires Plain(init)
    ensures NumericSum(Tally(ps, key, init)) == NumericSum(init) + OrdinaryCount(ps, key)
  {
    if ps != [] {
      var prefix, x := ps[..|ps| - 1], key(ps[|ps| - 1]);
      var m := Tally(prefix, key, init);
      TallySum(prefix, key, init);
      if ProtoKey(x) {
        TallyAtInherited(prefix, key, init, x);
      } else {
        TallyAtOrdinary(prefix, key, init, x);
      }
      if x != "__proto__" {
        NumericSumSet(m, x, Bump(m, x)[x]);
        assert Bump(m, x) == m[x := Bump(m, x)[x]];
      }
    }
  }

  /** A project whose status is "constructor" leaves a string, not a number, under that key. */
  lemma InheritedKeyCountsAsText(p: ProjectDoc)
    requires p.data.status == "constructor"
    ensures StatusCounts([p])["constructor"] == Text("function Object() { [native code] }1")
  {
    assert [p][..0] == [] && [p][0] == p;
    assert Tally([], StatusOf, InitialStatusCounts) == InitialStatusCounts;
    assert StatusCounts([p]) == Bump(InitialStatusCounts, StatusOf(p));
    assert NativeSource("constructor") + "1" == "function Object() { [native code] }1";
  }

  /** `projectsByStatus.completed` is always an own number: the count of completed projects. */
  lemma CompletedCounted(ps: seq<ProjectDoc>)
    ensures "completed" in StatusCounts(ps)
    ensures StatusCounts(ps)["completed"] == Count(KeyCount(ps, StatusOf, "completed"))
  {
    assert Plain(InitialStatusCounts);
    TallyAtOrdinary(ps, StatusOf, InitialStatusCounts, "completed");
  }

  /**
    Both counter objects of the dashboard sum to the number of projects, less
    those filed under a prototype name; with none of those, to totalProjects.
   */
  lemma ProjectCountersSum(ps: seq<ProjectDoc>)
    ensures NumericSum(StatusCounts(ps)) == OrdinaryCount(ps, StatusOf)
    ensures NumericSum(CategoryCounts(ps)) == OrdinaryCount(ps, CategoryOf)
  {
    var m := InitialStatusCounts;
    NumericSumRemove(m, "upcoming");
    NumericSumRemove(m - {"upcoming"}, "ongoing");
    NumericSumRemove(m - {"upcoming"} - {"ongoing"}, "completed");
    NumericSumRemove(m - {"upcoming"} - {"ongoing"} - {"completed"}, "on-hold");
    assert m - {"upcoming"} - {"ongoing"} - {"completed"} - {"on-hold"} == map[];
    TallySum(ps, StatusOf, m);
    TallySum(ps, CategoryOf, map[]);
  }

  // ---------------------------------------------------------------------
  // The task counters
  // ---------------------------------------------------------------------

  /** What a project contributes to the task counters: its tasks, or nothing when its read failed. */
  function ReadTasks(p: ProjectDoc, taskReads: map<Id, seq<Task>>): seq<Task>
  {
    if p.id in taskReads then taskReads[p.id] else []
  }

  /** The if-chain over one task status; any other status is counted nowhere. */
  function TallyOne(t: TaskTally, status: string): TaskTally
  {
    if status == "pending" then t.(pending := t.pending + 1)
    else if status == "in-progress" then t.(inProgress := t.inProgress + 1)
    else if status == "completed" then t.(completed := t.completed + 1)
    else t
  }

  function TallyTasks(t: TaskTally, ts: seq<Task>): TaskTally
  {
    if ts == [] then t else TallyOne(TallyTasks(t, ts[..|ts| - 1]), ts[|ts| - 1].status)
  }

  /** totalTasks after the loop over `ps`. */
  function TaskTotal(ps: seq<ProjectDoc>, taskReads: map<Id, seq<Task>>): nat
  {
    if ps == [] then 0 else TaskTotal(ps[..|ps| - 1], taskReads) + |ReadTasks(ps[|ps| - 1], taskReads)|
  }

  /** tasksByStatus after the loop over `ps`. */
  function TaskTallyOf(ps: seq<ProjectDoc>, taskReads: map<Id, seq<Task>>): TaskTally
  {
    if ps == [] then NoTasks else TallyTasks(TaskTallyOf(ps[..|ps| - 1], taskReads), ReadTasks(ps[|ps| - 1], taskReads))
  }

  function Total(t: TaskTally): nat
  {
    t.pending + t.inProgress + t.completed
  }

  predicate KnownTaskStatus(status: string)
  {
    status == "pending" || status == "in-progress" || status == "completed"
  }

  /** Counting a list of tasks adds at most one per task, and exactly one per task of known status. */
  lemma {:induction false} TallyTasksBound(t: TaskTally, ts: seq<Task>)
    ensures Total(TallyTasks(t, ts)) <= Total(t) + |ts|
    ensures (forall i :: 0 <= i < |ts| ==> KnownTaskStatus(ts[i].status)) ==>
      Total(TallyTasks(t, ts)) == Total(t) + |ts|
  {
    if ts != [] {
      TallyTasksBound(t, ts[..|ts| - 1]);
    }
  }

  /** The three task counters never sum past totalTasks, and reach it when every status is known. */
  lemma {:induction false} TaskTallyWithinTotal(ps: seq<ProjectDoc>, taskReads: map<Id, seq<Task>>)
    ensures Total(TaskTallyOf(ps, taskReads)) <= TaskTotal(ps, taskReads)
    ensures (forall i, j :: 0 <= i < |ps| && 0 <= j < |ReadTasks(ps[i], taskReads)| ==>
               KnownTaskStatus(ReadTasks(ps[i], taskReads)[j].status)) ==>
      Total(TaskTallyOf(ps, taskReads)) == TaskTotal(ps, taskReads)
  {
    if ps != [] {
      var init := ps[..|ps| - 1];
      TaskTallyWithinTotal(init, taskReads);
      TallyTasksBound(TaskTallyOf(init, taskReads), ReadTasks(ps[|ps| - 1], taskReads));
      LastPrefix(ps);
    }
  }

  /** The number of projects in `ps` with the given id. */
  function IdCount(ps: seq<ProjectDoc>, id: Id): nat
  {
    if ps == [] then 0 else IdCount(ps[..|ps| - 1], id) + (if ps[|ps| - 1].id == id then 1 else 0)
  }

  /** A failed read for one project takes exactly that project's tasks out of the total. */
  lemma {:induction false} FailedReadSkipped(ps: seq<ProjectDoc>, taskReads: map<Id, seq<Task>>, id: Id)
    requires id in taskReads
    ensures TaskTotal(ps, taskReads) == TaskTotal(ps, taskReads - {id}) + IdCount(ps, id) * |taskReads[id]|
  {
    if ps != [] {
      var init, last := ps[..|ps| - 1], ps[|ps| - 1];
      FailedReadSkipped(init, taskReads, id);
      var n := |taskReads[id]|;
      if last.id == id {
        assert IdCount(ps, id) * n == IdCount(init, id) * n + n;
      } else {
        assert ReadTasks(last, taskReads - {id}) == ReadTasks(last, taskReads);
      }
    }
  }

  // ---------------------------------------------------------------------
  // Recent projects and the completion rate
  // ---------------------------------------------------------------------

  /** The sort key: `createdAt?.toMillis?.() || 0`, where every stored project carries its stamp. */
  function CreatedAt(p: ProjectDoc): int
  {
    p.data.createdAt
  }

  predicate NewestFirst(s: seq<ProjectDoc>)
  {
    DescendingBy(s, CreatedAt)
  }

  function Min(a: nat, b: nat): nat
  {
    if a <= b then a else b
  }

  lemma SelfRatio(t: real)
    requires t > 0.0
    ensures t / t == 1.0
  {
  }

  /** `Math.round(x * 100) / 100`: round half up to two decimals. */
  function RoundToHundredths(x: real): (r: real)
    ensures x - 0.005 < r <= x + 0.005
  {
    ((x * 100.0 + 0.5).Floor as real) / 100.0
  }

  /**
    `total > 0 ? (completed / total) * 100 : 0`, rounded to two decimals: a
    percentage within half a hundredth of the exact share.
   */
  function CompletionRate(completed: nat, total: nat): (r: real)
    requires completed <= total
    ensures total == 0 ==> r == 0.0
    ensures total > 0 ==> r == RoundToHundredths(completed as real / total as real * 100.0)
    ensures 0.0 <= r <= 100.0
    ensures completed == total && total > 0 ==> r == 100.0
  {
    if total == 0 then 0.0
    else
      var x := completed as real / total as real * 100.0;
      assert 0.0 <= x <= 100.0;
      assert 0 <= (x * 100.0 + 0.5).Floor <= 10000;
      assert completed == total ==> x == 100.0 by {
        if completed == total {
          SelfRatio(total as real);
        }
      }
      RoundToHundredths(x)
  }

  /** The forEach over the snapshot that fills projectsByStatus and projectsByCategory. */
  method CountProjects(projects: seq<ProjectDoc>) returns (byStatus: map<string, Entry>, byCategory: map<string, Entry>)
    ensures byStatus == StatusCounts(projects)
    ensures byCategory == CategoryCounts(projects)
  {
    byStatus := InitialStatusCounts;
    byCategory := map[];
    var i := 0;
    while i < |projects|
      invariant i <= |projects|
      invariant byStatus == StatusCounts(projects[..i])
      invariant byCategory == CategoryCounts(projects[..i])
    {
      assert projects[..i + 1][..i] == projects[..i];
      byStatus := Bump(byStatus, projects[i].data.status);
      byCategory := Bump(byCategory, projects[i].data.category);
      i := i + 1;
    }
    assert projects[..i] == projects;
  }

  /** The loop over the projects that reads each task collection, skipping the failed reads. */
  method CountTasks(projects: seq<ProjectDoc>, taskReads: map<Id, seq<Task>>) returns (totalTasks: nat, tally: TaskTally)
    ensures totalTasks == TaskTotal(projects, taskReads)
    ensures tally == TaskTallyOf(projects, taskReads)
  {
    totalTasks := 0;
    tally := NoTasks;
    var i := 0;
    while i < |projects|
      invariant i <= |projects|
      invariant totalTasks == TaskTotal(projects[..i], taskReads)
      invariant tally == TaskTallyOf(projects[..i], taskReads)
    {
      assert projects[..i + 1][..i] == projects[..i];
      var ts := ReadTasks(projects[i], taskReads);
      totalTasks := totalTasks + |ts|;
      tally := CountTaskStatuses(tally, ts);
      i := i + 1;
    }
    assert projects[..i] == projects;
  }

  /** The forEach over one task collection. */
  method CountTaskStatuses(start: TaskTally, ts: seq<Task>) returns (tally: TaskTally)
    ensures tally == TallyTasks(start, ts)
  {
    tally := start;
    var j := 0;
    while j < |ts|
      invariant j <= |ts|
      invariant tally == TallyTasks(start, ts[..j])
    {
      assert ts[..j + 1][..j] == ts[..j];
      tally := TallyOne(tally, ts[j].status);
      j := j + 1;
    }
    assert ts[..j] == ts;
  }

  /** Sort a copy of the snapshot newest first and keep its first five entries. */
  method RecentProjects(projects: seq<ProjectDoc>) returns (recent: seq<ProjectDoc>)
    ensures |recent| == Min(RecentCount, |projects|)
    ensures exists s :: multiset(s) == multiset(projects) && NewestFirst(s) && |recent| <= |s| && recent == s[..|recent|]
  {
    var a := new ProjectDoc[|projects|](k requires 0 <= k < |projects| => projects[k]);
    assert a[..] == projects;
    SortDescendingBy(a, CreatedAt);
    recent := a[..Min(RecentCount, a.Length)];
    assert multiset(a[..]) == multiset(projects) && NewestFirst(a[..]) && recent == a[..][..|recent|];
  }

  /**
    `getDashboardMetrics()`: counters over the snapshot, task counts over the
    successful task reads, the five newest projects and the completion rate.
   */
  method GetDashboardMetrics(projects: seq<ProjectDoc>, taskReads: map<Id, seq<Task>>) returns (m: Metrics)
    ensures m.totalProjects == |projects|
    ensures m.projectsByStatus == StatusCounts(projects)
    ensures m.projectsByCategory == CategoryCounts(projects)
    ensures m.totalTasks == TaskTotal(projects, taskReads)
    ensures m.tasksByStatus == TaskTallyOf(projects, taskReads)
    ensures |m.recentProjects| == Min(RecentCount, |projects|)
    ensures exists s :: multiset(s) == multiset(projects) && NewestFirst(s) && |m.recentProjects| <= |s| && m.recentProjects == s[..|m.recentProjects|]
    ensures m.completionRate == CompletionRate(KeyCount(projects, StatusOf, "completed"), |projects|)
  {
    var byStatus, byCategory := CountProjects(projects);
    var totalTasks, tally := CountTasks(projects, taskReads);
    var recent := RecentProjects(projects);
    CompletedCounted(projects);
    var completed := byStatus["completed"].n;
    m := Metrics(|projects|, byStatus, byCategory, totalTasks, tally, recent, CompletionRate(completed, |projects|));
  }
}
