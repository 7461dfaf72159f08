/** The dashboard: the four counters, the storage bar with its label, colour
    and width, the Free-plan banner, and the activity text handed to the
    summariser. */
module DashboardPage {
  import opened Base
  import opened Text
  import opened Schema
  import opened Queries

  const TodoType := "todo"
  const MiB := 1024 * 1024
  const GiB := 1024 * 1024 * 1024

  /** The `stats` object, without the storage text (number formatting). */
  datatype Stats = Stats(notes: nat, tasks: nat, aiInteractions: int)

  predicate IsTodo(n: Note) { n.kind == TodoType }

  /** `setStats` after the notes list and the usage reply have arrived. */
  function StatsOf(notes: seq<Note>, usage: Usage): (s: Stats)
    ensures s.notes == |notes|
    ensures s.tasks == |Filter(notes, IsTodo)|
    ensures s.tasks <= s.notes
    ensures s.aiInteractions == usage.aiUsage
  {
    Stats(|notes|, Count(notes, IsTodo), usage.aiUsage)
  }

  /** Every task is a note of type `todo`, and a list of todos is all tasks. */
  lemma TasksAreTodos(notes: seq<Note>, usage: Usage)
    ensures StatsOf(notes, usage).tasks == |notes| <==> forall n :: n in notes ==> n.kind == TodoType
  {
    if StatsOf(notes, usage).tasks == |notes| {
      FilterFullLength(notes, IsTodo);
    } else {
      if forall n :: n in notes ==> n.kind == TodoType {
        FilterKeepsAll(notes, IsTodo);
      }
    }
  }

  /** A filter that drops nothing keeps only elements satisfying the predicate,
      so all of them do. */
  lemma {:induction false} FilterFullLength<T(!new)>(s: seq<T>, p: T -> bool)
    requires |Filter(s, p)| == |s|
    ensures forall x :: x in s ==> p(x)
  {
    if s != [] {
      assert |Filter(s[1..], p)| <= |s[1..]|;
      assert p(s[0]);
      FilterFullLength(s[1..], p);
      assert forall x :: x in s ==> x == s[0] || x in s[1..];
    }
  }

  // ---------------------------------------------------------------------------
  // Storage bar

  /** The limit as the label shows it: a number of gigabytes or of megabytes. */
  datatype Amount = Gigabytes(gb: real) | Megabytes(mb: real)

  /** GB when the limit is at least 1024 MiB, MB otherwise. */
  function LimitLabel(limit: nat): (a: Amount)
    ensures a.Gigabytes? <==> limit >= GiB
    ensures a.Gigabytes? ==> a.gb * GiB as real == limit as real
    ensures a.Megabytes? ==> a.mb * MiB as real == limit as real
  {
    if (limit as real) / (MiB as real) >= 1024.0 then Gigabytes((limit as real) / (GiB as real))
    else Megabytes((limit as real) / (MiB as real))
  }

  /** The two limits the server sends read 500 MB and 10 GB. */
  lemma LimitLabels()
    ensures LimitLabel(FreeStorageLimit) == Megabytes(500.0)
    ensures LimitLabel(PaidStorageLimit) == Gigabytes(10.0)
  {
  }

  /** The bar turns red when more than nine tenths of the limit are used. */
  predicate BarRed(used: nat, limit: nat)
    requires limit > 0
  {
    (used as real) / (limit as real) > 0.9
  }

  lemma BarRedIff(used: nat, limit: nat)
    requires limit > 0
    ensures BarRed(used, limit) <==> 10 * used > 9 * limit
  {
    var q := (used as real) / (limit as real);
    assert q * (limit as real) == used as real;
    ScaleKeepsOrder(q, 0.9, limit as real);
  }

  lemma ScaleKeepsOrder(a: real, b: real, c: real)
    requires c > 0.0
    ensures a > b <==> a * c > b * c
  {
    if a > b {
      assert (a - b) * c > 0.0;
    } else {
      assert (b - a) * c >= 0.0;
    }
  }

  /** `Math.min(100, used / limit * 100)`, in percent. */
  function BarWidth(used: nat, limit: nat): (w: real)
    requires limit > 0
    ensures 0.0 <= w <= 100.0
    ensures w == 100.0 <==> used >= limit
    ensures w < 100.0 ==> w * (limit as real) == 100.0 * (used as real)
  {
    var q := (used as real) / (limit as real);
    var pct := q * 100.0;
    assert q * (limit as real) == used as real;
    ScaleKeepsOrder(1.0, q, limit as real);
    assert 1.0 * (limit as real) == limit as real;
    assert pct < 100.0 <==> q < 1.0;
    assert pct * (limit as real) == 100.0 * (used as real);
    if 100.0 <= pct then 100.0 else pct
  }

  /** The usage reply always carries a positive storage limit, so the bar's
      division is defined. */
  lemma UsageLimitPositive(users: seq<User>, notes: seq<Note>, uid: int)
    requires UsageOf(users, notes, uid).Some?
    ensures UsageOf(users, notes, uid).value.storageLimit > 0
  {
  }

  // ---------------------------------------------------------------------------
  // Banner

  /** `user?.plan === 'Free'`. */
  predicate ShowBanner(user: Option<Account>) {
    user.Some? && user.value.plan == Some(PlanFree)
  }

  /** After a login a Free user sees the banner; the account a signup answers
      with carries no plan, so until the next login the banner stays hidden. */
  lemma BannerByAccount(u: User, id: int, email: string, name: Option<string>)
    ensures ShowBanner(Some(AccountOf(u))) <==> u.plan == Some(PlanFree)
    ensures !ShowBanner(Some(SignupAccount(id, email, name)))
  {
  }

  // ---------------------------------------------------------------------------
  // Activity text

  datatype ActivityItem = ActivityItem(action: string, details: string)

  function ActivityLine(a: ActivityItem): string {
    a.action + ": " + a.details
  }

  function ActivityLines(acts: seq<ActivityItem>): (r: seq<string>)
    ensures |r| == |acts|
    ensures forall i :: 0 <= i < |acts| ==> r[i] == ActivityLine(acts[i])
  {
    seq(|acts|, i requires 0 <= i < |acts| => ActivityLine(acts[i]))
  }

  /** `activities.map(a => `${a.action}: ${a.details}`).join('\n')`. */
  function ActivityText(acts: seq<ActivityItem>): string {
    Join(ActivityLines(acts), "\n")
  }

  /** Splitting the text at newlines gives back one line per activity, in order,
      when no action or details contains a newline. */
  lemma ActivityTextLines(acts: seq<ActivityItem>)
    requires acts != []
    requires forall a :: a in acts ==> !Contains(ActivityLine(a), "\n")
    ensures Split(ActivityText(acts), "\n") == ActivityLines(acts)
  {
    var lines := ActivityLines(acts);
    forall k | 0 <= k < |lines| ensures !Contains(lines[k], "\n") {
      assert acts[k] in acts;
    }
    SplitJoin(lines, "\n");
  }
}
