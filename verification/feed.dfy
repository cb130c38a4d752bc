/**
 * The values of the idea feed and everything derived from them: an idea and
 * its score, the effect of one vote on the list of ideas, the time-window
 * filters and the feed the component shows (retained ideas, highest score
 * first).
 *
 * Times are integers in milliseconds since the epoch. The component stores
 * `created_at` as an ISO 8601 UTC string and compares it with another string
 * of the same format; such strings order exactly as the instants they denote,
 * so the model compares the millisecond counts instead.
 */
module Feed {

  datatype Option<T> = None | Some(value: T)

  /** One posted idea, with its two vote counters. */
  datatype Idea = Idea(id: int, text: string, upvotes: nat, downvotes: nat, createdAt: int)

  /** The two vote buttons; the component passes only 'up' and 'down'. */
  datatype Dir = Up | Down

  /** `getScore`: up votes minus down votes. */
  function Score(idea: Idea): int {
    idea.upvotes - idea.downvotes
  }

  // ---------------------------------------------------------------------------
  // Voting
  // ---------------------------------------------------------------------------

  /**
   * The copy of `idea` that one vote in direction `dir` produces: exactly one
   * counter, the one matching the direction, goes up by one; the score moves
   * by one in that direction; every other field is kept.
   */
  function Cast(idea: Idea, dir: Dir): (r: Idea)
    ensures r.(upvotes := idea.upvotes, downvotes := idea.downvotes) == idea
    ensures r.upvotes + r.downvotes == idea.upvotes + idea.downvotes + 1
    ensures r.upvotes >= idea.upvotes && r.downvotes >= idea.downvotes
    ensures Score(r) == Score(idea) + (if dir == Up then 1 else -1)
  {
    match dir
    case Up => idea.(upvotes := idea.upvotes + 1)
    case Down => idea.(downvotes := idea.downvotes + 1)
  }

  /**
   * The new list of ideas after a vote on `ideaId`: every idea whose id equals
   * `ideaId` receives the vote (ids are not assumed unique), every other idea
   * is kept as it is, and length and order are unchanged.
   */
  function ApplyVote(ideas: seq<Idea>, ideaId: int, dir: Dir): (r: seq<Idea>)
    ensures |r| == |ideas|
    ensures forall i :: 0 <= i < |r| ==> r[i].id == ideas[i].id
    ensures forall i :: 0 <= i < |r| && ideas[i].id != ideaId ==> r[i] == ideas[i]
    ensures forall i :: 0 <= i < |r| && ideas[i].id == ideaId ==>
      r[i].text == ideas[i].text && r[i].createdAt == ideas[i].createdAt &&
      r[i].upvotes + r[i].downvotes == ideas[i].upvotes + ideas[i].downvotes + 1 &&
      Score(r[i]) == Score(ideas[i]) + (if dir == Up then 1 else -1)
  {
    seq(|ideas|, i requires 0 <= i < |ideas| =>
      if ideas[i].id == ideaId then Cast(ideas[i], dir) else ideas[i])
  }

  /** A vote on an id that no idea carries leaves the list as it was. */
  lemma VoteOnAbsentId(ideas: seq<Idea>, ideaId: int, dir: Dir)
    requires forall i :: 0 <= i < |ideas| ==> ideas[i].id != ideaId
    ensures ApplyVote(ideas, ideaId, dir) == ideas
  {
  }

  /** The total number of votes over a list of ideas. */
  function TotalVotes(ideas: seq<Idea>): nat {
    if ideas == [] then 0 else ideas[0].upvotes + ideas[0].downvotes + TotalVotes(ideas[1..])
  }

  /** The number of ideas in `ideas` whose id is `ideaId`. */
  function CountId(ideas: seq<Idea>, ideaId: int): nat {
    if ideas == [] then 0 else (if ideas[0].id == ideaId then 1 else 0) + CountId(ideas[1..], ideaId)
  }

  /** A vote adds exactly one vote per idea carrying the id, and no others. */
  lemma {:induction false} VoteAddsOnePerMatch(ideas: seq<Idea>, ideaId: int, dir: Dir)
    ensures TotalVotes(ApplyVote(ideas, ideaId, dir)) == TotalVotes(ideas) + CountId(ideas, ideaId)
  {
    if ideas != [] {
      var r := ApplyVote(ideas, ideaId, dir);
      assert r[1..] == ApplyVote(ideas[1..], ideaId, dir);
      VoteAddsOnePerMatch(ideas[1..], ideaId, dir);
    }
  }

  /** `idea` after one vote in each direction of `dirs`, in order. */
  function CastAll(idea: Idea, dirs: seq<Dir>): Idea
    decreases |dirs|
  {
    if dirs == [] then idea else CastAll(Cast(idea, dirs[0]), dirs[1..])
  }

  /** The number of votes in `dirs` that go in direction `d`. */
  function CountDir(dirs: seq<Dir>, d: Dir): nat {
    if dirs == [] then 0 else (if dirs[0] == d then 1 else 0) + CountDir(dirs[1..], d)
  }

  /**
   * After any run of votes an idea's score is still its up votes minus its
   * down votes: the starting score plus the up votes cast minus the down
   * votes cast.
   */
  lemma {:induction false} ScoreOfCasts(idea: Idea, dirs: seq<Dir>)
    ensures Score(CastAll(idea, dirs)) == Score(idea) + CountDir(dirs, Up) - CountDir(dirs, Down)
    ensures CastAll(idea, dirs).upvotes == idea.upvotes + CountDir(dirs, Up)
    ensures CastAll(idea, dirs).downvotes == idea.downvotes + CountDir(dirs, Down)
    decreases |dirs|
  {
    if dirs != [] {
      ScoreOfCasts(Cast(idea, dirs[0]), dirs[1..]);
    }
  }

  // ---------------------------------------------------------------------------
  // Time filters
  // ---------------------------------------------------------------------------

  /** `DAY`: one day in milliseconds. */
  const Day: nat := 24 * 60 * 60 * 1000

  /** The `key` of a time filter. */
  datatype FilterKey = Today | Week | Month | All

  /** A filter's window: a span in milliseconds, or unbounded (`Infinity`). */
  datatype Window = Span(ms: nat) | Unbounded

  /** One entry of `TIME_FILTERS`. */
  datatype TimeFilter = TimeFilter(key: FilterKey, caption: string, window: Window)

  /** `TIME_FILTERS`, in the order the filter bar shows them. */
  const TimeFilters: seq<TimeFilter> := [
    TimeFilter(Today, "Today", Span(Day)),
    TimeFilter(Week, "This Week", Span(7 * Day)),
    TimeFilter(Month, "This Month", Span(30 * Day)),
    TimeFilter(All, "All Time", Unbounded)
  ]

  /** `filters.find(f => f.key === key)`: the first entry with that key, if any. */
  function Find(filters: seq<TimeFilter>, key: FilterKey): (r: Option<TimeFilter>)
    ensures r.None? <==> forall i :: 0 <= i < |filters| ==> filters[i].key != key
    ensures r.Some? ==> r.value.key == key
    ensures r.Some? ==> exists i :: 0 <= i < |filters| && filters[i] == r.value && forall j :: 0 <= j < i ==> filters[j].key != key
  {
    if filters == [] then None
    else if filters[0].key == key then Some(filters[0])
    else
      var r := Find(filters[1..], key);
      assert forall i :: 1 <= i < |filters| ==> filters[i] == filters[1..][i - 1];
      r
  }

  /**
   * The window every key stands for, stated independently of the table:
   * today one day, this week seven, this month thirty, all time unbounded.
   */
  function WindowOf(key: FilterKey): Window {
    match key
    case Today => Span(Day)
    case Week => Span(7 * Day)
    case Month => Span(30 * Day)
    case All => Unbounded
  }

  /**
   * `activeFilter`: the lookup never fails, because every key has an entry;
   * the entry found carries the key's window, which is unbounded exactly
   * for 'all'.
   */
  function ActiveFilter(key: FilterKey): (f: TimeFilter)
    ensures f in TimeFilters && f.key == key
    ensures f.window == WindowOf(key)
    ensures f.window.Unbounded? <==> key == All
  {
    var found := Find(TimeFilters, key);
    assert TimeFilters[match key case Today => 0 case Week => 1 case Month => 2 case All => 3].key == key;
    found.value
  }

  /** `cutoff`: none for an unbounded window (the empty string), else now minus the window. */
  function Cutoff(f: TimeFilter, now: int): Option<int> {
    match f.window
    case Unbounded => None
    case Span(ms) => Some(now - ms)
  }

  /**
   * The predicate of the `filter` call: 'all' keeps everything; otherwise an
   * idea is kept when it was created at or after the cutoff. Every string is
   * at or after the empty string, so a missing cutoff keeps everything too.
   */
  predicate Keeps(key: FilterKey, cutoff: Option<int>, idea: Idea) {
    key == All || cutoff.None? || idea.createdAt >= cutoff.value
  }

  /** `ideas.filter(...)`: the kept ideas, in their original order. */
  function Retained(ideas: seq<Idea>, key: FilterKey, cutoff: Option<int>): seq<Idea> {
    if ideas == [] then []
    else (if Keeps(key, cutoff, ideas[0]) then [ideas[0]] else []) + Retained(ideas[1..], key, cutoff)
  }

  /** The filtered list holds each kept idea as often as the input does, and nothing else. */
  lemma {:induction false} RetainedCounts(ideas: seq<Idea>, key: FilterKey, cutoff: Option<int>)
    ensures forall x :: multiset(Retained(ideas, key, cutoff))[x] == (if Keeps(key, cutoff, x) then multiset(ideas)[x] else 0)
  {
    if ideas != [] {
      RetainedCounts(ideas[1..], key, cutoff);
      assert ideas == [ideas[0]] + ideas[1..];
    }
  }

  /**
   * The filter keeps order: filtering two lists one after the other gives
   * the filtered first list followed by the filtered second list. With the
   * one-element case (an idea is kept exactly when Keeps holds) this fixes
   * the result, order included.
   */
  lemma {:induction false} RetainedConcat(a: seq<Idea>, b: seq<Idea>, key: FilterKey, cutoff: Option<int>)
    ensures Retained(a + b, key, cutoff) == Retained(a, key, cutoff) + Retained(b, key, cutoff)
  {
    if a == [] {
      assert a + b == b;
    } else {
      var ab := a + b;
      assert ab[0] == a[0] && ab[1..] == a[1..] + b;
      RetainedConcat(a[1..], b, key, cutoff);
      var head := if Keeps(key, cutoff, a[0]) then [a[0]] else [];
      var ra, rb := Retained(a[1..], key, cutoff), Retained(b, key, cutoff);
      assert head + (ra + rb) == (head + ra) + rb;
    }
  }

  /** A single idea is kept exactly when the predicate holds of it. */
  lemma RetainedSingle(x: Idea, key: FilterKey, cutoff: Option<int>)
    ensures Retained([x], key, cutoff) == if Keeps(key, cutoff, x) then [x] else []
  {
  }

  /**
   * Whether an idea belongs to the window of `key` at time `now`, stated
   * directly: created no earlier than one, seven or thirty days before
   * `now`, or any idea at all for 'all'.
   */
  predicate InWindow(key: FilterKey, now: int, idea: Idea) {
    match key
    case Today => idea.createdAt >= now - Day
    case Week => idea.createdAt >= now - 7 * Day
    case Month => idea.createdAt >= now - 30 * Day
    case All => true
  }

  /** The filter the component applies keeps exactly the ideas in the window. */
  lemma KeepsIffInWindow(key: FilterKey, now: int, idea: Idea)
    ensures Keeps(key, Cutoff(ActiveFilter(key), now), idea) <==> InWindow(key, now, idea)
  {
  }

  /** The windows are nested: today within this week, within this month, within all time. */
  lemma WindowsNest(now: int, idea: Idea)
    ensures InWindow(Today, now, idea) ==> InWindow(Week, now, idea)
    ensures InWindow(Week, now, idea) ==> InWindow(Month, now, idea)
    ensures InWindow(Month, now, idea) ==> InWindow(All, now, idea)
  {
  }

  // ---------------------------------------------------------------------------
  // Ordering
  // ---------------------------------------------------------------------------

  /** The comparator passed to `sort`: negative when `a` belongs before `b`. */
  function Compare(a: Idea, b: Idea): int {
    Score(b) - Score(a)
  }

  /**
   * The comparator is consistent in the sense `sort` relies on: it compares
   * an idea equal to itself, swapping the arguments flips its sign, and
   * "not after" is transitive; it puts `a` first exactly when `a` scores higher.
   */
  lemma CompareConsistent(a: Idea, b: Idea, c: Idea)
    ensures Compare(a, a) == 0
    ensures Compare(a, b) == -Compare(b, a)
    ensures Compare(a, b) <= 0 && Compare(b, c) <= 0 ==> Compare(a, c) <= 0
    ensures Compare(a, b) < 0 <==> Score(a) > Score(b)
  {
  }

  /** Non-increasing score from front to back. */
  predicate SortedByScore(s: seq<Idea>) {
    forall i, j :: 0 <= i < j < |s| ==> Score(s[i]) >= Score(s[j])
  }

  /** The ideas of `s` whose score is `k`, in the order `s` has them. */
  function ScoreClass(s: seq<Idea>, k: int): seq<Idea> {
    if s == [] then [] else (if Score(s[0]) == k then [s[0]] else []) + ScoreClass(s[1..], k)
  }

  /** The score class of `k` holds the ideas of `s` with score `k` and nothing else. */
  lemma {:induction false} ScoreClassMembers(s: seq<Idea>, k: int, x: Idea)
    ensures x in ScoreClass(s, k) <==> x in s && Score(x) == k
  {
    if s != [] {
      ScoreClassMembers(s[1..], k, x);
      assert x in s <==> x == s[0] || x in s[1..] by {
        assert s == [s[0]] + s[1..];
      }
    }
  }

  /**
   * A stable sort of `s` by the comparator: non-increasing score, and the
   * ideas of each score in the order `s` has them. Together the two make the
   * result a permutation of `s` (see StableSortUnique for why they pin it down).
   */
  ghost predicate IsStableScoreSort(s: seq<Idea>, r: seq<Idea>) {
    SortedByScore(r) && forall k :: ScoreClass(r, k) == ScoreClass(s, k)
  }

  /** Insert `x` in front of the first idea it does not compare after. */
  function Insert(x: Idea, t: seq<Idea>): (r: seq<Idea>)
    ensures multiset(r) == multiset(t) + multiset{x}
    ensures SortedByScore(t) ==> SortedByScore(r)
  {
    if t == [] || Compare(x, t[0]) <= 0 then [x] + t
    else
      var rest := Insert(x, t[1..]);
      assert t == [t[0]] + t[1..];
      assert SortedByScore(t) ==> SortedByScore([t[0]] + rest) by {
        if SortedByScore(t) {
          InsertBelowHead(x, t, rest);
          ConsSorted(t[0], rest);
        }
      }
      [t[0]] + rest
  }

  /** What an insertion behind the head of a sorted list yields stays below the head. */
  lemma InsertBelowHead(x: Idea, t: seq<Idea>, rest: seq<Idea>)
    requires t != [] && SortedByScore(t) && Score(x) < Score(t[0])
    requires multiset(rest) == multiset(t[1..]) + multiset{x}
    ensures forall j :: 0 <= j < |rest| ==> Score(rest[j]) <= Score(t[0])
  {
    forall j | 0 <= j < |rest| ensures Score(rest[j]) <= Score(t[0]) {
      assert rest[j] in multiset(rest);
      if rest[j] != x {
        assert rest[j] in multiset(t[1..]);
        var i :| 0 <= i < |t[1..]| && t[1..][i] == rest[j];
        assert t[i + 1] == rest[j];
      }
    }
  }

  /** A sorted list stays sorted with an idea in front that outscores all of it. */
  lemma ConsSorted(a: Idea, rest: seq<Idea>)
    requires SortedByScore(rest)
    requires forall j :: 0 <= j < |rest| ==> Score(rest[j]) <= Score(a)
    ensures SortedByScore([a] + rest)
  {
    var r := [a] + rest;
    forall i, j | 0 <= i < j < |r| ensures Score(r[i]) >= Score(r[j]) {
      assert r[j] == rest[j - 1];
      if i > 0 {
        assert r[i] == rest[i - 1];
      }
    }
  }

  /** `sort`, the engine's stable sort, as an insertion sort. */
  function SortByScore(s: seq<Idea>): (r: seq<Idea>)
    ensures multiset(r) == multiset(s)
    ensures SortedByScore(r)
  {
    if s == [] then []
    else
      assert s == [s[0]] + s[1..];
      Insert(s[0], SortByScore(s[1..]))
  }

  /** Inserting `x` puts it in front of every idea of the same score. */
  lemma {:induction false} InsertStable(x: Idea, t: seq<Idea>, k: int)
    ensures ScoreClass(Insert(x, t), k) == (if Score(x) == k then [x] else []) + ScoreClass(t, k)
  {
    if t == [] || Compare(x, t[0]) <= 0 {
      ScoreClassCons(x, t, k);
    } else {
      var rest := Insert(x, t[1..]);
      ScoreClassCons(t[0], rest, k);
      InsertStable(x, t[1..], k);
      ScoreClassCons(t[0], t[1..], k);
      assert t == [t[0]] + t[1..];
      var tail := ScoreClass(t[1..], k);
      if Score(x) == k {
        assert Score(t[0]) != k;
        assert [] + ([x] + tail) == [x] + ([] + tail);
      } else {
        assert ScoreClass(rest, k) == tail;
      }
    }
  }

  /** The insertion sort keeps the ideas of every score in their original order. */
  lemma {:induction false} SortByScoreStable(s: seq<Idea>, k: int)
    ensures ScoreClass(SortByScore(s), k) == ScoreClass(s, k)
  {
    if s != [] {
      InsertStable(s[0], SortByScore(s[1..]), k);
      SortByScoreStable(s[1..], k);
    }
  }

  /** The insertion sort is a stable sort by score. */
  lemma SortByScoreIsStableSort(s: seq<Idea>)
    ensures IsStableScoreSort(s, SortByScore(s))
  {
    forall k ensures ScoreClass(SortByScore(s), k) == ScoreClass(s, k) {
      SortByScoreStable(s, k);
    }
  }

  /**
   * There is only one stable sort by score: two lists sorted by score with
   * the same ideas of each score in the same order are equal. Hence every
   * stable sort with this comparator, whatever its algorithm, returns what
   * SortByScore returns.
   */
  lemma {:induction false} StableSortUnique(s: seq<Idea>, r1: seq<Idea>, r2: seq<Idea>)
    requires IsStableScoreSort(s, r1) && IsStableScoreSort(s, r2)
    ensures r1 == r2
  {
    SortedClassesDetermine(r1, r2);
  }

  /** The score classes of a list with `a` in front. */
  lemma {:induction false} ScoreClassCons(a: Idea, s: seq<Idea>, k: int)
    ensures ScoreClass([a] + s, k) == (if Score(a) == k then [a] else []) + ScoreClass(s, k)
  {
    assert ([a] + s)[1..] == s;
  }

  /** The head of a list sorted by score has the highest score in it. */
  lemma HeadHasTopScore(r: seq<Idea>, x: Idea)
    requires SortedByScore(r) && x in r
    ensures Score(x) <= Score(r[0])
  {
  }

  /** Two sorted lists with the same score classes start with the same idea. */
  lemma {:induction false} SameHead(r1: seq<Idea>, r2: seq<Idea>)
    requires SortedByScore(r1) && SortedByScore(r2) && r1 != [] && r2 != []
    requires forall k :: ScoreClass(r1, k) == ScoreClass(r2, k)
    ensures r1[0] == r2[0]
  {
    var a, b := r1[0], r2[0];
    ScoreClassMembers(r2, Score(b), b);
    ScoreClassMembers(r1, Score(b), b);
    HeadHasTopScore(r1, b);
    ScoreClassMembers(r1, Score(a), a);
    ScoreClassMembers(r2, Score(a), a);
    HeadHasTopScore(r2, a);
    var m := Score(a);
    ScoreClassCons(a, r1[1..], m);
    ScoreClassCons(b, r2[1..], m);
    assert r1 == [a] + r1[1..] && r2 == [b] + r2[1..];
    assert ScoreClass(r1, m)[0] == a;
    assert ScoreClass(r2, m)[0] == b;
  }

  /** Dropping the same head from two lists keeps their score classes equal. */
  lemma {:induction false} SameTailClasses(a: Idea, t1: seq<Idea>, t2: seq<Idea>, k: int)
    requires ScoreClass([a] + t1, k) == ScoreClass([a] + t2, k)
    ensures ScoreClass(t1, k) == ScoreClass(t2, k)
  {
    ScoreClassCons(a, t1, k);
    ScoreClassCons(a, t2, k);
    var c1, c2 := ScoreClass(t1, k), ScoreClass(t2, k);
    if Score(a) == k {
      assert [a] + c1 == [a] + c2;
      assert c1 == ([a] + c1)[1..];
      assert c2 == ([a] + c2)[1..];
    } else {
      assert [] + c1 == c1 && [] + c2 == c2;
    }
  }

  /** Two lists sorted by score with the same score classes are equal. */
  lemma {:induction false} SortedClassesDetermine(r1: seq<Idea>, r2: seq<Idea>)
    requires SortedByScore(r1) && SortedByScore(r2)
    requires forall k :: ScoreClass(r1, k) == ScoreClass(r2, k)
    ensures r1 == r2
  {
    if r1 == [] || r2 == [] {
      if r1 != [] {
        ScoreClassMembers(r1, Score(r1[0]), r1[0]);
      } else if r2 != [] {
        ScoreClassMembers(r2, Score(r2[0]), r2[0]);
      }
    } else {
      SameHead(r1, r2);
      var a, t1, t2 := r1[0], r1[1..], r2[1..];
      assert r1 == [a] + t1 && r2 == [a] + t2;
      forall k ensures ScoreClass(t1, k) == ScoreClass(t2, k) {
        SameTailClasses(a, t1, t2, k);
      }
      SortedClassesDetermine(t1, t2);
    }
  }

  // ---------------------------------------------------------------------------
  // The feed
  // ---------------------------------------------------------------------------

  /**
   * `filteredIdeas` at time `now` under filter `key`: exactly the ideas in
   * the window, each as often as it occurs, highest score first, and the
   * ideas of equal score in feed order.
   */
  function FilteredIdeas(ideas: seq<Idea>, key: FilterKey, now: int): (r: seq<Idea>)
    ensures forall x :: multiset(r)[x] == if InWindow(key, now, x) then multiset(ideas)[x] else 0
    ensures SortedByScore(r)
    ensures forall k :: ScoreClass(r, k) == ScoreClass(Retained(ideas, key, Cutoff(ActiveFilter(key), now)), k)
  {
    var kept := Retained(ideas, key, Cutoff(ActiveFilter(key), now));
    var r := SortByScore(kept);
    RetainedCounts(ideas, key, Cutoff(ActiveFilter(key), now));
    forall x ensures Keeps(key, Cutoff(ActiveFilter(key), now), x) <==> InWindow(key, now, x) {
      KeepsIffInWindow(key, now, x);
    }
    SortByScoreIsStableSort(kept);
    r
  }

  /** With 'all' the feed holds every idea. */
  lemma AllKeepsEverything(ideas: seq<Idea>, now: int)
    ensures multiset(FilteredIdeas(ideas, All, now)) == multiset(ideas)
  {
  }

  /**
   * An idea created 25 hours before `now` is left out of 'today' and shown
   * under 'this week'.
   */
  lemma TodayAndWeekAt25Hours(idea: Idea, now: int)
    requires idea.createdAt == now - 25 * 60 * 60 * 1000
    ensures idea !in FilteredIdeas([idea], Today, now)
    ensures idea in FilteredIdeas([idea], Week, now)
  {
  }
}
