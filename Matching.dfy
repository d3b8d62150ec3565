/**
 * Skill matching and ranking of crewd/projects/dashboard_views.py: the
 * browse page scores every listed project against the user's skills and
 * ranks them by score, and the find-contributors page scores every
 * candidate of the current page against the project's skills and ranks the
 * page by percentage. Both rankings are Python's `sorted(..., reverse=True)`,
 * a stable sort in non-increasing key order.
 */
module Matching {
  import opened SkillCodec
  import opened CrewdModels
  import PyText

  // ---------------------------------------------------------------------
  // Scores
  // ---------------------------------------------------------------------

  /** `set(xs)`. */
  function Distinct(xs: seq<string>): set<string>
  {
    set x | x in xs
  }

  lemma {:induction false} DistinctSize(xs: seq<string>)
    ensures |Distinct(xs)| <= |xs|
  {
    if |xs| > 0 {
      DistinctSize(xs[1..]);
      assert Distinct(xs) == {xs[0]} + Distinct(xs[1..]);
    }
  }

  lemma {:induction false} SubsetSize(a: set<string>, b: set<string>)
    requires a <= b
    ensures |a| <= |b|
    decreases |b|
  {
    if a != {} {
      var x :| x in a;
      SubsetSize(a - {x}, b - {x});
    }
  }

  /** `len(set(user_skills) & set(project_skills))`: the number of distinct
      skills the two lists share. It is bounded by either list's length and
      is zero exactly when they share no skill. */
  function MatchScore(userSkills: seq<string>, projectSkills: seq<string>): (n: nat)
    ensures n <= |userSkills| && n <= |projectSkills|
    ensures n == 0 <==> forall s :: s in userSkills ==> s !in projectSkills
  {
    CommonSkills(userSkills, projectSkills);
    |Distinct(userSkills) * Distinct(projectSkills)|
  }

  lemma CommonSkills(userSkills: seq<string>, projectSkills: seq<string>)
    ensures |Distinct(userSkills) * Distinct(projectSkills)| <= |userSkills|
    ensures |Distinct(userSkills) * Distinct(projectSkills)| <= |projectSkills|
    ensures |Distinct(userSkills) * Distinct(projectSkills)| == 0
        <==> forall s :: s in userSkills ==> s !in projectSkills
    ensures Distinct(projectSkills) * Distinct(userSkills) == Distinct(userSkills) * Distinct(projectSkills)
  {
    var common := Distinct(userSkills) * Distinct(projectSkills);
    SubsetSize(common, Distinct(userSkills));
    SubsetSize(common, Distinct(projectSkills));
    DistinctSize(userSkills);
    DistinctSize(projectSkills);
    if !forall s :: s in userSkills ==> s !in projectSkills {
      var s :| s in userSkills && s in projectSkills;
      assert s in common;
    }
  }

  /** The score does not depend on which list is the user's. */
  lemma MatchScoreSymmetric(a: seq<string>, b: seq<string>)
    ensures MatchScore(a, b) == MatchScore(b, a)
  {
    CommonSkills(a, b);
  }

  /** The percentage `count` is of `total`, rounded down, and 0 when `total`
      is 0 (both branches of the `if` at lines 183-186 and 492-495). */
  function Percentage(count: nat, total: nat): (p: nat)
    ensures total == 0 ==> p == 0
    ensures count <= total ==> p <= 100
  {
    if total == 0 then 0
    else
      var p := (count * 100) / total;
      PercentageFloor(count, total);
      p
  }

  /** For a non-zero total the percentage is the largest `p` with
      `p * total <= count * 100`. */
  lemma PercentageFloor(count: nat, total: nat)
    requires total > 0
    ensures (count * 100) / total * total <= count * 100 < ((count * 100) / total + 1) * total
    ensures count <= total ==> (count * 100) / total <= 100
  {
    var p := (count * 100) / total;
    var r := (count * 100) % total;
    assert count * 100 == p * total + r;
    assert 0 <= r < total;
  }

  lemma PercentageIsFloor(count: nat, total: nat)
    requires total > 0
    ensures Percentage(count, total) * total <= count * 100 < (Percentage(count, total) + 1) * total
  {
    PercentageFloor(count, total);
  }

  // ---------------------------------------------------------------------
  // Stable sort in non-increasing key order
  // ---------------------------------------------------------------------

  /** Insert `x` before the first element whose key is at most `x`'s. */
  function Insert<T>(x: T, ys: seq<T>, key: T -> int): (r: seq<T>)
    ensures multiset(r) == multiset(ys) + multiset{x}
  {
    if |ys| == 0 then [x]
    else if key(x) >= key(ys[0]) then [x] + ys
    else
      assert ys == [ys[0]] + ys[1..];
      [ys[0]] + Insert(x, ys[1..], key)
  }

  /** `sorted(xs, key=key, reverse=True)`. */
  function SortDesc<T>(xs: seq<T>, key: T -> int): seq<T>
  {
    if |xs| == 0 then [] else Insert(xs[0], SortDesc(xs[1..], key), key)
  }

  predicate NonIncreasing<T>(xs: seq<T>, key: T -> int)
  {
    forall i, j :: 0 <= i < j < |xs| ==> key(xs[i]) >= key(xs[j])
  }

  /** The elements of `xs` whose key is `k`, in their order in `xs`. */
  function WithKey<T>(xs: seq<T>, key: T -> int, k: int): seq<T>
  {
    if |xs| == 0 then []
    else (if key(xs[0]) == k then [xs[0]] else []) + WithKey(xs[1..], key, k)
  }

  /** The sort rearranges its input: same elements, same multiplicities. */
  lemma {:induction false} SortDescPermutation<T>(xs: seq<T>, key: T -> int)
    ensures multiset(SortDesc(xs, key)) == multiset(xs)
  {
    if |xs| > 0 {
      SortDescPermutation(xs[1..], key);
      assert xs == [xs[0]] + xs[1..];
    }
  }

  lemma {:induction false} InsertOrdered<T>(x: T, ys: seq<T>, key: T -> int)
    requires NonIncreasing(ys, key)
    ensures NonIncreasing(Insert(x, ys, key), key)
  {
    if |ys| > 0 && key(x) < key(ys[0]) {
      var rest := Insert(x, ys[1..], key);
      InsertOrdered(x, ys[1..], key);
      forall j | 0 <= j < |rest| ensures key(ys[0]) >= key(rest[j]) {
        assert rest[j] in multiset(ys[1..]) + multiset{x};
        if rest[j] != x {
          assert rest[j] in ys[1..];
          var m :| 0 <= m < |ys[1..]| && ys[1..][m] == rest[j];
          assert ys[m + 1] == rest[j];
        }
      }
    }
  }

  /** The sort's output is in non-increasing key order. */
  lemma {:induction false} SortDescOrdered<T>(xs: seq<T>, key: T -> int)
    ensures NonIncreasing(SortDesc(xs, key), key)
  {
    if |xs| > 0 {
      SortDescOrdered(xs[1..], key);
      InsertOrdered(xs[0], SortDesc(xs[1..], key), key);
    }
  }

  lemma {:induction false} InsertWithKey<T>(x: T, ys: seq<T>, key: T -> int, k: int)
    ensures WithKey(Insert(x, ys, key), key, k)
         == (if key(x) == k then [x] else []) + WithKey(ys, key, k)
  {
    if |ys| > 0 {
      if key(x) >= key(ys[0]) {
        assert ([x] + ys)[1..] == ys;
      } else {
        var rest := Insert(x, ys[1..], key);
        InsertWithKey(x, ys[1..], key, k);
        assert ([ys[0]] + rest)[1..] == rest;
        assert WithKey(ys, key, k)
            == (if key(ys[0]) == k then [ys[0]] else []) + WithKey(ys[1..], key, k);
        if key(x) == k {
          assert WithKey([ys[0]] + rest, key, k) == WithKey(rest, key, k);
        } else {
          assert WithKey(rest, key, k) == WithKey(ys[1..], key, k);
        }
      }
    }
  }

  /** The sort is stable: the elements sharing any one key keep their
      relative order. */
  lemma {:induction false} SortDescStable<T>(xs: seq<T>, key: T -> int, k: int)
    ensures WithKey(SortDesc(xs, key), key, k) == WithKey(xs, key, k)
  {
    if |xs| > 0 {
      SortDescStable(xs[1..], key, k);
      InsertWithKey(xs[0], SortDesc(xs[1..], key), key, k);
    }
  }

  // ---------------------------------------------------------------------
  // Browsing projects (ProjectsListView.get_queryset)
  // ---------------------------------------------------------------------

  /** A listed project annotated with `match_score` and `match_percentage`. */
  datatype ScoredProject = ScoredProject(
    id: ProjectId, project: Project, matchScore: nat, matchPercentage: nat)

  /** The annotation lines 181-186 give one project. */
  function ScoreProject(userSkills: seq<string>, id: ProjectId, p: Project): (s: ScoredProject)
    ensures s.id == id && s.project == p
    ensures s.matchScore <= |userSkills|
    ensures s.matchPercentage <= 100
    ensures userSkills == [] ==> s.matchScore == 0 && s.matchPercentage == 0
  {
    var score := MatchScore(userSkills, RequiredSkillsList(p));
    ScoredProject(id, p, score, Percentage(score, |userSkills|))
  }

  function MatchScoreKey(s: ScoredProject): int
  {
    s.matchScore
  }

  /** The loop at lines 180-186: every project of the filtered query, in
      query order, with its score. */
  method ScoreProjects(userSkills: seq<string>, ids: seq<ProjectId>, rows: seq<Project>)
      returns (scored: seq<ScoredProject>)
    requires |ids| == |rows|
    ensures |scored| == |rows|
    ensures forall i :: 0 <= i < |rows| ==> scored[i] == ScoreProject(userSkills, ids[i], rows[i])
  {
    scored := [];
    var i := 0;
    while i < |rows|
      invariant 0 <= i <= |rows|
      invariant |scored| == i
      invariant forall k :: 0 <= k < i ==> scored[k] == ScoreProject(userSkills, ids[k], rows[k])
    {
      scored := scored + [ScoreProject(userSkills, ids[i], rows[i])];
      i := i + 1;
    }
  }

  /** What get_queryset returns: with user skills, the annotated projects
      re-sorted into a list; without, a fresh query (`order_by`) whose rows
      carry none of the annotations set by the loop. */
  datatype BrowsePage =
    | Ranked(ranked: seq<ScoredProject>)
    | Queried(ids: seq<ProjectId>, rows: seq<Project>)

  /** The queryset returned at lines 188-193: with skills, the scored
      projects ranked by score, highest first, ties in query order; without
      skills, the filtered rows themselves, unannotated, in query order
      (which the source sets by creation date). */
  method BrowseProjects(userSkills: seq<string>, ids: seq<ProjectId>, rows: seq<Project>)
      returns (page: BrowsePage, scored: seq<ScoredProject>)
    requires |ids| == |rows|
    ensures |scored| == |rows|
    ensures forall i :: 0 <= i < |rows| ==> scored[i] == ScoreProject(userSkills, ids[i], rows[i])
    ensures userSkills == [] ==> page == Queried(ids, rows)
    ensures userSkills != [] ==> page.Ranked? && page.ranked == SortDesc(scored, MatchScoreKey)
    ensures userSkills != [] ==> multiset(page.ranked) == multiset(scored)
    ensures userSkills != [] ==> NonIncreasing(page.ranked, MatchScoreKey)
    ensures userSkills != [] ==>
      forall k :: WithKey(page.ranked, MatchScoreKey, k) == WithKey(scored, MatchScoreKey, k)
  {
    scored := ScoreProjects(userSkills, ids, rows);
    if userSkills != [] {
      var ranked := SortDesc(scored, MatchScoreKey);
      SortDescPermutation(scored, MatchScoreKey);
      SortDescOrdered(scored, MatchScoreKey);
      forall k ensures WithKey(ranked, MatchScoreKey, k) == WithKey(scored, MatchScoreKey, k) {
        SortDescStable(scored, MatchScoreKey, k);
      }
      page := Ranked(ranked);
    } else {
      page := Queried(ids, rows);
    }
  }

  // ---------------------------------------------------------------------
  // Finding contributors (FindContributorsView)
  // ---------------------------------------------------------------------

  /** A user profile as the page sees it: the user and their skill list. */
  datatype Profile = Profile(user: UserId, techStack: seq<string>)

  /** A candidate annotated with `match_percentage`. */
  datatype Contributor = Contributor(profile: Profile, matchPercentage: nat)

  /** The exclusion at lines 452-458: every profile except the project's
      members and the requesting user, in their order. */
  function Candidates(profiles: seq<Profile>, memberIds: set<UserId>, requester: UserId): (r: seq<Profile>)
    ensures forall p :: p in r <==> p in profiles && p.user !in memberIds && p.user != requester
    ensures |r| <= |profiles|
  {
    if |profiles| == 0 then []
    else
      var rest := Candidates(profiles[1..], memberIds, requester);
      assert forall p :: p in profiles <==> p == profiles[0] || p in profiles[1..];
      if profiles[0].user !in memberIds && profiles[0].user != requester
      then [profiles[0]] + rest
      else rest
  }

  /** The exclusion keeps query order: excluding from two runs of
      profiles is excluding from each and concatenating, so no candidate
      moves past another. */
  lemma {:induction false} CandidatesAppend(xs: seq<Profile>, ys: seq<Profile>, memberIds: set<UserId>, requester: UserId)
    ensures Candidates(xs + ys, memberIds, requester)
      == Candidates(xs, memberIds, requester) + Candidates(ys, memberIds, requester)
  {
    if |xs| == 0 {
      assert xs + ys == ys;
    } else {
      assert (xs + ys)[0] == xs[0];
      assert (xs + ys)[1..] == xs[1..] + ys;
      CandidatesAppend(xs[1..], ys, memberIds, requester);
    }
  }

  /** The annotation lines 489-495 give one candidate. */
  function ScoreContributor(projectSkills: seq<string>, p: Profile): (c: Contributor)
    ensures c.profile == p
    ensures c.matchPercentage <= 100
    ensures projectSkills == [] ==> c.matchPercentage == 0
  {
    Contributor(p, Percentage(MatchScore(p.techStack, projectSkills), |projectSkills|))
  }

  function PercentageKey(c: Contributor): int
  {
    c.matchPercentage
  }

  /** The loop at lines 488-495 over the candidates of the current page. */
  method ScoreContributors(projectSkills: seq<string>, page: seq<Profile>)
      returns (scored: seq<Contributor>)
    ensures |scored| == |page|
    ensures forall i :: 0 <= i < |page| ==> scored[i] == ScoreContributor(projectSkills, page[i])
  {
    scored := [];
    var i := 0;
    while i < |page|
      invariant 0 <= i <= |page|
      invariant |scored| == i
      invariant forall k :: 0 <= k < i ==> scored[k] == ScoreContributor(projectSkills, page[k])
    {
      scored := scored + [ScoreContributor(projectSkills, page[i])];
      i := i + 1;
    }
  }

  /** Lines 484-503: the page is re-sorted by percentage only when the
      project lists skills, and then only within the page. */
  method FindContributorsPage(projectSkills: seq<string>, page: seq<Profile>)
      returns (ranked: seq<Contributor>, scored: seq<Contributor>)
    ensures |scored| == |page|
    ensures forall i :: 0 <= i < |page| ==> scored[i] == ScoreContributor(projectSkills, page[i])
    ensures projectSkills == [] ==> ranked == scored
    ensures projectSkills != [] ==> ranked == SortDesc(scored, PercentageKey)
    ensures multiset(ranked) == multiset(scored)
    ensures projectSkills != [] ==> NonIncreasing(ranked, PercentageKey)
    ensures forall k :: WithKey(ranked, PercentageKey, k) == WithKey(scored, PercentageKey, k)
  {
    scored := ScoreContributors(projectSkills, page);
    if projectSkills != [] {
      ranked := SortDesc(scored, PercentageKey);
      SortDescPermutation(scored, PercentageKey);
      SortDescOrdered(scored, PercentageKey);
      forall k ensures WithKey(ranked, PercentageKey, k) == WithKey(scored, PercentageKey, k) {
        SortDescStable(scored, PercentageKey, k);
      }
    } else {
      ranked := scored;
    }
  }

  // ---------------------------------------------------------------------
  // Skill filter choices (ProjectsListView.get_context_data)
  // ---------------------------------------------------------------------

  /** The skills found in any of the lists. */
  function Union(lists: seq<seq<string>>): set<string>
  {
    if |lists| == 0 then {}
    else Union(lists[..|lists| - 1]) + Distinct(lists[|lists| - 1])
  }

  /** A skill is in the union exactly when some list holds it. */
  lemma {:induction false} UnionMembers(lists: seq<seq<string>>, s: string)
    ensures s in Union(lists) <==> exists j :: 0 <= j < |lists| && s in lists[j]
  {
    if |lists| > 0 {
      var n := |lists| - 1;
      var init := lists[..n];
      UnionMembers(init, s);
      if s in Union(lists) {
        if s in Union(init) {
          var j :| 0 <= j < n && s in init[j];
          assert init[j] == lists[j];
        } else {
          assert s in lists[n];
        }
      }
      if exists j :: 0 <= j < |lists| && s in lists[j] {
        var j :| 0 <= j < |lists| && s in lists[j];
        if j < n {
          assert init[j] == lists[j];
        }
      }
    }
  }

  /** Each project's skill list, in order. */
  function SkillListsOf(projects: seq<Project>): (lists: seq<seq<string>>)
    ensures |lists| == |projects|
    ensures forall i :: 0 <= i < |projects| ==> lists[i] == RequiredSkillsList(projects[i])
  {
    seq(|projects|, i requires 0 <= i < |projects| => RequiredSkillsList(projects[i]))
  }

  /** The loop at lines 199-201: the set grows by each project's skill list
      in turn, so it ends up holding exactly the skills some project lists,
      each of them a clean skill. */
  method CollectSkillSet(projects: seq<Project>) returns (choices: set<string>)
    ensures choices == Union(SkillListsOf(projects))
    ensures forall s :: s in choices <==> exists j :: 0 <= j < |projects| && s in RequiredSkillsList(projects[j])
    ensures forall s :: s in choices ==> CleanSkill(s)
  {
    var lists := SkillListsOf(projects);
    choices := {};
    var i := 0;
    while i < |projects|
      invariant 0 <= i <= |projects|
      invariant choices == Union(lists[..i])
    {
      assert lists[..i + 1][..i] == lists[..i];
      choices := choices + Distinct(RequiredSkillsList(projects[i]));
      i := i + 1;
    }
    assert lists[..i] == lists;
    forall s ensures s in choices <==> exists j :: 0 <= j < |projects| && s in RequiredSkillsList(projects[j]) {
      UnionMembers(lists, s);
    }
    forall s | s in choices ensures CleanSkill(s) {
      UnionMembers(lists, s);
      var j :| 0 <= j < |lists| && s in lists[j];
      RequiredSkillsListShape(projects[j]);
      var m :| 0 <= m < |lists[j]| && lists[j][m] == s;
    }
  }

  /** Strictly increasing in Python's string order, so also free of
      duplicates. */
  predicate Increasing(xs: seq<string>)
  {
    forall i, j :: 0 <= i < j < |xs| ==> PyText.StrLess(xs[i], xs[j])
  }

  /** Insert `x` into an increasing list before the first larger entry. */
  function InsertSorted(x: string, ys: seq<string>): seq<string>
  {
    if |ys| == 0 then [x]
    else if PyText.StrLess(x, ys[0]) then [x] + ys
    else [ys[0]] + InsertSorted(x, ys[1..])
  }

  /** Inserting a new string into an increasing list keeps it increasing
      and adds exactly that string. */
  lemma {:induction false} InsertSortedIncreasing(x: string, ys: seq<string>)
    requires Increasing(ys) && x !in ys
    ensures Increasing(InsertSorted(x, ys))
    ensures forall z :: z in InsertSorted(x, ys) <==> z == x || z in ys
  {
    if |ys| == 0 {
    } else if PyText.StrLess(x, ys[0]) {
      var r := [x] + ys;
      forall i, j | 0 <= i < j < |r| ensures PyText.StrLess(r[i], r[j]) {
        if i == 0 {
          if j > 1 {
            PyText.StrLessTransitive(x, ys[0], ys[j - 1]);
          }
        } else {
          assert r[i] == ys[i - 1] && r[j] == ys[j - 1];
        }
      }
    } else {
      PyText.StrLessTotal(x, ys[0]);
      var rest := InsertSorted(x, ys[1..]);
      InsertSortedIncreasing(x, ys[1..]);
      var r := [ys[0]] + rest;
      forall i, j | 0 <= i < j < |r| ensures PyText.StrLess(r[i], r[j]) {
        if i == 0 {
          assert r[j] in rest;
          if r[j] != x {
            var k :| 1 <= k < |ys| && ys[k] == r[j];
          }
        } else {
          assert r[i] == rest[i - 1] && r[j] == rest[j - 1];
        }
      }
      assert forall z :: z in ys <==> z == ys[0] || z in ys[1..];
    }
  }

  /** `sorted(s)` for a set of strings: every element once, in increasing
      order. */
  method SortedSet(s: set<string>) returns (r: seq<string>)
    ensures Increasing(r)
    ensures forall z :: z in r <==> z in s
  {
    r := [];
    var rest := s;
    while rest != {}
      invariant rest <= s
      invariant Increasing(r)
      invariant forall z :: z in r <==> z in s && z !in rest
      decreases |rest|
    {
      var x :| x in rest;
      InsertSortedIncreasing(x, r);
      r := InsertSorted(x, r);
      rest := rest - {x};
    }
  }

  /** The `tech_choices` handed to the page at line 203: the skills some
      project lists, each once, in increasing order, each a clean skill. */
  method CollectTechChoices(projects: seq<Project>) returns (choices: seq<string>)
    ensures Increasing(choices)
    ensures forall s :: s in choices <==> exists j :: 0 <= j < |projects| && s in RequiredSkillsList(projects[j])
    ensures forall s :: s in choices ==> CleanSkill(s)
  {
    var skills := CollectSkillSet(projects);
    choices := SortedSet(skills);
  }
}
