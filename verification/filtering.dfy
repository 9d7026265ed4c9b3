/** Which jobs are shown under the active filter tags (`renderJobs`):
    conjunctive filtering, in the order of the loaded data. */
module Filtering {
  import opened Sequences
  import opened Cards

  /** The test of `renderJobs`: the filter is empty or every active tag is one
      of the job's languages. The emptiness test is redundant: the job
      matches exactly when it has every active tag. */
  function Matches(filter: seq<string>, job: Job): (r: bool)
    ensures r <==> forall k :: 0 <= k < |filter| ==> filter[k] in job.languages
  {
    |filter| == 0 || forall t :: t in filter ==> t in job.languages
  }

  /** The values of a sequence, as a set. */
  ghost function Elements(s: seq<string>): set<string>
  {
    set x | x in s
  }

  /** A job matches exactly when the active tags, as a set, are contained in
      the job's languages; an empty filter matches every job. */
  lemma MatchesIsContainment(filter: seq<string>, job: Job)
    ensures Matches(filter, job) <==> Elements(filter) <= Elements(job.languages)
    ensures |filter| == 0 ==> Matches(filter, job)
  {
    if Elements(filter) <= Elements(job.languages) {
      forall k | 0 <= k < |filter|
        ensures filter[k] in job.languages
      {
        assert filter[k] in Elements(filter);
      }
    }
  }

  /** The jobs that `renderJobs` shows: those of `jobs` that match `filter`,
      kept in their original order. */
  function Visible(filter: seq<string>, jobs: seq<Job>): (v: seq<Job>)
    ensures |v| <= |jobs|
    decreases |jobs|
  {
    if |jobs| == 0 then []
    else
      var last := jobs[|jobs| - 1];
      Visible(filter, jobs[..|jobs| - 1]) + (if Matches(filter, last) then [last] else [])
  }

  /** A job is shown exactly when it is one of the loaded jobs and matches
      the filter. */
  lemma {:induction false} VisibleMembers(filter: seq<string>, jobs: seq<Job>)
    ensures forall j :: j in Visible(filter, jobs) <==> j in jobs && Matches(filter, j)
    decreases |jobs|
  {
    if |jobs| != 0 {
      var prefix := jobs[..|jobs| - 1];
      var last := jobs[|jobs| - 1];
      assert jobs == prefix + [last];
      VisibleMembers(filter, prefix);
    }
  }

  /** Filtering a concatenation filters each part: the shown jobs of earlier
      data come before those of later data. */
  lemma {:induction false} VisibleConcat(filter: seq<string>, a: seq<Job>, b: seq<Job>)
    ensures Visible(filter, a + b) == Visible(filter, a) + Visible(filter, b)
    decreases |b|
  {
    if |b| != 0 {
      var b' := b[..|b| - 1];
      assert (a + b)[..|a + b| - 1] == a + b';
      VisibleConcat(filter, a, b');
    } else {
      assert a + b == a;
    }
  }

  /** When every job matches, every job is shown, in order. */
  lemma {:induction false} VisibleAllMatch(filter: seq<string>, jobs: seq<Job>)
    requires forall j :: j in jobs ==> Matches(filter, j)
    ensures Visible(filter, jobs) == jobs
    decreases |jobs|
  {
    if |jobs| != 0 {
      VisibleAllMatch(filter, jobs[..|jobs| - 1]);
      assert jobs == jobs[..|jobs| - 1] + [jobs[|jobs| - 1]];
    }
  }

  /** With no active tag, every job is shown, in order. */
  lemma {:induction false} VisibleUnfiltered(jobs: seq<Job>)
    ensures Visible([], jobs) == jobs
  {
    VisibleAllMatch([], jobs);
  }

  /** A filter whose tags include all tags of `fewer` shows a subsequence of
      what `fewer` shows: more tags never show a job that fewer tags hide, and
      never reorder the jobs. */
  lemma {:induction false} VisibleAntitone(fewer: seq<string>, more: seq<string>, jobs: seq<Job>)
    requires forall t :: t in fewer ==> t in more
    ensures Subsequence(Visible(more, jobs), Visible(fewer, jobs))
    decreases |jobs|
  {
    if |jobs| != 0 {
      var prefix := jobs[..|jobs| - 1];
      var last := jobs[|jobs| - 1];
      VisibleAntitone(fewer, more, prefix);
      var vm, vf := Visible(more, prefix), Visible(fewer, prefix);
      if Matches(more, last) {
        assert Matches(fewer, last);
        assert (vm + [last])[..|vm|] == vm;
        assert (vf + [last])[..|vf|] == vf;
      } else if Matches(fewer, last) {
        var b := vf + [last];
        assert b[..|b| - 1] == vf;
        assert Subsequence(vm, b);
        assert Visible(more, jobs) == vm + [] == vm;
      } else {
        assert Visible(more, jobs) == vm + [] == vm;
        assert Visible(fewer, jobs) == vf + [] == vf;
      }
    }
  }

  /** The shown jobs are a subsequence of the loaded jobs. */
  lemma VisibleIsSubsequence(filter: seq<string>, jobs: seq<Job>)
    ensures Subsequence(Visible(filter, jobs), jobs)
  {
    VisibleAntitone([], filter, jobs);
    VisibleUnfiltered(jobs);
  }

  /** Only the set of active tags matters: two filters with the same tags, in
      any order, show the same jobs. */
  lemma {:induction false} VisibleIgnoresTagOrder(f: seq<string>, g: seq<string>, jobs: seq<Job>)
    requires forall t :: t in f <==> t in g
    ensures Visible(f, jobs) == Visible(g, jobs)
    decreases |jobs|
  {
    if |jobs| != 0 {
      var last := jobs[|jobs| - 1];
      assert Matches(f, last) == Matches(g, last);
      VisibleIgnoresTagOrder(f, g, jobs[..|jobs| - 1]);
    }
  }

  /** Adding tag `t` keeps, of the jobs shown before, exactly those that have
      `t`: it narrows the shown list and never enlarges it. */
  lemma {:induction false} VisibleAfterAdd(filter: seq<string>, t: string, jobs: seq<Job>)
    ensures Visible(filter + [t], jobs) == Visible([t], Visible(filter, jobs))
    ensures Subsequence(Visible(filter + [t], jobs), Visible(filter, jobs))
    decreases |jobs|
  {
    if |jobs| != 0 {
      var prefix := jobs[..|jobs| - 1];
      var last := jobs[|jobs| - 1];
      VisibleAfterAdd(filter, t, prefix);
      assert Matches(filter + [t], last) == (Matches(filter, last) && Matches([t], last));
      var vf := Visible(filter, prefix);
      if Matches(filter, last) {
        VisibleConcat([t], vf, [last]);
        assert Visible([t], [last]) == Visible([t], []) + (if Matches([t], last) then [last] else []);
      } else {
        assert Visible(filter, jobs) == vf;
      }
    }
    VisibleAntitone(filter, filter + [t], jobs);
  }

  /** Two jobs that share "Python", one with "Django" and one with "React":
      no filter and the filter ["Python"] show both, in order; adding
      "Django" shows only the first. */
  lemma TwoJobScenario(a: Job, b: Job)
    requires a.languages == ["Python", "Django"] && b.languages == ["Python", "React"]
    ensures Visible([], [a, b]) == [a, b]
    ensures Visible(["Python"], [a, b]) == [a, b]
    ensures Visible(["Python", "Django"], [a, b]) == [a]
  {
    VisibleUnfiltered([a, b]);
    assert a.languages[0] == "Python" && b.languages[0] == "Python";
    assert Matches(["Python"], a) && Matches(["Python"], b);
    VisibleAllMatch(["Python"], [a, b]);

    var both := ["Python", "Django"];
    assert "Django"[0] != "Python"[0] && "Django" != "React";
    assert both[1] !in b.languages;
    assert Matches(both, a) && !Matches(both, b);
    assert Visible(both, [a]) == [a] && Visible(both, [b]) == [];
    assert [a, b] == [a] + [b];
    VisibleConcat(both, [a], [b]);
  }
}
