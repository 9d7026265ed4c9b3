/** The page's mutable state and the operations that change it: the loaded
    job data, the active filter tags, the chips of the filter bar, whether the
    bar is hidden, and the cards in the job list. */
module App {
  import opened Sequences
  import opened Cards
  import opened Filtering

  /** How a removal ends: normally, or with the `TypeError` raised when no
      filter chip carries the tag (the lookup yields null and its parent is
      read before any check). */
  datatype Outcome = Completed | TypeError

  class Board {
    /** The jobs loaded from the data file (`jobData`). */
    var jobData: seq<Job>
    /** The active filter tags, in the order they were added (`filter`). */
    var filter: seq<string>
    /** The children of the filter-tags container, each given by the tag it
        shows and carries in its remove button's `data-lang`. */
    var chips: seq<string>
    /** Whether the filter bar carries the `opacity-0` class. */
    var barHidden: bool
    /** The cards in the job list container, in order. */
    var jobs: seq<Card>

    /** The filter tags are distinct, the bar shows one chip per tag in the
        same order, the bar is hidden exactly when no tag is active, and the
        job list shows the cards of the matching jobs. */
    ghost predicate Valid()
      reads this
    {
      && NoDuplicates(filter)
      && chips == filter
      && (barHidden <==> |filter| == 0)
      && jobs == CardsOf(Visible(filter, jobData))
    }

    /** The page before the data arrive: nothing loaded, no filter, an empty
        and hidden filter bar. */
    constructor ()
      ensures Valid()
      ensures jobData == [] && filter == [] && chips == [] && barHidden && jobs == []
    {
      jobData, filter, chips, barHidden, jobs := [], [], [], true, [];
    }

    /** `renderJobs`: clear the job list, then append the card of each loaded
        job that matches the filter, in order. */
    method RenderJobs()
      modifies this`jobs
      ensures jobs == CardsOf(Visible(filter, jobData))
    {
      jobs := [];
      var i := 0;
      while i < |jobData|
        invariant 0 <= i <= |jobData|
        invariant jobs == CardsOf(Visible(filter, jobData[..i]))
      {
        var job := jobData[i];
        var shown := Visible(filter, jobData[..i]);
        assert jobData[..i + 1][..i] == jobData[..i];
        if Matches(filter, job) {
          assert Visible(filter, jobData[..i + 1]) == shown + [job];
          assert (shown + [job])[..|shown|] == shown;
          jobs := jobs + [CardOf(job)];
        } else {
          assert Visible(filter, jobData[..i + 1]) == shown + [] == shown;
        }
        i := i + 1;
      }
      assert jobData[..i] == jobData;
    }

    /** The completion of `loadJobs`: store the parsed data and render. */
    method Load(data: seq<Job>)
      requires Valid()
      modifies this
      ensures Valid()
      ensures jobData == data
      ensures filter == old(filter) && chips == old(chips) && barHidden == old(barHidden)
      ensures jobs == CardsOf(Visible(filter, data))
    {
      jobData := data;
      RenderJobs();
    }

    /** `addFilter`: a tag that is not active yet is appended to the filter,
        gets a chip at the end of the bar and un-hides the bar, and the job
        list is re-rendered; an active tag changes nothing. */
    method AddFilter(tag: string)
      requires Valid()
      modifies this
      ensures Valid()
      ensures jobData == old(jobData)
      ensures tag in old(filter) ==>
        filter == old(filter) && chips == old(chips) && barHidden == old(barHidden) && jobs == old(jobs)
      ensures tag !in old(filter) ==>
        filter == old(filter) + [tag] && chips == old(chips) + [tag] && !barHidden
      ensures jobs == CardsOf(Visible([tag], old(Visible(filter, jobData))))
    {
      if tag !in filter {
        barHidden := false;
        chips := chips + [tag];
        AppendFreshKeepsNoDuplicates(filter, tag);
        filter := filter + [tag];
        RenderJobs();
        VisibleAfterAdd(old(filter), tag, jobData);
      } else {
        VisibleMembers(filter, jobData);
        assert forall j :: j in Visible(filter, jobData) ==> Matches([tag], j);
        VisibleAllMatch([tag], Visible(filter, jobData));
      }
    }

    /** `removeFilter`: the chip carrying the tag is looked up first; when
        there is none, the lookup's null result raises a `TypeError` and
        nothing has changed. Otherwise the chip is removed, the tag is
        spliced out of the filter at its position, the bar is hidden when no
        tag remains, and the job list is re-rendered. */
    method RemoveFilter(tag: string) returns (outcome: Outcome)
      requires Valid()
      modifies this
      ensures Valid()
      ensures jobData == old(jobData)
      ensures outcome == TypeError <==> tag !in old(filter)
      ensures outcome == TypeError ==>
        filter == old(filter) && chips == old(chips) && barHidden == old(barHidden) && jobs == old(jobs)
      ensures outcome == Completed ==>
        exists i :: 0 <= i < |old(filter)| && old(filter)[i] == tag && filter == RemoveAt(old(filter), i)
      ensures tag !in filter
      ensures forall u :: u in filter <==> u in old(filter) && u != tag
    {
      var chip := IndexOf(chips, tag);
      if chip == -1 {
        return TypeError;
      }
      chips := RemoveAt(chips, chip);
      var index := IndexOf(filter, tag);
      if index != -1 {
        assert index == chip by {
          assert filter[index] == filter[chip] == tag;
        }
        RemoveAtDistinct(filter, index);
        filter := RemoveAt(filter, index);
        if |filter| == 0 {
          barHidden := true;
        }
        RenderJobs();
      }
      outcome := Completed;
    }

    /** `removeAllFilter`: empty the bar and the filter, hide the bar and
        re-render, which then shows every loaded job. */
    method RemoveAllFilter()
      modifies this
      ensures Valid()
      ensures jobData == old(jobData)
      ensures filter == [] && chips == [] && barHidden
      ensures jobs == CardsOf(jobData)
    {
      chips := [];
      filter := [];
      barHidden := true;
      RenderJobs();
      VisibleUnfiltered(jobData);
    }
  }

  /** A caller's view of clicking the same language twice: the second
      click changes nothing. */
  method AddTwice(board: Board, t: string)
    requires board.Valid()
    modifies board
  {
    board.AddFilter(t);
    var once := (board.filter, board.chips, board.barHidden, board.jobs);
    board.AddFilter(t);
    assert (board.filter, board.chips, board.barHidden, board.jobs) == once;
    assert t in board.filter && !board.barHidden;
  }

  /** A caller's view of removing an active tag twice: the first removal
      completes, the second raises the error and changes nothing. */
  method RemoveTwice(board: Board, t: string)
    requires board.Valid() && t in board.filter
    modifies board
  {
    var outcome := board.RemoveFilter(t);
    assert outcome == Completed && t !in board.filter;
    var once := (board.filter, board.chips, board.barHidden, board.jobs);
    outcome := board.RemoveFilter(t);
    assert outcome == TypeError;
    assert (board.filter, board.chips, board.barHidden, board.jobs) == once;
  }

  /** A caller's view of clearing twice: the second clear gives the state the
      first one gave, with every job shown. */
  method ClearTwice(board: Board)
    modifies board
  {
    board.RemoveAllFilter();
    var once := (board.filter, board.chips, board.barHidden, board.jobs);
    board.RemoveAllFilter();
    assert (board.filter, board.chips, board.barHidden, board.jobs) == once;
    assert board.barHidden && board.jobs == CardsOf(board.jobData);
  }

  /** A whole session on two jobs that share "Python", one with "Django"
      and one with "React": loading and adding "Python" show both jobs;
      adding "Django" shows only the first and removing it shows both again;
      clearing shows both and hides the bar. */
  method TwoJobSession(a: Job, b: Job)
    requires a.languages == ["Python", "Django"] && b.languages == ["Python", "React"]
  {
    TwoJobScenario(a, b);
    var board := new Board();
    board.Load([a, b]);
    assert board.jobs == CardsOf([a, b]);
    board.AddFilter("Python");
    assert board.filter == ["Python"] && !board.barHidden;
    assert board.jobs == CardsOf([a, b]);
    NarrowAndWiden(board, a);
    assert board.jobs == CardsOf([a, b]);
    board.RemoveAllFilter();
    assert board.filter == [] && board.chips == [] && board.barHidden;
    assert board.jobs == CardsOf([a, b]);
  }

  /** From the filter ["Python"], adding "Django" shows exactly the jobs
      that have it, and removing it again restores the filter ["Python"]. */
  method NarrowAndWiden(board: Board, a: Job)
    requires board.Valid() && board.filter == ["Python"]
    requires Visible(["Python", "Django"], board.jobData) == [a]
    modifies board
    ensures board.Valid() && board.jobData == old(board.jobData)
    ensures board.filter == ["Python"] && !board.barHidden
  {
    assert "Django" != "Python" by { assert "Django"[0] != "Python"[0]; }
    board.AddFilter("Django");
    assert board.filter == ["Python", "Django"];
    assert board.jobs == CardsOf([a]);
    var outcome := board.RemoveFilter("Django");
    assert outcome == Completed;
    assert board.filter == RemoveAt(["Python", "Django"], 1);
  }
}
