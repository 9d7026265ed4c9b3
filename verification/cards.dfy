/** Job records and the structured content of the card built for each one
    (`createCardElement`). The HTML templating, CSS classes and click wiring
    are not modelled; a card here is the list of things it shows. */
module Cards {

  /** One posting as loaded from the data file. */
  datatype Job = Job(
    company: string,
    position: string,
    logo: string,
    isNew: bool,
    featured: bool,
    languages: seq<string>)

  /** The status labels a card may show next to the company name. */
  datatype Badge = NewBadge | FeaturedBadge

  /** What a job card shows: the logo, company and position, the status
      badges in the order they are inserted, whether the card has the
      featured treatment, the fixed detail chips and one language button per
      language of the job. */
  datatype Card = Card(
    logo: string,
    company: string,
    position: string,
    badges: seq<Badge>,
    featured: bool,
    details: seq<string>,
    languageButtons: seq<string>)

  /** The three detail chips every card shows, whatever the job. */
  const Details: seq<string> := ["1d ago", "Full Time", "USA only"]

  /** The card for `job`: a "New!" badge when the job is new, then a
      "Featured" badge and the featured treatment when it is featured, and a
      language button for each language, in order. */
  function CardOf(job: Job): (c: Card)
    ensures c.logo == job.logo && c.company == job.company && c.position == job.position
    ensures NewBadge in c.badges <==> job.isNew
    ensures FeaturedBadge in c.badges <==> job.featured
    ensures c.featured <==> job.featured
    ensures forall i, j :: 0 <= i < j < |c.badges| ==> c.badges[i] == NewBadge && c.badges[j] == FeaturedBadge
    ensures |c.details| == 3 && c.details == Details
    ensures |c.languageButtons| == |job.languages|
    ensures forall k :: 0 <= k < |job.languages| ==> c.languageButtons[k] == job.languages[k]
  {
    var newBadge := if job.isNew then [NewBadge] else [];
    var featuredBadge := if job.featured then [FeaturedBadge] else [];
    Card(job.logo, job.company, job.position, newBadge + featuredBadge, job.featured,
         Details, job.languages)
  }

  /** Everything a job record holds is shown on its card: two different
      jobs never get the same card. */
  lemma CardShowsWholeJob(a: Job, b: Job)
    requires CardOf(a) == CardOf(b)
    ensures a == b
  {
  }

  /** The cards for `jobs`, one per job, in the same order. */
  function CardsOf(jobs: seq<Job>): (cs: seq<Card>)
    ensures |cs| == |jobs|
    ensures forall i :: 0 <= i < |jobs| ==> cs[i] == CardOf(jobs[i])
    decreases |jobs|
  {
    if |jobs| == 0 then []
    else CardsOf(jobs[..|jobs| - 1]) + [CardOf(jobs[|jobs| - 1])]
  }
}
