/** The job catalogue (lib/jobs.ts): a constant list of sample jobs, the
    trade and country options with their "All ..." sentinels, and the
    lookup, latest, featured and filter queries over that list. Every query
    takes the list as its first argument; the module's own list is `Jobs`. */
module JobCatalogue {
  import opened Common
  import opened Text

  /** A catalogue job. `jobType` is the source's `type`. */
  datatype Job = Job(
    id: int, title: string, company: string, location: string, country: string,
    salary: string, description: string, responsibilities: seq<string>,
    requirements: seq<string>, benefits: seq<string>, jobType: string,
    experience: string, featured: bool, date: string, trade: string)

  const Job1: Job :=
    Job(
      1, "Shuttering Carpenter", "Al Futtaim Group", "Dubai", "UAE",
      "\U{20B9}1,20,000 - \U{20B9}1,50,000 per month",
      "We are looking for experienced Shuttering Carpenters to join our construction team in Dubai. The ideal candidate will have at least 3 years of experience in formwork and shuttering operations.",
      [
        "Prepare and install wooden molds for concrete structures",
        "Read and interpret blueprints and construction plans",
        "Measure, cut, and shape wood, plastic, and other materials",
        "Assemble and secure molds with braces",
        "Dismantle shuttering after concrete has set",
        "Maintain and repair shuttering equipment"],
      [
        "3+ years of experience as a Shuttering Carpenter",
        "Knowledge of various shuttering systems",
        "Ability to read technical drawings",
        "Good physical fitness and ability to work at heights",
        "Experience in Gulf countries preferred",
        "Valid passport with at least 2 years validity"],
      [
        "Free accommodation",
        "Transportation to and from work site",
        "Medical insurance",
        "30 days annual leave",
        "Flight tickets provided",
        "Visa sponsorship"],
      "Full-time", "3+ years", true, "2023-06-15", "Carpentry")

  const Job2: Job :=
    Job(
      2, "Pipe Fitter", "Saudi Aramco", "Dammam", "Saudi Arabia",
      "\U{20B9}1,10,000 - \U{20B9}1,40,000 per month",
      "Join Saudi Aramco as a Pipe Fitter and work on one of the largest oil production facilities in the world. The successful candidate will be responsible for installing, maintaining, and repairing piping systems.",
      [
        "Install, repair, and maintain high and low pressure piping systems",
        "Read and interpret piping blueprints and isometric drawings",
        "Measure, cut, thread, and bend pipes to required specifications",
        "Align and connect pipes using various joining methods",
        "Test piping systems for leaks and pressure tolerance",
        "Collaborate with other trades to ensure proper installation"],
      [
        "Minimum 2 years experience as a Pipe Fitter",
        "Ability to read and interpret isometric drawings",
        "Knowledge of different piping materials and joining techniques",
        "Familiarity with hand and power tools related to pipe fitting",
        "Basic math skills for measurement calculations",
        "Valid passport with at least 2 years validity"],
      [
        "Shared accommodation provided",
        "Transportation to and from work site",
        "Medical insurance",
        "30 days annual leave with return ticket",
        "Overtime opportunities",
        "Contract renewal bonus"],
      "Contract", "2+ years", false, "2023-07-10", "Mechanical")

  const Job3: Job :=
    Job(
      3, "Electrician", "Qatar Petroleum", "Doha", "Qatar",
      "\U{20B9}1,30,000 - \U{20B9}1,60,000 per month",
      "Qatar Petroleum is seeking skilled Electricians to join their maintenance team. The role involves installation and maintenance of electrical systems in industrial settings.",
      [
        "Install, maintain, and repair electrical wiring and equipment",
        "Read and interpret electrical schematics and blueprints",
        "Inspect electrical components for hazards and defects",
        "Test electrical systems to ensure proper functioning",
        "Troubleshoot electrical issues and implement solutions",
        "Follow safety regulations and procedures"],
      [
        "ITI or Diploma in Electrical",
        "Minimum 3 years experience as an industrial electrician",
        "Knowledge of electrical codes and safety regulations",
        "Experience with industrial electrical systems",
        "Ability to use electrical testing equipment",
        "Valid passport with at least 2 years validity"],
      [
        "Free accommodation",
        "Transportation to and from worksite",
        "Comprehensive medical insurance",
        "30 days annual leave with return ticket",
        "Overtime payment",
        "End of service benefits"],
      "Full-time", "3+ years", true, "2023-06-25", "Electrical")

  const Job4: Job :=
    Job(
      4, "Mason", "Emaar Properties", "Dubai", "UAE",
      "\U{20B9}1,00,000 - \U{20B9}1,30,000 per month",
      "Emaar Properties is looking for experienced Masons for their upcoming residential projects in Dubai. The ideal candidate will have experience in bricklaying, block work, and concrete work.",
      [
        "Lay bricks, blocks, and other construction materials",
        "Mix mortar and concrete to required consistency",
        "Read and interpret construction plans",
        "Build walls, partitions, and other structures",
        "Ensure proper alignment using levels and measuring tools",
        "Apply and smooth mortar or other bonding materials"],
      [
        "Minimum 2 years experience as a Mason",
        "Knowledge of various masonry techniques",
        "Ability to use masonry tools and equipment",
        "Physical strength and stamina",
        "Basic understanding of construction plans",
        "Valid passport with at least 2 years validity"],
      [
        "Shared accommodation",
        "Transportation to and from worksite",
        "Medical insurance",
        "30 days annual leave",
        "Visa sponsorship",
        "Overtime opportunities"],
      "Full-time", "2+ years", false, "2023-07-05", "Civil")

  const Job5: Job :=
    Job(
      5, "A/C Technician", "Aldar Properties", "Abu Dhabi", "UAE",
      "\U{20B9}1,20,000 - \U{20B9}1,50,000 per month",
      "Aldar Properties is seeking experienced A/C Technicians for their maintenance division. The successful candidate will be responsible for the installation, maintenance, and repair of HVAC systems.",
      [
        "Install, maintain, and repair HVAC systems",
        "Diagnose electrical and mechanical issues in A/C units",
        "Perform routine maintenance and cleaning of A/C systems",
        "Replace or repair defective parts",
        "Test HVAC systems for proper operation",
        "Keep records of maintenance and repairs"],
      [
        "ITI or Diploma in HVAC or related field",
        "Minimum 3 years experience as an A/C Technician",
        "Knowledge of different HVAC systems",
        "Ability to read schematics and blueprints",
        "Experience with refrigerant handling and recovery",
        "Valid passport with at least 2 years validity"],
      [
        "Shared accommodation",
        "Transportation to and from worksite",
        "Medical insurance",
        "30 days annual leave with return ticket",
        "Visa sponsorship",
        "Performance bonus"],
      "Full-time", "3+ years", true, "2023-06-20", "HVAC")

  const Job6: Job :=
    Job(
      6, "Steel Fixer", "ALEC Engineering", "Dubai", "UAE",
      "\U{20B9}1,10,000 - \U{20B9}1,40,000 per month",
      "ALEC Engineering is looking for experienced Steel Fixers to join their construction team. The ideal candidate will have experience in reinforcement steel installation for concrete structures.",
      [
        "Read and interpret construction drawings",
        "Cut, bend, and fix reinforcement steel bars",
        "Assemble and secure steel reinforcement in concrete forms",
        "Ensure proper spacing and alignment of rebar",
        "Tie rebar securely using wire or other fasteners",
        "Verify that completed reinforcement meets specifications"],
      [
        "Minimum 2 years experience as a Steel Fixer",
        "Ability to read technical drawings",
        "Knowledge of different types of reinforcement steel",
        "Experience with various tying techniques",
        "Physical strength and stamina",
        "Valid passport with at least 2 years validity"],
      [
        "Shared accommodation",
        "Transportation to and from worksite",
        "Medical insurance",
        "30 days annual leave",
        "Visa sponsorship",
        "Overtime opportunities"],
      "Full-time", "2+ years", false, "2023-07-15", "Civil")

  /** The sample jobs, in the order of the source list. */
  const Jobs: seq<Job> := [Job1, Job2, Job3, Job4, Job5, Job6]


  const AllTrades := "All Trades"
  const AllCountries := "All Countries"

  /** The trade options offered by the job filters; the first switches the
      trade filter off. */
  const Trades: seq<string> := [
    AllTrades, "Civil", "Mechanical", "Electrical", "HVAC", "Carpentry", "Plumbing",
    "Painting", "IT", "Administration"]

  /** The country options; the first switches the country filter off. */
  const Countries: seq<string> := [
    AllCountries, "UAE", "Saudi Arabia", "Qatar", "Kuwait", "Bahrain", "Oman"]

  // ---------------------------------------------------------------------------
  // getJobById

  /** `jobs.find(job => job.id === id)`. */
  function GetJobById(jobs: seq<Job>, id: int): (r: Option<Job>)
    ensures r.None? <==> forall k :: 0 <= k < |jobs| ==> jobs[k].id != id
    ensures r.Some? ==> exists k :: 0 <= k < |jobs| && jobs[k] == r.value && r.value.id == id &&
                                     forall m :: 0 <= m < k ==> jobs[m].id != id
  {
    if jobs == [] then None
    else if jobs[0].id == id then Some(jobs[0])
    else
      var r := GetJobById(jobs[1..], id);
      if r.Some? then
        var k :| 0 <= k < |jobs[1..]| && jobs[1..][k] == r.value && r.value.id == id &&
                 forall m :: 0 <= m < k ==> jobs[1..][m].id != id;
        assert jobs[k + 1] == r.value;
        r
      else r
  }

  // ---------------------------------------------------------------------------
  // Dates

  predicate IsDigit(c: char) {
    '0' <= c <= '9'
  }

  function DigitValue(c: char): nat
    requires IsDigit(c)
  {
    c as int - '0' as int
  }

  /** A `YYYY-MM-DD` date string. */
  predicate WellFormedDate(s: string) {
    |s| == 10 && s[4] == '-' && s[7] == '-' &&
    forall i :: 0 <= i < 10 && i != 4 && i != 7 ==> IsDigit(s[i])
  }

  /** The ordering key of a date: `YYYYMMDD` as a number, which orders
      well-formed dates as `new Date(d).getTime()` does. */
  function DateKey(s: string): int {
    if WellFormedDate(s) then
      DigitValue(s[0]) * 10000000 + DigitValue(s[1]) * 1000000 + DigitValue(s[2]) * 100000 +
      DigitValue(s[3]) * 10000 + DigitValue(s[5]) * 1000 + DigitValue(s[6]) * 100 +
      DigitValue(s[8]) * 10 + DigitValue(s[9])
    else 0
  }

  function JobDateKey(j: Job): int {
    DateKey(j.date)
  }

  // ---------------------------------------------------------------------------
  // getLatestJobs and getFeaturedJobs

  /** The default `limit` of both queries. */
  const DefaultLimit := 4

  /** `[...jobs].sort(newest first).slice(0, limit)`: the `limit` newest
      jobs, newest first. The sort works on a copy, so `jobs` keeps its
      order. */
  function GetLatestJobs(jobs: seq<Job>, limit: int): (r: seq<Job>)
    ensures 0 <= limit ==> |r| == if limit <= |jobs| then limit else |jobs|
    ensures SortedDesc(r, JobDateKey)
    ensures multiset(r) <= multiset(jobs)
    ensures forall j :: j in r ==> j in jobs
    ensures forall x, y :: x in r && y in multiset(jobs) - multiset(r) ==> JobDateKey(x) >= JobDateKey(y)
  {
    var sorted := SortDesc(jobs, JobDateKey);
    var n := SliceIndex(|sorted|, limit);
    JsSliceFromStart(sorted, limit);
    PrefixMultiset(sorted, n);
    MultisetSubsetMembers(sorted[..n], jobs);
    SortedPrefixFirst(sorted, JobDateKey, n);
    JsSlice(sorted, 0, limit)
  }

  predicate IsFeatured(j: Job) {
    j.featured
  }

  /** `jobs.filter(job => job.featured).slice(0, limit)`: the first
      `limit` featured jobs, in catalogue order. */
  function GetFeaturedJobs(jobs: seq<Job>, limit: int): (r: seq<Job>)
    ensures 0 <= limit ==> |r| == if limit <= |Filter(jobs, IsFeatured)| then limit else |Filter(jobs, IsFeatured)|
    ensures |r| <= |Filter(jobs, IsFeatured)| && r == Filter(jobs, IsFeatured)[..|r|]
    ensures 0 <= limit ==> |r| <= limit
    ensures forall j :: j in r ==> j.featured && j in jobs
    ensures IsSubsequence(r, jobs)
  {
    var featured := Filter(jobs, IsFeatured);
    var r := JsSlice(featured, 0, limit);
    var n := SliceIndex(|featured|, limit);
    JsSliceFromStart(featured, limit);
    assert forall j :: j in r ==> j in featured;
    PrefixIsSubsequence(featured, n);
    SubsequenceTransitive(r, featured, jobs);
    r
  }

  /** `getFeaturedJobs` with a non-negative limit is the walk that takes
      featured jobs until it has `limit` of them. */
  lemma FeaturedIsFirstFeatured(jobs: seq<Job>, limit: nat)
    ensures GetFeaturedJobs(jobs, limit) == FirstMatching(jobs, IsFeatured, limit)
  {
    FirstMatchingPrefix(jobs, IsFeatured, limit);
  }

  // ---------------------------------------------------------------------------
  // filterJobs

  /** The optional filters; `None` is a filter that is not set. */
  datatype JobFilters = JobFilters(search: Option<string>, trade: Option<string>, country: Option<string>)

  /** The predicate `filterJobs` applies, test by test as written: a job is
      dropped by a set search that its title does not contain, by a set trade
      other than the sentinel that differs from its own, and likewise by
      country. */
  predicate Keep(f: JobFilters, job: Job) {
    !(Given(f.search) && !ContainsCI(job.title, f.search.value)) &&
    !(Given(f.trade) && f.trade.value != AllTrades && job.trade != f.trade.value) &&
    !(Given(f.country) && f.country.value != AllCountries && job.country != f.country.value)
  }

  /** The search rule: an unset or empty search matches everything, any other
      one must occur in the title, ignoring case. */
  predicate SearchMatches(search: Option<string>, job: Job) {
    search.None? || search.value == "" || ContainsCI(job.title, search.value)
  }

  /** The trade rule: unset, empty or the sentinel matches everything. */
  predicate TradeMatches(trade: Option<string>, job: Job) {
    trade.None? || trade.value == "" || trade.value == AllTrades || job.trade == trade.value
  }

  /** The country rule: unset, empty or the sentinel matches everything. */
  predicate CountryMatches(country: Option<string>, job: Job) {
    country.None? || country.value == "" || country.value == AllCountries || job.country == country.value
  }

  /** `Keep` as the callback handed to `filter`. */
  function Keeper(f: JobFilters): Job -> bool {
    job => Keep(f, job)
  }

  /** `filterJobs(filters)`. */
  function FilterJobs(jobs: seq<Job>, f: JobFilters): (r: seq<Job>)
    ensures IsSubsequence(r, jobs)
    ensures forall job :: job in r <==>
      job in jobs && SearchMatches(f.search, job) && TradeMatches(f.trade, job) &&
      CountryMatches(f.country, job)
    ensures forall job {:trigger multiset(r)[job]} ::
      multiset(r)[job] == if Keep(f, job) then multiset(jobs)[job] else 0
  {
    Filter(jobs, Keeper(f))
  }

  /** With no filter set, or every filter at its sentinel, every job is kept. */
  lemma {:induction false} NoFiltersKeepAll(jobs: seq<Job>)
    ensures FilterJobs(jobs, JobFilters(None, None, None)) == jobs
    ensures FilterJobs(jobs, JobFilters(Some(""), Some(AllTrades), Some(AllCountries))) == jobs
  {
    FilterKeepsAll(jobs, Keeper(JobFilters(None, None, None)));
    FilterKeepsAll(jobs, Keeper(JobFilters(Some(""), Some(AllTrades), Some(AllCountries))));
  }

  /** Choosing "All Trades" is the same as choosing no trade, and "All
      Countries" the same as no country, whatever the other filters are. */
  lemma {:induction false} SentinelsSwitchOff(jobs: seq<Job>, f: JobFilters)
    ensures FilterJobs(jobs, f.(trade := Some(AllTrades))) == FilterJobs(jobs, f.(trade := None))
    ensures FilterJobs(jobs, f.(country := Some(AllCountries))) == FilterJobs(jobs, f.(country := None))
  {
    FilterCongruent(jobs, Keeper(f.(trade := Some(AllTrades))), Keeper(f.(trade := None)));
    FilterCongruent(jobs, Keeper(f.(country := Some(AllCountries))), Keeper(f.(country := None)));
  }

  /** Only titles are searched: a job whose company or location holds the
      term but whose title does not is dropped. */
  lemma TitleOnlySearch(jobs: seq<Job>, term: string, job: Job)
    requires term != "" && job in jobs && !ContainsCI(job.title, term)
    ensures job !in FilterJobs(jobs, JobFilters(Some(term), None, None))
  {
  }
}
