/**
 A job from the POST to its done event: deduplication, the drain loop and its counters, and the
 split of the results.  What the cache answers at each lookup, what each ticket's coroutine hands
 back, and whether the store can be reached are parameters.
 */
module Routes {
  import opened Common
  import opened Records
  import opened PriorityQueues
  import opened Batcher
  import opened JobStores
  import opened Cache
  import Caller
  import Pipeline
  import PipelineSafety

  // ---------- counting ----------

  function CountHas(results: seq<Dict>, key: string): nat {
    if results == [] then 0
    else CountHas(results[..|results| - 1], key) + (if Has(results[|results| - 1], key) then 1 else 0)
  }

  lemma {:induction false} CountHasAppend(a: seq<Dict>, b: seq<Dict>, key: string)
    ensures CountHas(a + b, key) == CountHas(a, key) + CountHas(b, key)
  {
    if b == [] {
      assert a + b == a;
    } else {
      assert (a + b)[..|a + b| - 1] == a + b[..|b| - 1];
      CountHasAppend(a, b[..|b| - 1], key);
    }
  }

  // ---------- POST /process ----------

  /** The normal forms of the tickets, each once. */
  function Forms(lower: string -> string, tickets: seq<string>): set<string> {
    set t | t in tickets :: Normalised(lower, t)
  }

  datatype Submission = Submission(unique: seq<string>, preCached: seq<Dict>, cachedCount: nat)

  function Labelled(d: Dict, ticket: string): Dict {
    d["ticket" := Text(ticket)]
  }

  /** `cacheAt(i)` is the cache as the lookup for ticket i finds it; others may write in between. */
  type CacheAt = nat -> map<string, Dict>

  /** The submission, described by the first occurrence of each normal form. */
  function Submitted(lower: string -> string, tickets: seq<string>, cacheAt: CacheAt): Submission {
    if tickets == [] then Submission([], [], 0)
    else
      var n := |tickets| - 1;
      var s := Submitted(lower, tickets[..n], cacheAt);
      var key := Normalised(lower, tickets[n]);
      if key in Forms(lower, tickets[..n]) then s.(cachedCount := s.cachedCount + 1)
      else if key in cacheAt(n) then
        Submission(s.unique,
                   s.preCached + [Labelled(cacheAt(n)[key], tickets[n])["cache_hit" := Boolean(true)]],
                   s.cachedCount + 1)
      else s.(unique := s.unique + [tickets[n]])
  }

  method ProcessTickets(lower: string -> string, tickets: seq<string>, cacheAt: CacheAt) returns (s: Submission)
    ensures s == Submitted(lower, tickets, cacheAt)
  {
    var seen: set<string> := {};
    var unique: seq<string>, preCached: seq<Dict>, cachedCount: nat := [], [], 0;
    for i := 0 to |tickets|
      invariant seen == Forms(lower, tickets[..i])
      invariant Submission(unique, preCached, cachedCount) == Submitted(lower, tickets[..i], cacheAt)
    {
      FormsUpTo(lower, tickets, i);
      var normalized := Normalised(lower, tickets[i]);
      if normalized in seen {
        cachedCount := cachedCount + 1;
        continue;
      }
      seen := seen + {normalized};
      if normalized in cacheAt(i) {
        var cached := Labelled(cacheAt(i)[normalized], tickets[i])["cache_hit" := Boolean(true)];
        preCached := preCached + [cached];
        cachedCount := cachedCount + 1;
      } else {
        unique := unique + [tickets[i]];
      }
    }
    assert tickets[..|tickets|] == tickets;
    return Submission(unique, preCached, cachedCount);
  }

  lemma FormsMore(lower: string -> string, tickets: seq<string>, t: string)
    ensures Forms(lower, tickets + [t]) == Forms(lower, tickets) + {Normalised(lower, t)}
  {
    assert forall x :: x in tickets + [t] <==> x in tickets || x == t;
  }

  lemma FormsUpTo(lower: string -> string, tickets: seq<string>, i: nat)
    requires i < |tickets|
    ensures Forms(lower, tickets[..i + 1]) == Forms(lower, tickets[..i]) + {Normalised(lower, tickets[i])}
    ensures tickets[..i + 1][..i] == tickets[..i]
  {
    assert tickets[..i + 1] == tickets[..i] + [tickets[i]];
    FormsMore(lower, tickets[..i], tickets[i]);
  }

  lemma FormsSplit(lower: string -> string, tickets: seq<string>)
    requires tickets != []
    ensures var n := |tickets| - 1;
            Forms(lower, tickets) == Forms(lower, tickets[..n]) + {Normalised(lower, tickets[n])}
  {
    assert tickets[..|tickets|] == tickets;
    FormsUpTo(lower, tickets, |tickets| - 1);
  }

  ghost predicate NoErrorsCached(cacheAt: CacheAt) {
    forall i: nat, key :: key in cacheAt(i) ==> Lacks(cacheAt(i)[key], "error")
  }

  /**
   Every ticket is counted once, as unique or as cached; unique tickets and pre-cached results
   together number the distinct normal forms.
   */
  lemma {:induction false} SubmissionAccounts(lower: string -> string, tickets: seq<string>, cacheAt: CacheAt)
    ensures var s := Submitted(lower, tickets, cacheAt);
            && s.cachedCount + |s.unique| == |tickets|
            && |s.preCached| <= s.cachedCount
            && |s.unique| + |s.preCached| == |Forms(lower, tickets)|
  {
    if tickets != [] {
      var n := |tickets| - 1;
      SubmissionAccounts(lower, tickets[..n], cacheAt);
      FormsSplit(lower, tickets);
      OneFormMore(Forms(lower, tickets[..n]), Normalised(lower, tickets[n]));
    }
  }

  lemma OneFormMore(forms: set<string>, form: string)
    ensures |forms + {form}| == |forms| + (if form in forms then 0 else 1)
  {
    if form in forms {
      assert forms + {form} == forms;
    }
  }

  ghost predicate DistinctForms(lower: string -> string, tickets: seq<string>) {
    forall i, j :: 0 <= i < j < |tickets| ==> Normalised(lower, tickets[i]) != Normalised(lower, tickets[j])
  }

  lemma DistinctFormsMore(lower: string -> string, tickets: seq<string>, t: string)
    requires DistinctForms(lower, tickets) && Normalised(lower, t) !in Forms(lower, tickets)
    ensures DistinctForms(lower, tickets + [t])
  {
    forall i | 0 <= i < |tickets|
      ensures Normalised(lower, tickets[i]) != Normalised(lower, t)
    {
      assert tickets[i] in tickets;
    }
  }

  /** The tickets sent to the batcher have pairwise distinct keys, all of them keys of the request. */
  lemma {:induction false} UniqueTicketsHaveDistinctKeys(lower: string -> string, tickets: seq<string>,
                                                         cacheAt: CacheAt)
    ensures DistinctForms(lower, Submitted(lower, tickets, cacheAt).unique)
    ensures Forms(lower, Submitted(lower, tickets, cacheAt).unique) <= Forms(lower, tickets)
  {
    if tickets != [] {
      var n := |tickets| - 1;
      UniqueTicketsHaveDistinctKeys(lower, tickets[..n], cacheAt);
      FormsSplit(lower, tickets);
      var unique := Submitted(lower, tickets[..n], cacheAt).unique;
      FormsMore(lower, unique, tickets[n]);
      if Normalised(lower, tickets[n]) !in Forms(lower, tickets[..n]) {
        DistinctFormsMore(lower, unique, tickets[n]);
      }
    }
  }

  // ---------- what the pre-cached results carry ----------

  ghost predicate IsFirst(lower: string -> string, tickets: seq<string>, i: nat) {
    i < |tickets| && forall j :: 0 <= j < i ==> Normalised(lower, tickets[j]) != Normalised(lower, tickets[i])
  }

  /** The numbers of the set, in increasing order. */
  ghost predicate Lists(places: seq<nat>, numbers: iset<nat>) {
    && (forall a, b :: 0 <= a < b < |places| ==> places[a] < places[b])
    && (forall i: nat :: i in places <==> i in numbers)
  }

  lemma ListsMore(places: seq<nat>, numbers: iset<nat>, n: nat)
    requires Lists(places, numbers) && (forall i: nat :: i in numbers ==> i < n)
    ensures Lists(places + [n], numbers + iset{n})
  {
    assert forall a :: 0 <= a < |places| ==> places[a] in places;
  }

  /** The places of the first occurrences that the cache answers, or does not answer, in order. */
  ghost predicate LookedUp(lower: string -> string, tickets: seq<string>, cacheAt: CacheAt, places: seq<nat>,
                           hit: bool) {
    Lists(places, Lookups(lower, tickets, cacheAt, hit))
  }

  ghost function Lookups(lower: string -> string, tickets: seq<string>, cacheAt: CacheAt, hit: bool): iset<nat> {
    iset i: nat | IsLookup(lower, tickets, cacheAt, i, hit)
  }

  ghost predicate IsLookup(lower: string -> string, tickets: seq<string>, cacheAt: CacheAt, i: nat, hit: bool) {
    IsFirst(lower, tickets, i) && (Normalised(lower, tickets[i]) in cacheAt(i) <==> hit)
  }

  /** The dictionary carries `original` on, under this ticket and marked as a hit. */
  predicate CarriesHit(d: Dict, original: Dict, ticket: string) {
    && "ticket" in d && d["ticket"] == Text(ticket) && "cache_hit" in d && d["cache_hit"] == Boolean(true)
    && d - {"ticket", "cache_hit"} == original - {"ticket", "cache_hit"}
  }

  /** Each pre-cached result carries what the cache held for its ticket at that ticket's lookup. */
  ghost predicate HitsCarried(lower: string -> string, tickets: seq<string>, cacheAt: CacheAt, preCached: seq<Dict>,
                              hits: seq<nat>) {
    && LookedUp(lower, tickets, cacheAt, hits, true) && |preCached| == |hits|
    && forall a :: 0 <= a < |hits| ==> HitCarried(lower, tickets, cacheAt, preCached[a], hits[a])
  }

  ghost predicate HitCarried(lower: string -> string, tickets: seq<string>, cacheAt: CacheAt, d: Dict, i: nat) {
    && i < |tickets| && Normalised(lower, tickets[i]) in cacheAt(i)
    && CarriesHit(d, cacheAt(i)[Normalised(lower, tickets[i])], tickets[i])
  }

  /** The unique tickets are the first occurrences that the cache does not answer, in input order. */
  ghost predicate MissesListed(lower: string -> string, tickets: seq<string>, cacheAt: CacheAt, unique: seq<string>,
                               misses: seq<nat>) {
    && LookedUp(lower, tickets, cacheAt, misses, false) && |unique| == |misses|
    && forall a :: 0 <= a < |misses| ==> misses[a] < |tickets| && unique[a] == tickets[misses[a]]
  }

  lemma LookupOfPrefix(lower: string -> string, tickets: seq<string>, cacheAt: CacheAt, n: nat, i: nat, hit: bool)
    requires n <= |tickets| && i < n
    ensures IsLookup(lower, tickets[..n], cacheAt, i, hit) <==> IsLookup(lower, tickets, cacheAt, i, hit)
  {
    assert forall j :: 0 <= j <= i ==> tickets[..n][j] == tickets[j];
  }

  lemma SeenIffInForms(lower: string -> string, tickets: seq<string>)
    requires tickets != []
    ensures var n := |tickets| - 1;
            IsFirst(lower, tickets, n) <==> Normalised(lower, tickets[n]) !in Forms(lower, tickets[..n])
  {
    var n := |tickets| - 1;
    var key := Normalised(lower, tickets[n]);
    if key in Forms(lower, tickets[..n]) {
      var t :| t in tickets[..n] && Normalised(lower, t) == key;
      var j :| 0 <= j < n && tickets[..n][j] == t;
      assert tickets[j] == t;
    } else {
      forall j | 0 <= j < n
        ensures Normalised(lower, tickets[j]) != key
      {
        assert tickets[j] in tickets[..n];
      }
    }
  }

  /** One more ticket: its place joins the list or does not. */
  lemma LookedUpMore(lower: string -> string, tickets: seq<string>, cacheAt: CacheAt, places: seq<nat>, hit: bool)
    requires tickets != [] && LookedUp(lower, tickets[..|tickets| - 1], cacheAt, places, hit)
    ensures var n := |tickets| - 1;
            LookedUp(lower, tickets, cacheAt,
                     if IsLookup(lower, tickets, cacheAt, n, hit) then places + [n] else places, hit)
  {
    var n := |tickets| - 1;
    LookupsMore(lower, tickets, cacheAt, hit);
    if IsLookup(lower, tickets, cacheAt, n, hit) {
      ListsMore(places, Lookups(lower, tickets[..n], cacheAt, hit), n);
    }
  }

  lemma LookupsMore(lower: string -> string, tickets: seq<string>, cacheAt: CacheAt, hit: bool)
    requires tickets != []
    ensures var n := |tickets| - 1;
            && Lookups(lower, tickets, cacheAt, hit)
                 == Lookups(lower, tickets[..n], cacheAt, hit)
                    + (if IsLookup(lower, tickets, cacheAt, n, hit) then iset{n} else iset{})
            && forall i: nat :: i in Lookups(lower, tickets[..n], cacheAt, hit) ==> i < n
  {
    var n := |tickets| - 1;
    forall i: nat
      ensures i in Lookups(lower, tickets, cacheAt, hit) <==>
                i in Lookups(lower, tickets[..n], cacheAt, hit) || (i == n && IsLookup(lower, tickets, cacheAt, n, hit))
    {
      if i < n {
        LookupOfPrefix(lower, tickets, cacheAt, n, i, hit);
      }
    }
  }

  lemma {:induction false} HitsCarry(lower: string -> string, tickets: seq<string>, cacheAt: CacheAt)
    returns (hits: seq<nat>)
    ensures HitsCarried(lower, tickets, cacheAt, Submitted(lower, tickets, cacheAt).preCached, hits)
  {
    if tickets == [] {
      hits := [];
    } else {
      var n := |tickets| - 1;
      hits := HitsCarry(lower, tickets[..n], cacheAt);
      LookedUpMore(lower, tickets, cacheAt, hits, true);
      SeenIffInForms(lower, tickets);
      HitsOfPrefix(lower, tickets, cacheAt, Submitted(lower, tickets[..n], cacheAt).preCached, hits);
      if IsLookup(lower, tickets, cacheAt, n, true) {
        LabelCarries(cacheAt(n)[Normalised(lower, tickets[n])], tickets[n]);
        hits := hits + [n];
      }
    }
  }

  lemma {:induction false} MissesList(lower: string -> string, tickets: seq<string>, cacheAt: CacheAt)
    returns (misses: seq<nat>)
    ensures MissesListed(lower, tickets, cacheAt, Submitted(lower, tickets, cacheAt).unique, misses)
  {
    if tickets == [] {
      misses := [];
    } else {
      var n := |tickets| - 1;
      misses := MissesList(lower, tickets[..n], cacheAt);
      LookedUpMore(lower, tickets, cacheAt, misses, false);
      SeenIffInForms(lower, tickets);
      MissesOfPrefix(lower, tickets, cacheAt, Submitted(lower, tickets[..n], cacheAt).unique, misses);
      if IsLookup(lower, tickets, cacheAt, n, false) {
        misses := misses + [n];
      }
    }
  }

  lemma LabelCarries(d: Dict, ticket: string)
    ensures CarriesHit(Labelled(d, ticket)["cache_hit" := Boolean(true)], d, ticket)
  {
  }

  lemma HitsOfPrefix(lower: string -> string, tickets: seq<string>, cacheAt: CacheAt, preCached: seq<Dict>,
                     hits: seq<nat>)
    requires tickets != [] && HitsCarried(lower, tickets[..|tickets| - 1], cacheAt, preCached, hits)
    ensures forall a :: 0 <= a < |hits| ==> HitCarried(lower, tickets, cacheAt, preCached[a], hits[a])
  {
    var n := |tickets| - 1;
    forall a | 0 <= a < |hits|
      ensures HitCarried(lower, tickets, cacheAt, preCached[a], hits[a])
    {
      assert HitCarried(lower, tickets[..n], cacheAt, preCached[a], hits[a]);
      assert tickets[hits[a]] == tickets[..n][hits[a]];
    }
  }

  lemma MissesOfPrefix(lower: string -> string, tickets: seq<string>, cacheAt: CacheAt, unique: seq<string>,
                       misses: seq<nat>)
    requires tickets != [] && MissesListed(lower, tickets[..|tickets| - 1], cacheAt, unique, misses)
    ensures forall a :: 0 <= a < |misses| ==> misses[a] < |tickets| && unique[a] == tickets[misses[a]]
  {
  }

  /** The normal forms of the tickets that the results are labelled with. */
  function LabelForms(lower: string -> string, results: seq<Dict>): set<string> {
    set d: Dict | d in results && "ticket" in d && d["ticket"].Text? :: Normalised(lower, d["ticket"].s)
  }

  lemma LabelFormsConcat(lower: string -> string, a: seq<Dict>, b: seq<Dict>)
    ensures LabelForms(lower, a + b) == LabelForms(lower, a) + LabelForms(lower, b)
  {
    assert forall d :: d in a + b <==> d in a || d in b;
  }

  lemma LabelFormsOne(lower: string -> string, d: Dict, ticket: string)
    requires "ticket" in d && d["ticket"] == Text(ticket)
    ensures LabelForms(lower, [d]) == {Normalised(lower, ticket)}
  {
    assert d in [d];
  }

  /** No normal form of the request is lost. */
  lemma {:induction false} SubmissionCovers(lower: string -> string, tickets: seq<string>, cacheAt: CacheAt)
    ensures var s := Submitted(lower, tickets, cacheAt);
            Forms(lower, s.unique) + LabelForms(lower, s.preCached) == Forms(lower, tickets)
  {
    if tickets != [] {
      var n := |tickets| - 1;
      SubmissionCovers(lower, tickets[..n], cacheAt);
      FormsSplit(lower, tickets);
      var s := Submitted(lower, tickets[..n], cacheAt);
      FormsMore(lower, s.unique, tickets[n]);
      var key := Normalised(lower, tickets[n]);
      if key in cacheAt(n) {
        var d := Labelled(cacheAt(n)[key], tickets[n])["cache_hit" := Boolean(true)];
        LabelFormsConcat(lower, s.preCached, [d]);
        LabelFormsOne(lower, d, tickets[n]);
      }
    }
  }

  /** Every pre-cached result is marked as a hit. */
  lemma {:induction false} PreCachedAreHits(lower: string -> string, tickets: seq<string>, cacheAt: CacheAt)
    ensures var s := Submitted(lower, tickets, cacheAt); CountHas(s.preCached, "cache_hit") == |s.preCached|
  {
    if tickets != [] {
      var n := |tickets| - 1;
      PreCachedAreHits(lower, tickets[..n], cacheAt);
      var s := Submitted(lower, tickets[..n], cacheAt);
      var key := Normalised(lower, tickets[n]);
      if key in cacheAt(n) {
        var d := Labelled(cacheAt(n)[key], tickets[n])["cache_hit" := Boolean(true)];
        assert (s.preCached + [d])[..|s.preCached|] == s.preCached;
      }
    }
  }

  /** With no error in the cache, none comes from it. */
  lemma {:induction false} PreCachedAreSuccesses(lower: string -> string, tickets: seq<string>, cacheAt: CacheAt)
    requires NoErrorsCached(cacheAt)
    ensures CountHas(Submitted(lower, tickets, cacheAt).preCached, "error") == 0
  {
    if tickets != [] {
      var n := |tickets| - 1;
      PreCachedAreSuccesses(lower, tickets[..n], cacheAt);
      var s := Submitted(lower, tickets[..n], cacheAt);
      var key := Normalised(lower, tickets[n]);
      if key in cacheAt(n) {
        var d := Labelled(cacheAt(n)[key], tickets[n])["cache_hit" := Boolean(true)];
        assert !Has(d, "error");
        assert (s.preCached + [d])[..|s.preCached|] == s.preCached;
      }
    }
  }

  // ---------- the drain loop ----------

  /** The local counters of the background task. */
  datatype Progress = Progress(completed: nat, failed: nat, cacheHits: nat, results: seq<Dict>)

  function LabelAll(dicts: seq<Dict>, tickets: seq<string>): (r: seq<Dict>)
    requires |dicts| == |tickets|
    ensures |r| == |dicts|
  {
    seq(|dicts|, i requires 0 <= i < |dicts| => Labelled(dicts[i], tickets[i]))
  }

  /** Repeats within the request: counted as cached, without a result of their own. */
  function Duplicates(s: Submission): int {
    s.cachedCount - |s.preCached|
  }

  /**
   The local counters agree with the job record and with the list of results; errors among the
   pre-cached results were counted as completed when the job was created.
   */
  ghost predicate Books(job: JobRecord, p: Progress, s: Submission) {
    && job.completed + job.failed == p.completed
    && job.failed == p.failed && p.failed + CountHas(s.preCached, "error") == CountHas(p.results, "error")
    && job.cacheHits == p.cacheHits == Duplicates(s) + CountHas(p.results, "cache_hit")
    && |p.results| + Duplicates(s) == p.completed
  }

  lemma BooksMore(job: JobRecord, p: Progress, s: Submission, list: seq<Dict>, completed: nat, failed: nat,
                  cacheHits: nat)
    requires Books(job, p, s) && completed + failed == |list|
    requires failed == CountHas(list, "error") && cacheHits == CountHas(list, "cache_hit")
    ensures Books(job.(completed := job.completed + completed, failed := job.failed + failed,
                       cacheHits := job.cacheHits + cacheHits),
                  Progress(p.completed + completed + failed, p.failed + failed, p.cacheHits + cacheHits,
                           p.results + list),
                  s)
  {
    CountHasAppend(p.results, list, "error");
    CountHasAppend(p.results, list, "cache_hit");
  }

  function NoteOf(p: Progress, total: nat): Note {
    Progressed(p.completed, total, p.cacheHits, p.failed)
  }

  /** The records and channels of all other jobs. */
  ghost function Apart(store: JobStore, id: string): (map<string, JobRecord>, map<string, seq<Note>>)
    reads store
  {
    (store.jobs - {id}, store.published - {id})
  }

  /** Tallies one batch: a truthy error fails, anything else completes. */
  method Tally(batch: seq<string>, answers: seq<Dict>)
    returns (list: seq<Dict>, completed: nat, failed: nat, cacheHits: nat)
    requires |batch| == |answers|
    ensures list == LabelAll(answers, batch)
    ensures failed == CountHas(list, "error") && cacheHits == CountHas(list, "cache_hit")
    ensures completed + failed == |batch|
  {
    list, completed, failed, cacheHits := [], 0, 0, 0;
    for i := 0 to |batch|
      invariant list == LabelAll(answers, batch)[..i]
      invariant failed == CountHas(list, "error") && cacheHits == CountHas(list, "cache_hit")
      invariant completed + failed == i
    {
      var result := Labelled(answers[i], batch[i]);
      assert (list + [result])[..i] == list;
      list := list + [result];
      if Has(result, "error") {
        failed := failed + 1;
      } else {
        completed := completed + 1;
      }
      if Has(result, "cache_hit") {
        cacheHits := cacheHits + 1;
      }
    }
  }

  /** A batch from its coroutines' outcomes to its labelled results and counts. */
  method Collect(batch: seq<string>, outcomes: Outcomes)
    returns (list: seq<Dict>, completed: nat, failed: nat, cacheHits: nat)
    ensures list == Reports(outcomes, batch) && completed + failed == |batch|
    ensures failed == CountHas(list, "error") && cacheHits == CountHas(list, "cache_hit")
  {
    var gathered := seq(|batch|, i requires 0 <= i < |batch| => OutcomeOf(outcomes, batch[i]));
    var answers := Caller.ProcessBatch(batch, gathered);
    assert LabelAll(answers, batch) == Reports(outcomes, batch);
    list, completed, failed, cacheHits := Tally(batch, answers);
  }

  /**
   One turn of the drain loop.  The local counters always advance; the record and the event follow as
   far as the store plays along, and the turn ends well if both calls do.
   */
  method RunBatch(store: JobStore, id: string, total: nat, batch: seq<string>, outcomes: Outcomes,
                  counted: Reply, announced: Reply, p: Progress, ghost s: Submission)
    returns (p': Progress, ok: bool)
    requires id in store.jobs && Books(store.jobs[id], p, s)
    modifies store
    ensures id in store.jobs && store.results == old(store.results) && Apart(store, id) == old(Apart(store, id))
    ensures store.jobs[id].status == old(store.jobs[id].status) && store.jobs[id].total == old(store.jobs[id].total)
    ensures p'.completed == p.completed + |batch| && p'.results == p.results + Reports(outcomes, batch)
    ensures ok <==> counted == announced == Acknowledged
    ensures if counted == Lost then store.jobs == old(store.jobs) else Books(store.jobs[id], p', s)
    ensures Channel(store.published, id) == Channel(old(store.published), id) +
              if counted == Acknowledged && announced != Lost then [NoteOf(p', total)] else []
  {
    var list, completed, failed, cacheHits := Collect(batch, outcomes);
    p' := Progress(p.completed + completed + failed, p.failed + failed, p.cacheHits + cacheHits, p.results + list);
    BooksMore(store.jobs[id], p, s, list, completed, failed, cacheHits);
    ok := CountAndAnnounce(store, id, completed, failed, cacheHits, NoteOf(p', total), counted, announced);
  }

  /** The two calls that follow a batch; the second one is tried only if the first one returned. */
  method CountAndAnnounce(store: JobStore, id: string, completed: nat, failed: nat, cacheHits: nat, note: Note,
                          counted: Reply, announced: Reply) returns (ok: bool)
    requires id in store.jobs
    modifies store
    ensures id in store.jobs && store.results == old(store.results) && Apart(store, id) == old(Apart(store, id))
    ensures ok <==> counted == announced == Acknowledged
    ensures var job := old(store.jobs)[id];
            if counted == Lost then store.jobs == old(store.jobs)
            else store.jobs[id] == job.(completed := job.completed + completed, failed := job.failed + failed,
                                        cacheHits := job.cacheHits + cacheHits)
    ensures Channel(store.published, id) == Channel(old(store.published), id) +
              if counted == Acknowledged && announced != Lost then [note] else []
  {
    if counted != Lost {
      store.IncrementProgress(id, completed, failed, cacheHits);
    }
    if counted != Acknowledged {
      return false;
    }
    if announced != Lost {
      store.Publish(id, note);
    }
    ok := announced == Acknowledged;
  }

  /** `sum(r.get("tokens", 0))` raises unless every value is a number or a truth value. */
  predicate Summable(results: seq<Dict>) {
    forall i :: 0 <= i < |results| ==> AddsUp(results[i])
  }

  // ---------- reports ----------

  /** What each ticket's coroutine hands back; a ticket that is not listed was cancelled. */
  type Outcomes = map<string, Raw>

  function OutcomeOf(outcomes: Outcomes, ticket: string): Raw {
    if ticket in outcomes then outcomes[ticket] else Raised("CancelledError", "")
  }

  /** The entry that a ticket's outcome puts on the list of results. */
  function Report(outcomes: Outcomes, ticket: string): Dict {
    Labelled(Caller.Collected(ticket, OutcomeOf(outcomes, ticket)), ticket)
  }

  function Reports(outcomes: Outcomes, tickets: seq<string>): (r: seq<Dict>)
    ensures |r| == |tickets|
  {
    seq(|tickets|, i requires 0 <= i < |tickets| => Report(outcomes, tickets[i]))
  }

  function TicketsOf(items: seq<Item>): (r: seq<string>)
    ensures |r| == |items|
  {
    seq(|items|, i requires 0 <= i < |items| => items[i].ticket)
  }

  function Due(outcomes: Outcomes, queued: seq<Item>): seq<Dict> {
    Reports(outcomes, TicketsOf(queued))
  }

  lemma DueConcat(outcomes: Outcomes, a: seq<Item>, b: seq<Item>)
    ensures Due(outcomes, a + b) == Due(outcomes, a) + Due(outcomes, b)
  {
  }

  lemma DueWithout(outcomes: Outcomes, items: seq<Item>, x: Item) returns (rest: seq<Item>)
    requires x in items
    ensures |rest| + 1 == |items| && multiset(rest) == multiset(items) - multiset{x}
    ensures multiset(Due(outcomes, items)) == multiset(Due(outcomes, rest)) + multiset{Report(outcomes, x.ticket)}
  {
    var k: nat :| k < |items| && items[k] == x;
    rest := items[..k] + items[k + 1..];
    assert items == items[..k] + [x] + items[k + 1..];
    DueConcat(outcomes, items[..k], items[k + 1..]);
    DueConcat(outcomes, items[..k] + [x], items[k + 1..]);
    DueConcat(outcomes, items[..k], [x]);
    assert Due(outcomes, [x]) == [Report(outcomes, x.ticket)];
  }

  lemma {:induction false} DuePermutation(outcomes: Outcomes, a: seq<Item>, b: seq<Item>)
    requires multiset(a) == multiset(b)
    ensures multiset(Due(outcomes, a)) == multiset(Due(outcomes, b))
    decreases |a|
  {
    if a == [] {
      assert |multiset(b)| == 0;
    } else {
      var x := a[0];
      assert x in multiset(b);
      var a' := DueWithout(outcomes, a, x);
      var b' := DueWithout(outcomes, b, x);
      DuePermutation(outcomes, a', b');
    }
  }

  /** The count that the latest progress event announced. */
  function Latest(notes: seq<Note>, from: nat): nat {
    if notes != [] && notes[|notes| - 1].Progressed? then notes[|notes| - 1].completed else from
  }

  /** The event counts exactly the results collected up to it. */
  ghost predicate Truthful(note: Note, s: Submission, results: seq<Dict>) {
    note.Progressed? &&
    var k := note.completed - Duplicates(s);
    && 0 <= k <= |results|
    && note.failed + CountHas(s.preCached, "error") == CountHas(results[..k], "error")
    && note.cacheHits == Duplicates(s) + CountHas(results[..k], "cache_hit")
  }

  /** Truthful progress events only, each with the job's total and a larger count than the one before. */
  ghost predicate Growing(notes: seq<Note>, total: nat, s: Submission, results: seq<Dict>) {
    notes != [] ==>
      var n := |notes| - 1;
      && Truthful(notes[n], s, results) && notes[n].total == total
      && Latest(notes[..n], s.cachedCount) < notes[n].completed <= total
      && Growing(notes[..n], total, s, results)
  }

  /** Events stay true as more results are collected. */
  lemma {:induction false} StillGrowing(notes: seq<Note>, total: nat, s: Submission, results: seq<Dict>,
                                        more: seq<Dict>)
    requires Growing(notes, total, s, results)
    ensures Growing(notes, total, s, results + more)
  {
    if notes != [] {
      var n := |notes| - 1;
      var k := notes[n].completed - Duplicates(s);
      assert (results + more)[..k] == results[..k];
      StillGrowing(notes[..n], total, s, results, more);
    }
  }

  lemma GrowingMore(notes: seq<Note>, total: nat, s: Submission, results: seq<Dict>, note: Note)
    requires Growing(notes, total, s, results) && Truthful(note, s, results)
    requires note.total == total && Latest(notes, s.cachedCount) < note.completed <= total
    ensures Growing(notes + [note], total, s, results)
    ensures Latest(notes + [note], s.cachedCount) == note.completed
  {
    assert (notes + [note])[..|notes|] == notes;
  }

  /** The growing counts up to the total, then the final event with all results. */
  ghost predicate EndsWith(notes: seq<Note>, results: seq<Dict>, total: nat, s: Submission) {
    var n := |notes| - 1;
    && notes != [] && notes[n] == Finishes(results)
    && Growing(notes[..n], total, s, results) && Latest(notes[..n], s.cachedCount) == total
  }

  lemma BooksAreTruthful(job: JobRecord, p: Progress, s: Submission, total: nat)
    requires Books(job, p, s)
    ensures Truthful(NoteOf(p, total), s, p.results)
  {
    assert p.results[..|p.results|] == p.results;
  }

  // ---------- the background task ----------

  /** The handled and the waiting items together are those that were put in. */
  ghost predicate Handled(unique: seq<string>, done: seq<Item>, queued: seq<Item>) {
    multiset(done) + multiset(queued) == multiset(ItemsOf(unique, 0))
  }

  lemma HandledMore(unique: seq<string>, done: seq<Item>, before: seq<Item>, b: Batch, after: seq<Item>)
    requires Handled(unique, done, before) && Drains(before, b, after)
    ensures Handled(unique, done + ItemsIn(b), after)
  {
  }

  lemma DueMore(outcomes: Outcomes, done: seq<Item>, b: Batch)
    requires Fits(b)
    ensures Due(outcomes, done + ItemsIn(b)) == Due(outcomes, done) + Reports(outcomes, b.tickets)
  {
    DueConcat(outcomes, done, ItemsIn(b));
    assert Due(outcomes, ItemsIn(b)) == Reports(outcomes, b.tickets);
  }

  /** Where the loop stands, `done` being the items of the batches so far. */
  ghost predicate Halfway(p: Progress, s: Submission, total: nat, outcomes: Outcomes,
                          done: seq<Item>, queued: seq<Item>, left: nat) {
    && p.completed + |queued| == total
    && p.results == s.preCached + Due(outcomes, done)
    && Handled(s.unique, done, queued)
    && BatchesFor(queued) == left
  }

  lemma HalfwayMore(p: Progress, s: Submission, total: nat, outcomes: Outcomes, done: seq<Item>, left: nat,
                    before: seq<Item>, b: Batch, after: seq<Item>, p': Progress)
    requires Halfway(p, s, total, outcomes, done, before, left) && Drains(before, b, after)
    requires p'.completed == p.completed + |b.tickets| && p'.results == p.results + Reports(outcomes, b.tickets)
    ensures 1 <= left && p.completed < p'.completed <= total
    ensures Halfway(p', s, total, outcomes, done + ItemsIn(b), after, left - 1)
  {
    OneBatchLess(before, b, after);
    DrainCounts(before, b, after);
    DueMore(outcomes, done, b);
    HandledMore(s.unique, done, before, b, after);
  }

  /** Between two turns everything so far has been counted and announced. */
  ghost predicate AtTurn(job: JobRecord, p: Progress, s: Submission, total: nat, outcomes: Outcomes,
                         done: seq<Item>, queued: seq<Item>, left: nat, notes: seq<Note>) {
    && job.total == total && Books(job, p, s)
    && Halfway(p, s, total, outcomes, done, queued, left)
    && Growing(notes, total, s, p.results) && Latest(notes, s.cachedCount) == p.completed
  }

  lemma TurnAdvances(job: JobRecord, p: Progress, s: Submission, total: nat, outcomes: Outcomes, done: seq<Item>,
                     left: nat, notes: seq<Note>, before: seq<Item>, b: Batch, after: seq<Item>, job': JobRecord,
                     p': Progress)
    requires AtTurn(job, p, s, total, outcomes, done, before, left, notes) && Drains(before, b, after)
    requires job'.total == job.total && Books(job', p', s)
    requires p'.completed == p.completed + |b.tickets| && p'.results == p.results + Reports(outcomes, b.tickets)
    ensures 1 <= left
    ensures AtTurn(job', p', s, total, outcomes, done + ItemsIn(b), after, left - 1, notes + [NoteOf(p', total)])
  {
    HalfwayMore(p, s, total, outcomes, done, left, before, b, after, p');
    StillGrowing(notes, total, s, p.results, Reports(outcomes, b.tickets));
    BooksAreTruthful(job', p', s, total);
    GrowingMore(notes, total, s, p'.results, NoteOf(p', total));
  }

  /** Whatever the store did with the two calls, the events stay truthful and the record within the total. */
  lemma TurnEnds(job: JobRecord, p: Progress, s: Submission, total: nat, outcomes: Outcomes, done: seq<Item>,
                 left: nat, notes: seq<Note>, before: seq<Item>, b: Batch, after: seq<Item>,
                 job': JobRecord, p': Progress, notes': seq<Note>)
    requires AtTurn(job, p, s, total, outcomes, done, before, left, notes) && Drains(before, b, after)
    requires job' == job || (job'.total == job.total && Books(job', p', s))
    requires notes' == notes || (notes' == notes + [NoteOf(p', total)] && job'.total == job.total && Books(job', p', s))
    requires p'.completed == p.completed + |b.tickets| && p'.results == p.results + Reports(outcomes, b.tickets)
    ensures Growing(notes', total, s, p'.results) && job'.completed + job'.failed <= total
  {
    HalfwayMore(p, s, total, outcomes, done, left, before, b, after, p');
    StillGrowing(notes, total, s, p.results, Reports(outcomes, b.tickets));
    if notes' != notes {
      TurnAdvances(job, p, s, total, outcomes, done, left, notes, before, b, after, job', p');
    }
  }

  datatype TurnEnd = Drained | Advanced | StoreDown

  /** One turn of the loop: drain a batch, process it, count it. */
  method Turn(batcher: PriorityBatcher, store: JobStore, id: string, s: Submission, total: nat, outcomes: Outcomes,
              counted: Reply, announced: Reply, p: Progress, ghost done: seq<Item>, ghost left: nat)
    returns (p': Progress, end: TurnEnd, ghost done': seq<Item>)
    requires batcher.Valid() && id in store.jobs && |s.preCached| <= s.cachedCount
    requires AtTurn(store.jobs[id], p, s, total, outcomes, done, batcher.queue.heap, left, Channel(store.published, id))
    modifies batcher.queue, store
    ensures batcher.Valid() && id in store.jobs && store.results == old(store.results)
    ensures Apart(store, id) == old(Apart(store, id)) && store.jobs[id].status == old(store.jobs[id].status)
    ensures end == if left == 0 then Drained else if counted == announced == Acknowledged then Advanced else StoreDown
    ensures end == Drained ==> batcher.queue.heap == []
    ensures Growing(Channel(store.published, id), total, s, p'.results)
    ensures store.jobs[id].completed + store.jobs[id].failed <= total
    ensures end != StoreDown ==>
              AtTurn(store.jobs[id], p', s, total, outcomes, done', batcher.queue.heap,
                     if left == 0 then 0 else left - 1, Channel(store.published, id))
  {
    ghost var before, job, notes := batcher.queue.heap, store.jobs[id], Channel(store.published, id);
    var drained := batcher.DrainBatch();
    if drained == None {
      NothingNeeded();
      return p, Drained, done;
    }
    var b := drained.value;
    OneBatchLess(before, b, batcher.queue.heap);
    var ok;
    p', ok := RunBatch(store, id, total, b.tickets, outcomes, counted, announced, p, s);
    done' := done + ItemsIn(b);
    TurnEnds(job, p, s, total, outcomes, done, left, notes, before, b, batcher.queue.heap,
             store.jobs[id], p', Channel(store.published, id));
    if ok {
      TurnAdvances(job, p, s, total, outcomes, done, left, notes, before, b, batcher.queue.heap, store.jobs[id], p');
    }
    end := if ok then Advanced else StoreDown;
  }

  /** The store's replies during one job; turns that are not listed go well. */
  datatype Replies = Replies(start: Reply, counts: map<nat, Reply>, events: map<nat, Reply>,
                             finish: Reply, done: Reply, fail: Reply)

  function ReplyTo(turns: map<nat, Reply>, k: nat): Reply {
    if k in turns then turns[k] else Acknowledged
  }

  /** The first n turns find the store well. */
  ghost predicate Smooth(r: Replies, n: nat) {
    forall k: nat :: k < n ==> ReplyTo(r.counts, k) == ReplyTo(r.events, k) == Acknowledged
  }

  lemma SmoothSoFar(r: Replies, b: nat)
    requires Smooth(r, b) && ReplyTo(r.counts, b) == ReplyTo(r.events, b) == Acknowledged
    ensures Smooth(r, b + 1)
  {
  }

  lemma RoughHere(r: Replies, b: nat, needed: nat)
    requires !(ReplyTo(r.counts, b) == ReplyTo(r.events, b) == Acknowledged) && b < needed
    ensures !Smooth(r, needed)
  {
  }

  /** The whole loop: it ends with the queue drained, or at the first turn in which the store fails. */
  method DrainLoop(batcher: PriorityBatcher, store: JobStore, id: string, s: Submission, total: nat,
                   outcomes: Outcomes, r: Replies, start: Progress, ghost needed: nat)
    returns (p: Progress, end: TurnEnd, ghost done: seq<Item>)
    requires batcher.Valid() && id in store.jobs && |s.preCached| <= s.cachedCount
    requires AtTurn(store.jobs[id], start, s, total, outcomes, [], batcher.queue.heap, needed,
                    Channel(store.published, id))
    modifies batcher.queue, store
    ensures id in store.jobs && store.results == old(store.results)
    ensures Apart(store, id) == old(Apart(store, id)) && store.jobs[id].status == old(store.jobs[id].status)
    ensures end == if Smooth(r, needed) then Drained else StoreDown
    ensures end == Drained ==> AtTurn(store.jobs[id], p, s, total, outcomes, done, [], 0, Channel(store.published, id))
    ensures Growing(Channel(store.published, id), total, s, p.results)
    ensures store.jobs[id].completed + store.jobs[id].failed <= total
  {
    p, end, done := start, Advanced, [];
    var b: nat := 0;
    while true
      invariant batcher.Valid() && id in store.jobs && store.results == old(store.results)
      invariant Apart(store, id) == old(Apart(store, id)) && store.jobs[id].status == old(store.jobs[id].status)
      invariant b <= needed && Smooth(r, b)
      invariant AtTurn(store.jobs[id], p, s, total, outcomes, done, batcher.queue.heap, needed - b,
                       Channel(store.published, id))
      decreases needed - b
    {
      p, end, done := Turn(batcher, store, id, s, total, outcomes, ReplyTo(r.counts, b), ReplyTo(r.events, b),
                           p, done, needed - b);
      if end == Drained {
        return;
      }
      if end == StoreDown {
        RoughHere(r, b, needed);
        return;
      }
      SmoothSoFar(r, b);
      b := b + 1;
    }
  }

  lemma NothingNeeded()
    ensures BatchesFor([]) == 0
  {
  }

  // ---------- how a job ends ----------

  /** The start and every turn went well, so that all batches have been processed and counted. */
  ghost predicate Processed(r: Replies, s: Submission) {
    r.start == Acknowledged && Smooth(r, BatchesFor(ItemsOf(s.unique, 0)))
  }

  /** The final writes are reached: all batches are processed, and the token counts add up. */
  ghost predicate Concluding(r: Replies, s: Submission, outcomes: Outcomes) {
    Processed(r, s) && Summable(s.preCached) && Summable(Reports(outcomes, s.unique))
  }

  ghost predicate Stored(r: Replies, s: Submission, outcomes: Outcomes) {
    Concluding(r, s, outcomes) && r.finish != Lost
  }

  ghost predicate Announced(r: Replies, s: Submission, outcomes: Outcomes) {
    Concluding(r, s, outcomes) && r.finish == Acknowledged && r.done != Lost
  }

  /** The status in which a job is left, from the store's replies and the reports alone. */
  ghost function StatusAfter(r: Replies, s: Submission, outcomes: Outcomes): Status {
    if r.start == Lost then Pending
    else if r.start == Unanswered then Processing
    else if Concluding(r, s, outcomes) && r.finish == r.done == Acknowledged then Finished
    else if r.fail != Lost then Failed
    else if Stored(r, s, outcomes) then Finished
    else Processing
  }

  /** What the background task may rely on when it is launched. */
  ghost predicate Launchable(job: JobRecord, s: Submission, total: nat) {
    && s.cachedCount + |s.unique| == total == job.total && |s.preCached| <= s.cachedCount
    && CountHas(s.preCached, "cache_hit") == |s.preCached|
    && job.completed == job.cacheHits == s.cachedCount && job.failed == 0 && job.status == Pending
  }

  /**
   The background task.  Its contract says for every behaviour of the store in which status the job is
   left, whether its results are stored, and which events have been published; once all batches have
   been processed the record, the counters and the results agree, whatever happens to the final writes.
   */
  method ProcessJob(store: JobStore, id: string, s: Submission, total: nat, outcomes: Outcomes, r: Replies)
    returns (p: Progress)
    requires id in store.jobs && Launchable(store.jobs[id], s, total) && Channel(store.published, id) == []
    modifies store
    ensures id in store.jobs && Apart(store, id) == old(Apart(store, id))
    ensures store.jobs[id].status == StatusAfter(r, s, outcomes)
    ensures store.results == if Stored(r, s, outcomes) then old(store.results)[id := p.results] else old(store.results)
    ensures Processed(r, s) ==> Reconciled(store.jobs[id], p, s, total, outcomes)
    ensures Processed(r, s) ==>
              && s.preCached <= p.results && AnswersAll(p.results[|s.preCached|..], s.unique, outcomes)
              && store.jobs[id].failed == CountFailing(outcomes, s.unique)
    ensures store.jobs[id].completed + store.jobs[id].failed <= total
    ensures if Announced(r, s, outcomes) then EndsWith(Channel(store.published, id), p.results, total, s)
            else Growing(Channel(store.published, id), total, s, p.results)
  {
    var batcher := Enqueued(s.unique);
    p := Progress(s.cachedCount, 0, s.cachedCount, s.preCached);
    if r.start != Lost {
      store.Start(id);
    }
    if r.start != Acknowledged {
      return;
    }
    var ok;
    p, ok := DrainAndConclude(batcher, store, id, s, total, outcomes, r);
    if !ok && r.fail != Lost {
      store.Fail(id);
    }
    if Processed(r, s) {
      ReconciledCarries(store.jobs[id], p, s, total, outcomes);
    }
  }

  /** The guarded part of the task: the drain loop, the sum of the tokens, the final writes. */
  method DrainAndConclude(batcher: PriorityBatcher, store: JobStore, id: string, s: Submission, total: nat,
                          outcomes: Outcomes, r: Replies) returns (p: Progress, ok: bool)
    requires batcher.Valid() && multiset(batcher.queue.heap) == multiset(ItemsOf(s.unique, 0))
    requires r.start == Acknowledged && id in store.jobs && Channel(store.published, id) == []
    requires store.jobs[id].status == Processing && Launchable(store.jobs[id].(status := Pending), s, total)
    modifies batcher.queue, store
    ensures id in store.jobs && Apart(store, id) == old(Apart(store, id))
    ensures ok <==> Concluding(r, s, outcomes) && r.finish == r.done == Acknowledged
    ensures store.jobs[id].status == if Stored(r, s, outcomes) then Finished else Processing
    ensures store.results == if Stored(r, s, outcomes) then old(store.results)[id := p.results] else old(store.results)
    ensures Processed(r, s) ==> Reconciled(store.jobs[id], p, s, total, outcomes)
    ensures store.jobs[id].completed + store.jobs[id].failed <= total
    ensures if Announced(r, s, outcomes) then EndsWith(Channel(store.published, id), p.results, total, s)
            else Growing(Channel(store.published, id), total, s, p.results)
  {
    p := Progress(s.cachedCount, 0, s.cachedCount, s.preCached);
    NothingDoneYet(store.jobs[id], p, s, total, batcher.queue.heap, outcomes);
    var end;
    ghost var done;
    p, end, done := DrainLoop(batcher, store, id, s, total, outcomes, r, p, BatchesFor(ItemsOf(s.unique, 0)));
    if end == StoreDown {
      return p, false;
    }
    AllDrained(store.jobs[id], p, s, total, outcomes, done, Channel(store.published, id));
    SummableParts(p.results, s, outcomes);
    if !Summable(p.results) {
      return p, false;
    }
    ok := Conclude(store, id, p.results, r.finish, r.done, total, s);
  }

  /** The two final writes; the second one is tried only if the first one returned. */
  method Conclude(store: JobStore, id: string, results: seq<Dict>, finish: Reply, done: Reply,
                  ghost total: nat, ghost s: Submission) returns (ok: bool)
    requires id in store.jobs
    requires Growing(Channel(store.published, id), total, s, results)
    requires Latest(Channel(store.published, id), s.cachedCount) == total
    modifies store
    ensures ok <==> finish == done == Acknowledged
    ensures Apart(store, id) == old(Apart(store, id))
    ensures store.jobs == if finish == Lost then old(store.jobs)
                          else old(store.jobs)[id := old(store.jobs)[id].(status := Finished)]
    ensures store.results == if finish == Lost then old(store.results) else old(store.results)[id := results]
    ensures if finish == Acknowledged && done != Lost then EndsWith(Channel(store.published, id), results, total, s)
            else Channel(store.published, id) == Channel(old(store.published), id)
  {
    ghost var notes := Channel(store.published, id);
    if finish != Lost {
      store.Finish(id, results);
    }
    if finish != Acknowledged {
      return false;
    }
    if done != Lost {
      store.Publish(id, Finishes(results));
      assert Channel(store.published, id)[..|notes|] == notes;
    }
    ok := done == Acknowledged;
  }

  lemma SummableMembers(results: seq<Dict>)
    ensures Summable(results) <==> forall d :: d in multiset(results) ==> AddsUp(d)
  {
    forall d | d in multiset(results)
      ensures d in results
    {
    }
    assert forall i :: 0 <= i < |results| ==> results[i] in multiset(results);
  }

  /** The sum over the whole list is a matter of its two parts, in any order. */
  lemma SummableParts(results: seq<Dict>, s: Submission, outcomes: Outcomes)
    requires s.preCached <= results
    requires multiset(results[|s.preCached|..]) == multiset(Reports(outcomes, s.unique))
    ensures Summable(results) <==> Summable(s.preCached) && Summable(Reports(outcomes, s.unique))
  {
    var k := |s.preCached|;
    assert results == results[..k] + results[k..] && results[..k] == s.preCached;
    SummableMembers(results);
    SummableMembers(s.preCached);
    SummableMembers(results[k..]);
    SummableMembers(Reports(outcomes, s.unique));
  }

  /**
   What the machine supplies: at each lookup the cache as some reachable world has it, and for each ticket
   what some reachable world's finished task for it handed back.
   */
  ghost predicate Supplied(c: Pipeline.Config, start: real, cacheAt: CacheAt, outcomes: Outcomes) {
    && (forall i: nat :: StoreOfSome(c, start, cacheAt(i)))
    && (forall t :: t in outcomes ==> OutcomeOfSome(c, start, t, outcomes[t]))
  }

  ghost predicate StoreOfSome(c: Pipeline.Config, start: real, store: map<string, Dict>) {
    exists w :: PipelineSafety.Reachable(c, start, w) && w.store == store
  }

  ghost predicate OutcomeOfSome(c: Pipeline.Config, start: real, ticket: string, raw: Raw) {
    exists w: Pipeline.World, id: nat ::
      PipelineSafety.Reachable(c, start, w) && Caller.HandedBack(w, id, ticket, raw)
  }

  /**
   With nobody else writing to Redis, no cached result has an error and every count can be added up, so
   the final sum never raises: the final writes are reached exactly when every batch is processed.
   */
  lemma SumNeverRaises(c: Pipeline.Config, start: real, lower: string -> string, tickets: seq<string>,
                       cacheAt: CacheAt, outcomes: Outcomes)
    requires Pipeline.ConfigOk(c) && Supplied(c, start, cacheAt, outcomes)
    ensures NoErrorsCached(cacheAt)
    ensures var s := Submitted(lower, tickets, cacheAt);
            && CountHas(s.preCached, "error") == 0
            && forall r :: Concluding(r, s, outcomes) <==> Processed(r, s)
  {
    forall i: nat, key | key in cacheAt(i)
      ensures Lacks(cacheAt(i)[key], "error") && AddsUp(cacheAt(i)[key])
    {
      assert StoreOfSome(c, start, cacheAt(i));
      var w :| PipelineSafety.Reachable(c, start, w) && w.store == cacheAt(i);
      Caller.StoredAddUp(c, start, w, key);
    }
    PreCachedAreSuccesses(lower, tickets, cacheAt);
    PreCachedAddUp(lower, tickets, cacheAt);
    ReportsAddUp(c, start, outcomes, Submitted(lower, tickets, cacheAt).unique, cacheAt);
  }

  lemma {:induction false} PreCachedAddUp(lower: string -> string, tickets: seq<string>, cacheAt: CacheAt)
    requires forall i: nat, key :: key in cacheAt(i) ==> AddsUp(cacheAt(i)[key])
    ensures Summable(Submitted(lower, tickets, cacheAt).preCached)
  {
    if tickets != [] {
      PreCachedAddUp(lower, tickets[..|tickets| - 1], cacheAt);
    }
  }

  lemma ReportsAddUp(c: Pipeline.Config, start: real, outcomes: Outcomes, tickets: seq<string>, cacheAt: CacheAt)
    requires Pipeline.ConfigOk(c) && Supplied(c, start, cacheAt, outcomes)
    ensures Summable(Reports(outcomes, tickets))
  {
    forall i | 0 <= i < |tickets|
      ensures AddsUp(Report(outcomes, tickets[i]))
    {
      var t := tickets[i];
      if t in outcomes {
        assert OutcomeOfSome(c, start, t, outcomes[t]);
        var w: Pipeline.World, id: nat :|
          PipelineSafety.Reachable(c, start, w) && Caller.HandedBack(w, id, t, outcomes[t]);
        Caller.ReportsAddUp(c, start, w, id);
      }
    }
  }

  /** So a job fails only with the store: when all its calls go well, the job is done. */
  lemma OnlyTheStoreFailsJobs(c: Pipeline.Config, start: real, lower: string -> string, tickets: seq<string>,
                              cacheAt: CacheAt, outcomes: Outcomes, r: Replies)
    requires Pipeline.ConfigOk(c) && Supplied(c, start, cacheAt, outcomes)
    ensures var s := Submitted(lower, tickets, cacheAt);
            StatusAfter(r, s, outcomes) == Failed <==>
              r.start == Acknowledged && r.fail != Lost && !(Processed(r, s) && r.finish == r.done == Acknowledged)
  {
    SumNeverRaises(c, start, lower, tickets, cacheAt, outcomes);
  }

  method Enqueued(unique: seq<string>) returns (batcher: PriorityBatcher)
    ensures fresh(batcher) && fresh(batcher.queue) && batcher.Valid()
    ensures multiset(batcher.queue.heap) == multiset(ItemsOf(unique, 0))
  {
    batcher := new PriorityBatcher();
    batcher.EnqueueMany(unique, 0);
  }

  lemma NothingDoneYet(job: JobRecord, p: Progress, s: Submission, total: nat, queued: seq<Item>, outcomes: Outcomes)
    requires Launchable(job.(status := Pending), s, total)
    requires p == Progress(s.cachedCount, 0, s.cachedCount, s.preCached)
    requires multiset(queued) == multiset(ItemsOf(s.unique, 0))
    ensures AtTurn(job, p, s, total, outcomes, [], queued, BatchesFor(ItemsOf(s.unique, 0)), [])
  {
    BatchesPermutation(queued, ItemsOf(s.unique, 0));
    assert |multiset(queued)| == |multiset(ItemsOf(s.unique, 0))|;
    assert Due(outcomes, []) == [];
  }

  lemma AllDrained(job: JobRecord, p: Progress, s: Submission, total: nat, outcomes: Outcomes, done: seq<Item>,
                   notes: seq<Note>)
    requires s.cachedCount + |s.unique| == total && AtTurn(job, p, s, total, outcomes, done, [], 0, notes)
    ensures Reconciled(job, p, s, total, outcomes) && Latest(notes, s.cachedCount) == total
  {
    DuePermutation(outcomes, done, ItemsOf(s.unique, 0));
    assert TicketsOf(ItemsOf(s.unique, 0)) == s.unique;
    assert p.results[|s.preCached|..] == Due(outcomes, done);
  }

  /**
   Counters, record and results agree, and the results are the pre-cached ones followed by the
   report of each unique ticket exactly once.
   */
  ghost predicate Reconciled(job: JobRecord, p: Progress, s: Submission, total: nat, outcomes: Outcomes) {
    && job.completed + job.failed == total == job.total == p.completed
    && job.failed == p.failed && p.failed + CountHas(s.preCached, "error") == CountHas(p.results, "error")
    && job.cacheHits == Duplicates(s) + CountHas(p.results, "cache_hit")
    && |p.results| == |s.preCached| + |s.unique|
    && s.preCached <= p.results
    && multiset(p.results[|s.preCached|..]) == multiset(Reports(outcomes, s.unique))
  }

  lemma ReportsSplit(outcomes: Outcomes, tickets: seq<string>)
    requires tickets != []
    ensures var n := |tickets| - 1;
            Reports(outcomes, tickets) == Reports(outcomes, tickets[..n]) + [Report(outcomes, tickets[n])]
  {
  }

  // ---------- what the results carry ----------

  function LabelOf(d: Dict): string {
    if "ticket" in d && d["ticket"].Text? then d["ticket"].s else ""
  }

  function Labels(results: seq<Dict>): (labels: seq<string>)
    ensures |labels| == |results|
  {
    seq(|results|, i requires 0 <= i < |results| => LabelOf(results[i]))
  }

  /** The dictionary is what its ticket's coroutine handed back, under that ticket, or carries an error. */
  predicate Carries(d: Dict, outcomes: Outcomes) {
    "ticket" in d && d["ticket"].Text? &&
    var t := d["ticket"].s;
    if t in outcomes && outcomes[t].Value? then d - {"ticket"} == outcomes[t].dict - {"ticket"}
    else Has(d, "error")
  }

  /** One result for each of the tickets, each carrying what its ticket's coroutine handed back. */
  ghost predicate AnswersAll(results: seq<Dict>, tickets: seq<string>, outcomes: Outcomes) {
    && multiset(Labels(results)) == multiset(tickets)
    && forall d :: d in results ==> Carries(d, outcomes)
  }

  /** A ticket fails if its coroutine raised or handed back a truthy error. */
  predicate Fails(outcomes: Outcomes, t: string) {
    t !in outcomes || outcomes[t].Raised? || Has(outcomes[t].dict, "error")
  }

  function CountFailing(outcomes: Outcomes, tickets: seq<string>): nat {
    if tickets == [] then 0
    else CountFailing(outcomes, tickets[..|tickets| - 1])
         + (if Fails(outcomes, tickets[|tickets| - 1]) then 1 else 0)
  }

  lemma ReportCarries(outcomes: Outcomes, t: string)
    ensures Carries(Report(outcomes, t), outcomes) && LabelOf(Report(outcomes, t)) == t
    ensures Has(Report(outcomes, t), "error") <==> Fails(outcomes, t)
  {
  }

  lemma ReportsAnswer(outcomes: Outcomes, tickets: seq<string>)
    ensures AnswersAll(Reports(outcomes, tickets), tickets, outcomes)
  {
    var reports := Reports(outcomes, tickets);
    forall i | 0 <= i < |tickets|
      ensures Carries(reports[i], outcomes) && LabelOf(reports[i]) == tickets[i]
    {
      ReportCarries(outcomes, tickets[i]);
    }
    assert Labels(reports) == tickets;
  }

  lemma {:induction false} FailingAreCounted(outcomes: Outcomes, tickets: seq<string>)
    ensures CountHas(Reports(outcomes, tickets), "error") == CountFailing(outcomes, tickets)
  {
    if tickets != [] {
      var n := |tickets| - 1;
      FailingAreCounted(outcomes, tickets[..n]);
      ReportsSplit(outcomes, tickets);
      ReportCarries(outcomes, tickets[n]);
      var front, d := Reports(outcomes, tickets[..n]), Report(outcomes, tickets[n]);
      assert (front + [d])[..|front|] == front;
    }
  }

  lemma LabelsConcat(a: seq<Dict>, b: seq<Dict>)
    ensures Labels(a + b) == Labels(a) + Labels(b)
  {
  }

  lemma CountAround(a: seq<Dict>, x: Dict, b: seq<Dict>, key: string)
    ensures CountHas(a + [x] + b, key) == CountHas(a + b, key) + (if Has(x, key) then 1 else 0)
  {
    CountHasAppend(a + [x], b, key);
    CountHasAppend(a, [x], key);
    CountHasAppend(a, b, key);
    assert [x][..0] == [];
    assert CountHas([x], key) == CountHas([], key) + (if Has(x, key) then 1 else 0);
  }

  lemma LabelsAround(a: seq<Dict>, x: Dict, b: seq<Dict>)
    ensures multiset(Labels(a + [x] + b)) == multiset(Labels(a + b)) + multiset{LabelOf(x)}
  {
    LabelsConcat(a + [x], b);
    LabelsConcat(a, [x]);
    LabelsConcat(a, b);
    assert Labels([x]) == [LabelOf(x)];
  }

  lemma Removed(a: seq<Dict>, x: Dict, key: string) returns (rest: seq<Dict>)
    requires x in a
    ensures |rest| + 1 == |a| && multiset(rest) == multiset(a) - multiset{x}
    ensures multiset(Labels(a)) == multiset(Labels(rest)) + multiset{LabelOf(x)}
    ensures CountHas(a, key) == CountHas(rest, key) + (if Has(x, key) then 1 else 0)
  {
    var k: nat :| k < |a| && a[k] == x;
    rest := a[..k] + a[k + 1..];
    assert a == a[..k] + [x] + a[k + 1..];
    CountAround(a[..k], x, a[k + 1..], key);
    LabelsAround(a[..k], x, a[k + 1..]);
  }

  /** Neither the labels nor the counts depend on the order of the results. */
  lemma {:induction false} OrderDoesNotMatter(a: seq<Dict>, b: seq<Dict>, key: string)
    requires multiset(a) == multiset(b)
    ensures multiset(Labels(a)) == multiset(Labels(b)) && CountHas(a, key) == CountHas(b, key)
    decreases |a|
  {
    if a == [] {
      assert |multiset(b)| == 0;
    } else {
      var x := a[0];
      assert x in multiset(b);
      var a' := Removed(a, x, key);
      var b' := Removed(b, x, key);
      OrderDoesNotMatter(a', b', key);
    }
  }

  /** After the pre-cached results come the answers of the unique tickets, and the failed count is theirs. */
  lemma ReconciledCarries(job: JobRecord, p: Progress, s: Submission, total: nat, outcomes: Outcomes)
    requires Reconciled(job, p, s, total, outcomes)
    ensures AnswersAll(p.results[|s.preCached|..], s.unique, outcomes)
    ensures job.failed == CountFailing(outcomes, s.unique)
  {
    var rest, reports := p.results[|s.preCached|..], Reports(outcomes, s.unique);
    ReportsAnswer(outcomes, s.unique);
    FailingAreCounted(outcomes, s.unique);
    OrderDoesNotMatter(rest, reports, "error");
    assert p.results == s.preCached + rest;
    CountHasAppend(s.preCached, rest, "error");
    forall d | d in rest
      ensures Carries(d, outcomes)
    {
      assert d in multiset(rest);
      assert d in multiset(reports);
      assert d in reports;
    }
  }

  lemma {:induction false} ReportForms(lower: string -> string, outcomes: Outcomes, tickets: seq<string>)
    ensures LabelForms(lower, Reports(outcomes, tickets)) == Forms(lower, tickets)
  {
    if tickets != [] {
      var n := |tickets| - 1;
      ReportForms(lower, outcomes, tickets[..n]);
      FormsSplit(lower, tickets);
      var d := Report(outcomes, tickets[n]);
      ReportsSplit(outcomes, tickets);
      LabelFormsConcat(lower, Reports(outcomes, tickets[..n]), [d]);
      LabelFormsOne(lower, d, tickets[n]);
    }
  }

  lemma SameLabelForms(lower: string -> string, a: seq<Dict>, b: seq<Dict>)
    requires multiset(a) == multiset(b)
    ensures LabelForms(lower, a) == LabelForms(lower, b)
  {
    assert forall d :: d in a <==> d in multiset(a);
    assert forall d :: d in b <==> d in multiset(b);
  }

  lemma ReconciledCovers(lower: string -> string, job: JobRecord, p: Progress, s: Submission, total: nat,
                         outcomes: Outcomes)
    requires Reconciled(job, p, s, total, outcomes)
    ensures LabelForms(lower, p.results) == Forms(lower, s.unique) + LabelForms(lower, s.preCached)
  {
    var k := |s.preCached|;
    assert p.results == s.preCached + p.results[k..];
    LabelFormsConcat(lower, s.preCached, p.results[k..]);
    SameLabelForms(lower, p.results[k..], Reports(outcomes, s.unique));
    ReportForms(lower, outcomes, s.unique);
  }

  // ---------- from the POST to the results ----------

  /** The POST handler's part: deduplicate, create the record, count what the cache already answered. */
  method Accept(store: JobStore, id: string, lower: string -> string, tickets: seq<string>, cacheAt: CacheAt)
    returns (s: Submission)
    modifies store
    ensures s == Submitted(lower, tickets, cacheAt)
    ensures id in store.jobs && Launchable(store.jobs[id], s, |tickets|)
    ensures store.results == old(store.results) && store.published == old(store.published)
    ensures Apart(store, id) == old(Apart(store, id))
  {
    s := ProcessTickets(lower, tickets, cacheAt);
    SubmissionAccounts(lower, tickets, cacheAt);
    PreCachedAreHits(lower, tickets, cacheAt);
    store.Create(id, |tickets|);
    if s.cachedCount != 0 {
      store.IncrementProgress(id, s.cachedCount, 0, s.cachedCount);
    }
  }

  /**
   A whole job.  For every request, cache, outcome of its tickets and behaviour of the store: the status
   in which it is left; stored results if and only if they could be stored, and then closed books over
   the tickets of the request; the events that were published.
   */
  method Serve(store: JobStore, id: string, lower: string -> string, tickets: seq<string>, cacheAt: CacheAt,
               outcomes: Outcomes, r: Replies)
    requires Channel(store.published, id) == []
    modifies store
    ensures id in store.jobs && Apart(store, id) == old(Apart(store, id))
    ensures var s := Submitted(lower, tickets, cacheAt);
            && store.jobs[id].status == StatusAfter(r, s, outcomes)
            && (if Stored(r, s, outcomes)
                then id in store.results && store.results == old(store.results)[id := store.results[id]]
                     && Closed(lower, tickets, store.jobs[id], store.results[id], CountHas(s.preCached, "error"))
                     && s.preCached <= store.results[id]
                     && AnswersAll(store.results[id][|s.preCached|..], s.unique, outcomes)
                     && store.jobs[id].failed == CountFailing(outcomes, s.unique)
                else store.results == old(store.results))
            && (Announced(r, s, outcomes) ==> EndsWith(Channel(store.published, id), store.results[id], |tickets|, s))
            && (NoErrorsCached(cacheAt) ==> CountHas(s.preCached, "error") == 0)
    ensures store.jobs[id].completed + store.jobs[id].failed <= |tickets|
    ensures var s := Submitted(lower, tickets, cacheAt);
            && (exists hits :: HitsCarried(lower, tickets, cacheAt, s.preCached, hits))
            && (exists misses :: MissesListed(lower, tickets, cacheAt, s.unique, misses))
  {
    var s := Accept(store, id, lower, tickets, cacheAt);
    ghost var hits := HitsCarry(lower, tickets, cacheAt);
    ghost var misses := MissesList(lower, tickets, cacheAt);
    SubmissionAccounts(lower, tickets, cacheAt);
    if NoErrorsCached(cacheAt) {
      PreCachedAreSuccesses(lower, tickets, cacheAt);
    }
    var p := ProcessJob(store, id, s, |tickets|, outcomes, r);
    if Processed(r, s) {
      SplitAccounts(p.results);
      SubmissionCovers(lower, tickets, cacheAt);
      ReconciledCovers(lower, store.jobs[id], p, s, |tickets|, outcomes);
    }
  }

  /**
   The record, the two result lists and the request agree; each normal form is answered once.  The
   failures listed number those counted and those that came from the cache.
   */
  ghost predicate Closed(lower: string -> string, tickets: seq<string>, job: JobRecord, results: seq<Dict>,
                         spoiled: nat) {
    && job.completed + job.failed == |tickets| == job.total
    && |Failures(results)| == job.failed + spoiled
    && |Successes(results)| + |Failures(results)| == |results| == |Forms(lower, tickets)|
    && LabelForms(lower, results) == Forms(lower, tickets)
  }

  // ---------- GET /results ----------

  function Successes(results: seq<Dict>): seq<Dict> {
    if results == [] then []
    else Successes(results[..|results| - 1])
         + (if Has(results[|results| - 1], "error") then [] else [results[|results| - 1]])
  }

  function Failures(results: seq<Dict>): seq<Dict> {
    if results == [] then []
    else Failures(results[..|results| - 1])
         + (if Has(results[|results| - 1], "error") then [results[|results| - 1]] else [])
  }

  /** As many failures as were counted, and nothing left out. */
  lemma {:induction false} SplitAccounts(results: seq<Dict>)
    ensures |Failures(results)| == CountHas(results, "error")
    ensures |Successes(results)| + |Failures(results)| == |results|
  {
    if results != [] {
      SplitAccounts(results[..|results| - 1]);
    }
  }

  lemma LastCounted(results: seq<Dict>)
    requires results != []
    ensures var n := |results| - 1; multiset(results) == multiset(results[..n]) + multiset{results[n]}
  {
    var n := |results| - 1;
    assert results == results[..n] + [results[n]];
  }

  /** Every result is in one of the two lists, the one that its error says, as often as it occurs. */
  lemma {:induction false} SplitPartitions(results: seq<Dict>, d: Dict)
    ensures multiset(Failures(results))[d] == (if Has(d, "error") then multiset(results)[d] else 0)
    ensures multiset(Successes(results))[d] == (if Has(d, "error") then 0 else multiset(results)[d])
  {
    if results != [] {
      var n := |results| - 1;
      SplitPartitions(results[..n], d);
      LastCounted(results);
    }
  }

  /** Both lists keep the order of the results. */
  lemma {:induction false} SplitKeepsOrder(a: seq<Dict>, b: seq<Dict>)
    ensures Successes(a + b) == Successes(a) + Successes(b) && Failures(a + b) == Failures(a) + Failures(b)
  {
    if b == [] {
      assert a + b == a;
    } else {
      var n := |b| - 1;
      assert (a + b)[..|a + b| - 1] == a + b[..n];
      SplitKeepsOrder(a, b[..n]);
    }
  }
}
