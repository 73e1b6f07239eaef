/** Collecting a batch: one result per ticket, in input order, whatever each coroutine did. */
module Caller {
  import opened Records
  import opened Retry
  import opened Pipeline
  import opened PipelineInvariant
  import opened PipelineSafety

  const MESSAGE_LIMIT: nat := 500

  /** The text `"Type: message"`, cut to the limit. */
  function ErrorMessage(kind: string, detail: string): (m: string)
    ensures m != ""
  {
    var full := kind + ": " + detail;
    if |full| <= MESSAGE_LIMIT then full else full[..MESSAGE_LIMIT]
  }

  /** All of the text if it fits in 500 characters, and else its first 500. */
  lemma ErrorMessageIsCut(kind: string, detail: string)
    ensures var full, m := kind + ": " + detail, ErrorMessage(kind, detail);
            m <= full && (|full| <= 500 ==> m == full) && (|full| > 500 ==> |m| == 500)
  {
  }

  function Collected(ticket: string, raw: Raw): (d: Dict)
    ensures raw.Raised? ==> Has(d, "error") && !Has(d, "cache_hit")
  {
    match raw
    case Value(d) => d
    case Raised(kind, detail) => FailureResult(ticket, ErrorMessage(kind, detail))
  }

  function CollectedAll(tickets: seq<string>, raws: seq<Raw>): (out: seq<Dict>)
    requires |tickets| == |raws|
    ensures |out| == |tickets|
  {
    seq(|tickets|, i requires 0 <= i < |tickets| => Collected(tickets[i], raws[i]))
  }

  /** The gathered outcomes, exceptions included, become one result per ticket. */
  method ProcessBatch(tickets: seq<string>, gathered: seq<Raw>) returns (out: seq<Dict>)
    requires |tickets| == |gathered|
    ensures |out| == |tickets|
    ensures forall i :: 0 <= i < |out| ==> out[i] == Collected(tickets[i], gathered[i])
    ensures out == CollectedAll(tickets, gathered)
  {
    out := [];
    for i := 0 to |tickets|
      invariant |out| == i
      invariant forall j :: 0 <= j < i ==> out[j] == Collected(tickets[j], gathered[j])
    {
      match gathered[i] {
        case Raised(kind, detail) => out := out + [FailureResult(tickets[i], ErrorMessage(kind, detail))];
        case Value(d) => out := out + [d];
      }
    }
  }

  /** What the batch reports for one finished ticket of the machine. */
  function ReportOf(w: World, id: nat): Dict
    requires id < |w.tasks| && w.tasks[id].phase.Done?
  {
    Collected(w.tasks[id].ticket, w.tasks[id].phase.out)
  }

  /**
   Isolation: in every reachable world the report of a finished ticket is explained by that ticket
   alone.  It is the tagged first stored success of its normal form, or the tagged result of the
   sequential loop on its own outcomes, or a failure naming the exception; no other ticket's
   exception, cancellation or completion order enters.
   */
  lemma ReportIsItsOwn(c: Config, start: real, w: World, id: nat)
    requires ConfigOk(c) && Reachable(c, start, w) && id < |w.tasks| && w.tasks[id].phase.Done?
    ensures var t := w.tasks[id];
            match t.phase.origin
            case FromCache => exists i :: FirstWrite(c, w.writes, NormalForm(c, t.ticket), i)
                                          && ReportOf(w, id) == w.writes[i].1["cache_hit" := Boolean(true)]
            case FromCalls(raw) => Verdict(c, t.ticket, t.trail, raw)
                                   && ReportOf(w, id) == Collected(t.ticket, Tagged(raw, false))
            case Broken => Has(ReportOf(w, id), "error")
  {
    ReachableInv(c, start, w);
    assert TaskOk(c, w.tasks[id]);
    if w.tasks[id].phase.origin == FromCache {
      HitsAreFirstSuccess(c, start, w, id);
    }
  }

  /** The n tasks from `first` on are done. */
  predicate BatchDone(w: World, first: nat, n: nat) {
    first + n <= |w.tasks| && (forall i :: first <= i < first + n ==> w.tasks[i].phase.Done?)
  }

  /** What such a batch hands to the collecting loop. */
  function Gathered(w: World, first: nat, n: nat): (raws: seq<Raw>)
    requires BatchDone(w, first, n)
    ensures |raws| == n
  {
    seq(n, i requires 0 <= i < n => w.tasks[first + i].phase.out)
  }

  function TicketsFrom(w: World, first: nat, n: nat): (tickets: seq<string>)
    requires first + n <= |w.tasks|
    ensures |tickets| == n
  {
    seq(n, i requires 0 <= i < n => w.tasks[first + i].ticket)
  }

  /** The reports of n finished tasks, in the order in which their tickets came. */
  function ReportsFrom(w: World, first: nat, n: nat): (reports: seq<Dict>)
    requires BatchDone(w, first, n)
    ensures |reports| == n
  {
    seq(n, i requires 0 <= i < n => ReportOf(w, first + i))
  }

  lemma GatheredIsReported(w: World, first: nat, n: nat)
    requires BatchDone(w, first, n)
    ensures CollectedAll(TicketsFrom(w, first, n), Gathered(w, first, n)) == ReportsFrom(w, first, n)
  {
    var collected := CollectedAll(TicketsFrom(w, first, n), Gathered(w, first, n));
    forall i | 0 <= i < n
      ensures collected[i] == ReportsFrom(w, first, n)[i]
    {
      assert TicketsFrom(w, first, n)[i] == w.tasks[first + i].ticket;
      assert Gathered(w, first, n)[i] == w.tasks[first + i].phase.out;
      assert ReportsFrom(w, first, n)[i] == ReportOf(w, first + i);
    }
  }

  lemma JoinedInOrder(w: World, at: real, tickets: seq<string>)
    ensures |Joined(w, at, tickets).tasks| == |w.tasks| + |tickets|
    ensures TicketsFrom(Joined(w, at, tickets), |w.tasks|, |tickets|) == tickets
  {
  }

  lemma TicketsKept(v: World, w': World, first: nat, n: nat)
    requires |v.tasks| <= |w'.tasks| && (forall i :: 0 <= i < |v.tasks| ==> w'.tasks[i].ticket == v.tasks[i].ticket)
    requires first + n <= |v.tasks|
    ensures TicketsFrom(w', first, n) == TicketsFrom(v, first, n)
  {
  }

  lemma BatchKeepsPlaces(c: Config, w: World, at: real, tickets: seq<string>, run: seq<Event>, w': World)
    requires Leads(c, Joined(w, at, tickets), run, w')
    ensures |w.tasks| + |tickets| <= |w'.tasks| && TicketsFrom(w', |w.tasks|, |tickets|) == tickets
  {
    var v := Joined(w, at, tickets);
    RunKeepsTickets(c, v, run, w');
    JoinedInOrder(w, at, tickets);
    TicketsKept(v, w', |w.tasks|, |tickets|);
  }

  /** A batch submitted in a reachable world leads to reachable worlds only. */
  lemma BatchStaysReachable(c: Config, start: real, w: World, at: real, tickets: seq<string>, run: seq<Event>,
                            w': World)
    requires Reachable(c, start, w) && w.now <= at && Leads(c, Joined(w, at, tickets), run, w')
    ensures Reachable(c, start, w')
  {
    JoinedIsReachable(c, start, w, at, tickets);
    ReachableThen(c, start, Joined(w, at, tickets), run, w');
  }

  /**
   A batch submitted in any world, among any other work, in any interleaving and with any completion
   order: once its tickets are done, what is collected for it is the list of the reports of its own
   tasks, and these stand in the order of the input.
   */
  lemma BatchInInputOrder(c: Config, w: World, at: real, tickets: seq<string>, run: seq<Event>, w': World)
    requires Leads(c, Joined(w, at, tickets), run, w') && BatchDone(w', |w.tasks|, |tickets|)
    ensures TicketsFrom(w', |w.tasks|, |tickets|) == tickets
    ensures CollectedAll(tickets, Gathered(w', |w.tasks|, |tickets|)) == ReportsFrom(w', |w.tasks|, |tickets|)
  {
    BatchKeepsPlaces(c, w, at, tickets, run, w');
    GatheredIsReported(w', |w.tasks|, |tickets|);
  }

  /** A report is marked as a hit if and only if it comes from the cache. */
  lemma HitFlagIsOrigin(c: Config, start: real, w: World, id: nat)
    requires ConfigOk(c) && Reachable(c, start, w) && id < |w.tasks| && w.tasks[id].phase.Done?
    ensures Has(ReportOf(w, id), "cache_hit") <==> w.tasks[id].phase.origin == FromCache
  {
    ReachableTask(c, start, w, id);
    if w.tasks[id].phase.origin == FromCache {
      HitsAreStored(c, start, w, id);
    }
    FlagByOrigin(c, w.store, w.tasks[id]);
  }

  lemma FlagByOrigin(c: Config, store: map<string, Dict>, t: Task)
    requires TaskOk(c, t) && t.phase.Done? && HitOk(c, store, t)
    ensures Has(Collected(t.ticket, t.phase.out), "cache_hit") <==> t.phase.origin == FromCache
  {
  }

  /** Task `id` is done with this ticket and has handed back `raw`. */
  predicate HandedBack(w: World, id: nat, ticket: string, raw: Raw) {
    && id < |w.tasks| && w.tasks[id].phase.Done?
    && w.tasks[id].ticket == ticket && w.tasks[id].phase.out == raw
  }

  /** In every reachable world all stored results lack an error, and their counts can be added up. */
  lemma StoredAddUp(c: Config, start: real, w: World, key: string)
    requires ConfigOk(c) && Reachable(c, start, w) && key in w.store
    ensures Lacks(w.store[key], "error") && AddsUp(w.store[key])
  {
    ReachableInv(c, start, w);
    assert ExplainedBy(c, w.store, w.writes, key);
    var i :| FirstWrite(c, w.writes, key, i) && w.store[key] == w.writes[i].1;
    assert Storable(w.writes[i].1);
  }

  /** In every reachable world the report of every finished ticket has a count that can be added up. */
  lemma ReportsAddUp(c: Config, start: real, w: World, id: nat)
    requires ConfigOk(c) && Reachable(c, start, w) && id < |w.tasks| && w.tasks[id].phase.Done?
    ensures AddsUp(ReportOf(w, id))
  {
    ReachableTask(c, start, w, id);
    var t := w.tasks[id];
    match t.phase.origin
    case FromCache =>
      HitsAreStored(c, start, w, id);
      StoredAddUp(c, start, w, NormalForm(c, t.ticket));
    case FromCalls(raw) =>
      if raw.Value? {
        VerdictAddsUp(c, t.ticket, t.trail, raw);
      }
    case Broken =>
  }

  /** Only a ticket whose last answer was a JSON object can be reported without an error. */
  lemma SuccessNeedsAnAnswer(c: Config, start: real, w: World, id: nat)
    requires ConfigOk(c) && Reachable(c, start, w) && id < |w.tasks| && w.tasks[id].phase.Done?
    requires w.tasks[id].phase.origin != FromCache && !Has(ReportOf(w, id), "error")
    ensures var trail := w.tasks[id].trail;
            trail != [] && trail[|trail| - 1].Answered? && trail[|trail| - 1].body.Object?
  {
    ReachableTask(c, start, w, id);
    VerdictNeedsAnswer(c, w.tasks[id]);
  }

  lemma VerdictNeedsAnswer(c: Config, t: Task)
    requires TaskOk(c, t) && t.phase.Done? && t.phase.origin != FromCache
    requires !Has(Collected(t.ticket, t.phase.out), "error")
    ensures t.trail != [] && t.trail[|t.trail| - 1].Answered? && t.trail[|t.trail| - 1].body.Object?
  {
    var n := |t.trail|;
    assert t.phase.origin.FromCalls?;
    if Decisive(c.retry, n, t.trail[n - 1]) && t.trail[n - 1].Status? {
      DecimalNonEmpty(t.trail[n - 1].code);
    }
  }

  lemma DecimalNonEmpty(n: nat)
    ensures Decimal(n) != ""
  {
  }
}
